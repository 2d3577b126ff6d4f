/**
 * The settings object a GPX writer is constructed with. Its two properties
 * can be assigned while the object is writable; once the writer has made it
 * read-only, every assignment fails with an invalid-operation error.
 */
module GpxIO {
  import opened GpxSettingsSpec

  class GpxWriterSettings {
    var writeMetadata: bool
    var generatorName: Option<string>
    var isReadOnly: bool

    /** The object's observable state, as the value that module GpxSettingsSpec reasons about. */
    ghost function State(): Settings
      reads this
    {
      Settings(writeMetadata, generatorName, isReadOnly)
    }

    /** A new object writes metadata, has no generator name and is writable. */
    constructor ()
      ensures State() == Defaults()
      ensures writeMetadata && generatorName == None && !isReadOnly
    {
      writeMetadata := true;
      generatorName := None;
      isReadOnly := false;
    }

    /** Whether the writer should write entity metadata. */
    function WriteMetadata(): (r: bool)
      reads this
      ensures r == State().writeMetadata
    {
      writeMetadata
    }

    /** The name of the program recorded in the output; `None` when unset. */
    function GeneratorName(): (r: Option<string>)
      reads this
      ensures r == State().generatorName
    {
      generatorName
    }

    /** Whether the properties can no longer be changed. */
    function IsReadOnly(): (r: bool)
      reads this
      ensures r == State().isReadOnly
    {
      isReadOnly
    }

    /** Assigns `WriteMetadata` unless the object is read-only. */
    method SetWriteMetadata(value: bool) returns (outcome: Outcome)
      modifies this
      ensures outcome == Step(old(State()), Op.SetWriteMetadata(value)).outcome
      ensures State() == Step(old(State()), Op.SetWriteMetadata(value)).after
      ensures outcome.Fail? <==> old(isReadOnly)
      ensures outcome.Fail? ==> outcome.error == InvalidOperation(WriteMetadataProperty)
      ensures writeMetadata == if old(isReadOnly) then old(writeMetadata) else value
      ensures generatorName == old(generatorName) && isReadOnly == old(isReadOnly)
    {
      if isReadOnly {
        return Fail(InvalidOperation(WriteMetadataProperty));
      }
      writeMetadata := value;
      return Pass;
    }

    /** Assigns `GeneratorName` (possibly to null) unless the object is read-only. */
    method SetGeneratorName(value: Option<string>) returns (outcome: Outcome)
      modifies this
      ensures outcome == Step(old(State()), Op.SetGeneratorName(value)).outcome
      ensures State() == Step(old(State()), Op.SetGeneratorName(value)).after
      ensures outcome.Fail? <==> old(isReadOnly)
      ensures outcome.Fail? ==> outcome.error == InvalidOperation(GeneratorNameProperty)
      ensures generatorName == if old(isReadOnly) then old(generatorName) else value
      ensures writeMetadata == old(writeMetadata) && isReadOnly == old(isReadOnly)
    {
      if isReadOnly {
        return Fail(InvalidOperation(GeneratorNameProperty));
      }
      generatorName := value;
      return Pass;
    }

    /** Makes the object read-only: the internal `IsReadOnly` setter assigning true. */
    method Freeze()
      modifies this
      ensures State() == old(State()).(isReadOnly := true)
    {
      isReadOnly := true;
    }
  }
}
