# GPX writer settings

A Dafny model of `GpxWriterSettings` from SpatialLite's GPS library: the
settings object a GPX writer is constructed with. It holds two configuration
properties, `WriteMetadata` (true by default) and `GeneratorName` (unset, that
is null, by default), and an `IsReadOnly` flag. Each property setter stores
its value only while the object is writable. Once the object has been marked
read-only through the internal `IsReadOnly` setter, a setter throws an
invalid-operation error and stores nothing.

The model has two modules:

- `GpxSettingsSpec` (settings_spec.dfy) states the behaviour on values. A
  `Settings` record is everything a caller can observe. `Step` is one setter
  call and `Run` is a sequence of calls by a caller that catches each failure
  and carries on. The lemmas about `Run` cover any sequence of calls: frozen
  objects never change, writable objects keep the last value assigned, and a
  property nobody assigns keeps its value.
- `GpxIO` (gpx_writer_settings.dfy) is the class itself. It has the three
  fields, a constructor, getters, the two guarded setters and `Freeze`. Each
  setter is proved to make exactly the transition `Step` describes, so the
  lemmas about `Run` apply to any series of calls on an object.

Modelling choices:

- The C# exception becomes a returned `Outcome`: `Pass`, or
  `Fail(InvalidOperation(p))`, where `p` names the property. The source's
  message also names the property.
- `GeneratorName` is a nullable C# string, so it is an `Option<string>`.
  `None` stands for null, and the setter accepts `None` too.
- `IsReadOnly` has a public getter and an internal setter. The setter's
  callers are not part of this model. The model offers only the change to
  true, through `Freeze`.

## Model

| member | source | states |
|---|---|---|
| GpxSettingsSpec.Defaults | src/SpatialLite.Gps/IO/GpxWriterSettings.cs:14-25 | a fresh object writes metadata, has no generator name and is not read-only |
| GpxSettingsSpec.Step | src/SpatialLite.Gps/IO/GpxWriterSettings.cs:34-61 | a setter call fails exactly when the object is read-only; a failure names the assigned property and changes nothing; a success stores the value; the other property and the read-only flag never change |
| GpxSettingsSpec.Run | src/SpatialLite.Gps/IO/GpxWriterSettings.cs:34-61 | a sequence of setter calls yields one outcome per call and never changes the read-only flag |
| GpxSettingsSpec.FrozenRunUnchanged | src/SpatialLite.Gps/IO/GpxWriterSettings.cs:38-60 | while read-only, no sequence of setter calls changes any state, and each call fails with an invalid-operation error naming its own property |
| GpxSettingsSpec.UnfrozenRunLastWriteWins | src/SpatialLite.Gps/IO/GpxWriterSettings.cs:34-61 | while writable, every setter call succeeds, and each property afterwards reads as the last value assigned to it, or its old value if it was never assigned |
| GpxSettingsSpec.RunLeavesUntargetedProperty | src/SpatialLite.Gps/IO/GpxWriterSettings.cs:38-60 | a property that no call in a sequence assigns keeps its value, frozen or not |
| GpxIO.GpxWriterSettings.constructor | src/SpatialLite.Gps/IO/GpxWriterSettings.cs:14-25 | the new object's state is the defaults: WriteMetadata true, GeneratorName null, not read-only |
| GpxIO.GpxWriterSettings.WriteMetadata | src/SpatialLite.Gps/IO/GpxWriterSettings.cs:35-37 | the getter returns the stored WriteMetadata value and changes nothing |
| GpxIO.GpxWriterSettings.GeneratorName | src/SpatialLite.Gps/IO/GpxWriterSettings.cs:51-53 | the getter returns the stored GeneratorName, possibly null, and changes nothing |
| GpxIO.GpxWriterSettings.IsReadOnly | src/SpatialLite.Gps/IO/GpxWriterSettings.cs:66 | the getter returns the read-only flag and changes nothing |
| GpxIO.GpxWriterSettings.SetWriteMetadata | src/SpatialLite.Gps/IO/GpxWriterSettings.cs:38-44 | the call makes the transition Step describes: it fails with an invalid-operation error for WriteMetadata and keeps the old value when read-only, and stores the value otherwise; GeneratorName and IsReadOnly are unchanged |
| GpxIO.GpxWriterSettings.SetGeneratorName | src/SpatialLite.Gps/IO/GpxWriterSettings.cs:54-60 | the call makes the transition Step describes: it fails with an invalid-operation error for GeneratorName and keeps the old value when read-only, and stores the value (null included) otherwise; WriteMetadata and IsReadOnly are unchanged |
| GpxIO.GpxWriterSettings.Freeze | src/SpatialLite.Gps/IO/GpxWriterSettings.cs:66 | the object becomes read-only and both properties keep their values |

## Left out

- GpxIO.GpxWriterSettings.Freeze: the internal `IsReadOnly` setter accepts any value, but the model can only set the flag to true. The setter is internal and its callers are not part of this model, so setting the flag back to false is not modelled.
- The exception's message text is not modelled. The error carries only the property it names.
- GpxIO.GpxWriterSettings.SetGeneratorName: a Dafny `string` holds Unicode scalar values, while a C# string holds UTF-16 code units and may contain unpaired surrogates. So the model can hold fewer generator names than the source can. The object only stores and returns the value, so no behaviour is lost.
- Reading the settings from several threads after freezing is not modelled, because concurrency is outside the model.
- The GPX writer, the WKB writer and the WKB writer's settings class are not part of this model. Neither is the WKB writer's test suite, which uses the same freeze-on-bind pattern.
