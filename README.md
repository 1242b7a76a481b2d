# Ten-slot tuple codec of the Achilles object mapper

This project models `Tuple10Property`, the Achilles metamodel property that maps
a field of type `Tuple10<A, ..., J>` to a CQL tuple column and back. The
property owns ten component properties, `aProperty` for slot 1 through
`jProperty` for slot 10. It offers four things:

- encoding: each slot is encoded by its own component property, and the ten
  cells are put into a tuple value of the property's tuple type in slot order;
- a checked entry point that encodes an untyped object only if it is a `Tuple10`;
- decoding: an untyped object is decoded only if it is a driver `TupleValue`;
  each slot is read with `extractType`, checked against the matching component
  type of the property's tuple type, and decoded by its component property;
- the schema type (`buildType`) and the ordered list of component properties.

Modules, leaf first:

- `Runtime` (`runtime.dfy`): the failure values (`Result`, `Error`) that stand
  for the Java exceptions, and `JavaObject`, an untyped argument that is either
  an instance of the expected class or an object of some other class.
- `Driver` (`driver.dfy`): the CQL driver as the codec sees it. A `TupleValue`
  pairs its `TupleType` (a sequence of component `DataType`s) with one `Cell`
  per component. `ExtractType` reads a component and refuses an index the value
  has no component for, or a component declared with another type.
- `Tuples` (`tuples.dfy`): `Tuple10`, with fields `v1` to `v10` for the Java
  `_1()` to `_10()`.
- `Properties` (`properties.dfy`): a component property, given by its field, its
  CQL type (`buildType`) and its two conversions (`encodeFromRaw`,
  `decodeFromRaw`). `RoundTripsAt(p, x)` says `p` decodes its own encoding of `x`
  back to `x`.
- `Tuple10Properties` (`tuple10_property.dfy`): the property itself and its
  operations. `DecodeTuple` is the decode body with the cell index of slot 9 as
  a parameter. `DecodeFromRaw` passes 7, as the source does. `DecodeFromRawCorrected`
  passes 8.
- `Tuple10Laws` (`tuple10_laws.dfy`): the schema type, the round trip and the
  slot-9 defect, stated over all properties and tuples, plus a concrete ten-`int`
  instance.

The superclass fills in the property's `tupleType` field, which is not shown
here. The model keeps it as a field of `Tuple10Property`. `Injected(p)` states
that it equals `BuildType(p)`, as it does once the property is set up.

Three behaviours of the code are worth knowing, and the model keeps them:

- Line 123 reads slot 9 at position 7, not 8, which breaks the round trip
  (`NinthSlotReadsEighthCell`). `DecodeFromRaw` reproduces line 123, and
  `DecodeFromRawCorrected` reads position 8.
- A tuple value with fewer than ten components is refused
  (`ShortTupleRejected`), but one with more than ten is accepted: nothing past
  the tenth is read, so it decodes like its first ten components
  (`ExtraComponentsIgnored`).
- A component's exception passes through unchanged, without the slot position.
  The model returns the error of the first failing slot as it is.

## Model

| member | source | states |
|---|---|---|
| Tuple10Properties.EncodeFromJava | achilles-core/src/main/java/info/archinnov/achilles/internals/metamodel/Tuple10Property.java:74-84 | the result has the property's tuple type and exactly ten cells; cell k is slot k+1 encoded by its own component property, with no reordering |
| Tuple10Properties.EncodeFromRaw | achilles-core/src/main/java/info/archinnov/achilles/internals/metamodel/Tuple10Property.java:93-94 | succeeds exactly when the object is a `Tuple10`, and then equals `EncodeFromJava` of it; any other object fails validation naming the `Tuple10` class |
| Tuple10Properties.DecodeSlot | achilles-core/src/main/java/info/archinnov/achilles/internals/metamodel/Tuple10Property.java:115 | one slot of the decode succeeds exactly when the type index is within the property's types, the cell index is within the tuple value, the value declares that cell with the expected type and the component decodes it; the result is that decoded value |
| Tuple10Properties.DecodeTuple | achilles-core/src/main/java/info/archinnov/achilles/internals/metamodel/Tuple10Property.java:113-124 | the decode succeeds exactly when all ten slots can be decoded, and then slot k+1 is what its property decodes from cell k checked against type k (slot 9 from the given cell); there is never a partial tuple |
| Tuple10Properties.DecodeFromRaw | achilles-core/src/main/java/info/archinnov/achilles/internals/metamodel/Tuple10Property.java:112-124 | an object that is not a `TupleValue` fails validation naming `TupleValue`; a tuple value decodes exactly when every slot decodes, with slot 9 read from cell 7 but checked against component type 8 |
| Tuple10Properties.DecodeFromRawCorrected | achilles-core/src/main/java/info/archinnov/achilles/internals/metamodel/Tuple10Property.java:112-124 | as `DecodeFromRaw`, with slot 9 read from cell 8 like every other slot from its own cell |
| Tuple10Properties.DecodeFromGettable | achilles-core/src/main/java/info/archinnov/achilles/internals/metamodel/Tuple10Property.java:103 | a row without the property's quoted column fails; otherwise the result is `DecodeFromRaw` of the tuple value in that column |
| Tuple10Properties.BuildType | achilles-core/src/main/java/info/archinnov/achilles/internals/metamodel/Tuple10Property.java:133-143 | the tuple type has ten components, and component k is the type of the k-th entry of `ComponentsProperty` |
| Tuple10Properties.ComponentsProperty | achilles-core/src/main/java/info/archinnov/achilles/internals/metamodel/Tuple10Property.java:148 | ten entries, entry k being the view (field and CQL type, without the two conversions) of the component property of slot k+1, `aProperty` to `jProperty` in declaration order |
| Tuple10Laws.BuildTypeStructural | achilles-core/src/main/java/info/archinnov/achilles/internals/metamodel/Tuple10Property.java:133-143 | two tuple properties build equal tuple types exactly when their ten component types are equal, slot by slot |
| Tuple10Laws.EncodedComponentTypes | achilles-core/src/main/java/info/archinnov/achilles/internals/metamodel/Tuple10Property.java:74-84 | once injected, an encoded tuple value has ten cells and declares component k with the type of the k-th component property |
| Tuple10Laws.DecodeEncodeAsWritten | achilles-core/src/main/java/info/archinnov/achilles/internals/metamodel/Tuple10Property.java:114-124 | when slots 1-8 and 10 round-trip, decoding an encoding succeeds exactly when slots 8 and 9 have the same type and `iProperty` decodes slot 8's cell; the result then equals the input on every slot but 9, and its slot 9 is `iProperty`'s decoding of slot 8's cell |
| Tuple10Laws.RoundTripAsWrittenIff | achilles-core/src/main/java/info/archinnov/achilles/internals/metamodel/Tuple10Property.java:123 | decoding an encoding gives back the whole tuple exactly when slots 8 and 9 have the same type and `iProperty` decodes slot 8's cell to slot 9's value |
| Tuple10Laws.RoundTripWhenEighthAndNinthCellsCoincide | achilles-core/src/main/java/info/archinnov/achilles/internals/metamodel/Tuple10Property.java:122-123 | with every slot round-tripping, the whole tuple comes back when slots 8 and 9 have the same type and the same encoded cell |
| Tuple10Laws.NinthSlotReadsEighthCell | achilles-core/src/main/java/info/archinnov/achilles/internals/metamodel/Tuple10Property.java:123 | for ten `int` slots, the tuple (1, ..., 10) decodes back as (1, ..., 8, 8, 10) |
| Tuple10Laws.RoundTripLawFailsAsWritten | achilles-core/src/main/java/info/archinnov/achilles/internals/metamodel/Tuple10Property.java:123 | for ten `int` slots, every component round-trips on every value, yet some tuple does not survive encoding and decoding |
| Tuple10Laws.RoundTripCorrected | achilles-core/src/main/java/info/archinnov/achilles/internals/metamodel/Tuple10Property.java:114-124 | with slot 9 read at position 8, decoding an encoding gives back the whole tuple whenever every component round-trips on its slot |
| Tuple10Laws.RoundTripLawHoldsCorrected | achilles-core/src/main/java/info/archinnov/achilles/internals/metamodel/Tuple10Property.java:114-124 | for ten `int` slots, the corrected decode gives back every tuple |
| Tuple10Laws.ReadAfterWrite | integration-test/src/test/java/info/archinnov/achilles/it/TestEntityWithComplexTypes.java:212-214 | a tuple written to the property's column and read back from the row comes back unchanged exactly when slot 9 survives being read from slot 8's cell |
| Tuple10Laws.ShortTupleRejected | achilles-core/src/main/java/info/archinnov/achilles/internals/metamodel/Tuple10Property.java:113-124 | a tuple value with fewer than ten cells, or a property type with fewer than ten components, fails to decode, as written and corrected |
| Tuple10Laws.ExtraComponentsIgnored | achilles-core/src/main/java/info/archinnov/achilles/internals/metamodel/Tuple10Property.java:113-124 | a tuple value that decodes decodes to the same tuple when extended with more cells and component types |

## Findings

| source | as written | input that shows it | evidently intended | confidence | as-written member | corrected member |
|---|---|---|---|---|---|---|
| achilles-core/src/main/java/info/archinnov/achilles/internals/metamodel/Tuple10Property.java:123 | slot 9 (`iProperty`) is extracted at position 7 while being checked against component type 8 | ten `int` component properties and the tuple (1, 2, 3, 4, 5, 6, 7, 8, 9, 10): encoding and decoding gives (1, 2, 3, 4, 5, 6, 7, 8, 8, 10) | extract slot 9 at position 8, so that decoding is the slot-wise inverse of encoding | high (proved on the model; not executed) | Tuple10Laws.NinthSlotReadsEighthCell | Tuple10Laws.RoundTripCorrected |

The class's entry points (`DecodeFromRaw`, `DecodeFromGettable`) keep the
position 7 of the code, since they model the code as written.
`DecodeFromRawCorrected` is the intended decode, and the round-trip law is proved
for it.

## Left out

- Logging (lines 70-72, 89-91, 99-101, 108-110, 129-131): it has no effect on any result.
- Constructor (lines 53-66): it only stores its arguments, so the datatype constructor `Tuple10Properties.Tuple10Property` stands for it. The `TypeToken` it passes to the superclass (lines 54-55) is Java type machinery with no counterpart in the model.
- The superclasses `AbstractTupleProperty` and `AbstractProperty` are not part of this model. Their public wrappers (`encodeFromJava`, `decodeFromRaw`), their null handling and the setup that fills in `tupleType` are left out. The model calls the internal methods directly, and `Injected` states the outcome of the setup.
- The component property classes are not part of this model. Each component is given only by its field, its type and its two conversions. A component's encoding never fails in the model.
- Driver internals are left out: the serialization done by `newValue`, its own checks, and the codec that `extractType` looks up from the property's Java type. The model keeps only the checks the decode relies on: the index is in range and the component is declared with the expected type.
- Java generics are erased at run time, so a `Tuple10` with components of the wrong classes passes the check at line 93 and fails later in the component's own encode. In the model, a `JavaObject<Tuple10<...>>` instance always has the right component types.
- Tuple10Properties.ComponentsProperty: each entry is a view of the component property (its field and CQL type) without its two conversions, because a Dafny `seq` cannot hold components of different value types.
- `null` values, for the whole tuple or for a single slot, are not modelled.
- The other arities (`Tuple1Property` to `Tuple9Property`) are not part of this model.
