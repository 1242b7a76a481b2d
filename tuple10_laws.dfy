/** What the ten-slot tuple codec promises across several calls: the
    schema type it builds, the round trip from encode to decode, and the
    slot-9 extraction index of `decodeFromRawInternal`. */
module Tuple10Laws {
  import opened Runtime
  import opened Driver
  import opened Tuples
  import opened Properties
  import opened Tuple10Properties

  /** Two tuple properties build the same tuple type exactly when their
      components have the same types, slot by slot; the component fields
      and conversions play no part. */
  lemma BuildTypeStructural<A, B, C, D, E, F, G, H, I, J>(
    p: Tuple10Property<A, B, C, D, E, F, G, H, I, J>,
    q: Tuple10Property<A, B, C, D, E, F, G, H, I, J>)
    ensures BuildType(p) == BuildType(q) <==>
      forall k :: 0 <= k < 10 ==> ComponentsProperty(p)[k].buildType == ComponentsProperty(q)[k].buildType
  {
  }

  /** Once injected, an encoded tuple value declares component k with the
      type of the k-th component property: every cell carries the type its
      own slot's property builds. */
  lemma EncodedComponentTypes<A, B, C, D, E, F, G, H, I, J>(
    p: Tuple10Property<A, B, C, D, E, F, G, H, I, J>,
    t: Tuple10<A, B, C, D, E, F, G, H, I, J>)
    requires Injected(p)
    ensures var v := EncodeFromJava(p, t);
      |v.tupleType.componentTypes| == |v.cells| == 10 &&
      forall k :: 0 <= k < 10 ==> v.tupleType.componentTypes[k] == ComponentsProperty(p)[k].buildType
  {
  }

  /** As written, decoding an encoding gives back slots 1 to 8 and 10, and
      fills slot 9 with what `iProperty` decodes from cell 7 (slot 8's
      encoding), which is read only when slots 8 and 9 have the same type. */
  lemma DecodeEncodeAsWritten<A, B, C, D, E, F, G, H, I, J>(
    p: Tuple10Property<A, B, C, D, E, F, G, H, I, J>,
    t: Tuple10<A, B, C, D, E, F, G, H, I, J>)
    requires Injected(p)
    requires RoundTripsAt(p.aProperty, t.v1) && RoundTripsAt(p.bProperty, t.v2)
    requires RoundTripsAt(p.cProperty, t.v3) && RoundTripsAt(p.dProperty, t.v4)
    requires RoundTripsAt(p.eProperty, t.v5) && RoundTripsAt(p.fProperty, t.v6)
    requires RoundTripsAt(p.gProperty, t.v7) && RoundTripsAt(p.hProperty, t.v8)
    requires RoundTripsAt(p.jProperty, t.v10)
    ensures var r := DecodeFromRaw(p, Instance(EncodeFromJava(p, t)));
      var ninth := p.iProperty.decodeFromRaw(p.hProperty.encodeFromRaw(t.v8));
      && (r.Success? <==> p.hProperty.buildType == p.iProperty.buildType && ninth.Success?)
      && (r.Success? ==> ninth == Success(r.value.v9) && r.value == t.(v9 := r.value.v9))
  {

  }

  /** As written, decoding an encoding gives back the whole tuple exactly
      when slot 8's type is slot 9's and `iProperty` decodes slot 8's
      encoding to slot 9's value. */
  lemma RoundTripAsWrittenIff<A, B, C, D, E, F, G, H, I, J>(
    p: Tuple10Property<A, B, C, D, E, F, G, H, I, J>,
    t: Tuple10<A, B, C, D, E, F, G, H, I, J>)
    requires Injected(p)
    requires RoundTripsAt(p.aProperty, t.v1) && RoundTripsAt(p.bProperty, t.v2)
    requires RoundTripsAt(p.cProperty, t.v3) && RoundTripsAt(p.dProperty, t.v4)
    requires RoundTripsAt(p.eProperty, t.v5) && RoundTripsAt(p.fProperty, t.v6)
    requires RoundTripsAt(p.gProperty, t.v7) && RoundTripsAt(p.hProperty, t.v8)
    requires RoundTripsAt(p.jProperty, t.v10)
    ensures DecodeFromRaw(p, Instance(EncodeFromJava(p, t))) == Success(t) <==>
      && p.hProperty.buildType == p.iProperty.buildType
      && p.iProperty.decodeFromRaw(p.hProperty.encodeFromRaw(t.v8)) == Success(t.v9)
  {

  }

  /** As written, the round trip still holds when slots 8 and 9 have the same
      type and the same encoded cell. */
  lemma RoundTripWhenEighthAndNinthCellsCoincide<A, B, C, D, E, F, G, H, I, J>(
    p: Tuple10Property<A, B, C, D, E, F, G, H, I, J>,
    t: Tuple10<A, B, C, D, E, F, G, H, I, J>)
    requires Injected(p)
    requires RoundTripsAt(p.aProperty, t.v1) && RoundTripsAt(p.bProperty, t.v2)
    requires RoundTripsAt(p.cProperty, t.v3) && RoundTripsAt(p.dProperty, t.v4)
    requires RoundTripsAt(p.eProperty, t.v5) && RoundTripsAt(p.fProperty, t.v6)
    requires RoundTripsAt(p.gProperty, t.v7) && RoundTripsAt(p.hProperty, t.v8)
    requires RoundTripsAt(p.iProperty, t.v9) && RoundTripsAt(p.jProperty, t.v10)
    requires p.hProperty.buildType == p.iProperty.buildType
    requires p.hProperty.encodeFromRaw(t.v8) == p.iProperty.encodeFromRaw(t.v9)
    ensures DecodeFromRaw(p, Instance(EncodeFromJava(p, t))) == Success(t)
  {

  }

  /** An `int` column codec: writes an `Int` cell, reads back only `Int` cells. */
  function IntProperty(name: string): Property<int> {
    Property(FieldInfo(name, name), Native("int"), (x: int) => Int(x),
             (c: Cell) => if c.Int? then Success(c.n) else Failure(InvalidCell("not an int")))
  }

  /** A tuple property over ten `int` slots, with its tuple type injected. */
  function IntTuple10Property(): Tuple10Property<int, int, int, int, int, int, int, int, int, int> {
    var ints := Native("int");
    Tuple10Property(FieldInfo("tuple10", "tuple10"),
      IntProperty("a"), IntProperty("b"), IntProperty("c"), IntProperty("d"), IntProperty("e"),
      IntProperty("f"), IntProperty("g"), IntProperty("h"), IntProperty("i"), IntProperty("j"),
      TupleType([ints, ints, ints, ints, ints, ints, ints, ints, ints, ints]))
  }

  /** The slot-9 defect on a concrete input: the ten-`int` tuple (1, ..., 10)
      is encoded and decoded back, as written, as (1, ..., 8, 8, 10). */
  lemma NinthSlotReadsEighthCell()
    ensures var p := IntTuple10Property();
      var t := Tuple10(1, 2, 3, 4, 5, 6, 7, 8, 9, 10);
      && Injected(p)
      && DecodeFromRaw(p, Instance(EncodeFromJava(p, t))) == Success(Tuple10(1, 2, 3, 4, 5, 6, 7, 8, 8, 10))
      && DecodeFromRaw(p, Instance(EncodeFromJava(p, t))) != Success(t)
  {

  }

  /** The round-trip law fails as written, although every component
      property of the ten-`int` tuple property round-trips on every value. */
  lemma RoundTripLawFailsAsWritten()
    ensures var p := IntTuple10Property();
      && Injected(p)
      && (forall x: int, name: string :: RoundTripsAt(IntProperty(name), x))
      && !(forall t :: DecodeFromRaw(p, Instance(EncodeFromJava(p, t))) == Success(t))
  {
    NinthSlotReadsEighthCell();
  }

  /** With slot 9 extracted at position 8, decoding an encoding gives back
      the whole tuple whenever every component property round-trips. */
  lemma RoundTripCorrected<A, B, C, D, E, F, G, H, I, J>(
    p: Tuple10Property<A, B, C, D, E, F, G, H, I, J>,
    t: Tuple10<A, B, C, D, E, F, G, H, I, J>)
    requires Injected(p)
    requires RoundTripsAt(p.aProperty, t.v1) && RoundTripsAt(p.bProperty, t.v2)
    requires RoundTripsAt(p.cProperty, t.v3) && RoundTripsAt(p.dProperty, t.v4)
    requires RoundTripsAt(p.eProperty, t.v5) && RoundTripsAt(p.fProperty, t.v6)
    requires RoundTripsAt(p.gProperty, t.v7) && RoundTripsAt(p.hProperty, t.v8)
    requires RoundTripsAt(p.iProperty, t.v9) && RoundTripsAt(p.jProperty, t.v10)
    ensures DecodeFromRawCorrected(p, Instance(EncodeFromJava(p, t))) == Success(t)
  {

  }

  /** With slot 9 extracted at position 8, the round-trip law holds for
      every tuple of the ten-`int` tuple property. */
  lemma RoundTripLawHoldsCorrected()
    ensures var p := IntTuple10Property();
      forall t :: DecodeFromRawCorrected(p, Instance(EncodeFromJava(p, t))) == Success(t)
  {

  }

  /** A tuple value written to the property's column and read back from the
      row, as the mapper does on insert and find, comes back unchanged
      exactly when slot 9 survives being read from cell 7. */
  lemma ReadAfterWrite<A, B, C, D, E, F, G, H, I, J>(
    p: Tuple10Property<A, B, C, D, E, F, G, H, I, J>,
    row: GettableData,
    t: Tuple10<A, B, C, D, E, F, G, H, I, J>)
    requires Injected(p)
    requires RoundTripsAt(p.aProperty, t.v1) && RoundTripsAt(p.bProperty, t.v2)
    requires RoundTripsAt(p.cProperty, t.v3) && RoundTripsAt(p.dProperty, t.v4)
    requires RoundTripsAt(p.eProperty, t.v5) && RoundTripsAt(p.fProperty, t.v6)
    requires RoundTripsAt(p.gProperty, t.v7) && RoundTripsAt(p.hProperty, t.v8)
    requires RoundTripsAt(p.jProperty, t.v10)
    ensures var written := row[p.fieldInfo.quotedCqlColumn := EncodeFromJava(p, t)];
      DecodeFromGettable(p, written) == Success(t) <==>
        && p.hProperty.buildType == p.iProperty.buildType
        && p.iProperty.decodeFromRaw(p.hProperty.encodeFromRaw(t.v8)) == Success(t.v9)
  {

  }

  /** A tuple value with fewer than ten cells, or a tuple property whose
      tuple type has fewer than ten components, is never decoded. */
  lemma ShortTupleRejected<A, B, C, D, E, F, G, H, I, J>(
    p: Tuple10Property<A, B, C, D, E, F, G, H, I, J>, v: TupleValue)
    requires |v.cells| < 10 || |p.tupleType.componentTypes| < 10
    ensures DecodeFromRaw(p, Instance(v)).Failure?
    ensures DecodeFromRawCorrected(p, Instance(v)).Failure?
  {
  }

  /** Cells and component types beyond the tenth are never read: a tuple
      value that decodes decodes to the same tuple once extended. */
  lemma ExtraComponentsIgnored<A, B, C, D, E, F, G, H, I, J>(
    p: Tuple10Property<A, B, C, D, E, F, G, H, I, J>, v: TupleValue, w: TupleValue)
    requires v.cells <= w.cells
    requires v.tupleType.componentTypes <= w.tupleType.componentTypes
    requires DecodeFromRaw(p, Instance(v)).Success?
    ensures DecodeFromRaw(p, Instance(w)) == DecodeFromRaw(p, Instance(v))
  {

  }
}
