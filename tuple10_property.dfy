/** `Tuple10Property`: the codec between a ten-slot application tuple and a
    CQL tuple value.

    It owns one component property per slot, `aProperty` for slot 1 through
    `jProperty` for slot 10, and always visits them in that order: cell k of
    an encoded tuple value comes from slot k + 1, and decoding reads slot
    k + 1 back from cell k (except for slot 9, see `DecodeFromRaw`). */
module Tuple10Properties {
  import opened Runtime
  import opened Driver
  import opened Tuples
  import opened Properties

  /** The class name `encodeFromRawInternal` demands. */
  const Tuple10ClassName := "info.archinnov.achilles.type.tuples.Tuple10"
  /** The class name `decodeFromRawInternal` demands. */
  const TupleValueClassName := "com.datastax.driver.core.TupleValue"

  /** The property's final fields, and the tuple type that the enclosing
      tuple property holds (`tupleType`, filled in by its superclass). */
  datatype Tuple10Property<!A, !B, !C, !D, !E, !F, !G, !H, !I, !J> = Tuple10Property(
    fieldInfo: FieldInfo,
    aProperty: Property<A>,
    bProperty: Property<B>,
    cProperty: Property<C>,
    dProperty: Property<D>,
    eProperty: Property<E>,
    fProperty: Property<F>,
    gProperty: Property<G>,
    hProperty: Property<H>,
    iProperty: Property<I>,
    jProperty: Property<J>,
    tupleType: TupleType)

  /** `componentsProperty`: the ten component properties, in slot order. */
  function ComponentsProperty<A, B, C, D, E, F, G, H, I, J>(
    p: Tuple10Property<A, B, C, D, E, F, G, H, I, J>): (cs: seq<ComponentView>)
    ensures |cs| == 10
    ensures cs[0] == View(p.aProperty) && cs[1] == View(p.bProperty)
    ensures cs[2] == View(p.cProperty) && cs[3] == View(p.dProperty)
    ensures cs[4] == View(p.eProperty) && cs[5] == View(p.fProperty)
    ensures cs[6] == View(p.gProperty) && cs[7] == View(p.hProperty)
    ensures cs[8] == View(p.iProperty) && cs[9] == View(p.jProperty)
  {
    [View(p.aProperty), View(p.bProperty), View(p.cProperty), View(p.dProperty),
     View(p.eProperty), View(p.fProperty), View(p.gProperty), View(p.hProperty),
     View(p.iProperty), View(p.jProperty)]
  }

  /** `buildType`: the tuple type whose k-th component is the type of the
      k-th component property. */
  function BuildType<A, B, C, D, E, F, G, H, I, J>(
    p: Tuple10Property<A, B, C, D, E, F, G, H, I, J>): (t: TupleType)
    ensures |t.componentTypes| == 10
    ensures forall k :: 0 <= k < 10 ==> t.componentTypes[k] == ComponentsProperty(p)[k].buildType
  {
    TypeFor([p.aProperty.buildType, p.bProperty.buildType, p.cProperty.buildType,
             p.dProperty.buildType, p.eProperty.buildType, p.fProperty.buildType,
             p.gProperty.buildType, p.hProperty.buildType, p.iProperty.buildType,
             p.jProperty.buildType])
  }

  /** The property's tuple type is the one `BuildType` describes, as it is
      once the tuple property has been set up. */
  ghost predicate Injected<A, B, C, D, E, F, G, H, I, J>(
    p: Tuple10Property<A, B, C, D, E, F, G, H, I, J>)
  {
    p.tupleType == BuildType(p)
  }

  /** `encodeFromJavaInternal`: a tuple value of the property's tuple type
      whose cell k is slot k + 1 encoded by its own component property. */
  function EncodeFromJava<A, B, C, D, E, F, G, H, I, J>(
    p: Tuple10Property<A, B, C, D, E, F, G, H, I, J>,
    t: Tuple10<A, B, C, D, E, F, G, H, I, J>): (v: TupleValue)
    ensures v.tupleType == p.tupleType
    ensures |v.cells| == 10
    ensures v.cells[0] == p.aProperty.encodeFromRaw(t.v1)
    ensures v.cells[1] == p.bProperty.encodeFromRaw(t.v2)
    ensures v.cells[2] == p.cProperty.encodeFromRaw(t.v3)
    ensures v.cells[3] == p.dProperty.encodeFromRaw(t.v4)
    ensures v.cells[4] == p.eProperty.encodeFromRaw(t.v5)
    ensures v.cells[5] == p.fProperty.encodeFromRaw(t.v6)
    ensures v.cells[6] == p.gProperty.encodeFromRaw(t.v7)
    ensures v.cells[7] == p.hProperty.encodeFromRaw(t.v8)
    ensures v.cells[8] == p.iProperty.encodeFromRaw(t.v9)
    ensures v.cells[9] == p.jProperty.encodeFromRaw(t.v10)
  {
    NewValue(p.tupleType,
      [p.aProperty.encodeFromRaw(t.v1), p.bProperty.encodeFromRaw(t.v2),
       p.cProperty.encodeFromRaw(t.v3), p.dProperty.encodeFromRaw(t.v4),
       p.eProperty.encodeFromRaw(t.v5), p.fProperty.encodeFromRaw(t.v6),
       p.gProperty.encodeFromRaw(t.v7), p.hProperty.encodeFromRaw(t.v8),
       p.iProperty.encodeFromRaw(t.v9), p.jProperty.encodeFromRaw(t.v10)])
  }

  /** `encodeFromRawInternal`: only a `Tuple10` is encoded, exactly as
      `EncodeFromJava` encodes it; any other object is refused. */
  function EncodeFromRaw<A, B, C, D, E, F, G, H, I, J>(
    p: Tuple10Property<A, B, C, D, E, F, G, H, I, J>,
    o: JavaObject<Tuple10<A, B, C, D, E, F, G, H, I, J>>): (r: Result<TupleValue>)
    ensures r.Success? <==> o.Instance?
    ensures o.Instance? ==> r == Success(EncodeFromJava(p, o.value))
    ensures o.Foreign? ==> r == Failure(NotAssignable(Tuple10ClassName, o.className))
  {
    match o
    case Instance(t) => Success(EncodeFromJava(p, t))
    case Foreign(className) => Failure(NotAssignable(Tuple10ClassName, className))
  }

  /** Component `prop` decodes `x` from cell `cellIndex` of `v`, which `v`
      declares with the type at `typeIndex` of the expected `types`. */
  ghost predicate SlotDecodesTo<V>(prop: Property<V>, v: TupleValue, types: seq<DataType>,
                                   typeIndex: nat, cellIndex: nat, x: V)
  {
    && typeIndex < |types|
    && cellIndex < |v.cells| && cellIndex < |v.tupleType.componentTypes|
    && v.tupleType.componentTypes[cellIndex] == types[typeIndex]
    && prop.decodeFromRaw(v.cells[cellIndex]) == Success(x)
  }

  /** Component `prop` can decode cell `cellIndex` of `v` checked against the
      type at `typeIndex` of `types`. */
  ghost predicate SlotDecodable<V>(prop: Property<V>, v: TupleValue, types: seq<DataType>,
                                   typeIndex: nat, cellIndex: nat)
  {
    && typeIndex < |types|
    && cellIndex < |v.cells| && cellIndex < |v.tupleType.componentTypes|
    && v.tupleType.componentTypes[cellIndex] == types[typeIndex]
    && prop.decodeFromRaw(v.cells[cellIndex]).Success?
  }

  /** Decoding `v` gives `t`: slot k + 1 comes from cell k checked against
      component type k of the property's tuple type, except that slot 9 is
      read from cell `ninthCell`. */
  ghost predicate DecodesTo<A, B, C, D, E, F, G, H, I, J>(
    p: Tuple10Property<A, B, C, D, E, F, G, H, I, J>, v: TupleValue, ninthCell: nat,
    t: Tuple10<A, B, C, D, E, F, G, H, I, J>)
  {
    var types := p.tupleType.componentTypes;
    && SlotDecodesTo(p.aProperty, v, types, 0, 0, t.v1)
    && SlotDecodesTo(p.bProperty, v, types, 1, 1, t.v2)
    && SlotDecodesTo(p.cProperty, v, types, 2, 2, t.v3)
    && SlotDecodesTo(p.dProperty, v, types, 3, 3, t.v4)
    && SlotDecodesTo(p.eProperty, v, types, 4, 4, t.v5)
    && SlotDecodesTo(p.fProperty, v, types, 5, 5, t.v6)
    && SlotDecodesTo(p.gProperty, v, types, 6, 6, t.v7)
    && SlotDecodesTo(p.hProperty, v, types, 7, 7, t.v8)
    && SlotDecodesTo(p.iProperty, v, types, 8, ninthCell, t.v9)
    && SlotDecodesTo(p.jProperty, v, types, 9, 9, t.v10)
  }

  /** Every slot of `v` can be decoded, slot 9 from cell `ninthCell`. */
  ghost predicate Decodable<A, B, C, D, E, F, G, H, I, J>(
    p: Tuple10Property<A, B, C, D, E, F, G, H, I, J>, v: TupleValue, ninthCell: nat)
  {
    var types := p.tupleType.componentTypes;
    && SlotDecodable(p.aProperty, v, types, 0, 0)
    && SlotDecodable(p.bProperty, v, types, 1, 1)
    && SlotDecodable(p.cProperty, v, types, 2, 2)
    && SlotDecodable(p.dProperty, v, types, 3, 3)
    && SlotDecodable(p.eProperty, v, types, 4, 4)
    && SlotDecodable(p.fProperty, v, types, 5, 5)
    && SlotDecodable(p.gProperty, v, types, 6, 6)
    && SlotDecodable(p.hProperty, v, types, 7, 7)
    && SlotDecodable(p.iProperty, v, types, 8, ninthCell)
    && SlotDecodable(p.jProperty, v, types, 9, 9)
  }

  /** One argument of the `new Tuple10<>(...)` in `decodeFromRawInternal`:
      `types.get(typeIndex)`, then `extractType` at `cellIndex`, then the
      component's `decodeFromRaw`, each failure ending the decode. */
  function DecodeSlot<V>(prop: Property<V>, v: TupleValue, types: seq<DataType>,
                         typeIndex: nat, cellIndex: nat): (r: Result<V>)
    ensures r.Success? <==> SlotDecodable(prop, v, types, typeIndex, cellIndex)
    ensures r.Success? ==> SlotDecodesTo(prop, v, types, typeIndex, cellIndex, r.value)
  {
    if typeIndex >= |types| then
      Failure(IndexOutOfBounds(typeIndex, |types|))
    else
      var cell :- ExtractType(v, types[typeIndex], cellIndex);
      prop.decodeFromRaw(cell)
  }

  /** The body of `decodeFromRawInternal` once `v` is known to be a tuple
      value, with the cell that slot 9 is read from as a parameter. */
  function DecodeTuple<A, B, C, D, E, F, G, H, I, J>(
    p: Tuple10Property<A, B, C, D, E, F, G, H, I, J>, v: TupleValue, ninthCell: nat)
    : (r: Result<Tuple10<A, B, C, D, E, F, G, H, I, J>>)
    ensures r.Success? <==> Decodable(p, v, ninthCell)
    ensures r.Success? ==> DecodesTo(p, v, ninthCell, r.value)
  {
    var types := p.tupleType.componentTypes;
    var a :- DecodeSlot(p.aProperty, v, types, 0, 0);
    var b :- DecodeSlot(p.bProperty, v, types, 1, 1);
    var c :- DecodeSlot(p.cProperty, v, types, 2, 2);
    var d :- DecodeSlot(p.dProperty, v, types, 3, 3);
    var e :- DecodeSlot(p.eProperty, v, types, 4, 4);
    var f :- DecodeSlot(p.fProperty, v, types, 5, 5);
    var g :- DecodeSlot(p.gProperty, v, types, 6, 6);
    var h :- DecodeSlot(p.hProperty, v, types, 7, 7);
    var i :- DecodeSlot(p.iProperty, v, types, 8, ninthCell);
    var j :- DecodeSlot(p.jProperty, v, types, 9, 9);
    Success(Tuple10(a, b, c, d, e, f, g, h, i, j))
  }

  /** `decodeFromRawInternal`, as written: only a tuple value is decoded,
      and its slot 9 is extracted at position 7 while being checked against
      component type 8. */
  function DecodeFromRaw<A, B, C, D, E, F, G, H, I, J>(
    p: Tuple10Property<A, B, C, D, E, F, G, H, I, J>, o: JavaObject<TupleValue>)
    : (r: Result<Tuple10<A, B, C, D, E, F, G, H, I, J>>)
    ensures o.Foreign? ==> r == Failure(NotAssignable(TupleValueClassName, o.className))
    ensures o.Instance? ==> (r.Success? <==> Decodable(p, o.value, 7))
    ensures r.Success? ==> o.Instance? && DecodesTo(p, o.value, 7, r.value)
  {
    match o
    case Foreign(className) => Failure(NotAssignable(TupleValueClassName, className))
    case Instance(v) => DecodeTuple(p, v, 7)
  }

  /** `decodeFromRawInternal` as evidently intended: slot 9 is extracted at
      position 8, like every other slot at its own position. */
  function DecodeFromRawCorrected<A, B, C, D, E, F, G, H, I, J>(
    p: Tuple10Property<A, B, C, D, E, F, G, H, I, J>, o: JavaObject<TupleValue>)
    : (r: Result<Tuple10<A, B, C, D, E, F, G, H, I, J>>)
    ensures o.Foreign? ==> r == Failure(NotAssignable(TupleValueClassName, o.className))
    ensures o.Instance? ==> (r.Success? <==> Decodable(p, o.value, 8))
    ensures r.Success? ==> o.Instance? && DecodesTo(p, o.value, 8, r.value)
  {
    match o
    case Foreign(className) => Failure(NotAssignable(TupleValueClassName, className))
    case Instance(v) => DecodeTuple(p, v, 8)
  }

  /** `decodeFromGettableInternal`: the tuple value in the property's quoted
      column of `row`, decoded by `DecodeFromRaw`. */
  function DecodeFromGettable<A, B, C, D, E, F, G, H, I, J>(
    p: Tuple10Property<A, B, C, D, E, F, G, H, I, J>, row: GettableData)
    : (r: Result<Tuple10<A, B, C, D, E, F, G, H, I, J>>)
    ensures p.fieldInfo.quotedCqlColumn !in row ==>
      r == Failure(UnknownColumn(p.fieldInfo.quotedCqlColumn))
    ensures p.fieldInfo.quotedCqlColumn in row ==>
      r == DecodeFromRaw(p, Instance(row[p.fieldInfo.quotedCqlColumn]))
  {
    var v :- GetTupleValue(row, p.fieldInfo.quotedCqlColumn);
    DecodeFromRaw(p, Instance(v))
  }
}
