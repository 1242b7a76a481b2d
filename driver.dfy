/** The parts of the CQL driver that the tuple codec calls.

    Their code is not part of this model: each is given here the least
    behaviour the codec relies on. A tuple value pairs its tuple type with
    one cell per component; reading a component back is a checked, indexed
    read. */
module Driver {
  import opened Runtime

  /** A CQL data type. Only identity matters to the codec: two components
      have the same type exactly when their descriptors are equal. */
  datatype DataType = Native(name: string) | Tuple(tupleType: TupleType)

  /** A CQL tuple type: the ordered list of its component types. */
  datatype TupleType = TupleType(componentTypes: seq<DataType>)

  /** The CQL-side value held in one component of a tuple value. */
  datatype Cell = Null | Int(n: int) | Text(s: string) | NestedTuple(tuple: TupleValue)

  /** A CQL tuple value: its tuple type and its cells, position by position. */
  datatype TupleValue = TupleValue(tupleType: TupleType, cells: seq<Cell>)

  /** A row (the driver's `GettableData`): tuple values by quoted column name. */
  type GettableData = map<string, TupleValue>

  /** The tuple type factory (`tupleTypeFactory.typeFor`): a tuple type whose
      components are `types`, in the order given. */
  function TypeFor(types: seq<DataType>): (t: TupleType)
    ensures t.componentTypes == types
  {
    TupleType(types)
  }

  /** `TupleType.newValue`: a tuple value of type `t` holding `cells` in the
      order given. */
  function NewValue(t: TupleType, cells: seq<Cell>): (v: TupleValue)
    ensures v.tupleType == t && v.cells == cells
  {
    TupleValue(t, cells)
  }

  /** `TupleExtractor.extractType`: reads the component of `v` at `index`,
      refusing an index `v` has no component for and a component that `v`
      does not declare with type `expected`. */
  function ExtractType(v: TupleValue, expected: DataType, index: nat): (r: Result<Cell>)
    ensures r.Success? <==>
      index < |v.cells| && index < |v.tupleType.componentTypes| &&
      v.tupleType.componentTypes[index] == expected
    ensures r.Success? ==> r.value == v.cells[index]
  {
    if index >= |v.cells| || index >= |v.tupleType.componentTypes| then
      Failure(InvalidComponentIndex(index, |v.cells|))
    else if v.tupleType.componentTypes[index] != expected then
      Failure(InvalidComponentType(index))
    else
      Success(v.cells[index])
  }

  /** `GettableData.getTupleValue`: the tuple value held in `column`. */
  function GetTupleValue(row: GettableData, column: string): (r: Result<TupleValue>)
    ensures r.Success? <==> column in row
    ensures r.Success? ==> r.value == row[column]
  {
    if column in row then Success(row[column]) else Failure(UnknownColumn(column))
  }
}
