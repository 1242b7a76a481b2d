/** A component property, seen from the tuple property that owns it.

    Every `AbstractProperty` can encode a Java value to its CQL-side cell
    (`encodeFromRaw`), decode a cell back (`decodeFromRaw`) and describe its
    CQL type (`buildType`). Their implementations belong to the component
    property classes, which are not part of this model, so a component
    property is given here by those three behaviours. */
module Properties {
  import opened Runtime
  import opened Driver

  /** `FieldInfo`: the mapped field's Java name and its quoted CQL column. */
  datatype FieldInfo = FieldInfo(fieldName: string, quotedCqlColumn: string)

  /** A component codec for Java values of type `V`. */
  datatype Property<!V> = Property(
    fieldInfo: FieldInfo,
    buildType: DataType,
    encodeFromRaw: V -> Cell,
    decodeFromRaw: Cell -> Result<V>)

  /** What a caller that does not know the component's value type can see
      of a component property: its field and its CQL type. */
  datatype ComponentView = ComponentView(fieldInfo: FieldInfo, buildType: DataType)

  function View<V>(p: Property<V>): (c: ComponentView)
    ensures c.fieldInfo == p.fieldInfo && c.buildType == p.buildType
  {
    ComponentView(p.fieldInfo, p.buildType)
  }

  /** `p` decodes its own encoding of `x` back to `x`. */
  ghost predicate RoundTripsAt<V>(p: Property<V>, x: V) {
    p.decodeFromRaw(p.encodeFromRaw(x)) == Success(x)
  }
}
