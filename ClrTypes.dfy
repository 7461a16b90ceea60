/**
 * Runtime types as opaque tags. Where the server reflects over a CLR type,
 * this model reads an explicit, declared list of property descriptors.
 */
module ClrTypes {

  /** A public instance property as reflection would report it, with the display
      name the humaniser gives it already filled in. */
  datatype PropertyInfo = PropertyInfo(Name: string, DisplayName: string, PropertyType: ClrType)

  /** A CLR type: its full name, its simple name and its public properties. Two types are
      the same type exactly when the whole descriptor is equal. */
  datatype ClrType = ClrType(FullName: string, Name: string, Properties: seq<PropertyInfo>)

  /** The names of the given properties. */
  function PropertyNames(props: seq<PropertyInfo>): set<string>
  {
    set p | p in props :: p.Name
  }

  /** No two properties share a name (a derived type hiding a base property with `new`
      breaks this, so it is stated where it is needed). */
  predicate DistinctNames(props: seq<PropertyInfo>)
  {
    forall i, j :: 0 <= i < j < |props| ==> props[i].Name != props[j].Name
  }

  /** System.Int32. */
  const IntType: ClrType := ClrType("System.Int32", "Int32", [])

  /** The test suite's SimpleConfig { int IntProperty }. */
  const SimpleConfig: ClrType :=
    ClrType("ConfigServer.Core.Tests.SimpleConfig", "SimpleConfig",
            [PropertyInfo("IntProperty", "Int Property", IntType)])
}
