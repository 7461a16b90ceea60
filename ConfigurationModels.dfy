/**
 * The server's schema objects: a ConfigurationModel describes one configuration
 * type and owns a live, mutable dictionary of property models.
 */
module ConfigurationModels {
  import opened ClrTypes

  /** Schema of one property: its name, display name and declared type. */
  datatype ConfigurationPropertyModel =
    ConfigurationPropertyModel(ConfigurationPropertyName: string, PropertyDisplayName: string, PropertyType: ClrType)

  /** The property model reflection derives from one property. */
  function PropertyModelOf(p: PropertyInfo): (m: ConfigurationPropertyModel)
    ensures m.ConfigurationPropertyName == p.Name
    ensures m.PropertyDisplayName == p.DisplayName
    ensures m.PropertyType == p.PropertyType
  {
    ConfigurationPropertyModel(p.Name, p.DisplayName, p.PropertyType)
  }

  /**
   * The dictionary obtained by storing each property's model under its name,
   * in declaration order (a later property with the same name overwrites).
   */
  function PropertyModels(props: seq<PropertyInfo>): (m: map<string, ConfigurationPropertyModel>)
    ensures m.Keys == PropertyNames(props)
    ensures |m| <= |props|
  {
    if props == [] then map[]
    else
      var last := props[|props| - 1];
      PropertyModels(props[..|props| - 1])[last.Name := PropertyModelOf(last)]
  }

  /** A property that no later property renames has its own model stored under its name. */
  lemma {:induction false} PropertyModelsLookup(props: seq<PropertyInfo>, i: nat)
    requires i < |props|
    requires forall j :: i < j < |props| ==> props[j].Name != props[i].Name
    ensures props[i].Name in PropertyModels(props)
    ensures PropertyModels(props)[props[i].Name] == PropertyModelOf(props[i])
  {
    var n := |props| - 1;
    if i < n {
      var front := props[..n];
      assert front[i] == props[i];
      PropertyModelsLookup(front, i);
      assert props[n].Name != props[i].Name;
    }
  }

  /** With distinct names, the dictionary holds exactly one entry per property. */
  lemma {:induction false} PropertyModelsCount(props: seq<PropertyInfo>)
    requires DistinctNames(props)
    ensures |PropertyModels(props)| == |props|
  {
    if props != [] {
      var n := |props| - 1;
      var front := props[..n];
      assert DistinctNames(front);
      PropertyModelsCount(front);
    }
  }

  /** A Dictionary<string, ConfigurationPropertyModelBase>, shared by reference. */
  class PropertyDictionary {
    var entries: map<string, ConfigurationPropertyModel>

    constructor ()
      ensures entries == map[]
    {
      entries := map[];
    }

    /** The indexer's setter: adds or overwrites. */
    method Set(key: string, value: ConfigurationPropertyModel)
      modifies this
      ensures entries == old(entries)[key := value]
    {
      entries := entries[key := value];
    }
  }

  /** Schema of one configuration type. */
  class ConfigurationModel {
    const Name: string
    const Type: ClrType
    const ConfigurationProperties: PropertyDictionary

    /** new ConfigurationModel(name, configType): no properties yet. */
    constructor (name: string, configType: ClrType)
      ensures Name == name && Type == configType
      ensures fresh(ConfigurationProperties) && ConfigurationProperties.entries == map[]
    {
      Name := name;
      Type := configType;
      ConfigurationProperties := new PropertyDictionary();
    }
  }

  /**
   * Builds the model of a configuration type: a fresh ConfigurationModel whose
   * dictionary holds one property model per public property of the type.
   */
  method BuildConfigurationModel(name: string, configType: ClrType) returns (model: ConfigurationModel)
    ensures fresh(model) && fresh(model.ConfigurationProperties)
    ensures model.Name == name && model.Type == configType
    ensures model.ConfigurationProperties.entries == PropertyModels(configType.Properties)
  {
    model := new ConfigurationModel(name, configType);
    var props := configType.Properties;
    var i := 0;
    while i < |props|
      invariant 0 <= i <= |props|
      invariant model.ConfigurationProperties.entries == PropertyModels(props[..i])
    {
      assert props[..i + 1][..i] == props[..i];
      assert PropertyModels(props[..i + 1])
             == PropertyModels(props[..i])[props[i].Name := PropertyModelOf(props[i])];
      model.ConfigurationProperties.Set(props[i].Name, PropertyModelOf(props[i]));
      i := i + 1;
    }
    assert props[..i] == props;
  }
}
