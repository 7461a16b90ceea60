/**
 * The behaviour the ConfigurationSetDefinitionTests facts pin down, one method
 * per fact: each starts from a new ConfigurationSetModel and its postconditions
 * are the fact's assertions, for any configuration type rather than SimpleConfig
 * alone wherever the fact does not depend on SimpleConfig's properties.
 */
module ConfigurationSetDefinitionTests {
  import opened Wrappers
  import opened ClrTypes
  import opened ConfigurationModels
  import opened ConfigurationSets

  /** The test suite's DefaultConfigSet, a configuration set type with no configurations. */
  const DefaultConfigSet: ClrType :=
    ClrType("ConfigServer.Core.Tests.ConfigurationSetDefinitionTests+DefaultConfigSet", "DefaultConfigSet", [])

  /** A new configuration set model contains no definitions. */
  method NewConfigurationSetDefinitionContainsNoDefinitions() returns (count: nat)
    ensures count == 0
  {
    var result := new ConfigurationSetModel(DefaultConfigSet);
    count := |result.Configs()|;
  }

  /** After one GetOrInitialize, the only config is the model it returned. */
  method CanGetOrInitializeByType(name: string, configType: ClrType)
    returns (configs: seq<ConfigurationModel>, gotValue: ConfigurationModel)
    ensures configs == [gotValue]
    ensures gotValue.Name == name && gotValue.Type == configType
  {
    var result := new ConfigurationSetModel(DefaultConfigSet);
    gotValue := result.GetOrInitialize(name, configType);
    configs := result.Configs();
  }

  /** A second GetOrInitialize for the same type returns the same object and adds nothing. */
  method CanGetOrInitializeByTypeDoesNotDuplicateInitialization(name: string, configType: ClrType)
    returns (count: nat, gotValue: ConfigurationModel, gotValue2: ConfigurationModel)
    ensures count == 1
    ensures gotValue == gotValue2
  {
    var result := new ConfigurationSetModel(DefaultConfigSet);
    gotValue := result.GetOrInitialize(name, configType);
    gotValue2 := result.GetOrInitialize(name, configType);
    count := |result.Configs()|;
  }

  /** Get after GetOrInitialize returns the object GetOrInitialize returned. */
  method CanGetExistingType(name: string, configType: ClrType)
    returns (gotValue: ConfigurationModel, gotValue2: Result<ConfigurationModel, SetError>)
    ensures gotValue2 == Success(gotValue)
  {
    var result := new ConfigurationSetModel(DefaultConfigSet);
    gotValue := result.GetOrInitialize(name, configType);
    gotValue2 := result.Get(configType);
  }

  /** Get for a type that was never initialised fails with ConfigurationModelNotFound. */
  method ThrowsIfConfigTypeNotFound(configType: ClrType) returns (r: Result<ConfigurationModel, SetError>)
    ensures r == Failure(ConfigurationModelNotFound(configType))
  {
    var target := new ConfigurationSetModel(DefaultConfigSet);
    r := target.Get(configType);
  }

  /** Initialising SimpleConfig records IntProperty as an int named "Int Property". */
  method GetOrInitializePopulatesModelProperties()
    returns (count: nat, property: ConfigurationPropertyModel)
    ensures count == 1
    ensures property.PropertyType == IntType
    ensures property.PropertyDisplayName == "Int Property"
    ensures property.ConfigurationPropertyName == "IntProperty"
  {
    var result := new ConfigurationSetModel(DefaultConfigSet);
    var gotValue := result.GetOrInitialize("SimpleConfig", SimpleConfig);
    count := |result.Configs()|;
    PropertyModelsLookup(SimpleConfig.Properties, 0);
    property := gotValue.ConfigurationProperties.entries["IntProperty"];
  }
}
