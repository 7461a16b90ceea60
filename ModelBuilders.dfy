/**
 * ConfigurationModelBuilder: a thin holder around one ConfigurationModel. Its
 * property collection is the model's own dictionary, and Build hands back the
 * held model itself, so every edit made through the builder is in the built model.
 */
module ModelBuilders {
  import opened ClrTypes
  import opened ConfigurationModels

  class ConfigurationModelBuilder {
    /** The model being set up (readonly in the source). */
    const definition: ConfigurationModel

    /** Wraps an existing model as it is. */
    constructor FromDefinition(definition: ConfigurationModel)
      ensures this.definition == definition
      ensures unchanged(definition.ConfigurationProperties)
    {
      this.definition := definition;
    }

    /** Starts a new model named `name` for the configuration type `tConfig`. */
    constructor (name: string, tConfig: ClrType)
      ensures fresh(definition) && fresh(definition.ConfigurationProperties)
      ensures definition.Name == name && definition.Type == tConfig
      ensures definition.ConfigurationProperties.entries == map[]
    {
      definition := new ConfigurationModel(name, tConfig);
    }

    /** Build(): the held model, not a copy. */
    function Build(): (model: ConfigurationModel)
      reads this
      ensures model == definition
    {
      definition
    }

    /** ModelType: the type of the model Build returns. */
    function ModelType(): (t: ClrType)
      reads this
      ensures t == Build().Type
    {
      definition.Type
    }

    /** ConfigurationProperties: the very dictionary of the model Build returns. */
    function ConfigurationProperties(): (properties: PropertyDictionary)
      reads this
      ensures properties == Build().ConfigurationProperties
    {
      definition.ConfigurationProperties
    }
  }

  /**
   * Wrapping an existing model and building it gives back that same model,
   * with its type and its dictionary as they were.
   */
  method WrapThenBuild(model: ConfigurationModel) returns (built: ConfigurationModel)
    ensures built == model
    ensures built.Type == model.Type && built.ConfigurationProperties == model.ConfigurationProperties
    ensures unchanged(model.ConfigurationProperties)
  {
    var builder := new ConfigurationModelBuilder.FromDefinition(model);
    built := builder.Build();
  }

  /**
   * Storing a property through the builder's ConfigurationProperties stores it
   * in the model that Build returns, and leaves the model's name and type alone.
   */
  method SetPropertyThroughBuilder(builder: ConfigurationModelBuilder, key: string, value: ConfigurationPropertyModel)
    modifies builder.ConfigurationProperties()
    ensures builder.Build() == old(builder.Build())
    ensures builder.Build().ConfigurationProperties.entries
            == old(builder.Build().ConfigurationProperties.entries)[key := value]
    ensures builder.Build().Name == old(builder.Build().Name) && builder.ModelType() == old(builder.ModelType())
  {
    builder.ConfigurationProperties().Set(key, value);
  }
}
