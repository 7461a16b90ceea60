/**
 * A configuration set's cache of configuration models, keyed by configuration
 * type and filled lazily: at most one model per type, and a second request for
 * a type returns the very object the first one created.
 */
module ConfigurationSets {
  import opened Wrappers
  import opened ClrTypes
  import opened ConfigurationModels

  /** What Get throws for a type that was never initialised. */
  datatype SetError = ConfigurationModelNotFound(configType: ClrType)

  /** No type occurs twice in an insertion-order list. */
  predicate NoDuplicates(types: seq<ClrType>)
  {
    forall i, j :: 0 <= i < j < |types| ==> types[i] != types[j]
  }

  /** A list without duplicates has as many distinct elements as entries. */
  lemma {:induction false} DistinctElementsCount(types: seq<ClrType>)
    requires NoDuplicates(types)
    ensures |set t | t in types| == |types|
  {
    if types != [] {
      var n := |types| - 1;
      var front := types[..n];
      assert NoDuplicates(front);
      DistinctElementsCount(front);
      assert types == front + [types[n]];
      assert (set t | t in types) == (set t | t in front) + {types[n]};
      assert types[n] !in (set t | t in front);
    }
  }

  /** Each model is stored under its own type, and the order lists every key exactly once. */
  ghost predicate WellKeyed(models: map<ClrType, ConfigurationModel>, order: seq<ClrType>)
  {
    && (forall t :: t in models ==> models[t].Type == t)
    && (forall t :: t in models <==> t in order)
    && NoDuplicates(order)
  }

  /** Storing a model under a new key and appending the key keeps the pair well keyed. */
  lemma InsertKeepsWellKeyed(models: map<ClrType, ConfigurationModel>, order: seq<ClrType>,
                             t: ClrType, model: ConfigurationModel)
    requires WellKeyed(models, order)
    requires t !in models && model.Type == t
    ensures WellKeyed(models[t := model], order + [t])
  {
  }

  /** A well-keyed map has as many entries as the order. */
  lemma WellKeyedCount(models: map<ClrType, ConfigurationModel>, order: seq<ClrType>)
    requires WellKeyed(models, order)
    ensures |models| == |order|
  {
    DistinctElementsCount(order);
    assert models.Keys == set t | t in order;
  }

  class ConfigurationSetModel {
    /** The configuration set type this model describes. */
    const ConfigSetType: ClrType
    /** The models, keyed by configuration type. */
    var configurationModels: map<ClrType, ConfigurationModel>
    /** The keys of configurationModels in the order they were added. */
    var insertionOrder: seq<ClrType>

    /** Each model is stored under its own type, once, and every key is listed once. */
    ghost predicate Valid()
      reads this
    {
      WellKeyed(configurationModels, insertionOrder)
    }

    /** new ConfigurationSetModel(configSetType): an empty set. */
    constructor (configSetType: ClrType)
      ensures Valid()
      ensures ConfigSetType == configSetType
      ensures configurationModels == map[] && insertionOrder == []
    {
      ConfigSetType := configSetType;
      configurationModels := map[];
      insertionOrder := [];
    }

    /** Configs: every model in the set, once each, in insertion order. */
    function Configs(): (configs: seq<ConfigurationModel>)
      reads this
      requires Valid()
      ensures |configs| == |insertionOrder| == |configurationModels|
      ensures forall t :: t in configurationModels ==> configurationModels[t] in configs
      ensures forall i :: 0 <= i < |configs| ==>
                configs[i].Type in configurationModels && configs[i] == configurationModels[configs[i].Type]
      ensures forall i :: 0 <= i < |configs| ==> configs[i].Type == insertionOrder[i]
    {
      var order, models := insertionOrder, configurationModels;
      WellKeyedCount(models, order);
      var configs := seq(|order|, i requires 0 <= i < |order| => models[order[i]]);
      assert forall t :: t in configurationModels ==> configurationModels[t] in configs by {
        forall t | t in configurationModels ensures configurationModels[t] in configs {
          var i :| 0 <= i < |insertionOrder| && insertionOrder[i] == t;
          assert configs[i] == configurationModels[t];
        }
      }
      configs
    }

    /**
     * GetOrInitialize(name, type): the model stored for the type; when there is
     * none yet, the newly built model is stored and returned.
     */
    method GetOrInitialize(name: string, configType: ClrType) returns (model: ConfigurationModel)
      requires Valid()
      modifies this
      ensures Valid()
      ensures configType in configurationModels && model == configurationModels[configType]
      ensures configType in old(configurationModels) ==>
                model == old(configurationModels)[configType]
                && configurationModels == old(configurationModels)
                && insertionOrder == old(insertionOrder)
      ensures configType !in old(configurationModels) ==>
                fresh(model) && fresh(model.ConfigurationProperties)
                && model.Name == name && model.Type == configType
                && model.ConfigurationProperties.entries == PropertyModels(configType.Properties)
                && configurationModels == old(configurationModels)[configType := model]
                && insertionOrder == old(insertionOrder) + [configType]
    {
      if configType in configurationModels {
        model := configurationModels[configType];
      } else {
        model := BuildConfigurationModel(name, configType);
        InsertKeepsWellKeyed(configurationModels, insertionOrder, configType, model);
        configurationModels := configurationModels[configType := model];
        insertionOrder := insertionOrder + [configType];
      }
    }

    /** Get(type): the stored model, or ConfigurationModelNotFoundException. */
    method Get(configType: ClrType) returns (r: Result<ConfigurationModel, SetError>)
      requires Valid()
      ensures r.Success? <==> configType in configurationModels
      ensures r.Success? ==> r.value == configurationModels[configType] && r.value.Type == configType
      ensures r.Failure? ==> r.error == ConfigurationModelNotFound(configType)
    {
      if configType in configurationModels {
        r := Success(configurationModels[configType]);
      } else {
        r := Failure(ConfigurationModelNotFound(configType));
      }
    }
  }
}
