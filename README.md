# ConfigServer core, modelled in Dafny

ConfigServer distributes strongly typed configuration. Applications register
configuration sets. The server keeps a schema of each configuration type.
Clients fetch a configuration over HTTP and deserialise it into the type.
This project models the following parts of that system and proves what they promise:

- **The configuration-set model cache** (`ConfigurationSets`). A
  `ConfigurationSetModel` maps each configuration type to one
  `ConfigurationModel` and fills that map lazily. `GetOrInitialize` returns
  the stored model, or builds, stores and returns a new one. A second call
  returns the very same object and adds nothing. `Get` fails with
  `ConfigurationModelNotFound` for a type that was never initialised.
  `Configs` lists every model once, in insertion order. The class keeps a map
  from type to model and the insertion order of its keys. Its invariant
  `Valid()` says that each model is stored under its own type and that every
  key is listed exactly once.
- **The schema objects** (`ConfigurationModels`). A `ConfigurationModel` has
  a name, a type and a live `PropertyDictionary` object. Building a model
  stores one `ConfigurationPropertyModel` under each property's name. The
  lemmas show that every property is found under its own name, and that the
  dictionary holds one entry per property.
- **`ConfigurationModelBuilder`** (`ModelBuilders`). The builder holds one
  model. `Build` returns that object itself, not a copy. `ModelType` is the
  built model's type. `ConfigurationProperties` is the built model's own
  dictionary object, so an edit made through the builder shows up in the
  built model.
- **The HTTP client's resolution** (`Client`). `BuildConfigAsync` first checks
  that the type is in the registry, before any request. It then issues one GET
  to `{ConfigServer}/{ClientId}/{type's simple name}`. A non-success status
  becomes `ConfigServerCommunication(uri, status)`, and the body is not read.
  On success the body goes unchanged to the deserialiser. The pure function
  `Resolve` states this whole decision. The method is proved equal to it.
  `HttpClientWrapper` logs every URI it requests, and `HttpResponseMessage`
  records whether its body was read. Together they let the contracts say "no
  request was made" and "the body was not read".
- **The test facts** (`ConfigurationSetDefinitionTests`). Each xUnit fact of
  the configuration-set tests is a method. Its postconditions are the fact's
  assertions. Wherever a fact does not depend on `SimpleConfig`'s
  properties, the method holds for any name and any configuration type.

Runtime types are values of `ClrType`. A `ClrType` has a full name, a simple
name and a declared list of properties (`PropertyInfo`); two types are the
same type exactly when the whole descriptor is equal. Each property carries the display name that the server's
humaniser would derive. `SimpleConfig` declares `IntProperty` with display
name "Int Property" and type `System.Int32`. The HTTP server's replies and the
JSON deserialiser are function-valued inputs of the model.

The client requests the type's simple name `type.Name`
(src/ConfigServer.Client/Internal/ConfigServerClient.cs:28, :35).

## Model

| member | source | states |
|---|---|---|
| `ConfigurationSetDefinitionTests.NewConfigurationSetDefinitionContainsNoDefinitions` | test/ConfigServer.Core.Tests/ConfigurationSetDefinitionTests.cs:12-18 | a new configuration set model has zero configs |
| `ConfigurationSetDefinitionTests.CanGetOrInitializeByType` | test/ConfigServer.Core.Tests/ConfigurationSetDefinitionTests.cs:20-27 | after one GetOrInitialize on a new set, the configs are exactly the returned model, which carries the given name and type |
| `ConfigurationSetDefinitionTests.CanGetOrInitializeByTypeDoesNotDuplicateInitialization` | test/ConfigServer.Core.Tests/ConfigurationSetDefinitionTests.cs:29-38 | two GetOrInitialize calls for one type return the same object and leave one config |
| `ConfigurationSetDefinitionTests.CanGetExistingType` | test/ConfigServer.Core.Tests/ConfigurationSetDefinitionTests.cs:49-57 | Get after GetOrInitialize succeeds with the identical object |
| `ConfigurationSetDefinitionTests.ThrowsIfConfigTypeNotFound` | test/ConfigServer.Core.Tests/ConfigurationSetDefinitionTests.cs:69-74 | Get on a set where the type was never initialised fails with ConfigurationModelNotFound for that type |
| `ConfigurationSetDefinitionTests.GetOrInitializePopulatesModelProperties` | test/ConfigServer.Core.Tests/ConfigurationSetDefinitionTests.cs:76-87 | after initialising SimpleConfig there is one config, and its IntProperty entry has type int, display name "Int Property" and property name "IntProperty" |
| `ConfigurationSets.ConfigurationSetModel.constructor` | test/ConfigServer.Core.Tests/ConfigurationSetDefinitionTests.cs:15-17 | a new set keeps its set type and starts with no models and an empty insertion order |
| `ConfigurationSets.ConfigurationSetModel.Configs` | test/ConfigServer.Core.Tests/ConfigurationSetDefinitionTests.cs:17-26 | the configs have exactly as many entries as there are stored types, contain every stored model, list each as the model stored for its own type, and follow insertion order |
| `ConfigurationSets.ConfigurationSetModel.GetOrInitialize` | test/ConfigServer.Core.Tests/ConfigurationSetDefinitionTests.cs:21-38 | keeps the invariant; the result is the model stored for the type; for a known type it is the old object and nothing changes; otherwise it is a fresh model with the given name, the type and the type's property models, added to the map and appended to the order |
| `ConfigurationSets.ConfigurationSetModel.Get` | test/ConfigServer.Core.Tests/ConfigurationSetDefinitionTests.cs:50-74 | succeeds if and only if the type is stored, then with the stored object (whose type is the requested one); otherwise fails with ConfigurationModelNotFound(type) |
| `ConfigurationModels.PropertyModelOf` | test/ConfigServer.Core.Tests/ConfigurationSetDefinitionTests.cs:83-85 | a property's model carries its name, display name and type |
| `ConfigurationModels.PropertyModels` | test/ConfigServer.Core.Tests/ConfigurationSetDefinitionTests.cs:77-87 | the property dictionary's keys are exactly the names of the type's properties, and it has no more entries than properties |
| `ConfigurationModels.PropertyModelsLookup` | test/ConfigServer.Core.Tests/ConfigurationSetDefinitionTests.cs:83-85 | a property that no later property renames has its own model stored under its name (a later property with the same name would overwrite it) |
| `ConfigurationModels.PropertyModelsCount` | test/ConfigServer.Core.Tests/ConfigurationSetDefinitionTests.cs:82-85 | with distinct property names, the dictionary has exactly one entry per property |
| `ConfigurationModels.BuildConfigurationModel` | test/ConfigServer.Core.Tests/ConfigurationSetDefinitionTests.cs:79-85 | builds a fresh model with the given name and type whose fresh dictionary is the type's property models |
| `ConfigurationModels.ConfigurationModel.constructor` | src/ConfigServer.Server/ModelBuilders/ConfigurationModelBuilder.cs:19 | a new model has the given name and type and a fresh, empty property dictionary |
| `ConfigurationModels.PropertyDictionary.Set` | src/ConfigServer.Server/ModelBuilders/ConfigurationModelBuilder.cs:29 | storing through the live dictionary adds or overwrites exactly that key |
| `ModelBuilders.ConfigurationModelBuilder.FromDefinition` | src/ConfigServer.Server/ModelBuilders/ConfigurationModelBuilder.cs:14-17 | wrapping stores the given model itself and leaves its dictionary unchanged |
| `ModelBuilders.ConfigurationModelBuilder.constructor` | src/ConfigServer.Server/ModelBuilders/ConfigurationModelBuilder.cs:19 | the name-only constructor creates a fresh model with that name and the builder's configuration type, with no properties |
| `ModelBuilders.ConfigurationModelBuilder.Build` | src/ConfigServer.Server/ModelBuilders/ConfigurationModelBuilder.cs:36 | Build returns the wrapped model object itself |
| `ModelBuilders.ConfigurationModelBuilder.ModelType` | src/ConfigServer.Server/ModelBuilders/ConfigurationModelBuilder.cs:24 | ModelType is the type of the model Build returns |
| `ModelBuilders.ConfigurationModelBuilder.ConfigurationProperties` | src/ConfigServer.Server/ModelBuilders/ConfigurationModelBuilder.cs:29 | the builder's property collection is the same object as the built model's dictionary |
| `ModelBuilders.WrapThenBuild` | src/ConfigServer.Server/ModelBuilders/ConfigurationModelBuilder.cs:14-36 | wrapping an existing model and building returns that very model, with its type and dictionary object, and the dictionary unchanged |
| `ModelBuilders.SetPropertyThroughBuilder` | src/ConfigServer.Server/ModelBuilders/ConfigurationModelBuilder.cs:29-36 | an entry stored through the builder's property collection is in the built model's dictionary; the built model, its name and its type stay the same |
| `Client.AnyRegistered` | src/ConfigServer.Client/Internal/ConfigServerClient.cs:59 | true if and only if some registration's ConfigType equals the type |
| `Client.ThrowIfConfigNotRegistered` | src/ConfigServer.Client/Internal/ConfigServerClient.cs:57-61 | passes if and only if the type is registered; otherwise fails with InvalidConfiguration(type) |
| `Client.GetUri` | src/ConfigServer.Client/Internal/ConfigServerClient.cs:52-55 | the URI is the base address, '/', the client id, '/', the configuration name, at exactly those positions |
| `Client.GetUriNamesResource` | src/ConfigServer.Client/Internal/ConfigServerClient.cs:52-55 | for a name without '/', the URI's last path segment is exactly the configuration name |
| `Client.GetUriInjective` | src/ConfigServer.Client/Internal/ConfigServerClient.cs:54 | for the same options, different configuration names give different URIs |
| `Client.Resolve` | src/ConfigServer.Client/Internal/ConfigServerClient.cs:25-29 | fails with InvalidConfiguration (of that type) exactly when the type is unregistered; a communication error carries the URI for the type's name and that URI's non-success status; the result is a success if and only if the type is registered and the reply status is a success, and then it is the deserialised reply body, unchanged |
| `Client.FailedFetchIsCommunicationError` | src/ConfigServer.Client/Internal/ConfigServerClient.cs:44-45 | a registered type whose URI answers with a non-success status resolves to ConfigServerCommunication(uri, status) |
| `Client.HttpResponseMessage.ReadAsStringAsync` | src/ConfigServer.Client/Internal/ConfigServerClient.cs:47 | reading the content returns the body and marks it read |
| `Client.HttpClientWrapper.GetAsync` | src/ConfigServer.Core/Client/Internal/HttpClientWrapper.cs:25-31 | one GET is logged for the URI; the response is fresh, unread, and carries the server's status and body for that URI |
| `Client.ConfigServerClient.constructor` | src/ConfigServer.Client/Internal/ConfigServerClient.cs:18-23 | the client keeps the given HTTP wrapper, registry, options and deserialiser |
| `Client.ConfigServerClient.GetConfig` | src/ConfigServer.Client/Internal/ConfigServerClient.cs:39-50 | exactly one GET for GetUri(name); a non-success status yields ConfigServerCommunication(uri, status) with the body unread; a success status yields the body unchanged |
| `Client.ConfigServerClient.BuildConfigAsync` | src/ConfigServer.Client/Internal/ConfigServerClient.cs:25-30 | the result equals Resolve; an unregistered type issues no request; a registered type issues exactly one GET for its simple name, and on failure the body is unread |

## Left out

- The generic overloads are not modelled separately, because Dafny has no `typeof(T)`. `BuildConfigAsync<TConfig>()` (src/ConfigServer.Client/Internal/ConfigServerClient.cs:32-37) repeats the same three steps as `BuildConfigAsync(Type)` for `typeof(TConfig)`, deserialising with `DeserializeObject<TConfig>`; `BuildConfigAsync` covers both. The bodies of `GetOrInitialize<T>(name)` and `Get<T>()` are not available; they are assumed to delegate to the `Type` overloads for `typeof(T)`, so their tests (test/ConfigServer.Core.Tests/ConfigurationSetDefinitionTests.cs:40-47 and 59-67) are covered by the `Type` versions.
- `ConfigurationSetModel`'s implementation is not part of this model. Its behaviour is taken from its tests. The model stores models in a map keyed by type. On first use it builds the properties from the type's declared properties. A later property with an already-used name overwrites the earlier one. The model assumes distinct property names where it counts entries (`PropertyModelsCount`); a derived type that hides a base property with `new` can report two properties with one name, and what the source does then is not modelled.
- Runtime reflection and the display-name humaniser are not modelled. Each type declares its properties, and each property declares its display name. Only the `IntProperty` to "Int Property" example is fixed.
- Type identity is equality of the whole `ClrType` descriptor (full name, simple name and properties). The CLR compares `Type` objects by reference.
- `ConfigurationModel`'s implementation is not available. `ConfigurationModels.ConfigurationModel.constructor` assumes that `new ConfigurationModel(name, type)` starts with an empty property dictionary and that `GetOrInitialize` fills it, which fits the test at test/ConfigServer.Core.Tests/ConfigurationSetDefinitionTests.cs:80-85. If the real constructor filled the properties itself, the builder's name-only constructor would start with them too.
- Validation of configuration values and the "required" flag are not modelled, because the validator's implementation is not available.
- The local in-process provider is not modelled, because its implementation is not available.
- `async`/`await`, `HttpClient`, authentication and sync-over-async `.Result` are not modelled. The server's reply to each URI is an input function, and each GET is logged.
- JSON deserialisation with camel-case property names is not modelled. It is an input function from body and type to a value.
- `System.Uri` parsing and normalisation are not modelled. The URI is the concatenated string.
- `IsSuccessStatusCode` is modelled as a status in 200..299, as `HttpResponseMessage` defines it.
- DI registration, the ASP.NET middleware and endpoint mapping, the HTTP test stubs and the Angular UI are plumbing with no behaviour to prove, so they are left out.
