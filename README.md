# gRPC async client manager: `factoryForGrpcService`

A Dafny model of the decision procedure in Envoy's `Grpc::AsyncClientManagerImpl::factoryForGrpcService`.
The procedure turns a gRPC service configuration into an async client factory. The configuration has
one of two targets:

- an **Envoy-gRPC** target names an upstream cluster. Under the `ValidateStatic` cluster-check mode,
  the cluster is looked up in the cluster manager. It must exist, and it must not have been added
  through the API. Under `Skip`, no lookup happens.
- a **Google-gRPC** target has a stat prefix and initial metadata. It always creates the child
  stats scope `grpc.<prefix>.`. It then fails if the Google C++ gRPC library is not linked, and
  otherwise fails if any initial-metadata key has an illegal character.

The model is pure. `AsyncClientManager.FactoryForGrpcService` takes four inputs: the configuration,
the mode, the cluster registry (`map<string, bool>`, cluster name to `addedViaApi`) and the
link-time flag. It returns an `Outcome`. An `Outcome` holds the trace of effects, which are
registry lookups and scope creations, and a `Result` that is either a factory or one of four errors.
`AsyncClientManager.Message` gives each error's exact exception text.

Files:
- `wrappers.dfy`: the `Result` type.
- `grpc_service.dfy`: the configuration, the cluster-check mode and the registry.
- `grpc_headers.dfy`: the legality of initial-metadata keys.
- `async_client_manager.dfy`: effects, factories, errors, the procedure and its properties. It
  also has one lemma per test case of `test/common/grpc/async_client_manager_impl_test.cc`.

The model covers the behaviour that `test/common/grpc/async_client_manager_impl_test.cc` pins down
for `factoryForGrpcService`. When the Google gRPC library is not linked, a config with an illegal
key still fails with `Google C++ gRPC client is not linked` (lines 108-113), so the model checks the
link first and the metadata keys second.

## Model

| member | source | states |
|---|---|---|
| `GrpcHeaders.IsLegalKeyChar` | test/common/grpc/async_client_manager_impl_test.cc:100-122 | the contract bounds legal characters to ASCII (a modelling choice, see "## Left out"). The body accepts the `_`, `-`, `.` and letters of line 122 and rejects the `;` of line 100; `PinnedCharsKeyLegal` and `SemicolonKeyIllegal` state this generally |
| `GrpcHeaders.IsLegalKey` | test/common/grpc/async_client_manager_impl_test.cc:99-122 | the contract says a legal key holds only ASCII characters and never the `;` of line 100. The body makes a key legal iff it is non-empty and every character passes `IsLegalKeyChar`; the test lines pin it through `LegalKeyExample`, `IllegalKeyExample`, `SemicolonKeyIllegal` and `PinnedCharsKeyLegal` |
| `GrpcHeaders.AllKeysLegal` | test/common/grpc/async_client_manager_impl_test.cc:99-107 | the entry-by-entry metadata check accepts iff every key is non-empty and made only of letters, digits, `-`, `_` and `.` |
| `GrpcHeaders.LegalKeyExample` | test/common/grpc/async_client_manager_impl_test.cc:122 | `"_legal-character."` is a legal key |
| `GrpcHeaders.IllegalKeyExample` | test/common/grpc/async_client_manager_impl_test.cc:100 | `"illegalcharacter;"` is not a legal key |
| `GrpcHeaders.SemicolonKeyIllegal` | test/common/grpc/async_client_manager_impl_test.cc:100 | the general form of line 100: any key containing `;` is illegal |
| `GrpcHeaders.PinnedCharsKeyLegal` | test/common/grpc/async_client_manager_impl_test.cc:122 | the general form of line 122: any non-empty key made only of `_`, `-`, `.` and letters is legal |
| `GrpcHeaders.IllegalKeyAnywhere` | test/common/grpc/async_client_manager_impl_test.cc:99-107 | one illegal key at any position makes the whole metadata illegal |
| `AsyncClientManager.Message` | test/common/grpc/async_client_manager_impl_test.cc:57-112 | the four exact exception texts (lines 60, 75, 90/112, 107): their first characters tell the kinds apart, and the quoted cluster name can be read back out of the unknown and not-static messages |
| `AsyncClientManager.ScopeName` | test/common/grpc/async_client_manager_impl_test.cc:79 | the scope name is the stat prefix between `grpc.` and a trailing `.` (`grpc.foo.` for `foo`) |
| `AsyncClientManager.EnvoyGrpcOutcome` | test/common/grpc/async_client_manager_impl_test.cc:38-76 | `Skip`: no lookup and a factory for the cluster. `ValidateStatic`: exactly one lookup of the cluster name, with an unregistered name failing as unknown, an API-added cluster failing as not static, and success iff the cluster is registered and not added via API |
| `AsyncClientManager.GoogleGrpcOutcome` | test/common/grpc/async_client_manager_impl_test.cc:78-134 | exactly one scope `grpc.<prefix>.` is created. Not linked: fails with not-linked. Linked: an illegal key fails with illegal-metadata, success iff all keys are legal, and the factory is bound to that scope and metadata |
| `AsyncClientManager.FactoryForGrpcService` | test/common/grpc/async_client_manager_impl_test.cc:38-143 | at most one effect. An Envoy-gRPC config only looks up its own cluster. A Google-gRPC config creates its scope. The factory kind matches the target kind |
| `AsyncClientManager.SkipNeverLooksUp` | test/common/grpc/async_client_manager_impl_test.cc:136-143 | with `Skip`, any cluster name, even an unregistered one, yields a factory with an empty trace |
| `AsyncClientManager.UnknownClusterRejected` | test/common/grpc/async_client_manager_impl_test.cc:52-61 | an unregistered cluster under `ValidateStatic` fails with `Unknown gRPC client cluster '<name>'` after one lookup |
| `AsyncClientManager.DynamicClusterRejected` | test/common/grpc/async_client_manager_impl_test.cc:63-76 | a cluster added via API fails with `gRPC client cluster '<name>' is not static` after one lookup |
| `AsyncClientManager.StaticClusterAccepted` | test/common/grpc/async_client_manager_impl_test.cc:38-50 | a static cluster yields a factory for it after a single lookup of exactly that name |
| `AsyncClientManager.EnvoyGrpcReadsOnlyItsCluster` | test/common/grpc/async_client_manager_impl_test.cc:38-76 | an Envoy-gRPC outcome depends on the registry only through the configured cluster's entry, and not at all on the link flag |
| `AsyncClientManager.GoogleGrpcCreatesOneScope` | test/common/grpc/async_client_manager_impl_test.cc:78-134 | any Google-gRPC config, whether it succeeds or fails, has exactly the trace `[ScopeCreated("grpc." + prefix + ".")]` |
| `AsyncClientManager.NotLinkedTakesPriority` | test/common/grpc/async_client_manager_impl_test.cc:83-133 | without the library every Google-gRPC config fails with `Google C++ gRPC client is not linked`, whatever its metadata |
| `AsyncClientManager.IllegalMetadataRejected` | test/common/grpc/async_client_manager_impl_test.cc:99-107 | when linked, an illegal key at any index fails with `Illegal characters in gRPC initial metadata.` |
| `AsyncClientManager.LegalMetadataAccepted` | test/common/grpc/async_client_manager_impl_test.cc:116-127 | when linked and all keys are legal, the result is a factory bound to scope `grpc.<prefix>.` and the metadata |
| `AsyncClientManager.GoogleGrpcIgnoresClusterChecks` | test/common/grpc/async_client_manager_impl_test.cc:78-134 | the cluster-check mode and the registry do not affect a Google-gRPC outcome |
| `AsyncClientManager.ScopeNameInjective` | test/common/grpc/async_client_manager_impl_test.cc:79 | distinct stat prefixes give distinct scope names |
| `AsyncClientManager.MessageDeterminesError` | test/common/grpc/async_client_manager_impl_test.cc:52-133 | the exception message determines the error kind and the cluster name it carries |
| `AsyncClientManager.EnvoyGrpcOkCase` | test/common/grpc/async_client_manager_impl_test.cc:38-50 | test EnvoyGrpcOk: static `foo` gives one lookup of `foo` and a factory |
| `AsyncClientManager.EnvoyGrpcUnknownCase` | test/common/grpc/async_client_manager_impl_test.cc:52-61 | test EnvoyGrpcUnknown: exact message `Unknown gRPC client cluster 'foo'` |
| `AsyncClientManager.EnvoyGrpcDynamicClusterCase` | test/common/grpc/async_client_manager_impl_test.cc:63-76 | test EnvoyGrpcDynamicCluster: exact message `gRPC client cluster 'foo' is not static` |
| `AsyncClientManager.GoogleGrpcCase` | test/common/grpc/async_client_manager_impl_test.cc:78-92 | test GoogleGrpc: scope `grpc.foo.`; a factory when linked, the not-linked message otherwise |
| `AsyncClientManager.GoogleGrpcIllegalCharsCase` | test/common/grpc/async_client_manager_impl_test.cc:94-114 | test GoogleGrpcIllegalChars: scope `grpc.foo.`; the illegal-characters message when linked, the not-linked message otherwise |
| `AsyncClientManager.LegalGoogleGrpcCharCase` | test/common/grpc/async_client_manager_impl_test.cc:116-134 | test LegalGoogleGrpcChar: scope `grpc.foo.`; a factory when linked, the not-linked message otherwise |
| `AsyncClientManager.EnvoyGrpcUnknownOkCase` | test/common/grpc/async_client_manager_impl_test.cc:136-143 | test EnvoyGrpcUnknownOk: `Skip` with an empty registry gives no lookup and a factory |

## Left out

- Construction of the real clients is not modelled: `AsyncClientFactoryImpl`, the Google gRPC client, thread-local slots, the time system and `Api`. A factory is a value that records what it is bound to (the cluster name, or the scope name and metadata). Their code is not part of this model.
- The cluster-manager lookup and the `info()->addedViaApi()` query on its result appear as one `RegistryLookup` effect. The registry is a map from cluster name to the `addedViaApi` flag, not a mock object.
- The stats store is not modelled. Creating a scope is the `ScopeCreated` effect in the returned trace.
- The build flag `ENVOY_GOOGLE_GRPC` is the parameter `googleGrpcLinked`.
- gMock/gtest expectations and the protobuf accessors of `GrpcService` are not modelled.
- The legal key characters are the ASCII letters, digits, `-`, `_` and `.`; limiting them to ASCII is a modelling choice. The tests pin down only `"_legal-character."` (legal) and `"illegalcharacter;"` (illegal). The lemmas state those two keys and their general forms (`GrpcHeaders.PinnedCharsKeyLegal`, `GrpcHeaders.SemicolonKeyIllegal`), and nothing else about the character set.
- `GrpcHeaders.IsLegalKey` rejects the empty key. No test covers the empty key, but the contracts of `GrpcHeaders.AllKeysLegal` and `AsyncClientManager.GoogleGrpcOutcome` still commit to this choice.
- The model never checks metadata values. The test file does not show whether `factoryForGrpcService` does; it only uses the value `"value"`.
- A configuration with neither target set is not modelled. The configuration is a closed two-variant datatype, and the tests never build such a config.
- Concurrency, thread-local state and caching between calls are not modelled. Each call is a pure function of its inputs.
