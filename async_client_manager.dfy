/**
 * The decision procedure of the gRPC async client manager's
 * `factoryForGrpcService`: from a gRPC service configuration, a cluster-check
 * mode, the cluster registry and whether the Google gRPC library is linked,
 * it yields either a client factory or one of four errors, together with the
 * trace of the registry lookups and stats-scope creations it performed.
 */
module AsyncClientManager {
  import opened Wrappers
  import opened GrpcService
  import opened GrpcHeaders

  /** An observable effect of one call. */
  datatype Effect =
    | RegistryLookup(clusterName: string)   // thread-local cluster lookup by name
    | ScopeCreated(scopeName: string)       // child stats scope created on the caller's scope

  /**
   * The factory produced: an Envoy-gRPC factory bound to a cluster, or a
   * Google-gRPC factory bound to its stats scope and initial metadata.
   */
  datatype AsyncClientFactory =
    | EnvoyGrpcFactory(clusterName: string)
    | GoogleGrpcFactory(scopeName: string, initialMetadata: seq<HeaderValue>)

  /** The exceptions `factoryForGrpcService` can throw. */
  datatype FactoryError =
    | UnknownCluster(clusterName: string)
    | ClusterNotStatic(clusterName: string)
    | IllegalMetadata
    | GoogleGrpcNotLinked

  /** The outcome of one call: its effects, in order, and its result. */
  datatype Outcome = Outcome(effects: seq<Effect>, result: Result<AsyncClientFactory, FactoryError>)

  /**
   * The exception message of each error. Its first character tells the four
   * kinds apart, and the cluster name can be read back out of it.
   */
  function Message(e: FactoryError): (m: string)
    ensures |m| > 0
    ensures e.UnknownCluster? ==>
      m[0] == 'U' && |m| == |e.clusterName| + 30 && m[29..|m| - 1] == e.clusterName
    ensures e.ClusterNotStatic? ==>
      m[0] == 'g' && |m| == |e.clusterName| + 36 && m[21..|m| - 15] == e.clusterName
    ensures e.IllegalMetadata? ==> m[0] == 'I'
    ensures e.GoogleGrpcNotLinked? ==> m[0] == 'G'
  {
    match e
    case UnknownCluster(name) => "Unknown gRPC client cluster '" + name + "'"
    case ClusterNotStatic(name) => "gRPC client cluster '" + name + "' is not static"
    case IllegalMetadata => "Illegal characters in gRPC initial metadata."
    case GoogleGrpcNotLinked => "Google C++ gRPC client is not linked"
  }

  /** Name of the child stats scope of a Google-gRPC client: the prefix between `grpc.` and `.`. */
  function ScopeName(statPrefix: string): (s: string)
    ensures |s| == |statPrefix| + 6
    ensures s[..5] == "grpc." && s[|s| - 1] == '.'
    ensures s[5..|s| - 1] == statPrefix
  {
    "grpc." + statPrefix + "."
  }

  /** The Envoy-gRPC branch: check the cluster unless the mode says to skip. */
  function EnvoyGrpcOutcome(name: string, mode: ClusterChecks, registry: ClusterRegistry): (r: Outcome)
    ensures mode == Skip ==> r.effects == [] && r.result == Ok(EnvoyGrpcFactory(name))
    ensures mode == ValidateStatic ==> r.effects == [RegistryLookup(name)]
    ensures mode == ValidateStatic ==>
      (r.result.Ok? <==> name in registry && !registry[name])
    ensures r.result.Ok? ==> r.result.value == EnvoyGrpcFactory(name)
    ensures mode == ValidateStatic && name !in registry ==> r.result == Err(UnknownCluster(name))
    ensures mode == ValidateStatic && name in registry && registry[name] ==>
      r.result == Err(ClusterNotStatic(name))
  {
    if mode == Skip then
      Outcome([], Ok(EnvoyGrpcFactory(name)))
    else
      var effects := [RegistryLookup(name)];
      if name !in registry then
        Outcome(effects, Err(UnknownCluster(name)))
      else if registry[name] then
        Outcome(effects, Err(ClusterNotStatic(name)))
      else
        Outcome(effects, Ok(EnvoyGrpcFactory(name)))
  }

  /**
   * The Google-gRPC branch: the stats scope is created first, whatever
   * follows; then the absence of the library is reported before any
   * metadata key is examined.
   */
  function GoogleGrpcOutcome(statPrefix: string, md: seq<HeaderValue>, googleGrpcLinked: bool): (r: Outcome)
    ensures r.effects == [ScopeCreated(ScopeName(statPrefix))]
    ensures !googleGrpcLinked ==> r.result == Err(GoogleGrpcNotLinked)
    ensures googleGrpcLinked ==>
      (r.result.Ok? <==> forall i :: 0 <= i < |md| ==> IsLegalKey(md[i].key))
    ensures r.result.Ok? ==> r.result.value == GoogleGrpcFactory(ScopeName(statPrefix), md)
    ensures googleGrpcLinked && !AllKeysLegal(md) ==> r.result == Err(IllegalMetadata)
  {
    var effects := [ScopeCreated(ScopeName(statPrefix))];
    if !googleGrpcLinked then
      Outcome(effects, Err(GoogleGrpcNotLinked))
    else if !AllKeysLegal(md) then
      Outcome(effects, Err(IllegalMetadata))
    else
      Outcome(effects, Ok(GoogleGrpcFactory(ScopeName(statPrefix), md)))
  }

  /** `factoryForGrpcService`: dispatch on the configured target. */
  function FactoryForGrpcService(config: GrpcServiceConfig, mode: ClusterChecks,
                                 registry: ClusterRegistry, googleGrpcLinked: bool): (r: Outcome)
    ensures |r.effects| <= 1
    ensures config.EnvoyGrpc? ==> forall e :: e in r.effects ==> e == RegistryLookup(config.clusterName)
    ensures config.GoogleGrpc? ==> r.effects == [ScopeCreated(ScopeName(config.statPrefix))]
    ensures r.result.Ok? ==> (r.result.value.EnvoyGrpcFactory? <==> config.EnvoyGrpc?)
  {
    match config
    case EnvoyGrpc(name) => EnvoyGrpcOutcome(name, mode, registry)
    case GoogleGrpc(prefix, md) => GoogleGrpcOutcome(prefix, md, googleGrpcLinked)
  }

  // ---------------------------------------------------------------------
  // Envoy-gRPC target

  /** With `Skip`, the registry is never consulted and a factory is always returned. */
  lemma SkipNeverLooksUp(name: string, registry: ClusterRegistry, googleGrpcLinked: bool)
    ensures FactoryForGrpcService(EnvoyGrpc(name), Skip, registry, googleGrpcLinked)
            == Outcome([], Ok(EnvoyGrpcFactory(name)))
  {
  }

  /** With `ValidateStatic`, an unregistered cluster is reported by name. */
  lemma UnknownClusterRejected(name: string, registry: ClusterRegistry, googleGrpcLinked: bool)
    requires name !in registry
    ensures var r := FactoryForGrpcService(EnvoyGrpc(name), ValidateStatic, registry, googleGrpcLinked);
            r.effects == [RegistryLookup(name)] && r.result == Err(UnknownCluster(name))
            && Message(r.result.error) == "Unknown gRPC client cluster '" + name + "'"
  {
  }

  /** With `ValidateStatic`, a cluster added through the API is rejected as not static. */
  lemma DynamicClusterRejected(name: string, registry: ClusterRegistry, googleGrpcLinked: bool)
    requires name in registry && registry[name]
    ensures var r := FactoryForGrpcService(EnvoyGrpc(name), ValidateStatic, registry, googleGrpcLinked);
            r.effects == [RegistryLookup(name)] && r.result == Err(ClusterNotStatic(name))
            && Message(r.result.error) == "gRPC client cluster '" + name + "' is not static"
  {
  }

  /** With `ValidateStatic`, a static cluster yields a factory after one lookup of that name. */
  lemma StaticClusterAccepted(name: string, registry: ClusterRegistry, googleGrpcLinked: bool)
    requires name in registry && !registry[name]
    ensures FactoryForGrpcService(EnvoyGrpc(name), ValidateStatic, registry, googleGrpcLinked)
            == Outcome([RegistryLookup(name)], Ok(EnvoyGrpcFactory(name)))
  {
  }

  /**
   * The outcome for an Envoy-gRPC target depends on the registry only through
   * the entry of the configured cluster, and never on the Google gRPC library.
   */
  lemma EnvoyGrpcReadsOnlyItsCluster(name: string, mode: ClusterChecks,
                                     reg1: ClusterRegistry, reg2: ClusterRegistry,
                                     linked1: bool, linked2: bool)
    requires name in reg1 <==> name in reg2
    requires name in reg1 ==> reg1[name] == reg2[name]
    ensures FactoryForGrpcService(EnvoyGrpc(name), mode, reg1, linked1)
            == FactoryForGrpcService(EnvoyGrpc(name), mode, reg2, linked2)
  {
  }

  // ---------------------------------------------------------------------
  // Google-gRPC target

  /**
   * A Google-gRPC target creates exactly one stats scope, `grpc.<prefix>.`,
   * whether the call then succeeds or fails, and never consults the registry.
   */
  lemma GoogleGrpcCreatesOneScope(prefix: string, md: seq<HeaderValue>, mode: ClusterChecks,
                                  registry: ClusterRegistry, googleGrpcLinked: bool)
    ensures FactoryForGrpcService(GoogleGrpc(prefix, md), mode, registry, googleGrpcLinked).effects
            == [ScopeCreated("grpc." + prefix + ".")]
  {
  }

  /** Without the Google gRPC library every Google-gRPC target fails, even with illegal keys. */
  lemma NotLinkedTakesPriority(prefix: string, md: seq<HeaderValue>, mode: ClusterChecks,
                               registry: ClusterRegistry)
    ensures var r := FactoryForGrpcService(GoogleGrpc(prefix, md), mode, registry, false);
            r.result == Err(GoogleGrpcNotLinked)
            && Message(r.result.error) == "Google C++ gRPC client is not linked"
  {
  }

  /** With the library linked, one illegal key anywhere in the metadata rejects the target. */
  lemma IllegalMetadataRejected(prefix: string, md: seq<HeaderValue>, i: nat, mode: ClusterChecks,
                                registry: ClusterRegistry)
    requires i < |md| && !IsLegalKey(md[i].key)
    ensures var r := FactoryForGrpcService(GoogleGrpc(prefix, md), mode, registry, true);
            r.result == Err(IllegalMetadata)
            && Message(r.result.error) == "Illegal characters in gRPC initial metadata."
  {
  }

  /** With the library linked and every key legal, the factory is bound to the derived scope. */
  lemma LegalMetadataAccepted(prefix: string, md: seq<HeaderValue>, mode: ClusterChecks,
                              registry: ClusterRegistry)
    requires forall i :: 0 <= i < |md| ==> IsLegalKey(md[i].key)
    ensures FactoryForGrpcService(GoogleGrpc(prefix, md), mode, registry, true).result
            == Ok(GoogleGrpcFactory("grpc." + prefix + ".", md))
  {
  }

  /** The cluster-check mode and the registry play no part for a Google-gRPC target. */
  lemma GoogleGrpcIgnoresClusterChecks(prefix: string, md: seq<HeaderValue>,
                                       mode1: ClusterChecks, mode2: ClusterChecks,
                                       reg1: ClusterRegistry, reg2: ClusterRegistry,
                                       googleGrpcLinked: bool)
    ensures FactoryForGrpcService(GoogleGrpc(prefix, md), mode1, reg1, googleGrpcLinked)
            == FactoryForGrpcService(GoogleGrpc(prefix, md), mode2, reg2, googleGrpcLinked)
  {
  }

  // ---------------------------------------------------------------------
  // Names and messages

  /** Distinct stat prefixes give distinct scope names. */
  lemma ScopeNameInjective(p1: string, p2: string)
    requires ScopeName(p1) == ScopeName(p2)
    ensures p1 == p2
  {
    assert p1 == ScopeName(p1)[5..|ScopeName(p1)| - 1];
    assert p2 == ScopeName(p2)[5..|ScopeName(p2)| - 1];
  }

  /** The exception message identifies the error, including the cluster name it carries. */
  lemma MessageDeterminesError(e1: FactoryError, e2: FactoryError)
    requires Message(e1) == Message(e2)
    ensures e1 == e2
  {
    var m := Message(e1);
    match e1
    case UnknownCluster(n1) =>
      assert e2.UnknownCluster?;
      assert n1 == m[29..|m| - 1] == e2.clusterName;
    case ClusterNotStatic(n1) =>
      assert e2.ClusterNotStatic?;
      assert n1 == m[21..|m| - 15] == e2.clusterName;
    case IllegalMetadata =>
    case GoogleGrpcNotLinked =>
  }

  // ---------------------------------------------------------------------
  // The test fixtures, one lemma per test case

  /** EnvoyGrpcOk: a static cluster "foo" under `ValidateStatic`. */
  lemma EnvoyGrpcOkCase(linked: bool)
    ensures FactoryForGrpcService(EnvoyGrpc("foo"), ValidateStatic, map["foo" := false], linked)
            == Outcome([RegistryLookup("foo")], Ok(EnvoyGrpcFactory("foo")))
  {
  }

  /** EnvoyGrpcUnknown: an empty registry. */
  lemma EnvoyGrpcUnknownCase(linked: bool)
    ensures var r := FactoryForGrpcService(EnvoyGrpc("foo"), ValidateStatic, map[], linked);
            r.effects == [RegistryLookup("foo")] && r.result.Err?
            && Message(r.result.error) == "Unknown gRPC client cluster 'foo'"
  {
  }

  /** EnvoyGrpcDynamicCluster: "foo" was added through the API. */
  lemma EnvoyGrpcDynamicClusterCase(linked: bool)
    ensures var r := FactoryForGrpcService(EnvoyGrpc("foo"), ValidateStatic, map["foo" := true], linked);
            r.effects == [RegistryLookup("foo")] && r.result.Err?
            && Message(r.result.error) == "gRPC client cluster 'foo' is not static"
  {
  }

  /** GoogleGrpc: stat prefix "foo", no metadata. */
  lemma GoogleGrpcCase(linked: bool, registry: ClusterRegistry)
    ensures var r := FactoryForGrpcService(GoogleGrpc("foo", []), ValidateStatic, registry, linked);
            r.effects == [ScopeCreated("grpc.foo.")]
            && (linked ==> r.result.Ok?)
            && (!linked ==> r.result.Err? && Message(r.result.error) == "Google C++ gRPC client is not linked")
  {
    assert ScopeName("foo") == "grpc.foo.";
  }

  /** GoogleGrpcIllegalChars: one metadata key containing `;`. */
  lemma GoogleGrpcIllegalCharsCase(linked: bool, registry: ClusterRegistry)
    ensures var md := [HeaderValue("illegalcharacter;", "value")];
            var r := FactoryForGrpcService(GoogleGrpc("foo", md), ValidateStatic, registry, linked);
            r.effects == [ScopeCreated("grpc.foo.")] && r.result.Err?
            && (linked ==> Message(r.result.error) == "Illegal characters in gRPC initial metadata.")
            && (!linked ==> Message(r.result.error) == "Google C++ gRPC client is not linked")
  {
    var md := [HeaderValue("illegalcharacter;", "value")];
    assert ScopeName("foo") == "grpc.foo.";
    GoogleGrpcCreatesOneScope("foo", md, ValidateStatic, registry, linked);
    if linked {
      IllegalKeyExample();
      IllegalMetadataRejected("foo", md, 0, ValidateStatic, registry);
    } else {
      NotLinkedTakesPriority("foo", md, ValidateStatic, registry);
    }
  }

  /** LegalGoogleGrpcChar: one metadata key of letters, `_`, `-` and `.`. */
  lemma LegalGoogleGrpcCharCase(linked: bool, registry: ClusterRegistry)
    ensures var md := [HeaderValue("_legal-character.", "value")];
            var r := FactoryForGrpcService(GoogleGrpc("foo", md), ValidateStatic, registry, linked);
            r.effects == [ScopeCreated("grpc.foo.")]
            && (linked ==> r.result.Ok?)
            && (!linked ==> r.result.Err? && Message(r.result.error) == "Google C++ gRPC client is not linked")
  {
    var md := [HeaderValue("_legal-character.", "value")];
    assert ScopeName("foo") == "grpc.foo.";
    GoogleGrpcCreatesOneScope("foo", md, ValidateStatic, registry, linked);
    if linked {
      LegalKeyExample();
      assert forall i :: 0 <= i < |md| ==> md[i] == md[0];
      LegalMetadataAccepted("foo", md, ValidateStatic, registry);
    } else {
      NotLinkedTakesPriority("foo", md, ValidateStatic, registry);
    }
  }

  /** EnvoyGrpcUnknownOk: `Skip` with an unknown cluster. */
  lemma EnvoyGrpcUnknownOkCase(linked: bool)
    ensures var r := FactoryForGrpcService(EnvoyGrpc("foo"), Skip, map[], linked);
            r.effects == [] && r.result.Ok?
  {
  }
}
