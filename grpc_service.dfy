/**
 * The inputs of the gRPC async client manager: the gRPC service
 * configuration (a closed union of the Envoy-gRPC and Google-gRPC targets),
 * the cluster-check mode, and the cluster registry as seen by the manager.
 */
module GrpcService {

  /** One entry of a Google-gRPC target's initial metadata. */
  datatype HeaderValue = HeaderValue(key: string, value: string)

  /**
   * A gRPC service configuration. Exactly one target is set: either an
   * Envoy-gRPC target naming an upstream cluster, or a Google-gRPC target
   * with a stat prefix and the initial metadata sent on every stream.
   */
  datatype GrpcServiceConfig =
    | EnvoyGrpc(clusterName: string)
    | GoogleGrpc(statPrefix: string, initialMetadata: seq<HeaderValue>)

  /** Whether an Envoy-gRPC target is checked against the cluster registry. */
  datatype ClusterChecks = ValidateStatic | Skip

  /**
   * The cluster manager's thread-local clusters, by name. A name that is
   * absent is an unknown cluster; the value is the cluster's `addedViaApi`
   * flag (true for a cluster added at runtime through the API).
   */
  type ClusterRegistry = map<string, bool>
}
