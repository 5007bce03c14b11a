/** The resource graph as the handler sees it: a read-only store answering the
    two lookups the handler makes (find an instance, read a composite's
    connection details). How the store is filled, cached or kept consistent with
    the cluster is not part of this model. */
module Crossplane {
  import GoFmt

  // Service names and connection-detail keys the handler compares against. The
  // sentinel key is the one the handler's integration test writes; the other
  // values are assumed, since the library that defines them is not modelled.
  const RedisService: string := "redis-k8s"
  const MariaDBDatabaseService: string := "mariadb-k8s-database"
  const EndpointKey: string := "endpoint"
  const PortKey: string := "port"
  const SentinelPortKey: string := "sentinelPort"
  const MetricsPortKey: string := "metricsPort"

  /** What reading an instance's parent label gives: the parent's instance id,
      or the error that the label is missing or unreadable. */
  datatype ParentRef = Parent(id: string) | BadReference(cause: string)

  /** A provisioned service instance: its service name label, the name of its
      composite resource (whose secret holds the connection details) and its
      parent reference. */
  datatype Instance = Instance(serviceName: string, composite: string, parent: ParentRef)

  /** The three outcomes of looking an instance up by id. */
  datatype Find = Present(instance: Instance) | Absent | FindFailed(cause: string)

  /** The outcome of reading a composite's connection details: key/value data,
      or the error the read failed with. */
  datatype Details = Details(data: map<string, string>) | DetailsFailed(cause: string)

  /** A snapshot of the resource graph. Ids with no entry in `instances` do not
      exist; composites with no entry in `secrets` have no connection secret. */
  datatype Store = Store(instances: map<string, Find>, secrets: map<string, Details>)

  /** The error a read of a composite without a connection secret fails with. */
  function SecretNotFound(composite: string): string
  {
    "unable to get secret: secrets " + GoFmt.Quote(composite) + " not found"
  }

  /** Looks an instance up by id; an id the store does not know is absent. */
  function FindInstanceWithoutPlan(s: Store, id: string): Find
  {
    if id in s.instances then s.instances[id] else Absent
  }

  /** Reads the connection details of a composite. */
  function GetConnectionDetails(s: Store, composite: string): Details
  {
    if composite in s.secrets then s.secrets[composite] else DetailsFailed(SecretNotFound(composite))
  }

  /** Indexing connection-detail data: a missing key reads as the empty string,
      as indexing a Go map of byte slices and converting the result does. */
  function Value(data: map<string, string>, key: string): string
  {
    if key in data then data[key] else ""
  }
}
