/** The custom API handler: service endpoint resolution and the operations that
    are not implemented yet. */
module Handler {
  import opened CustomAPI
  import opened Crossplane
  import GoFmt

  /** The errors the handler returns. Errors from the store are passed on with
      their cause; the tag records which read they came from. */
  datatype Error =
    | LookupError(cause: string)             // an instance lookup failed
    | InstanceDoesNotExist                   // the broker library's "instance does not exist"
    | ParentReferenceError(cause: string)    // a database's parent label is missing or unreadable
    | ConnectionDetailsError(cause: string)  // reading the connection details failed
    | NotYetReady(instanceID: string)        // host or port not published yet
    | NotImplemented                         // the fixed error of every unimplemented operation

  /** A Go `(value, error)` return: on Err the value is nil or empty and unused. */
  datatype Result<T> = Ok(value: T) | Err(error: Error)

  /** The text an error carries. */
  function Message(e: Error): (m: string)
    ensures e.NotYetReady? ==>
      && |m| == |GoFmt.Quote(e.instanceID)| + 26
      && m[..9] == "instance " && m[|m| - 17..] == " is not yet ready"
      && m[9] == '"' && m[|m| - 18] == '"'
      && GoFmt.Unescape(m[10..|m| - 18]) == GoFmt.Some(e.instanceID)
    ensures e.LookupError? || e.ParentReferenceError? || e.ConnectionDetailsError? ==> m == e.cause
  {
    match e
    case LookupError(cause) => cause
    case InstanceDoesNotExist => "instance does not exist"
    case ParentReferenceError(cause) => cause
    case ConnectionDetailsError(cause) => cause
    case NotYetReady(id) =>
      var m := "instance " + GoFmt.Quote(id) + " is not yet ready";
      GoFmt.UnescapeEscape(id);
      assert m[10..|m| - 18] == GoFmt.Escape(id);
      m
    case NotImplemented => "not implemented"
  }

  /** The Galera cluster a MariaDB database belongs to: the instance its parent
      reference names, looked up once and returned as found. */
  function GetGaleraClusterFromDB(s: Store, db: Instance): (r: Result<Instance>)
    ensures r.Ok? <==> db.parent.Parent? && FindInstanceWithoutPlan(s, db.parent.id).Present?
    ensures r.Ok? ==> r.value == FindInstanceWithoutPlan(s, db.parent.id).instance
    ensures db.parent.BadReference? ==> r == Err(ParentReferenceError(db.parent.cause))
    ensures db.parent.Parent? && FindInstanceWithoutPlan(s, db.parent.id).FindFailed? ==>
      r == Err(LookupError(FindInstanceWithoutPlan(s, db.parent.id).cause))
    ensures db.parent.Parent? && FindInstanceWithoutPlan(s, db.parent.id).Absent? ==>
      r == Err(InstanceDoesNotExist)
  {
    match db.parent
    case BadReference(cause) => Err(ParentReferenceError(cause))
    case Parent(pRef) =>
      match FindInstanceWithoutPlan(s, pRef)
      case FindFailed(cause) => Err(LookupError(cause))
      case Absent => Err(InstanceDoesNotExist)
      case Present(c) => Ok(c)
  }

  /** The instance whose connection details are authoritative for `id`: the
      instance itself, or for a MariaDB database its cluster. */
  function Resolve(s: Store, id: string): (r: Result<Instance>)
    ensures FindInstanceWithoutPlan(s, id).FindFailed? ==>
      r == Err(LookupError(FindInstanceWithoutPlan(s, id).cause))
    ensures FindInstanceWithoutPlan(s, id).Absent? ==> r == Err(InstanceDoesNotExist)
    ensures FindInstanceWithoutPlan(s, id).Present? ==>
      var inst := FindInstanceWithoutPlan(s, id).instance;
      inst.serviceName != MariaDBDatabaseService ==> r == Ok(inst)
    ensures FindInstanceWithoutPlan(s, id).Present? ==>
      var inst := FindInstanceWithoutPlan(s, id).instance;
      inst.serviceName == MariaDBDatabaseService ==>
        && (r.Ok? <==> inst.parent.Parent? && FindInstanceWithoutPlan(s, inst.parent.id).Present?)
        && (r.Ok? ==> r.value == FindInstanceWithoutPlan(s, inst.parent.id).instance)
        && (inst.parent.BadReference? ==> r == Err(ParentReferenceError(inst.parent.cause)))
        && (inst.parent.Parent? && FindInstanceWithoutPlan(s, inst.parent.id).FindFailed? ==>
              r == Err(LookupError(FindInstanceWithoutPlan(s, inst.parent.id).cause)))
        && (inst.parent.Parent? && FindInstanceWithoutPlan(s, inst.parent.id).Absent? ==>
              r == Err(InstanceDoesNotExist))
  {
    match FindInstanceWithoutPlan(s, id)
    case FindFailed(cause) => Err(LookupError(cause))
    case Absent => Err(InstanceDoesNotExist)
    case Present(inst) =>
      if inst.serviceName == MariaDBDatabaseService then GetGaleraClusterFromDB(s, inst) else Ok(inst)
  }

  /** The endpoint list offered for connection details `data` of an instance of
      service `serviceName`, requested as `instanceID`. */
  function Assemble(instanceID: string, serviceName: string, data: map<string, string>): (r: Result<seq<Endpoint>>)
    ensures r.Err? <==> Value(data, EndpointKey) == "" || Value(data, PortKey) == ""
    ensures r.Err? ==> r.error == NotYetReady(instanceID)
    ensures r.Ok? ==>
      var dest, eps := Value(data, EndpointKey), r.value;
      && |eps| == 1 + (if serviceName == RedisService then 1 else 0)
                    + (if Value(data, MetricsPortKey) != "" then 1 else 0)
      && eps[0] == Endpoint(dest, Value(data, PortKey), Tcp)
      && (serviceName == RedisService ==> eps[1] == Endpoint(dest, Value(data, SentinelPortKey), Tcp))
      && (Value(data, MetricsPortKey) != "" ==> eps[|eps| - 1] == Endpoint(dest, Value(data, MetricsPortKey), Tcp))
      && (forall i :: 0 <= i < |eps| ==> eps[i].destination == dest != "" && eps[i].protocol == Tcp)
  {
    var dest := Value(data, EndpointKey);
    var port := Value(data, PortKey);
    if |dest| == 0 || |port| == 0 then Err(NotYetReady(instanceID))
    else
      var primary := [Endpoint(dest, port, Tcp)];
      var withSentinel :=
        if serviceName == RedisService then primary + [Endpoint(dest, Value(data, SentinelPortKey), Tcp)]
        else primary;
      var metrics := Value(data, MetricsPortKey);
      Ok(if metrics != "" then withSentinel + [Endpoint(dest, metrics, Tcp)] else withSentinel)
  }

  /** What the endpoint request for `id` answers: resolve, read the resolved
      instance's connection details, assemble. */
  function EndpointsOf(s: Store, id: string): (r: Result<seq<Endpoint>>)
    ensures r.Ok? ==> 1 <= |r.value| <= 3
    ensures r.Ok? ==> forall i :: 0 <= i < |r.value| ==>
      r.value[i].destination == r.value[0].destination != "" && r.value[i].protocol == Tcp
    ensures r.Err? && r.error.NotYetReady? ==> r.error.instanceID == id
  {
    match Resolve(s, id)
    case Err(e) => Err(e)
    case Ok(inst) => ServedFrom(s, id, inst)
  }

  /** The answer for `id` when `inst` is the resolved instance: its own
      connection details, assembled. */
  function ServedFrom(s: Store, id: string, inst: Instance): Result<seq<Endpoint>>
  {
    match GetConnectionDetails(s, inst.composite)
    case DetailsFailed(cause) => Err(ConnectionDetailsError(cause))
    case Details(data) => Assemble(id, inst.serviceName, data)
  }

  /** The endpoint request, step by step: look the instance up, redirect a
      MariaDB database to its cluster, read the connection details, check
      readiness and grow the list. */
  method Endpoints(s: Store, instanceID: string) returns (r: Result<seq<Endpoint>>)
    ensures r == EndpointsOf(s, instanceID)
  {
    var found := FindInstanceWithoutPlan(s, instanceID);
    if found.FindFailed? {
      return Err(LookupError(found.cause));
    }
    if found.Absent? {
      return Err(InstanceDoesNotExist);
    }
    var instance := found.instance;
    if instance.serviceName == MariaDBDatabaseService {
      var cluster := GetGaleraClusterFromDB(s, instance);
      if cluster.Err? {
        return Err(cluster.error);
      }
      instance := cluster.value;
    }
    var details := GetConnectionDetails(s, instance.composite);
    if details.DetailsFailed? {
      return Err(ConnectionDetailsError(details.cause));
    }
    var dest := Value(details.data, EndpointKey);
    var port := Value(details.data, PortKey);
    if |dest| == 0 || |port| == 0 {
      return Err(NotYetReady(instanceID));
    }
    var endpoints := [Endpoint(dest, port, Tcp)];
    if instance.serviceName == RedisService {
      endpoints := endpoints + [Endpoint(dest, Value(details.data, SentinelPortKey), Tcp)];
    }
    var p := Value(details.data, MetricsPortKey);
    if p != "" {
      endpoints := endpoints + [Endpoint(dest, p, Tcp)];
    }
    return Ok(endpoints);
  }

  // The operations below are not implemented: each returns the not-implemented
  // error and no payload.

  function ServiceUsage(instanceID: string): Result<CustomAPI.ServiceUsage>
  {
    Err(NotImplemented)
  }

  function CreateUpdateServiceDefinition(sd: ServiceDefinitionRequest): Result<()>
  {
    Err(NotImplemented)
  }

  function DeleteServiceDefinition(id: string): Result<()>
  {
    Err(NotImplemented)
  }

  function CreateBackup(instanceID: string, b: BackupRequest): Result<CustomAPI.Backup>
  {
    Err(NotImplemented)
  }

  function DeleteBackup(instanceID: string, backupID: string): Result<string>
  {
    Err(NotImplemented)
  }

  function Backup(instanceID: string, backupID: string): Result<CustomAPI.Backup>
  {
    Err(NotImplemented)
  }

  function ListBackups(instanceID: string): Result<seq<CustomAPI.Backup>>
  {
    Err(NotImplemented)
  }

  function RestoreBackup(instanceID: string, backupID: string, r: RestoreRequest): Result<Restore>
  {
    Err(NotImplemented)
  }

  function RestoreStatus(instanceID: string, backupID: string, restoreID: string): Result<Restore>
  {
    Err(NotImplemented)
  }

  function APIDocs(instanceID: string): Result<string>
  {
    Err(NotImplemented)
  }
}
