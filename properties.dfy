/** What the endpoint request promises, stated over the whole store. */
module HandlerProperties {
  import opened CustomAPI
  import opened Crossplane
  import opened Handler
  import GoFmt

  /** A failed instance lookup is returned as it is, with no endpoint list. */
  lemma LookupErrorReturnedUnchanged(s: Store, id: string)
    requires FindInstanceWithoutPlan(s, id).FindFailed?
    ensures EndpointsOf(s, id) == Err(LookupError(FindInstanceWithoutPlan(s, id).cause))
  {
  }

  /** An unknown instance yields "instance does not exist" and no list. */
  lemma MissingInstanceDoesNotExist(s: Store, id: string)
    requires FindInstanceWithoutPlan(s, id).Absent?
    ensures EndpointsOf(s, id) == Err(InstanceDoesNotExist)
  {
  }

  /** Every service except the MariaDB database is served from its own
      connection details. */
  lemma OtherServicesServedFromThemselves(s: Store, id: string)
    requires FindInstanceWithoutPlan(s, id).Present?
    requires FindInstanceWithoutPlan(s, id).instance.serviceName != MariaDBDatabaseService
    ensures EndpointsOf(s, id) == ServedFrom(s, id, FindInstanceWithoutPlan(s, id).instance)
  {
  }

  /** A MariaDB database is served from its cluster's connection details: the
      answer is the cluster's, and the database's own secret is never read. */
  lemma DatabaseServedFromCluster(s: Store, id: string, secret: Details)
    requires FindInstanceWithoutPlan(s, id).Present?
    requires FindInstanceWithoutPlan(s, id).instance.serviceName == MariaDBDatabaseService
    requires FindInstanceWithoutPlan(s, id).instance.parent.Parent?
    requires FindInstanceWithoutPlan(s, FindInstanceWithoutPlan(s, id).instance.parent.id).Present?
    ensures var db := FindInstanceWithoutPlan(s, id).instance;
            var cluster := FindInstanceWithoutPlan(s, db.parent.id).instance;
            && EndpointsOf(s, id) == ServedFrom(s, id, cluster)
            && (cluster.composite != db.composite ==>
                  EndpointsOf(s.(secrets := s.secrets[db.composite := secret]), id) == EndpointsOf(s, id))
  {
  }

  /** The cluster lookup of a MariaDB database passes each of its failures on. */
  lemma ParentErrorsPropagate(s: Store, id: string)
    requires FindInstanceWithoutPlan(s, id).Present?
    requires FindInstanceWithoutPlan(s, id).instance.serviceName == MariaDBDatabaseService
    ensures var ref := FindInstanceWithoutPlan(s, id).instance.parent;
            && (ref.BadReference? ==> EndpointsOf(s, id) == Err(ParentReferenceError(ref.cause)))
            && (ref.Parent? && FindInstanceWithoutPlan(s, ref.id).FindFailed? ==>
                  EndpointsOf(s, id) == Err(LookupError(FindInstanceWithoutPlan(s, ref.id).cause)))
            && (ref.Parent? && FindInstanceWithoutPlan(s, ref.id).Absent? ==>
                  EndpointsOf(s, id) == Err(InstanceDoesNotExist))
  {
  }

  /** Resolution takes exactly one hop: the cluster found for a database is
      used as found, even when it is itself labelled a MariaDB database. */
  lemma ResolutionIsOneHop()
    ensures exists s: Store, id: string ::
      && Resolve(s, id).Ok?
      && Resolve(s, id).value.serviceName == MariaDBDatabaseService
      && EndpointsOf(s, id) == Ok([Endpoint("db-1.internal", "3306", Tcp)])
  {
    var cluster := Instance(MariaDBDatabaseService, "db-1", Parent("galera"));
    var db := Instance(MariaDBDatabaseService, "db-2", Parent("i-db-1"));
    var galera := Instance("mariadb-k8s", "galera", BadReference("no parent label"));
    var s := Store(
      map["i-db-2" := Present(db), "i-db-1" := Present(cluster), "galera" := Present(galera)],
      map["db-1" := Details(map[EndpointKey := "db-1.internal", PortKey := "3306"]),
          "galera" := Details(map[EndpointKey := "galera.internal", PortKey := "3306"])]);
    assert Resolve(s, "i-db-2") == Ok(cluster);
    assert EndpointsOf(s, "i-db-2") == Ok([Endpoint("db-1.internal", "3306", Tcp)]);
  }

  /** When the resolved connection details lack a host or a port the request
      fails as not ready, naming the requested instance, and returns no list. */
  lemma NotReadyNamesRequestedInstance(s: Store, id: string, inst: Instance)
    requires Resolve(s, id) == Ok(inst)
    requires GetConnectionDetails(s, inst.composite).Details?
    requires var data := GetConnectionDetails(s, inst.composite).data;
             Value(data, EndpointKey) == "" || Value(data, PortKey) == ""
    ensures EndpointsOf(s, id) == Err(NotYetReady(id))
  {
  }

  /** The Redis sentinel endpoint is appended whether or not the sentinel port
      is published: without it the second endpoint has an empty port. */
  lemma SentinelAppendedUnconditionally(id: string, data: map<string, string>)
    requires Value(data, EndpointKey) != "" && Value(data, PortKey) != ""
    requires SentinelPortKey !in data
    ensures Assemble(id, RedisService, data).Ok?
    ensures Assemble(id, RedisService, data).value[1] == Endpoint(data[EndpointKey], "", Tcp)
  {
  }

  /** The metrics endpoint is there, and last, exactly when the metrics port is
      non-empty. */
  lemma MetricsLastIffPublished(id: string, serviceName: string, data: map<string, string>)
    requires Assemble(id, serviceName, data).Ok?
    ensures var eps := Assemble(id, serviceName, data).value;
            var withMetrics := if serviceName == RedisService then 3 else 2;
            && (Value(data, MetricsPortKey) != "" <==> |eps| == withMetrics)
            && (Value(data, MetricsPortKey) != "" ==> eps[|eps| - 1].ports == Value(data, MetricsPortKey))
  {
  }

  /** Nothing keeps two endpoints of one list apart: a Redis instance whose
      sentinel port equals its port is offered the same endpoint twice. */
  lemma DuplicateEndpointsPossible()
    ensures exists data: map<string, string> ::
      && Assemble("r1", RedisService, data).Ok?
      && |Assemble("r1", RedisService, data).value| == 2
      && Assemble("r1", RedisService, data).value[0] == Assemble("r1", RedisService, data).value[1]
  {
    var data := map[EndpointKey := "cache.internal", PortKey := "6379", SentinelPortKey := "6379"];
    assert MetricsPortKey !in data;
    assert Value(data, EndpointKey) == "cache.internal" && Value(data, PortKey) == "6379";
    assert Value(data, SentinelPortKey) == "6379";
    assert |Assemble("r1", RedisService, data).value| == 2;
    assert Assemble("r1", RedisService, data).value[0] == Endpoint("cache.internal", "6379", Tcp);
    assert Assemble("r1", RedisService, data).value[1] == Endpoint("cache.internal", "6379", Tcp);
  }

  /** The Redis case of the handler's integration test: port, host, password
      and sentinel port published, no metrics port. */
  lemma RedisIntegrationScenario(s: Store, composite: string, ref: ParentRef)
    requires FindInstanceWithoutPlan(s, "1-1-1") == Present(Instance(RedisService, composite, ref))
    requires GetConnectionDetails(s, composite) == Details(map[
      PortKey := "1234", EndpointKey := "localhost", "password" := "supersecret", SentinelPortKey := "21234"])
    ensures EndpointsOf(s, "1-1-1") ==
      Ok([Endpoint("localhost", "1234", Tcp), Endpoint("localhost", "21234", Tcp)])
  {
    var data := GetConnectionDetails(s, composite).data;
    assert MetricsPortKey !in data;
    assert Value(data, EndpointKey) == "localhost" && Value(data, PortKey) == "1234";
    assert Value(data, SentinelPortKey) == "21234";
    var eps := Assemble("1-1-1", RedisService, data).value;
    assert |eps| == 2 && eps[0] == Endpoint("localhost", "1234", Tcp) && eps[1] == Endpoint("localhost", "21234", Tcp);
    assert eps == [Endpoint("localhost", "1234", Tcp), Endpoint("localhost", "21234", Tcp)];
  }

  /** The first case of the same test: no connection secret yet, so the read
      error is returned and no list. */
  lemma MissingSecretScenario(s: Store, composite: string, ref: ParentRef)
    requires FindInstanceWithoutPlan(s, "1-1-1") == Present(Instance(RedisService, composite, ref))
    requires composite !in s.secrets
    ensures EndpointsOf(s, "1-1-1") == Err(ConnectionDetailsError(SecretNotFound(composite)))
    ensures composite == "1-1-1" ==>
      Message(EndpointsOf(s, "1-1-1").error) == "unable to get secret: secrets \"1-1-1\" not found"
  {
    if composite == "1-1-1" {
      SecretNotFoundTestMessage();
    }
  }

  /** The read error for the test's composite has the text the test expects. */
  lemma SecretNotFoundTestMessage()
    ensures SecretNotFound("1-1-1") == "unable to get secret: secrets \"1-1-1\" not found"
  {
    GoFmt.EscapePlain("1-1-1");
  }

  /** The not-ready message names the instance unambiguously. */
  lemma NotReadyMessageNamesInstance(a: string, b: string)
    requires Message(NotYetReady(a)) == Message(NotYetReady(b))
    ensures a == b
  {
    var m := Message(NotYetReady(a));
    var qa, qb := GoFmt.Quote(a), GoFmt.Quote(b);
    assert qa == m[9..|m| - 17];
    assert qb == m[9..|m| - 17];
    GoFmt.QuoteInjective(a, b);
  }

  /** Every operation other than the endpoint request answers with the
      not-implemented error and no payload. */
  lemma StubsNotImplemented(instanceID: string, backupID: string, restoreID: string, id: string)
    ensures Handler.ServiceUsage(instanceID) == Err(NotImplemented)
    ensures CreateUpdateServiceDefinition(ServiceDefinitionRequest) == Err(NotImplemented)
    ensures DeleteServiceDefinition(id) == Err(NotImplemented)
    ensures CreateBackup(instanceID, BackupRequest) == Err(NotImplemented)
    ensures DeleteBackup(instanceID, backupID) == Err(NotImplemented)
    ensures Handler.Backup(instanceID, backupID) == Err(NotImplemented)
    ensures ListBackups(instanceID) == Err(NotImplemented)
    ensures RestoreBackup(instanceID, backupID, RestoreRequest) == Err(NotImplemented)
    ensures RestoreStatus(instanceID, backupID, restoreID) == Err(NotImplemented)
    ensures APIDocs(instanceID) == Err(NotImplemented)
    ensures Message(NotImplemented) == "not implemented"
  {
  }
}
