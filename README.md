# Service endpoint resolution of the Swisscom service broker, in Dafny

This project models the custom API handler of the Swisscom service broker
(`pkg/custom/handler.go`). Its one operation with real logic answers
`GET /custom/service_instances/{id}/endpoint`. It works in four steps:

1. It looks the service instance up in the resource graph.
2. A MariaDB database is redirected to its Galera cluster, in one hop, through
   the database's parent reference.
3. It reads the resolved instance's connection details and fails as "not yet
   ready" while the host or the port is missing.
4. It builds the endpoint list in a fixed order. The primary `{host, port, tcp}`
   comes first. For Redis, a sentinel endpoint follows. A metrics endpoint comes
   last when a metrics port is published.

Every other handler operation (usage, service definitions, backups, restores,
API docs) answers with the fixed not-implemented error.

Layout:

- `customapi.dfy` (module `CustomAPI`) holds the `Endpoint` record and the empty
  placeholder payloads.
- `crossplane.dfy` (module `Crossplane`) is the abstraction of the broker
  library's store: the resource graph as a read-only `Store`. It offers two
  lookups. `FindInstanceWithoutPlan` gives present, absent or failed.
  `GetConnectionDetails` gives data or an error; a composite without a secret
  fails with `SecretNotFound`. It also holds Go's zero-value map indexing
  (`Value`) and the service names and keys the handler compares against. These
  definitions stand for the library and carry no contracts of their own.
- `gofmt.dfy` (module `GoFmt`) holds the `%q` quoting used in the not-ready
  message, with its inverse.
- `handler.dfy` (module `Handler`) holds the error values and the handler
  itself. The pure specification is `Resolve`, `GetGaleraClusterFromDB`,
  `Assemble` and `EndpointsOf`. The method `Endpoints` follows the source step
  by step, reassigning the instance and appending to the list, and is proved
  equal to `EndpointsOf`. The stubs are also here.
- `properties.dfy` (module `HandlerProperties`) holds the lemmas about the whole
  request.

A Go `(value, error)` return is modelled as `Result<T>`. `Err` stands for a
nil or empty value paired with a non-nil error. Errors from the store keep their
cause and are tagged with the read they came from. `NotYetReady` carries the id
that was requested, not the id of the cluster it was redirected to, as the
source's message does.

Facts about the code that a reader might not expect:

- The Redis sentinel endpoint is appended even when its key is absent, and then
  it has an empty port (pkg/custom/handler.go:71-77,
  `SentinelAppendedUnconditionally`).
- Nothing keeps the endpoints of one list distinct. A Redis instance whose
  sentinel port equals its port gets the same endpoint twice
  (pkg/custom/handler.go:64-77, `DuplicateEndpointsPossible`).
- A failed connection-details read is returned as it is, with no list
  (pkg/custom/handler.go:52-55, `MissingSecretScenario`).
- A MariaDB database is redirected to its parent in exactly one hop. The parent
  is used as found, even when it is itself labelled a MariaDB database
  (pkg/custom/handler.go:44-50, `ResolutionIsOneHop`).

## Model

| member | source | states |
|---|---|---|
| `GoFmt.EscapeRune` | pkg/custom/handler.go:61 | a character escapes to itself exactly when it needs no escape; otherwise it becomes a backslash followed by a character that reads back as it |
| `GoFmt.Escape` | pkg/custom/handler.go:61 | the escaped body is at least as long as the string and at most twice as long |
| `GoFmt.Quote` | pkg/custom/handler.go:61 | the `%q` form starts and ends with a double quote |
| `GoFmt.UnescapeEscape` | pkg/custom/handler.go:61 | reading the escaped body back gives the original string, for every string |
| `GoFmt.QuoteInjective` | pkg/custom/handler.go:61 | two strings with the same quoted form are equal |
| `GoFmt.EscapePlain` | pkg/custom/handler.go:61 | a string with nothing to escape quotes as itself between double quotes |
| `Handler.Message` | pkg/custom/handler.go:61 | the not-ready message is `instance `, a double quote, the escaped id, a double quote, then ` is not yet ready`, and the quoted part reads back as the requested id; an error from an instance lookup, a parent reference or a connection-details read has its cause as its text, passed on unchanged |
| `Handler.GetGaleraClusterFromDB` | pkg/custom/handler.go:90-103 | succeeds exactly when the parent reference reads and names a present instance, and then returns that instance as found (one hop); a bad reference, a failed lookup and a missing parent each give their own error |
| `Handler.Resolve` | pkg/custom/handler.go:36-50 | a failed lookup gives its error and an absent instance "instance does not exist"; every service other than the MariaDB database resolves to itself; a MariaDB database resolves exactly when its parent reference reads and names a present instance, and then to that instance as found, whatever its own service (one hop, for every store); a bad reference, a failed parent lookup and a missing parent each give their own error |
| `Handler.Assemble` | pkg/custom/handler.go:57-87 | fails with not-ready for the requested id exactly when host or port is empty; otherwise the host/port/tcp endpoint comes first, then for Redis the sentinel endpoint, then the metrics endpoint exactly when its port is non-empty, last; the length is 1 plus one per extra; every endpoint has the non-empty host and protocol tcp |
| `Handler.EndpointsOf` | pkg/custom/handler.go:35-88 | a successful answer holds 1 to 3 endpoints, all with the same non-empty host and protocol tcp; a not-ready error names the requested id |
| `Handler.Endpoints` | pkg/custom/handler.go:35-88 | the step-by-step handler returns exactly the specified answer `EndpointsOf` |
| `HandlerProperties.LookupErrorReturnedUnchanged` | pkg/custom/handler.go:36-39 | a failed instance lookup is returned with its cause and no list |
| `HandlerProperties.MissingInstanceDoesNotExist` | pkg/custom/handler.go:40-42 | an absent instance gives "instance does not exist" and no list |
| `HandlerProperties.OtherServicesServedFromThemselves` | pkg/custom/handler.go:44-52 | every service other than the MariaDB database is answered from its own composite's connection details |
| `HandlerProperties.DatabaseServedFromCluster` | pkg/custom/handler.go:44-52 | a MariaDB database is answered from its cluster's connection details; when the two composites differ, changing the database's own secret never changes the answer |
| `HandlerProperties.ParentErrorsPropagate` | pkg/custom/handler.go:90-103 | for a MariaDB database, a bad parent reference, a failed parent lookup and a missing parent each reach the caller unchanged |
| `HandlerProperties.ResolutionIsOneHop` | pkg/custom/handler.go:44-50 | some store resolves a database to a cluster that is itself labelled a MariaDB database and is served from it: the parent is not re-resolved |
| `HandlerProperties.NotReadyNamesRequestedInstance` | pkg/custom/handler.go:57-62 | an empty host or port in the resolved details gives not-ready for the requested id, never a partial list |
| `HandlerProperties.SentinelAppendedUnconditionally` | pkg/custom/handler.go:71-77 | for Redis without a sentinel port, the second endpoint is still there, with an empty port |
| `HandlerProperties.MetricsLastIffPublished` | pkg/custom/handler.go:79-85 | the metrics endpoint is present exactly when its port is non-empty, and then it is last |
| `HandlerProperties.DuplicateEndpointsPossible` | pkg/custom/handler.go:64-77 | a Redis instance whose sentinel port equals its port gets the same endpoint twice |
| `HandlerProperties.RedisIntegrationScenario` | pkg/custom/handler_test.go:53-91 | the integration test's Redis instance gets its host/port endpoint and then its sentinel endpoint |
| `HandlerProperties.MissingSecretScenario` | pkg/custom/handler_test.go:35-52 | an instance without a connection secret yet gets the read error and no list; for the test's composite its text is the one the test expects |
| `HandlerProperties.SecretNotFoundTestMessage` | pkg/custom/handler_test.go:51 | the missing-secret error for composite `1-1-1` reads `unable to get secret: secrets "1-1-1" not found` |
| `HandlerProperties.NotReadyMessageNamesInstance` | pkg/custom/handler.go:61 | two not-ready messages are equal only for the same instance id |
| `HandlerProperties.StubsNotImplemented` | pkg/custom/handler.go:105-153 | usage, both service-definition operations, every backup and restore operation and API docs return the not-implemented error with no payload |

## Left out

- HTTP routing, authentication, correlation and logging middleware, JSON
  encoding and decoding, and the mapping of errors to HTTP status codes
  (`pkg/custom/api.go`) are not part of this model.
- Process setup, configuration, the Kubernetes client, the server goroutine and
  graceful shutdown (`cmd/swisscom-service-broker/main.go`) are not part of this
  model. They are I/O and concurrency.
- The broker library's lookups are modelled as reads of the abstract `Store`.
  These are the instance lookup, the connection-details read and the parent
  label reader. Their internals are not modelled: caching, plan lookup and how
  the secret is found from the composite. The model's store names the secret
  after the composite. The missing-secret text follows the integration test,
  and the texts of the other library errors are opaque causes.
- The constant `sentinelPort` is the key the integration test uses. The other
  library constants (`redis-k8s`, `mariadb-k8s-database`, `endpoint`, `port`,
  `metricsPort`) are assumed values, since the library is not part of this
  model. The proofs depend only on the constants being distinct.
- Connection-detail values are byte slices in the source. They are modelled as
  strings, and the byte-to-string conversion is taken as the identity.
- The request context and the logger are dropped from every signature. The
  handler's constructor only stores its client, which here is the `Store`
  parameter.
- GoFmt.Quote: escapes only the double quote, the backslash, newline, tab and
  carriage return. Go's `%q` also writes other non-printable characters as
  `\a`, `\x..` or `\u..` escapes; the model keeps them as they are.
- GoFmt.EscapeRune: has the same gap as `GoFmt.Quote`; it escapes only those five
  characters.
- GoFmt.Escape: has the same gap as `GoFmt.Quote`, since it applies
  `GoFmt.EscapeRune` to each character.
- Backup and restore lifecycle states and transitions are not modelled. The
  payload types are empty records, and every operation on them returns
  not-implemented, so the source holds no states, transitions or preconditions.
- The handler test's integration harness (object creation, readiness
  conditions) is not modelled. Its two expected outcomes are stated as lemmas.
