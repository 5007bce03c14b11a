/** Wire types of the custom API: the endpoint record and the placeholder payloads
    of the usage, service-definition, backup and restore operations. */
module CustomAPI {

  /** One network endpoint a consumer may connect to. The port is kept as the
      string read from the connection details, as the JSON response carries it. */
  datatype Endpoint = Endpoint(destination: string, ports: string, protocol: string)

  /** The protocol every endpoint of this broker is offered on. */
  const Tcp: string := "tcp"

  // Placeholder payloads: empty records, since no operation fills them yet.
  datatype ServiceUsage = ServiceUsage
  datatype Backup = Backup
  datatype Restore = Restore
  datatype ServiceDefinitionRequest = ServiceDefinitionRequest
  datatype BackupRequest = BackupRequest
  datatype RestoreRequest = RestoreRequest
}
