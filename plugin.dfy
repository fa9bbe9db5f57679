/**
 * The check's configuration and its result states.
 *
 * In the program the configuration is one process-wide record filled in by
 * the monitoring agent's plugin SDK from flags and environment variables;
 * here it is an immutable value handed to every operation that reads it.
 */
module Plugin {

  /** The options the check reads: port, protocol, record, server and TLS server name. */
  datatype Config = Config(
    port: int,
    protocol: string,
    record: string,
    server: string,
    serverName: string)

  /** Defaults the plugin SDK applies when neither a flag nor an environment variable is given. */
  const DefaultPort: int := 53
  const DefaultProtocol: string := "udp"
  const DefaultRecord: string := "sensu.io"

  /** The three states a check reports; the agent reads them as exit codes. */
  datatype CheckState = OK | Warning | Critical {
    function Code(): (code: int)
      ensures 0 <= code <= 2
      ensures code == 0 <==> this == OK
      ensures code == 2 <==> this == Critical
    {
      match this
      case OK => 0
      case Warning => 1
      case Critical => 2
    }
  }
}
