/**
 * The validator: the checks run on the configuration before any query is
 * sent. They run in a fixed order and the first that fails decides the
 * WARNING and its message.
 */
module Validator {
  import opened Wrappers
  import opened Net
  import opened Plugin

  /** The transports the check knows: plain UDP, plain TCP, DNS over TLS (RFC 7858). */
  const Protocols: set<string> := {"udp", "tcp", "dot"}

  /** isValidProtocol. */
  function IsValidProtocol(protocol: string): (valid: bool)
    ensures valid <==> protocol in Protocols
  {
    match protocol
    case "udp" => true
    case "tcp" => true
    case "dot" => true
    case _ => false
  }

  /** The reasons a configuration is refused, in the order they are checked. */
  datatype ConfigError = MissingServer | InvalidServerIP | UnknownProtocol | MissingServerName {
    /** Position of the check that reports this error. */
    function Rank(): nat {
      match this
      case MissingServer => 0
      case InvalidServerIP => 1
      case UnknownProtocol => 2
      case MissingServerName => 3
    }

    /** The text of the error value returned with the WARNING. */
    function Message(): string {
      match this
      case MissingServer => "--server or CHECK_SERVER environment variable is required"
      case InvalidServerIP => "no valid server IP"
      case UnknownProtocol => "unknown Protocol"
      case MissingServerName => "--server-name or CHECK_SERVER_NAME environment variable is required for protocol DoT"
    }
  }

  /** The condition whose failure reports e. */
  predicate Passes(e: ConfigError, cfg: Config, parseIP: IPParser) {
    match e
    case MissingServer => |cfg.server| != 0
    case InvalidServerIP => parseIP(cfg.server).Some?
    case UnknownProtocol => IsValidProtocol(cfg.protocol)
    case MissingServerName => !(cfg.protocol == "dot" && |cfg.serverName| == 0)
  }

  /** The validator's answer: go on to the probe, or stop with a configuration error. */
  datatype ArgsResult = Proceed | Reject(error: ConfigError) {
    /** The state returned: OK to proceed, WARNING on a rejection. */
    function State(): (state: CheckState)
      ensures state == OK <==> Proceed?
      ensures state != Critical
    {
      if Proceed? then OK else Warning
    }

    /** The error value returned: nil to proceed, the error's message on a rejection. */
    function Err(): (e: Option<string>)
      ensures e.None? <==> Proceed?
      ensures Reject? ==> e == Some(error.Message())
    {
      if Proceed? then None else Some(error.Message())
    }
  }

  /**
   * checkArgs. Proceeds exactly when every check passes; otherwise rejects
   * with the first check, in order, that fails.
   */
  function CheckArgs(cfg: Config, parseIP: IPParser): (r: ArgsResult)
    ensures r.Proceed? <==> forall e: ConfigError :: Passes(e, cfg, parseIP)
    ensures r.Reject? ==> !Passes(r.error, cfg, parseIP)
    ensures r.Reject? ==> forall e: ConfigError :: e.Rank() < r.error.Rank() ==> Passes(e, cfg, parseIP)
  {
    if |cfg.server| == 0 then
      assert !Passes(MissingServer, cfg, parseIP);
      Reject(MissingServer)
    else if parseIP(cfg.server) == None then
      assert !Passes(InvalidServerIP, cfg, parseIP);
      Reject(InvalidServerIP)
    else if !IsValidProtocol(cfg.protocol) then
      assert !Passes(UnknownProtocol, cfg, parseIP);
      Reject(UnknownProtocol)
    else if cfg.protocol == "dot" && |cfg.serverName| == 0 then
      assert !Passes(MissingServerName, cfg, parseIP);
      Reject(MissingServerName)
    else
      Proceed
  }

  /** The configurations the validator lets through, stated directly. */
  lemma CheckArgsAccepts(cfg: Config, parseIP: IPParser)
    ensures CheckArgs(cfg, parseIP) == Proceed <==>
      && cfg.server != ""
      && parseIP(cfg.server).Some?
      && cfg.protocol in {"udp", "tcp", "dot"}
      && (cfg.protocol == "dot" ==> cfg.serverName != "")
    ensures CheckArgs(cfg, parseIP).State() == OK <==> CheckArgs(cfg, parseIP) == Proceed
  {
  }

  /** A rejected configuration yields WARNING and the message of its error. */
  lemma RejectionIsWarning(cfg: Config, parseIP: IPParser)
    requires CheckArgs(cfg, parseIP).Reject?
    ensures CheckArgs(cfg, parseIP).State() == Warning
    ensures CheckArgs(cfg, parseIP).Err() == Some(CheckArgs(cfg, parseIP).error.Message())
  {
  }

  /** With protocol "dot", a non-empty TLS server name is not itself a reason to refuse. */
  lemma DotWithServerNameProceeds(cfg: Config, parseIP: IPParser)
    requires cfg.protocol == "dot" && cfg.serverName != ""
    requires cfg.server != "" && parseIP(cfg.server).Some?
    ensures CheckArgs(cfg, parseIP) == Proceed
  {
  }

  /** Distinct errors carry distinct messages, so the message identifies the failed check. */
  lemma MessagesDistinct(e: ConfigError, f: ConfigError)
    requires e.Message() == f.Message()
    ensures e == f
  {
  }
}
