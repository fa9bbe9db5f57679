/**
 * executeCheck: chooses the client from the protocol, runs the prober with
 * it and turns any probe error into CRITICAL; and the whole check, the
 * validator followed by executeCheck, as the plugin SDK sequences them.
 */
module Check {
  import opened Wrappers
  import opened Net
  import opened Plugin
  import opened Dns
  import opened Validator
  import opened Prober

  /**
   * The client executeCheck builds for the configured protocol: the
   * default (UDP) client, a TCP client, or a TCP-over-TLS client that checks
   * the server certificate against the configured name; None for any other
   * protocol.
   */
  function SelectClient(cfg: Config): (c: Option<Client>)
    ensures c.Some? <==> IsValidProtocol(cfg.protocol)
    ensures c.Some? ==> (c.value.net == NetUdp <==> cfg.protocol == "udp")
    ensures c.Some? ==> (c.value.net == NetTcp <==> cfg.protocol == "tcp")
    ensures c.Some? ==> (c.value.net == NetTcpTls <==> cfg.protocol == "dot")
    ensures c.Some? ==> (c.value.tlsConfig.Some? <==> cfg.protocol == "dot")
    ensures c.Some? && c.value.tlsConfig.Some? ==> c.value.tlsConfig.value.serverName == cfg.serverName
  {
    if cfg.protocol == "udp" then Some(Client(NetUdp, None))
    else if cfg.protocol == "tcp" then Some(Client(NetTcp, None))
    else if cfg.protocol == "dot" then Some(Client(NetTcpTls, Some(TlsConfig(cfg.serverName))))
    else None
  }

  /** How executeCheck ends: it returns a state, or the probe's panic propagates. */
  datatype Exit = Exit(state: CheckState) | Panic(query: RRType)

  /** An ending together with the requests sent on the way, in order. */
  datatype Execution = Execution(exit: Exit, sent: seq<Request>)

  /** What executeCheck returns for a probe outcome: CRITICAL on an error, the probe's state otherwise. */
  function ExitOf(outcome: ProbeOutcome): (exit: Exit)
    ensures outcome.Panicked? <==> exit.Panic?
    ensures outcome.ExchangeFailed? ==> exit == Exit(Critical)
    ensures outcome.NoRecords? ==> exit == Exit(Warning)
    ensures outcome.Resolved? ==> exit == Exit(OK)
  {
    if outcome.Panicked? then Panic(outcome.query)
    else if outcome.Err().Some? then Exit(Critical)
    else Exit(outcome.State())
  }

  /** The specification of executeCheck. */
  function Execute(cfg: Config, parseIP: IPParser, respond: Request -> Reply): (e: Execution)
    ensures e.sent == [] <==> !IsValidProtocol(cfg.protocol)
    ensures |e.sent| <= 2
  {
    match SelectClient(cfg)
    case None => Execution(Exit(OK), [])
    case Some(c) =>
      var run := Probe(cfg, parseIP, cfg.server, c, respond);
      Execution(ExitOf(run.outcome), run.sent)
  }

  /** executeCheck. */
  method ExecuteCheck(cfg: Config, parseIP: IPParser, net: Network) returns (exit: Exit)
    modifies net
    ensures exit == Execute(cfg, parseIP, net.respond).exit
    ensures net.sent == old(net.sent) + Execute(cfg, parseIP, net.respond).sent
  {
    var state := OK;
    var err: Option<string> := None;
    if cfg.protocol == "udp" {
      var c := Client(NetUdp, None);
      var outcome := CheckDNS(cfg, parseIP, cfg.server, c, net);
      if outcome.Panicked? {
        return Panic(outcome.query);
      }
      state, err := outcome.State(), outcome.Err();
    } else if cfg.protocol == "tcp" {
      var c := Client(NetTcp, None);
      var outcome := CheckDNS(cfg, parseIP, cfg.server, c, net);
      if outcome.Panicked? {
        return Panic(outcome.query);
      }
      state, err := outcome.State(), outcome.Err();
    } else if cfg.protocol == "dot" {
      var c := Client(NetTcpTls, Some(TlsConfig(cfg.serverName)));
      var outcome := CheckDNS(cfg, parseIP, cfg.server, c, net);
      if outcome.Panicked? {
        return Panic(outcome.query);
      }
      state, err := outcome.State(), outcome.Err();
    }
    if err.Some? {
      return Exit(Critical);
    }
    return Exit(state);
  }

  /** For a protocol none of the branches matches, executeCheck sends nothing and returns OK (state 0). */
  lemma UnknownProtocolSkipsProbe(cfg: Config, parseIP: IPParser, respond: Request -> Reply)
    requires !IsValidProtocol(cfg.protocol)
    ensures Execute(cfg, parseIP, respond) == Execution(Exit(OK), [])
    ensures Execute(cfg, parseIP, respond).exit.state.Code() == 0
  {
  }

  /** Every error the probe returns becomes CRITICAL. */
  lemma ProbeErrorIsCritical(cfg: Config, parseIP: IPParser, respond: Request -> Reply)
    requires SelectClient(cfg).Some?
    requires Probe(cfg, parseIP, cfg.server, SelectClient(cfg).value, respond).outcome.ExchangeFailed?
    ensures Execute(cfg, parseIP, respond).exit == Exit(Critical)
  {
  }

  /**
   * The whole check: the validator, and executeCheck only when it lets the
   * configuration through; a rejection is a WARNING and sends nothing.
   */
  function RunCheck(cfg: Config, parseIP: IPParser, respond: Request -> Reply): (e: Execution)
    ensures e.sent != [] <==> CheckArgs(cfg, parseIP) == Proceed
    ensures CheckArgs(cfg, parseIP).Reject? ==> e.exit == Exit(Warning)
  {
    match CheckArgs(cfg, parseIP)
    case Reject(_) => Execution(Exit(Warning), [])
    case Proceed => Execute(cfg, parseIP, respond)
  }

  /** The validator is what keeps executeCheck out of its fall-through: a validated protocol always has a client. */
  lemma ValidatedConfigHasClient(cfg: Config, parseIP: IPParser)
    requires CheckArgs(cfg, parseIP) == Proceed
    ensures SelectClient(cfg).Some?
  {
  }

  /** Over DNS over TLS, every request goes through a TLS client checking the configured, non-empty server name. */
  lemma DotQueriesCheckServerName(cfg: Config, parseIP: IPParser, respond: Request -> Reply)
    requires CheckArgs(cfg, parseIP) == Proceed && cfg.protocol == "dot"
    ensures cfg.serverName != ""
    ensures forall k :: 0 <= k < |RunCheck(cfg, parseIP, respond).sent| ==>
      RunCheck(cfg, parseIP, respond).sent[k].client == Client(NetTcpTls, Some(TlsConfig(cfg.serverName)))
  {
  }

  /**
   * The exits of one check run. Rejected: WARNING, nothing sent. Failed
   * after A: CRITICAL, only the A query sent. Failed after AAAA: CRITICAL,
   * both sent. Evaluated: WARNING when both answer sections are empty, OK
   * otherwise. The state is always one of the three exit codes.
   */
  lemma CheckExits(cfg: Config, parseIP: IPParser, respond: Request -> Reply)
    ensures CheckArgs(cfg, parseIP).Reject? ==> RunCheck(cfg, parseIP, respond) == Execution(Exit(Warning), [])
    ensures CheckArgs(cfg, parseIP).Proceed? ==>
      var c := SelectClient(cfg).value;
      var queryA := Query(cfg, parseIP, cfg.server, c, TypeA);
      var queryAAAA := Query(cfg, parseIP, cfg.server, c, TypeAAAA);
      var e := RunCheck(cfg, parseIP, respond);
      && (respond(queryA).Failure? ==> e == Execution(Exit(Critical), [queryA]))
      && (respond(queryA).Success? && Collected(respond(queryA).answer, TypeA).Some? ==>
            && e.sent == [queryA, queryAAAA]
            && (respond(queryAAAA).Failure? ==> e.exit == Exit(Critical))
            && (respond(queryAAAA).Success? && Collected(respond(queryAAAA).answer, TypeAAAA).Some? ==>
                  e.exit == Exit(if |respond(queryA).answer| + |respond(queryAAAA).answer| == 0 then Warning else OK)))
    ensures RunCheck(cfg, parseIP, respond).exit.Exit? ==> RunCheck(cfg, parseIP, respond).exit.state.Code() in {0, 1, 2}
  {
  }
}
