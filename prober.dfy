/**
 * The prober (checkDNS): formats the endpoint, sends an A query and then an
 * AAAA query for the configured record through the given client, gathers
 * the addresses of both answer sections in order, and turns the outcome
 * into a state.
 *
 * Probe is the specification: the outcome and the requests sent, as a
 * function of the configuration, the client and the network's answers.
 * CheckDNS is the step-by-step procedure, proved to agree with it.
 */
module Prober {
  import opened Wrappers
  import opened Net
  import opened Strconv
  import opened Plugin
  import opened Dns

  /**
   * The address queries are sent to. The host is bracketed whenever To16 of
   * the parsed server is non-nil, which holds for every address ParseIP
   * accepts, IPv4 included.
   */
  function Endpoint(parseIP: IPParser, server: string, port: int): (address: string)
    ensures parseIP(server).Some? ==> address == "[" + server + "]" + ":" + Itoa(port)
    ensures parseIP(server).None? ==> address == server + ":" + Itoa(port)
  {
    var host := if To16(parseIP(server)).Some? then "[" + server + "]" else server;
    host + ":" + Itoa(port)
  }

  /** The position of the last ':' in s, if any. */
  function LastColon(s: string): (i: Option<nat>)
    ensures i.Some? ==> i.value < |s| && s[i.value] == ':' && ':' !in s[i.value + 1..]
    ensures i.None? ==> ':' !in s
  {
    if s == [] then None
    else if s[|s| - 1] == ':' then Some(|s| - 1)
    else
      var i := LastColon(s[..|s| - 1]);
      assert s == s[..|s| - 1] + [s[|s| - 1]];
      i
  }

  /**
   * A reading of an endpoint back into host and port: the port is what
   * follows the last ':', the host what precedes it, without its brackets.
   */
  function SplitEndpoint(address: string): Option<(string, int)> {
    match LastColon(address)
    case None => None
    case Some(i) =>
      var host := address[..i];
      var bare := if |host| >= 2 && host[0] == '[' && host[|host| - 1] == ']' then host[1..|host| - 1] else host;
      match ParseInt(address[i + 1..])
      case None => None
      case Some(port) => Some((bare, port))
  }

  /** For a server that parses as an IP, formatting the endpoint loses neither the server nor the port. */
  lemma EndpointRoundTrip(parseIP: IPParser, server: string, port: int)
    requires parseIP(server).Some?
    ensures SplitEndpoint(Endpoint(parseIP, server, port)) == Some((server, port))
  {
    var host := "[" + server + "]";
    var digits := Itoa(port);
    var address := Endpoint(parseIP, server, port);
    assert address == host + ":" + digits;
    var i := LastColon(address);
    assert address[|host|] == ':';
    assert address[|host| + 1..] == digits;
    assert i == Some(|host|);
    assert address[..|host|] == host;
    assert host[1..|host| - 1] == server;
    ItoaRoundTrip(port);
  }

  /** An IPv4 server is bracketed too: "1.2.3.4" on port 53 becomes "[1.2.3.4]:53". */
  lemma IPv4ServerIsBracketed(parseIP: IPParser)
    requires parseIP("1.2.3.4").Some?
    ensures Endpoint(parseIP, "1.2.3.4", 53) == "[1.2.3.4]:53"
  {
  }

  /** The request sent for record type t: one question for the record made absolute, to the endpoint. */
  function Query(cfg: Config, parseIP: IPParser, server: string, c: Client, t: RRType): Request {
    Request(c, [Question(cfg.record + ".", t, ClassINET)], true, Endpoint(parseIP, server, cfg.port))
  }

  /** How a probe ends. */
  datatype ProbeOutcome =
    | ExchangeFailed(query: RRType, err: string)       // an exchange returned an error
    | NoRecords(record: string)                        // both answered, no address between them
    | Resolved(record: string, records: seq<Address>)  // both answered, the addresses found
    | Panicked(query: RRType)                          // an answer of the wrong type: the type assertion panics
  {
    /** The state checkDNS returns; a panic returns nothing. */
    function State(): (state: CheckState)
      requires !Panicked?
      ensures state == Critical <==> ExchangeFailed?
      ensures state == Warning <==> NoRecords?
      ensures state == OK <==> Resolved?
    {
      match this
      case ExchangeFailed(_, _) => Critical
      case NoRecords(_) => Warning
      case Resolved(_, _) => OK
    }

    /** The error checkDNS returns alongside the state. */
    function Err(): (e: Option<string>)
      requires !Panicked?
      ensures e.Some? <==> ExchangeFailed?
      ensures e.Some? ==> e.value == err
    {
      if ExchangeFailed? then Some(err) else None
    }
  }

  /** A probe's outcome together with the requests it sent, in order. */
  datatype Run = Run(outcome: ProbeOutcome, sent: seq<Request>)

  /**
   * The addresses of an answer section in which every record has type t,
   * in response order; None when a record of another type is present.
   */
  function Collected(answers: seq<Answer>, t: RRType): (r: Option<seq<Address>>)
    ensures r.Some? <==> forall i :: 0 <= i < |answers| ==> answers[i].Is(t)
    ensures r.Some? ==> |r.value| == |answers|
    ensures r.Some? ==> forall i :: 0 <= i < |answers| ==> r.value[i] == answers[i].ip
    decreases |answers|
  {
    if answers == [] then Some([])
    else
      var last := answers[|answers| - 1];
      match Collected(answers[..|answers| - 1], t)
      case None => None
      case Some(xs) => if last.Is(t) then Some(xs + [last.ip]) else None
  }

  /** How one query round ends: the exchange failed, an answer had the wrong type, or the addresses so far. */
  datatype Step = StepFailed(err: string) | StepPanicked | StepCollected(records: seq<Address>)

  /**
   * One query round: send request, and append the addresses of the answer
   * section, all of record type t, to records.
   */
  function Round(respond: Request -> Reply, request: Request, t: RRType, records: seq<Address>): Step {
    match respond(request)
    case Failure(err) => StepFailed(err)
    case Success(answer) =>
      match Collected(answer, t)
      case None => StepPanicked
      case Some(found) => StepCollected(records + found)
  }

  /**
   * What a round ends in: the exchange's error exactly when it fails; a panic
   * exactly when the reply holds an answer of another type; otherwise the
   * records so far followed by every answer's address, in response order.
   */
  lemma RoundMeaning(respond: Request -> Reply, request: Request, t: RRType, records: seq<Address>)
    ensures Round(respond, request, t, records).StepFailed? <==> respond(request).Failure?
    ensures Round(respond, request, t, records).StepFailed? ==>
      Round(respond, request, t, records).err == respond(request).err
    ensures Round(respond, request, t, records).StepPanicked? <==>
      respond(request).Success? && exists i :: 0 <= i < |respond(request).answer| && !respond(request).answer[i].Is(t)
    ensures Round(respond, request, t, records).StepCollected? ==>
      var found := Round(respond, request, t, records).records;
      var answer := respond(request).answer;
      && |found| == |records| + |answer|
      && found[..|records|] == records
      && forall i :: 0 <= i < |answer| ==> found[|records| + i] == answer[i].ip
  {
  }

  /** The specification of checkDNS: the A round, then, if it collected, the AAAA round, then the verdict. */
  function Probe(cfg: Config, parseIP: IPParser, server: string, c: Client, respond: Request -> Reply): (run: Run)
    ensures 1 <= |run.sent| <= 2
    ensures run.outcome.Resolved? ==> |run.outcome.records| > 0
  {
    var queryA := Query(cfg, parseIP, server, c, TypeA);
    match Round(respond, queryA, TypeA, [])
    case StepFailed(err) => Run(ExchangeFailed(TypeA, err), [queryA])
    case StepPanicked => Run(Panicked(TypeA), [queryA])
    case StepCollected(fromA) =>
      var queryAAAA := Query(cfg, parseIP, server, c, TypeAAAA);
      var sent := [queryA, queryAAAA];
      match Round(respond, queryAAAA, TypeAAAA, fromA)
      case StepFailed(err) => Run(ExchangeFailed(TypeAAAA, err), sent)
      case StepPanicked => Run(Panicked(TypeAAAA), sent)
      case StepCollected(records) =>
        if |records| == 0 then Run(NoRecords(cfg.record), sent)
        else Run(Resolved(cfg.record, records), sent)
  }

  /** If the A exchange fails the probe is CRITICAL with that error, and the AAAA query is never sent. */
  lemma AFailureEndsProbe(cfg: Config, parseIP: IPParser, server: string, c: Client, respond: Request -> Reply)
    requires respond(Query(cfg, parseIP, server, c, TypeA)).Failure?
    ensures Probe(cfg, parseIP, server, c, respond).outcome
         == ExchangeFailed(TypeA, respond(Query(cfg, parseIP, server, c, TypeA)).err)
    ensures Probe(cfg, parseIP, server, c, respond).outcome.State() == Critical
    ensures Probe(cfg, parseIP, server, c, respond).sent == [Query(cfg, parseIP, server, c, TypeA)]
  {
  }

  /** If the AAAA exchange fails the probe is CRITICAL with that error, however many A records came back. */
  lemma AAAAFailureIsCritical(cfg: Config, parseIP: IPParser, server: string, c: Client, respond: Request -> Reply,
                              answerA: seq<Answer>)
    requires respond(Query(cfg, parseIP, server, c, TypeA)) == Success(answerA)
    requires forall i :: 0 <= i < |answerA| ==> answerA[i].Is(TypeA)
    requires respond(Query(cfg, parseIP, server, c, TypeAAAA)).Failure?
    ensures Probe(cfg, parseIP, server, c, respond).outcome
         == ExchangeFailed(TypeAAAA, respond(Query(cfg, parseIP, server, c, TypeAAAA)).err)
    ensures Probe(cfg, parseIP, server, c, respond).outcome.State() == Critical
    ensures Probe(cfg, parseIP, server, c, respond).sent
         == [Query(cfg, parseIP, server, c, TypeA), Query(cfg, parseIP, server, c, TypeAAAA)]
  {
  }

  /**
   * When both exchanges answer with records of the asked type, the records
   * are the A addresses in response order followed by the AAAA addresses in
   * response order, none dropped and none merged; the state is WARNING, with
   * the queried record named, exactly when there are none, and OK otherwise.
   */
  lemma RecordsInResponseOrder(cfg: Config, parseIP: IPParser, server: string, c: Client, respond: Request -> Reply,
                               answerA: seq<Answer>, answerAAAA: seq<Answer>)
    requires respond(Query(cfg, parseIP, server, c, TypeA)) == Success(answerA)
    requires respond(Query(cfg, parseIP, server, c, TypeAAAA)) == Success(answerAAAA)
    requires forall i :: 0 <= i < |answerA| ==> answerA[i].Is(TypeA)
    requires forall j :: 0 <= j < |answerAAAA| ==> answerAAAA[j].Is(TypeAAAA)
    ensures var run := Probe(cfg, parseIP, server, c, respond);
      && run.sent == [Query(cfg, parseIP, server, c, TypeA), Query(cfg, parseIP, server, c, TypeAAAA)]
      && (run.outcome.NoRecords? || run.outcome.Resolved?)
      && (run.outcome.State() == Warning <==> |answerA| + |answerAAAA| == 0)
      && (run.outcome.State() == OK <==> |answerA| + |answerAAAA| > 0)
      && (run.outcome.NoRecords? ==> run.outcome.record == cfg.record)
      && (run.outcome.Resolved? ==>
            && |run.outcome.records| == |answerA| + |answerAAAA|
            && (forall i :: 0 <= i < |answerA| ==> run.outcome.records[i] == answerA[i].ip)
            && (forall j :: 0 <= j < |answerAAAA| ==> run.outcome.records[|answerA| + j] == answerAAAA[j].ip))
  {
    var queryA := Query(cfg, parseIP, server, c, TypeA);
    var queryAAAA := Query(cfg, parseIP, server, c, TypeAAAA);
    var fromA := Collected(answerA, TypeA).value;
    var fromAAAA := Collected(answerAAAA, TypeAAAA).value;
    assert [] + fromA == fromA;
    assert Round(respond, queryA, TypeA, []) == StepCollected(fromA);
    assert Round(respond, queryAAAA, TypeAAAA, fromA) == StepCollected(fromA + fromAAAA);
    var run := Probe(cfg, parseIP, server, c, respond);
    if |fromA + fromAAAA| == 0 {
      assert run == Run(NoRecords(cfg.record), [queryA, queryAAAA]);
    } else {
      assert run == Run(Resolved(cfg.record, fromA + fromAAAA), [queryA, queryAAAA]);
    }
  }

  /** The example of one A and one AAAA answer: both addresses, A first. */
  lemma OneOfEachResolvesInOrder(cfg: Config, parseIP: IPParser, server: string, c: Client, respond: Request -> Reply,
                                 v4: Address, v6: Address)
    requires respond(Query(cfg, parseIP, server, c, TypeA)) == Success([A(v4)])
    requires respond(Query(cfg, parseIP, server, c, TypeAAAA)) == Success([AAAA(v6)])
    ensures Probe(cfg, parseIP, server, c, respond).outcome == Resolved(cfg.record, [v4, v6])
  {
  }

  /**
   * An answer of the wrong type is a panic, not a skip: the probe panics in
   * the A round exactly when the A response holds a non-A record, and in the
   * AAAA round exactly when the A round collected and the AAAA response holds
   * a non-AAAA record.
   */
  lemma MismatchedAnswerPanics(cfg: Config, parseIP: IPParser, server: string, c: Client, respond: Request -> Reply)
    ensures var reply := respond(Query(cfg, parseIP, server, c, TypeA));
      Probe(cfg, parseIP, server, c, respond).outcome == Panicked(TypeA) <==>
        reply.Success? && exists i :: 0 <= i < |reply.answer| && !reply.answer[i].Is(TypeA)
    ensures var replyA := respond(Query(cfg, parseIP, server, c, TypeA));
      var replyAAAA := respond(Query(cfg, parseIP, server, c, TypeAAAA));
      Probe(cfg, parseIP, server, c, respond).outcome == Panicked(TypeAAAA) <==>
        && replyA.Success? && (forall i :: 0 <= i < |replyA.answer| ==> replyA.answer[i].Is(TypeA))
        && replyAAAA.Success? && exists j :: 0 <= j < |replyAAAA.answer| && !replyAAAA.answer[j].Is(TypeAAAA)
  {
  }

  /**
   * Every request of a probe goes through the same client to the same
   * endpoint and carries exactly one question, for the record made absolute:
   * the second question replaces the first. The A query comes first.
   */
  lemma QueriesShareEndpoint(cfg: Config, parseIP: IPParser, server: string, c: Client, respond: Request -> Reply)
    ensures var sent := Probe(cfg, parseIP, server, c, respond).sent;
      && sent[0].question == [Question(cfg.record + ".", TypeA, ClassINET)]
      && (|sent| == 2 ==> sent[1].question == [Question(cfg.record + ".", TypeAAAA, ClassINET)])
      && forall k :: 0 <= k < |sent| ==>
           && sent[k].client == c
           && sent[k].address == Endpoint(parseIP, server, cfg.port)
           && sent[k].recursionDesired
  {
  }

  /** records followed by the addresses found, or None when the answers could not be collected. */
  function Extended(records: seq<Address>, found: Option<seq<Address>>): Option<seq<Address>> {
    match found
    case None => None
    case Some(xs) => Some(records + xs)
  }

  /**
   * One of the two answer loops: appends the address of every record of
   * answers to records, in order; None where the type assertion panics.
   */
  method AppendAnswers(records: seq<Address>, answers: seq<Answer>, t: RRType) returns (r: Option<seq<Address>>)
    ensures r == Extended(records, Collected(answers, t))
  {
    var acc := records;
    var i := 0;
    while i < |answers|
      invariant 0 <= i <= |answers|
      invariant Collected(answers[..i], t).Some?
      invariant acc == records + Collected(answers[..i], t).value
    {
      var ans := answers[i];
      if !ans.Is(t) {
        return None;
      }
      acc := acc + [ans.ip];
      assert answers[..i + 1][..i] == answers[..i];
      i := i + 1;
    }
    assert answers[..i] == answers;
    return Some(acc);
  }

  /**
   * One query round of checkDNS: set the message's question, exchange it,
   * and append the addresses of the answer section to records.
   */
  method QueryRound(net: Network, c: Client, m: Msg, name: string, t: RRType, address: string, records: seq<Address>)
    returns (step: Step)
    modifies net, m
    ensures m.question == [Question(name, t, ClassINET)] && m.recursionDesired
    ensures step == Round(net.respond, Request(c, [Question(name, t, ClassINET)], true, address), t, records)
    ensures net.sent == old(net.sent) + [Request(c, [Question(name, t, ClassINET)], true, address)]
  {
    m.SetQuestion(name, t);
    var r := net.Exchange(c, m, address);
    if r.Failure? {
      return StepFailed(r.err);
    }
    if |r.answer| != 0 {
      var appended := AppendAnswers(records, r.answer, t);
      if appended.None? {
        return StepPanicked;
      }
      return StepCollected(appended.value);
    }
    assert records + [] == records;
    return StepCollected(records);
  }

  /** checkDNS. */
  method CheckDNS(cfg: Config, parseIP: IPParser, server: string, c: Client, net: Network) returns (outcome: ProbeOutcome)
    modifies net
    ensures outcome == Probe(cfg, parseIP, server, c, net.respond).outcome
    ensures net.sent == old(net.sent) + Probe(cfg, parseIP, server, c, net.respond).sent
  {
    var host := server;
    var ip := parseIP(server);
    if To16(ip).Some? {
      host := "[" + server + "]";
    }
    var records: seq<Address> := [];
    var m := new Msg();
    var address := host + ":" + Itoa(cfg.port);
    assert address == Endpoint(parseIP, server, cfg.port);

    var step := QueryRound(net, c, m, cfg.record + ".", TypeA, address, records);
    match step {
      case StepFailed(err) => return ExchangeFailed(TypeA, err);
      case StepPanicked => return Panicked(TypeA);
      case StepCollected(found) => records := found;
    }

    step := QueryRound(net, c, m, cfg.record + ".", TypeAAAA, address, records);
    match step {
      case StepFailed(err) => return ExchangeFailed(TypeAAAA, err);
      case StepPanicked => return Panicked(TypeAAAA);
      case StepCollected(found) => records := found;
    }

    if |records| == 0 {
      return NoRecords(cfg.record);
    }
    return Resolved(cfg.record, records);
  }
}
