# sensu-dns-server-check, modelled in Dafny

The check asks one DNS server to resolve one name and reports OK, WARNING
or CRITICAL to the monitoring agent. It has two stages. The validator
(`checkArgs`, `isValidProtocol`) refuses a bad configuration with a WARNING.
Those checks are: a server is given, it is an IP literal, the protocol is
`udp`, `tcp` or `dot`, and a TLS server name is given for `dot`. The prober
(`executeCheck`, `checkDNS`) picks a client for the protocol. It sends an A
query and then an AAAA query for `record + "."` to `[server]:port`. It
gathers the addresses of both answer sections in order and maps the result
to a state.

Layout, one module per file:

- `wrappers.dfy`: `Option`.
- `plugin.dfy`: the configuration record, its defaults (53, `udp`,
  `sensu.io`) and the three check states with their exit codes.
- `net.dfy`: `net.IP`, `ParseIP` and `IP.To16`. `ParseIP` is a
  function-typed parameter of type `IPParser`. Its subset constraint is the
  library's one guarantee: a parsed address always comes back in 16-byte
  form.
- `strconv.dfy`: `strconv.Itoa`, and a reference decimal reader that undoes it.
- `dns.dfy`: record types, questions, answers and client settings. `Msg` is
  a class whose `SetQuestion` replaces the question section. `Network`
  stands in for the wire: a fixed answer function from request to reply,
  and a log of every request sent.
- `validator.dfy`: `checkArgs` and `isValidProtocol`, as functions.
- `prober.dfy`: `checkDNS` as a method, with its answer loop, proved equal
  to the specification function `Probe`.
- `check.dfy`: `executeCheck` as a method, proved equal to `Execute`;
  `RunCheck` chains the validator and `executeCheck`.

`main.go` writes the A round and the AAAA round out twice, inline. Here the
round is one method, `QueryRound`, called twice, and its answer loop is
`AppendAnswers`. `CheckDNS` is proved equal to the function `Probe` of the
network's answers. So two probes against the same answers give the same
outcome, with the same records in the same order.

Behaviour of `main.go` worth knowing:

- An IPv4 server is bracketed too (`[1.2.3.4]:53`). `ParseIP` returns every
  address in 16-byte form, so `To16` is never nil after a successful parse
  (main.go:159-161).
- An answer of the wrong type is a panic that escapes `executeCheck`;
  `executeCheck` does not turn it into CRITICAL itself. The model's
  `Panicked` / `Panic` outcomes stand for it.
- `executeCheck` on its own returns state 0 (OK) and sends nothing for a
  protocol outside the three. Only the validator rules this out.
- The port is never validated. `Itoa` renders any integer, negative ones included.

## Model

| member | source | states |
|---|---|---|
| `Plugin.CheckState.Code` | main.go:104-118 | The plugin SDK's state constants are the exit codes 0 for OK, 1 for WARNING, 2 for CRITICAL. Code 0 is OK and code 2 is CRITICAL, each in both directions. |
| `Net.To16` | main.go:159-160 | `To16` is non-nil exactly for 4- or 16-byte addresses. Its result is always 16 bytes long. An IPv4 address becomes its IPv4-mapped form. |
| `Strconv.Itoa` | main.go:168 | The port text is non-empty. It starts with `-` exactly for a negative port, the rest is digits, and it never holds `:`. |
| `Strconv.ItoaRoundTrip` | main.go:168 | Reading the numeral back gives the same integer, so `Itoa` loses nothing. |
| `Strconv.ItoaInjective` | main.go:168 | Distinct ports give distinct numerals. |
| `Dns.Msg.constructor` | main.go:165 | A new message has no question and no flags. |
| `Dns.Msg.SetQuestion` | main.go:167 | The question section becomes exactly one question (name, type, class IN). It replaces the old section rather than adding to it. Recursion desired is set. |
| `Dns.Network.Exchange` | main.go:168 | One request (client, current question section, address) is appended to the log. The reply is the network's answer to that request. |
| `Validator.IsValidProtocol` | main.go:147-156 | True exactly for `udp`, `tcp` and `dot`. |
| `Validator.CheckArgs` | main.go:104-118 | Proceeds exactly when all four checks pass. Otherwise it rejects with an error whose check fails while every earlier check passes (first failure in order). |
| `Validator.CheckArgsAccepts` | main.go:104-118 | Proceeds (state OK) exactly when the server is non-empty, it parses as an IP, the protocol is one of the three, and `dot` comes with a TLS server name. |
| `Validator.ArgsResult.State` | main.go:105-117 | The state `checkArgs` returns: OK exactly when it proceeds, WARNING on every rejection, never CRITICAL. |
| `Validator.ArgsResult.Err` | main.go:105-117 | The error `checkArgs` returns: nil exactly when it proceeds, otherwise the rejected check's message. |
| `Validator.RejectionIsWarning` | main.go:105-116 | A rejection returns WARNING with that error's message. |
| `Validator.DotWithServerNameProceeds` | main.go:114-117 | `dot` with a server name and an otherwise valid configuration is accepted. |
| `Validator.MessagesDistinct` | main.go:106-115 | The four messages differ, so the message names the failed check. |
| `Prober.Endpoint` | main.go:159-162 | The address is `[server]:port` whenever the server parses, IPv4 included. Otherwise it is `server:port`. |
| `Prober.EndpointRoundTrip` | main.go:159-168 | For a parsed server, splitting the endpoint at its last `:` and unbracketing gives back the server and the port. |
| `Prober.IPv4ServerIsBracketed` | main.go:159-161 | `1.2.3.4` on port 53 gives `[1.2.3.4]:53`. |
| `Prober.Collected` | main.go:173-177 | Defined exactly when every answer has the asked type. The addresses then keep the answer count and response order. |
| `Prober.ProbeOutcome.State` | main.go:170-199 | The state `checkDNS` returns: CRITICAL exactly for a failed exchange, WARNING exactly for no records, OK exactly for records found. |
| `Prober.ProbeOutcome.Err` | main.go:170-199 | The error `checkDNS` returns: non-nil exactly for a failed exchange, and then that exchange's error. |
| `Prober.RoundMeaning` | main.go:167-177 | One query round (also main.go:181-191). It fails exactly when the exchange fails, and then carries its error. It panics exactly when the reply holds an answer of another type. Otherwise the records so far are kept and followed by every answer's address, in response order. |
| `Prober.Probe` | main.go:158-200 | A probe sends one or two requests. A resolved outcome has at least one record. |
| `Prober.AFailureEndsProbe` | main.go:168-172 | A failed A exchange gives CRITICAL with its error, and only the A request is sent. |
| `Prober.AAAAFailureIsCritical` | main.go:182-186 | A failed AAAA exchange gives CRITICAL with its error, whatever the A answers held. Both requests are sent. |
| `Prober.RecordsInResponseOrder` | main.go:163-199 | After two well-typed answers, records are the A addresses then the AAAA addresses in order, and their count is the number of A answers plus the number of AAAA answers. The state is WARNING (naming the record) exactly when there are none, OK otherwise. |
| `Prober.OneOfEachResolvesInOrder` | main.go:173-191 | One A and one AAAA answer resolve to both addresses, A first. |
| `Prober.MismatchedAnswerPanics` | main.go:173-191 | A non-A record in the A reply panics in the A round, in both directions. A non-AAAA record in the AAAA reply, after a clean A round, panics in the AAAA round. |
| `Prober.QueriesShareEndpoint` | main.go:165-182 | Every request uses the same client and endpoint and carries exactly one question for `record + "."`. The A question comes first, then AAAA. |
| `Prober.AppendAnswers` | main.go:173-177 | The loop appends the addresses of all answers, in order, to the records so far. It gives None exactly when some answer has the wrong type. |
| `Prober.QueryRound` | main.go:180-191 | Sets the one question, logs exactly one request, and ends as `Round` says: error, panic, or the extended records. |
| `Prober.CheckDNS` | main.go:158-200 | The outcome and the requests appended to the log are exactly those of `Probe`. |
| `Check.SelectClient` | main.go:123-139 | A client exists exactly for a valid protocol. `udp` gives the default net, `tcp` gives `tcp`, and `dot` gives `tcp-tls` with TLS ServerName equal to the configured name. Only `dot` has TLS settings. |
| `Check.ExitOf` | main.go:140-144 | A probe error gives CRITICAL, no records gives WARNING, records give OK, and a panic propagates. |
| `Check.Execute` | main.go:120-145 | Nothing is sent exactly when the protocol is invalid. At most two requests are sent. |
| `Check.ExecuteCheck` | main.go:120-145 | The exit and the requests appended to the log are exactly those of `Execute`. |
| `Check.UnknownProtocolSkipsProbe` | main.go:121-144 | An unknown protocol sends nothing and returns OK (state 0). |
| `Check.ProbeErrorIsCritical` | main.go:140-143 | Any exchange error of the probe becomes CRITICAL. |
| `Check.RunCheck` | main.go:100-101 | Requests are sent exactly when the validator proceeds. A rejection is a WARNING. |
| `Check.ValidatedConfigHasClient` | main.go:111-139 | A validated configuration always has a client, so the fall-through is unreachable. |
| `Check.DotQueriesCheckServerName` | main.go:131-138 | Over `dot`, the server name is non-empty. Every request goes through the TLS client that checks the configured name. |
| `Check.CheckExits` | main.go:104-199 | The exits of a run. Rejected gives WARNING with nothing sent. A failure after A gives CRITICAL with only A sent. A failure after AAAA gives CRITICAL with both sent. Otherwise the run gives WARNING exactly when both answer sections are empty, and OK otherwise. |

## Left out

- `main` (main.go:87-102) is left out: the stdin named-pipe test and the handover to the plugin SDK's `NewGoCheck`/`Execute`. The SDK is not part of this model. `RunCheck` rests on an assumption about it: it calls `checkArgs`, stops on a rejection, and only then calls `executeCheck`. For this `checkArgs` a non-OK state and a non-nil error always go together (`Validator.ArgsResult.State`, `Validator.ArgsResult.Err`), so it does not matter which of the two the SDK tests.
- The flag and environment bindings (main.go:28-85) are not modelled. The configuration is a plain value, and the defaults appear as constants.
- The `fmt.Printf` lines are not modelled, nor the rendering of the address list. The model keeps the state, the error value and an outcome tag (record name, records).
- Sockets, timeouts, TLS handshakes and the message ID (drawn at random) are left out. Each exchange's result comes from the `Network`'s answer function.
- The literal grammar of `net.ParseIP` is left out. It is a parameter, constrained only to return 16-byte addresses.
- The process crash a panic causes is not modelled. The run ends in the `Panic` exit instead. A Go panic that nothing recovers ends the process with exit status 2, which the agent reads as CRITICAL, so to the agent a `Panic` exit looks like CRITICAL.
