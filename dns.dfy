/**
 * The parts of the DNS client library the check drives: the query message,
 * which the check reuses for both of its questions, the client settings that
 * choose the transport, and the exchange of one query for one response.
 *
 * The network is not modelled. A Network holds a fixed answer function from
 * the request that was sent (client, question section, destination) to the
 * response or the error, and a log of every request sent through it, so that
 * what the check sends, and how often, is part of the model.
 */
module Dns {
  import opened Wrappers
  import opened Net

  /** The record types the check asks for (RFC 1035 section 3.4.1, RFC 3596 section 2.1). */
  datatype RRType = TypeA | TypeAAAA

  /** The Internet class, the only one SetQuestion uses. */
  const ClassINET: nat := 1

  datatype Question = Question(name: string, qtype: RRType, qclass: nat)

  /**
   * One resource record of a response's answer section: an A record, an
   * AAAA record, or a record of any other type (a CNAME, say), carried only
   * by its type code.
   */
  datatype Answer = A(ip: Address) | AAAA(ip: Address) | Other(rrtype: nat) {
    /** Whether a type assertion of this record to the record type t succeeds. */
    predicate Is(t: RRType) {
      match t
      case TypeA => A?
      case TypeAAAA => AAAA?
    }
  }

  /** The TLS settings of a client; only the name the server certificate is checked against matters. */
  datatype TlsConfig = TlsConfig(serverName: string)

  /** A client's settings: its transport ("" is UDP, "tcp", "tcp-tls") and its TLS settings, if any. */
  datatype Client = Client(net: string, tlsConfig: Option<TlsConfig>)

  const NetUdp: string := ""
  const NetTcp: string := "tcp"
  const NetTcpTls: string := "tcp-tls"

  /** What one exchange puts on the wire: the client, the message's header flag and question section, the address. */
  datatype Request = Request(client: Client, question: seq<Question>, recursionDesired: bool, address: string)

  /** The outcome of one exchange: a transport or protocol error, or a response with its answer section. */
  datatype Reply = Failure(err: string) | Success(answer: seq<Answer>)

  /** A query message. The message ID, which the library draws at random, is left out. */
  class Msg {
    var question: seq<Question>
    var recursionDesired: bool

    /** The zero message: no question, no flags. */
    constructor ()
      ensures question == [] && !recursionDesired
    {
      question := [];
      recursionDesired := false;
    }

    /** Makes the message a recursive query for name and type t; the question section is replaced, never extended. */
    method SetQuestion(name: string, t: RRType)
      modifies this
      ensures question == [Question(name, t, ClassINET)]
      ensures recursionDesired
    {
      recursionDesired := true;
      question := [Question(name, t, ClassINET)];
    }
  }

  /** The network as the check sees it: a fixed answer per request, and the log of requests sent. */
  class Network {
    const respond: Request -> Reply
    var sent: seq<Request>

    constructor (respond: Request -> Reply)
      ensures this.respond == respond && sent == []
    {
      this.respond := respond;
      sent := [];
    }

    /** Client.Exchange: sends the message as it is now to address and returns what comes back. */
    method Exchange(c: Client, m: Msg, address: string) returns (r: Reply)
      modifies this
      ensures sent == old(sent) + [Request(c, m.question, m.recursionDesired, address)]
      ensures r == respond(Request(c, m.question, m.recursionDesired, address))
    {
      var request := Request(c, m.question, m.recursionDesired, address);
      sent := sent + [request];
      r := respond(request);
    }
  }
}
