/** Errors a ticket provider returns (internal/providers/ticket/create_error.go): Go's
    wrapped error chains, `errors.As` over them, and the question whether a failed create
    proves that the tracker stored nothing. */
module TicketErrors {
  import opened Wrappers
  import opened Strings

  datatype Error =
    | Text(text: string)
    | Wrap(context: string, cause: Error)       // fmt.Errorf("context: %w", cause)
    | Join(causes: seq<Error>)                  // errors.Join
    | HttpStatus(code: nat, body: string)       // *httpStatusError
    | NotSent(reason: Error)                    // *notSentError
    | Dns(text: string)                         // *net.DNSError
    | NetOp(op: string, cause: Error)           // *net.OpError

  /** err.Error(). */
  function Message(e: Error): string {
    match e
    case Text(text) => text
    case Wrap(context, cause) => context + ": " + Message(cause)
    case Join(causes) => JoinedMessage(causes)
    case HttpStatus(code, body) => "unexpected status " + Itoa(code) + ": " + TrimSpace(body)
    case NotSent(reason) => Message(reason)
    case Dns(text) => text
    case NetOp(op, cause) => op + ": " + Message(cause)
  }

  function JoinedMessage(causes: seq<Error>): string {
    if causes == [] then ""
    else if |causes| == 1 then Message(causes[0])
    else Message(causes[0]) + "\n" + JoinedMessage(causes[1..])
  }

  /** errors.As(err, *notSentError). */
  predicate HasNotSent(e: Error) {
    match e
    case NotSent(_) => true
    case Wrap(_, cause) => HasNotSent(cause)
    case NetOp(_, cause) => HasNotSent(cause)
    case Join(causes) => exists c | c in causes :: HasNotSent(c)
    case _ => false
  }

  /** errors.As(err, *net.DNSError). */
  predicate HasDns(e: Error) {
    match e
    case Dns(_) => true
    case NotSent(reason) => HasDns(reason)
    case Wrap(_, cause) => HasDns(cause)
    case NetOp(_, cause) => HasDns(cause)
    case Join(causes) => exists c | c in causes :: HasDns(c)
    case _ => false
  }

  /** errors.As(err, *httpStatusError): the code of the first one, depth first. */
  function FirstStatus(e: Error): Option<nat> {
    match e
    case HttpStatus(code, _) => Some(code)
    case NotSent(reason) => FirstStatus(reason)
    case Wrap(_, cause) => FirstStatus(cause)
    case NetOp(_, cause) => FirstStatus(cause)
    case Join(causes) => FirstStatusIn(causes)
    case _ => None
  }

  function FirstStatusIn(causes: seq<Error>): Option<nat> {
    if causes == [] then None
    else
      var first := FirstStatus(causes[0]);
      if first.Some? then first else FirstStatusIn(causes[1..])
  }

  /** errors.As(err, *net.OpError): the operation of the first one, depth first. */
  function FirstNetOp(e: Error): Option<string> {
    match e
    case NetOp(op, _) => Some(op)
    case NotSent(reason) => FirstNetOp(reason)
    case Wrap(_, cause) => FirstNetOp(cause)
    case Join(causes) => FirstNetOpIn(causes)
    case _ => None
  }

  function FirstNetOpIn(causes: seq<Error>): Option<string> {
    if causes == [] then None
    else
      var first := FirstNetOp(causes[0]);
      if first.Some? then first else FirstNetOpIn(causes[1..])
  }

  /** The failure proves that the tracker stored no ticket. */
  predicate CreateDefinitelyNotStored(e: Error) {
    if HasNotSent(e) then true
    else if FirstStatus(e).Some? then 400 <= FirstStatus(e).value < 500
    else if HasDns(e) then true
    else FirstNetOp(e) == Some("dial")
  }

  /** An error built by the HTTP stack alone: it carries no error type of the ticket package. */
  predicate FromTransport(e: Error) {
    match e
    case HttpStatus(_, _) => false
    case NotSent(_) => false
    case Wrap(_, cause) => FromTransport(cause)
    case NetOp(_, cause) => FromTransport(cause)
    case Join(causes) => forall c | c in causes :: FromTransport(c)
    case _ => true
  }

  /** The connection was never made: a name lookup failed, or dialling did. */
  predicate NeverConnected(e: Error) {
    HasDns(e) || FirstNetOp(e) == Some("dial")
  }

  lemma {:induction false} TransportHasNoTicketError(e: Error)
    requires FromTransport(e)
    ensures !HasNotSent(e) && FirstStatus(e) == None
  {
    match e
    case Wrap(_, cause) => TransportHasNoTicketError(cause);
    case NetOp(_, cause) => TransportHasNoTicketError(cause);
    case Join(causes) =>
      forall c | c in causes ensures !HasNotSent(c) { TransportHasNoTicketError(c); }
      NoStatusIn(causes);
    case _ =>
  }

  lemma {:induction false} NoStatusIn(causes: seq<Error>)
    requires forall c | c in causes :: FromTransport(c)
    ensures FirstStatusIn(causes) == None
  {
    if causes != [] {
      TransportHasNoTicketError(causes[0]);
      NoStatusIn(causes[1..]);
    }
  }

  /** The verdict on an error that is no chain, and on a failed network operation: nothing
      was stored if nothing was sent, if the tracker refused the request as a client error,
      or if no connection was made. */
  lemma VerdictOfCauses(e: Error)
    requires !e.Wrap? && !e.Join? && (e.NetOp? ==> e.cause.Text? || e.cause.Dns?)
    ensures CreateDefinitelyNotStored(e) <==>
            || e.NotSent?
            || (e.HttpStatus? && 400 <= e.code <= 499)
            || e.Dns?
            || (e.NetOp? && (e.op == "dial" || e.cause.Dns?))
  {
    if e.NetOp? {
      assert HasNotSent(e) == HasNotSent(e.cause) && HasDns(e) == HasDns(e.cause);
      assert FirstStatus(e) == FirstStatus(e.cause);
      assert FirstNetOp(e) == Some(e.op);
    }
  }

  lemma WrappingKeepsVerdict(context: string, e: Error)
    ensures CreateDefinitelyNotStored(Wrap(context, e)) == CreateDefinitelyNotStored(e)
  {
    assert HasNotSent(Wrap(context, e)) == HasNotSent(e);
    assert FirstStatus(Wrap(context, e)) == FirstStatus(e);
    assert HasDns(Wrap(context, e)) == HasDns(e);
    assert FirstNetOp(Wrap(context, e)) == FirstNetOp(e);
  }
}
