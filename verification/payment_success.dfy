/**
 * The payment-confirmation page shown when the customer comes back from the
 * payment provider (frontend/src/pages/PaymentSuccess.js).
 *
 * The page is a small state machine over a status (checking, success,
 * pending, error) and an attempt counter. On entry the return URL selects the
 * path: the PayPal marker goes straight to success, a Stripe session id starts
 * polling, anything else is an error. Each poll either settles the status or
 * counts one more attempt and polls again, and polling stops once the attempt
 * bound is reached.
 *
 * The 2-second timer between polls is not modelled: one call of `Step` is one
 * invocation of the polling routine, and `queries` counts the status requests
 * it issues.
 */
module PaymentSuccess {
  import opened Wrappers

  /** Polling stops once this many attempts have been counted. */
  const MaxAttempts: nat := 5

  datatype Status = Checking | Success | Pending | Error

  /** What one status request returns: the session's `payment_status` and `status`, or a failure. */
  datatype Reply = Reply(paymentStatus: string, sessionStatus: string) | RequestFailed

  /** The page's state, plus the number of status requests issued so far. */
  datatype PollState = PollState(status: Status, attempts: nat, queries: nat)

  /** A status that stops polling for good. */
  predicate IsTerminal(s: Status)
  {
    s != Checking
  }

  /**
   * The state every reachable poll state satisfies: the attempt counter and the
   * number of requests stay within the bound; each request counted one attempt,
   * except the one that settled the status to success or error.
   */
  predicate Inv(s: PollState)
  {
    && s.attempts <= MaxAttempts
    && s.queries <= MaxAttempts
    && (s.queries == s.attempts || (s.queries == s.attempts + 1 && s.status in {Success, Error}))
  }

  /** The value of a URL query parameter when it is present and non-empty (JavaScript truthiness). */
  predicate Truthy(param: Option<string>)
  {
    param.Some? && param.value != ""
  }

  /**
   * The entry effect: which path the return URL selects. The PayPal marker wins
   * over a session id; without either the page shows an error. No request is
   * made on entry.
   */
  function Entry(provider: Option<string>, sessionId: Option<string>): (s: PollState)
    ensures s.attempts == 0 && s.queries == 0 && Inv(s)
    ensures s.status == Success <==> provider == Some("paypal")
    ensures s.status == Checking <==> provider != Some("paypal") && Truthy(sessionId)
    ensures s.status == Error <==> provider != Some("paypal") && !Truthy(sessionId)
  {
    if provider == Some("paypal") then PollState(Success, 0, 0)
    else if Truthy(sessionId) then PollState(Checking, 0, 0)
    else PollState(Error, 0, 0)
  }

  /**
   * One invocation of the polling routine, reading the attempt count `seen`.
   * The corrected machine reads the current count (`Next`); the code as
   * written reads the count captured when polling started, which is 0
   * (`NextAsWritten`). A state that is not checking has nothing scheduled, so
   * the step leaves it alone.
   */
  function PollWith(s: PollState, reply: Reply, seen: nat): PollState
  {
    if s.status != Checking then s
    else if seen >= MaxAttempts then s.(status := Pending)
    else match reply
      case RequestFailed => s.(status := Error, queries := s.queries + 1)
      case Reply(paymentStatus, sessionStatus) =>
        if paymentStatus == "paid" then s.(status := Success, queries := s.queries + 1)
        else if sessionStatus == "expired" then s.(status := Error, queries := s.queries + 1)
        else s.(attempts := s.attempts + 1, queries := s.queries + 1)
  }

  /** One poll, with the attempt bound read from the state. */
  function Next(s: PollState, reply: Reply): (r: PollState)
    ensures IsTerminal(s.status) ==> r == s
    ensures s.status == Checking && s.attempts >= MaxAttempts ==> r == s.(status := Pending)
    ensures s.status == Checking && s.attempts < MaxAttempts ==>
      && r.queries == s.queries + 1
      && (reply.Reply? && reply.paymentStatus == "paid" ==> r.status == Success && r.attempts == s.attempts)
      && (reply.Reply? && reply.paymentStatus != "paid" && reply.sessionStatus == "expired" ==>
            r.status == Error && r.attempts == s.attempts)
      && (reply.RequestFailed? ==> r.status == Error && r.attempts == s.attempts)
      && (reply.Reply? && reply.paymentStatus != "paid" && reply.sessionStatus != "expired" ==>
            r.status == Checking && r.attempts == s.attempts + 1)
  {
    PollWith(s, reply, s.attempts)
  }

  /** One poll of the code as written: the bound test reads the attempt count captured at entry, 0. */
  function NextAsWritten(s: PollState, reply: Reply): PollState
  {
    PollWith(s, reply, 0)
  }

  /** Every poll keeps the invariant. */
  lemma NextPreservesInv(s: PollState, reply: Reply)
    requires Inv(s)
    ensures Inv(Next(s, reply))
  {
  }

  /** A quantity every poll from a checking state decreases. */
  function Measure(s: PollState): nat
    requires Inv(s)
  {
    (MaxAttempts - s.attempts) + (if s.status == Checking then 1 else 0)
  }

  /** A poll from a checking state makes progress. */
  lemma NextDecreases(s: PollState, reply: Reply)
    requires Inv(s) && s.status == Checking
    ensures Inv(Next(s, reply)) && Measure(Next(s, reply)) < Measure(s)
  {
  }

  /**
   * Polling until the status settles, when the `k`-th status request
   * (counting from 0) is answered by `server(k)`.
   */
  function Settle(s: PollState, server: nat -> Reply): (r: PollState)
    requires Inv(s)
    ensures Inv(r)
    decreases Measure(s)
  {
    if s.status != Checking then s
    else
      NextDecreases(s, server(s.queries));
      Settle(Next(s, server(s.queries)), server)
  }

  /**
   * Polling always settles: the final status is terminal and at most
   * `MaxAttempts` status requests were issued in total.
   */
  lemma {:induction false} SettleTerminates(s: PollState, server: nat -> Reply)
    requires Inv(s)
    ensures IsTerminal(Settle(s, server).status)
    ensures s.queries <= Settle(s, server).queries <= MaxAttempts
    decreases Measure(s)
  {
    if s.status == Checking {
      NextDecreases(s, server(s.queries));
      SettleTerminates(Next(s, server(s.queries)), server);
    }
  }

  /** A reply that neither confirms payment nor reports expiry. */
  predicate Outstanding(reply: Reply)
  {
    reply.Reply? && reply.paymentStatus != "paid" && reply.sessionStatus != "expired"
  }

  /**
   * A status endpoint that never answers paid or expired leads to pending
   * after exactly `MaxAttempts` requests.
   */
  lemma {:induction false} NeverSettledEndsPending(s: PollState, server: nat -> Reply)
    requires s.status == Checking && s.attempts == s.queries <= MaxAttempts
    requires forall k :: Outstanding(server(k))
    ensures Settle(s, server) == PollState(Pending, MaxAttempts, MaxAttempts)
    decreases MaxAttempts - s.attempts
  {
    if s.attempts < MaxAttempts {
      NeverSettledEndsPending(Next(s, server(s.queries)), server);
    }
  }

  /** From a fresh session id, a first reply of paid ends in success after that single request. */
  lemma ImmediatePaid(sessionId: string, server: nat -> Reply)
    requires sessionId != ""
    requires server(0).Reply? && server(0).paymentStatus == "paid"
    ensures Settle(Entry(None, Some(sessionId)), server) == PollState(Success, 0, 1)
  {
    var s0 := Entry(None, Some(sessionId));
    assert Next(s0, server(0)) == PollState(Success, 0, 1);
  }

  /** From a fresh session id, a failed first request ends in error without a retry. */
  lemma FirstRequestFails(sessionId: string, server: nat -> Reply)
    requires sessionId != ""
    requires server(0).RequestFailed?
    ensures Settle(Entry(None, Some(sessionId)), server) == PollState(Error, 0, 1)
  {
    var s0 := Entry(None, Some(sessionId));
    assert Next(s0, server(0)) == PollState(Error, 0, 1);
  }

  /**
   * The code as written never reaches the bound: with a status endpoint that
   * never settles, after `n` polls it is still checking and has issued `n`
   * requests, for every `n`.
   */
  lemma {:induction false} AsWrittenPollsForever(n: nat, reply: Reply)
    requires Outstanding(reply)
    ensures PollAsWritten(n, reply) == PollState(Checking, n, n)
  {
    if n > 0 {
      AsWrittenPollsForever(n - 1, reply);
    }
  }

  /** `n` polls of the code as written from a fresh session, every request answered by `reply`. */
  function PollAsWritten(n: nat, reply: Reply): PollState
  {
    if n == 0 then PollState(Checking, 0, 0) else NextAsWritten(PollAsWritten(n - 1, reply), reply)
  }

  /** The page's state as a mutable object, driven by the entry effect and the polling routine. */
  class Poller {
    var status: Status
    var attempts: nat
    var queries: nat

    /** The current state as a value. */
    function State(): PollState
      reads this
    {
      PollState(status, attempts, queries)
    }

    ghost predicate Valid()
      reads this
    {
      Inv(State())
    }

    /** Mounting the page with the return URL's `method` and `session_id` parameters. */
    constructor (provider: Option<string>, sessionId: Option<string>)
      ensures Valid()
      ensures State() == Entry(provider, sessionId)
    {
      if provider == Some("paypal") {
        status, attempts, queries := Success, 0, 0;
      } else if sessionId.Some? && sessionId.value != "" {
        status, attempts, queries := Checking, 0, 0;
      } else {
        status, attempts, queries := Error, 0, 0;
      }
    }

    /** One invocation of the polling routine; `reply` answers the request if one is made. */
    method Step(reply: Reply)
      requires Valid()
      modifies this
      ensures Valid()
      ensures State() == Next(old(State()), reply)
    {
      if status != Checking {
        return;
      }
      if attempts >= MaxAttempts {
        status := Pending;
        return;
      }
      queries := queries + 1;
      match reply {
        case RequestFailed =>
          status := Error;
        case Reply(paymentStatus, sessionStatus) =>
          if paymentStatus == "paid" {
            status := Success;
          } else if sessionStatus == "expired" {
            status := Error;
          } else {
            attempts := attempts + 1;
          }
      }
    }

    /** Polls until the status settles; the `k`-th request is answered by `server(k)`. */
    method Run(server: nat -> Reply)
      requires Valid()
      modifies this
      ensures Valid()
      ensures State() == Settle(old(State()), server)
      ensures IsTerminal(status) && queries <= MaxAttempts
    {
      SettleTerminates(State(), server);
      while status == Checking
        invariant Valid()
        invariant Settle(State(), server) == Settle(old(State()), server)
        decreases Measure(State())
      {
        NextDecreases(State(), server(queries));
        Step(server(queries));
      }
    }
  }
}
