/**
 * The process-wide database connection cache behind `connectToDatabase`: a record
 * `{ conn, promise }` that moves between Empty (neither set), Connecting (an attempt
 * pending) and Connected (a handle cached). Awaiting the pending attempt is split into
 * the call, which reports which attempt the caller waits on, and a separate settle step,
 * which completes that attempt for every caller waiting on it.
 */
module Db {
  import opened Common

  const MissingUriMessage :=
    "MONGODB_URI environment variable is not defined. Please set it in your Vercel environment variables."

  /** A connected database handle. */
  datatype Conn = Conn(handle: nat)

  /** A pending connection promise: its identity and the connection string it was started with. */
  datatype Attempt = Attempt(id: nat, uri: string)

  /** How a pending attempt settles. */
  datatype Outcome = Succeeded(conn: Conn) | Failed(message: string)

  /** What a caller of `connectToDatabase` observes. */
  datatype CallResult =
    | Returned(conn: Conn)        // the call returns this handle
    | Awaiting(attempt: Attempt)  // the call is suspended on this pending attempt
    | Threw(message: string)      // the call throws

  datatype Phase = Empty | Connecting | Connected

  /**
   * The cached record. `created` counts the promises made so far and names the newest
   * one; `settled` counts how many of them have settled.
   */
  datatype Cache = Cache(conn: Option<Conn>, promise: Option<Attempt>, created: nat, settled: nat)

  const Initial := Cache(None, None, 0, 0)

  function PhaseOf(c: Cache): Phase {
    if c.conn.Some? then Connected else if c.promise.Some? then Connecting else Empty
  }

  /** Number of attempts started and not yet settled. */
  function Outstanding(c: Cache): int {
    c.created - c.settled
  }

  /**
   * The invariant of the record: at most one attempt is outstanding, and exactly while
   * Connecting; `conn` is only set while `promise` is; a held promise is the newest one.
   */
  predicate Inv(c: Cache) {
    && 0 <= Outstanding(c) <= 1
    && (Outstanding(c) == 1 <==> PhaseOf(c) == Connecting)
    && (c.conn.Some? ==> c.promise.Some?)
    && (c.promise.Some? ==> c.promise.value.id == c.created)
  }

  /** One call of `connectToDatabase` with the given `MONGODB_URI`: the new record and what the caller sees at once. */
  function Call(c: Cache, uri: Option<string>): (r: (Cache, CallResult))
    ensures Inv(c) ==> Inv(r.0)
  {
    if c.conn.Some? then (c, Returned(c.conn.value))
    else if c.promise.None? then
      if !Truthy(uri) then (c, Threw(MissingUriMessage))
      else
        var a := Attempt(c.created + 1, uri.value);
        (c.(promise := Some(a), created := c.created + 1), Awaiting(a))
    else (c, Awaiting(c.promise.value))
  }

  /** The pending attempt settles; every caller waiting on it observes the returned result. */
  function Settle(c: Cache, o: Outcome): (r: (Cache, CallResult))
    requires PhaseOf(c) == Connecting
    ensures Inv(c) ==> Inv(r.0)
  {
    match o
    case Succeeded(h) => (c.(conn := Some(h), settled := c.settled + 1), Returned(h))
    case Failed(m) => (c.(promise := None, settled := c.settled + 1), Threw(m))
  }

  // ---- The rules of the record, one call at a time ----

  /** Connected: the call returns the cached handle, starts nothing and changes nothing. */
  lemma CallWhenConnected(c: Cache, uri: Option<string>)
    requires PhaseOf(c) == Connected
    ensures Call(c, uri) == (c, Returned(c.conn.value))
  {
  }

  /** Connecting: the call waits on the pending attempt and starts no other, whatever the environment. */
  lemma CallWhileConnecting(c: Cache, uri: Option<string>)
    requires PhaseOf(c) == Connecting
    ensures Call(c, uri) == (c, Awaiting(c.promise.value))
  {
  }

  /** The call throws exactly in Empty with `MONGODB_URI` unset or empty, and then leaves the record as it was. */
  lemma MissingUriOnlyWhenEmpty(c: Cache, uri: Option<string>)
    ensures Call(c, uri).1.Threw? <==> PhaseOf(c) == Empty && !Truthy(uri)
    ensures Call(c, uri).1.Threw? ==> Call(c, uri) == (c, Threw(MissingUriMessage))
  {
  }

  /** An attempt starts exactly from Empty with the connection string set; it is new and uses that string. */
  lemma AttemptStartsOnlyFromEmpty(c: Cache, uri: Option<string>)
    requires Inv(c)
    ensures Call(c, uri).0.created > c.created <==> PhaseOf(c) == Empty && Truthy(uri)
    ensures PhaseOf(c) == Empty && Truthy(uri) ==>
      && PhaseOf(Call(c, uri).0) == Connecting
      && Call(c, uri).1 == Awaiting(Attempt(c.created + 1, uri.value))
  {
  }

  /** Success caches the handle, keeps the promise, and every later call returns that handle. */
  lemma SuccessCaches(c: Cache, h: Conn, uri: Option<string>)
    requires Inv(c) && PhaseOf(c) == Connecting
    ensures var (c1, r) := Settle(c, Succeeded(h));
      && r == Returned(h) && c1.conn == Some(h) && c1.promise == c.promise
      && Call(c1, uri) == (c1, Returned(h))
  {
  }

  /** Failure clears the promise, leaves `conn` unset, propagates the error, and the next call starts a fresh attempt. */
  lemma FailureAllowsRetry(c: Cache, m: string, uri: Option<string>)
    requires Inv(c) && PhaseOf(c) == Connecting && Truthy(uri)
    ensures var (c1, r) := Settle(c, Failed(m));
      && r == Threw(m) && c1.promise.None? && c1.conn.None? && PhaseOf(c1) == Empty
      && Call(c1, uri).1 == Awaiting(Attempt(c.created + 1, uri.value))
      && c.promise.value != Attempt(c.created + 1, uri.value)
  {
  }

  // ---- Any interleaving of calls and settlements ----

  datatype Event = CallEvent(uri: Option<string>) | SettleEvent(outcome: Outcome)

  /**
   * One event. A pending promise settles at most once, so a settle event while no attempt
   * is pending is no event at all: it changes nothing and nobody observes anything.
   */
  function Step(c: Cache, e: Event): (Cache, Option<CallResult>) {
    match e
    case CallEvent(uri) => var (c1, r) := Call(c, uri); (c1, Some(r))
    case SettleEvent(o) =>
      if PhaseOf(c) == Connecting then var (c1, r) := Settle(c, o); (c1, Some(r)) else (c, None)
  }

  /** The record after a sequence of events. */
  function Run(c: Cache, events: seq<Event>): Cache
    decreases |events|
  {
    if events == [] then c else Run(Step(c, events[0]).0, events[1..])
  }

  /** What each event of the sequence is observed to do, in order. */
  function Observed(c: Cache, events: seq<Event>): (obs: seq<Option<CallResult>>)
    ensures |obs| == |events|
    decreases |events|
  {
    if events == [] then [] else [Step(c, events[0]).1] + Observed(Step(c, events[0]).0, events[1..])
  }

  /** The invariant holds after every sequence of calls and settlements. */
  lemma {:induction false} RunKeepsInv(c: Cache, events: seq<Event>)
    requires Inv(c)
    ensures Inv(Run(c, events))
    decreases |events|
  {
    if events != [] {
      RunKeepsInv(Step(c, events[0]).0, events[1..]);
    }
  }

  /** From the initial record no interleaving ever has two attempts outstanding. */
  lemma AtMostOneOutstanding(events: seq<Event>)
    ensures 0 <= Outstanding(Run(Initial, events)) <= 1
    ensures Run(Initial, events).conn.Some? ==> Run(Initial, events).promise.Some?
  {
    RunKeepsInv(Initial, events);
  }

  /** Once Connected, the record never changes again and every call returns the same handle. */
  lemma {:induction false} ConnectedIsFinal(c: Cache, events: seq<Event>)
    requires PhaseOf(c) == Connected
    ensures Run(c, events) == c
    ensures forall k :: 0 <= k < |events| && events[k].CallEvent? ==>
      Observed(c, events)[k] == Some(Returned(c.conn.value))
    decreases |events|
  {
    if events != [] {
      ConnectedIsFinal(c, events[1..]);
      forall k | 1 <= k < |events| && events[k].CallEvent?
        ensures Observed(c, events)[k] == Some(Returned(c.conn.value))
      {
        assert events[1..][k - 1] == events[k];
      }
    }
  }

  /** The connection cache as the module-level record it is in the source. */
  class ConnectionCache {
    var conn: Option<Conn>
    var promise: Option<Attempt>
    var created: nat
    ghost var settled: nat

    ghost function State(): Cache
      reads this
    {
      Cache(conn, promise, created, settled)
    }

    ghost predicate Valid()
      reads this
    {
      Inv(State())
    }

    /** `{ conn: null, promise: null }`. */
    constructor ()
      ensures Valid() && State() == Initial
    {
      conn := None;
      promise := None;
      created := 0;
      settled := 0;
      new;
      assert State() == Cache(None, None, 0, 0);
    }

    /** `connectToDatabase()` up to its `await`. */
    method Connect(uri: Option<string>) returns (r: CallResult)
      requires Valid()
      modifies this
      ensures Valid()
      ensures (State(), r) == Call(old(State()), uri)
    {
      if conn.Some? {
        return Returned(conn.value);
      }
      if promise.None? {
        if uri.None? || uri.value == "" {
          return Threw(MissingUriMessage);
        }
        created := created + 1;
        promise := Some(Attempt(created, uri.value));
      }
      r := Awaiting(promise.value);
    }

    /** The pending promise settles; the result is what every waiting call goes on with. */
    method Resolve(outcome: Outcome) returns (r: CallResult)
      requires Valid() && PhaseOf(State()) == Connecting
      modifies this
      ensures Valid()
      ensures (State(), r) == Settle(old(State()), outcome)
    {
      settled := settled + 1;
      match outcome {
        case Succeeded(h) =>
          conn := Some(h);
          r := Returned(h);
        case Failed(m) =>
          promise := None;
          r := Threw(m);
      }
    }
  }
}
