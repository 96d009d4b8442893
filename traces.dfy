/**
 * Sequences of lifecycle events as a server drives them: init (directly or through register),
 * stop (explicitly or from the server's stop event), and requests. The lemmas state what holds
 * across any such sequence: a live pool is never swapped for another, every pool is one the
 * factory returned when init called it, and the plugin releases only connections the driver
 * handed out (in a liveness check it ran or a request on a live pool), each at most once.
 */
module Traces {
  import opened Wrappers
  import opened PoolLifecycle

  datatype Event =
    | InitCall(opts: Options, created: Option<PoolId>, probe: Result<Conn, Cause>, end: Option<Cause>)
    | StopCall(server: Arg, next: Option<FnId>, end: Option<Cause>)
    | Request(acquire: Result<Conn, Cause>, clears: bool)

  function Step(m: Machine, e: Event): (r: Machine)
    // one step never swaps one live pool for another
    ensures m.pool.Some? && r.pool.Some? ==> r.pool == m.pool
    // only stop takes a live pool away
    ensures m.pool.Some? && r.pool.None? ==> e.StopCall?
    // a pool that appears was returned by the factory in this very init
    ensures m.pool.None? && r.pool.Some? ==> ReachesFactory(m, e) && r.pool == e.created
  {
    match e
    case InitCall(opts, created, probe, end) => Init(m, opts, created, probe, end).after
    case StopCall(server, next, end) => Stop(m, server, next, end).after
    case Request(acquire, clears) => ServeRequest(m, acquire, clears).after
  }

  function Run(m: Machine, evs: seq<Event>): Machine
    decreases |evs|
  {
    if evs == [] then m else Run(Step(m, evs[0]), evs[1..])
  }

  /**
   * Whether init, in state `m`, gets as far as calling the driver's factory: no pool is live
   * and the options have a `host` key.
   */
  predicate ReachesFactory(m: Machine, e: Event)
  {
    e.InitCall? && m.pool.None? && "host" in e.opts
  }

  /**
   * The connection the driver hands out during one event in state `m`: the liveness check of an
   * init whose factory returned a pool, or the acquisition of a request on a live pool.
   */
  function Handout(m: Machine, e: Event): (h: seq<Conn>)
    ensures |h| <= 1
  {
    match e
    case InitCall(_, created, probe, _) =>
      if ReachesFactory(m, e) && created.Some? && probe.Ok? then [probe.value] else []
    case Request(acquire, _) =>
      if m.pool.Some? && acquire.Ok? then [acquire.value] else []
    case StopCall(_, _, _) => []
  }

  /** The connections the driver hands out along `evs` from state `m`, in order. */
  function Handouts(m: Machine, evs: seq<Event>): seq<Conn>
    decreases |evs|
  {
    if evs == [] then [] else Handout(m, evs[0]) + Handouts(Step(m, evs[0]), evs[1..])
  }

  /** The pools the driver's factory returns along `evs` from state `m`. */
  function Created(m: Machine, evs: seq<Event>): set<PoolId>
    decreases |evs|
  {
    if evs == [] then {}
    else (if ReachesFactory(m, evs[0]) && evs[0].created.Some? then {evs[0].created.value} else {})
         + Created(Step(m, evs[0]), evs[1..])
  }

  /** The connection a request keeps bound until its end, if any. */
  function Retains(e: Event): seq<Conn>
  {
    if e.Request? && e.acquire.Ok? && !e.clears then [e.acquire.value] else []
  }

  /** The connections that requests in `evs` keep bound until their end. */
  function Retained(evs: seq<Event>): seq<Conn>
    decreases |evs|
  {
    if evs == [] then [] else Retains(evs[0]) + Retained(evs[1..])
  }

  /** One event releases nothing, or the one connection the driver handed out during it. */
  lemma StepReleasesHandout(m: Machine, e: Event)
    ensures Step(m, e).released == m.released || Step(m, e).released == m.released + Handout(m, e)
  {
  }

  /** On a live pool, a request releases exactly the connection it keeps bound. */
  lemma StepReleasesRetained(m: Machine, e: Event)
    requires m.pool.Some? && e.Request?
    ensures Step(m, e) == Machine(m.pool, m.released + Retains(e))
  {
  }

  /** `a` is `b` with some elements dropped. */
  predicate Subsequence(a: seq<Conn>, b: seq<Conn>)
    decreases |b|
  {
    if b == [] then a == []
    else Subsequence(a, b[1..]) || (a != [] && a[0] == b[0] && Subsequence(a[1..], b[1..]))
  }

  lemma {:induction false} SubsequenceShorter(a: seq<Conn>, b: seq<Conn>)
    requires Subsequence(a, b)
    ensures |a| <= |b|
    ensures forall c :: c in a ==> c in b
    decreases |b|
  {
    if b != [] {
      if Subsequence(a, b[1..]) {
        SubsequenceShorter(a, b[1..]);
      } else {
        SubsequenceShorter(a[1..], b[1..]);
        assert a == [a[0]] + a[1..];
      }
    }
  }

  lemma {:induction false} SubsequenceCons(x: seq<Conn>, h: seq<Conn>, y: seq<Conn>, rest: seq<Conn>)
    requires x == [] || x == h
    requires |h| <= 1
    requires Subsequence(y, rest)
    ensures Subsequence(x + y, h + rest)
  {
    if h != [] {
      assert (h + rest)[1..] == rest;
      if x == [] {
        assert x + y == y;
      } else {
        assert (x + y)[1..] == y;
      }
    } else {
      assert x + y == y && h + rest == rest;
    }
  }

  /** A live pool stays the same pool until some stop. */
  lemma {:induction false} LivePoolSurvivesUntilStop(m: Machine, evs: seq<Event>)
    requires m.pool.Some?
    requires forall i :: 0 <= i < |evs| ==> !evs[i].StopCall?
    ensures Run(m, evs).pool == m.pool
    decreases |evs|
  {
    if evs != [] {
      LivePoolSurvivesUntilStop(Step(m, evs[0]), evs[1..]);
    }
  }

  /** Every live pool was the one at the start, or was returned by the factory during the run. */
  lemma {:induction false} PoolsComeFromFactory(m: Machine, evs: seq<Event>)
    ensures Run(m, evs).pool.Some? ==> Run(m, evs).pool == m.pool || Run(m, evs).pool.value in Created(m, evs)
    decreases |evs|
  {
    if evs != [] {
      PoolsComeFromFactory(Step(m, evs[0]), evs[1..]);
    }
  }

  /**
   * The release log only grows, and what it gains is a subsequence of the handed-out
   * connections: no connection is released that was not handed out, and none twice per handout.
   */
  lemma {:induction false} ReleasesFollowHandouts(m: Machine, evs: seq<Event>)
    ensures |m.released| <= |Run(m, evs).released|
    ensures Run(m, evs).released[..|m.released|] == m.released
    ensures Subsequence(Run(m, evs).released[|m.released|..], Handouts(m, evs))
    decreases |evs|
  {
    if evs == [] {
      assert Run(m, evs).released[|m.released|..] == [];
    } else {
      var m' := Step(m, evs[0]);
      StepReleasesHandout(m, evs[0]);
      ReleasesFollowHandouts(m', evs[1..]);
      var gained := m'.released[|m.released|..];
      assert gained == [] || gained == Handout(m, evs[0]);
      var final := Run(m', evs[1..]).released;
      assert final[..|m.released|] == m.released by {
        assert final[..|m'.released|] == m'.released;
      }
      assert final[|m.released|..] == gained + final[|m'.released|..];
      SubsequenceCons(gained, Handout(m, evs[0]), final[|m'.released|..], Handouts(m', evs[1..]));
    }
  }

  /** Hence the plugin releases at most as many connections as the driver handed out. */
  lemma ReleasesBoundedByHandouts(m: Machine, evs: seq<Event>)
    ensures |Run(m, evs).released| <= |m.released| + |Handouts(m, evs)|
    ensures forall i :: |m.released| <= i < |Run(m, evs).released| ==> Run(m, evs).released[i] in Handouts(m, evs)
  {
    ReleasesFollowHandouts(m, evs);
    SubsequenceShorter(Run(m, evs).released[|m.released|..], Handouts(m, evs));
  }

  /** Every event in `evs` is a request. */
  predicate AllRequests(evs: seq<Event>)
    decreases |evs|
  {
    evs == [] || (evs[0].Request? && AllRequests(evs[1..]))
  }

  /**
   * On a live pool, a run of requests leaves the pool in place and releases exactly the
   * connections that stayed bound until their request ended, in order.
   */
  lemma {:induction false} RequestsReleaseRetained(m: Machine, evs: seq<Event>)
    requires m.pool.Some? && AllRequests(evs)
    ensures Run(m, evs).pool == m.pool
    ensures Run(m, evs).released == m.released + Retained(evs)
    decreases |evs|
  {
    if evs != [] {
      var m' := Step(m, evs[0]);
      StepReleasesRetained(m, evs[0]);
      RequestsReleaseRetained(m', evs[1..]);
      assert (m.released + Retains(evs[0])) + Retained(evs[1..]) == m.released + Retained(evs);
    }
  }
}
