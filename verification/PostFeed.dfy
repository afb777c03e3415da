/**
 The bookkeeping of one POST feed: a slot for one post in flight, a generation that makes a post
 reclaimed as stuck stale, and a circuit breaker over consecutive failures. Times are milliseconds.
 */
module PostFeed {
  import opened Common

  datatype Feed = Feed(wasEnabled: bool, inFlight: bool, since: int, generation: nat,
                       postsOk: nat, postsFail: nat, failures: nat, tripped: bool)

  const NEW_FEED := Feed(false, false, 0, 0, 0, 0, 0, false)

  datatype Edge = NoEdge | Enabled | Disabled

  function EdgeOf(f: Feed, enabled: bool): Edge {
    if enabled && !f.wasEnabled then Enabled else if !enabled && f.wasEnabled then Disabled else NoEdge
  }

  function Rearmed(f: Feed): Feed {
    f.(failures := 0, tripped := false)
  }

  predicate Trips(f: Feed, ok: bool, failThreshold: int) {
    !ok && !f.tripped && f.failures + 1 >= failThreshold
  }

  function Recorded(f: Feed, ok: bool, failThreshold: int): Feed {
    if ok then f.(failures := 0)
    else f.(failures := f.failures + 1, tripped := f.tripped || Trips(f, ok, failThreshold))
  }

  /** A start time of zero counts as no start time. */
  predicate IsStuck(f: Feed, now: int, stuckMs: int) {
    f.inFlight && f.since != 0 && now - f.since > stuckMs
  }

  function Reclaimed(f: Feed): Feed {
    f.(generation := f.generation + 1, inFlight := false, since := 0, postsFail := f.postsFail + 1)
  }

  function Begun(f: Feed, now: int): Feed {
    f.(inFlight := true, since := now)
  }

  /** complete(): a stale generation changes nothing. */
  function Completed(f: Feed, generation: nat, ok: bool): Feed {
    if generation != f.generation then f
    else f.(postsOk := f.postsOk + (if ok then 1 else 0), postsFail := f.postsFail + (if ok then 0 else 1),
            inFlight := false, since := 0)
  }

  class FeedState {
    const stuckMs: int
    const failThreshold: int
    var wasEnabled: bool
    var inFlight: bool
    var since: int
    var generation: nat
    var postsOk: nat
    var postsFail: nat
    var failures: nat
    var tripped: bool

    ghost function View(): Feed
      reads this
    {
      Feed(wasEnabled, inFlight, since, generation, postsOk, postsFail, failures, tripped)
    }

    constructor (stuckMs: int, failThreshold: int)
      ensures this.stuckMs == stuckMs && this.failThreshold == failThreshold && View() == NEW_FEED
    {
      this.stuckMs, this.failThreshold := stuckMs, failThreshold;
      wasEnabled, inFlight, since, generation := false, false, 0, 0;
      postsOk, postsFail, failures, tripped := 0, 0, 0, false;
    }

    method SyncEnabled(enabled: bool) returns (edge: Edge)
      modifies this`wasEnabled
      ensures edge == EdgeOf(old(View()), enabled) && View() == old(View()).(wasEnabled := enabled)
    {
      edge := NoEdge;
      if enabled && !wasEnabled {
        edge := Enabled;
      } else if !enabled && wasEnabled {
        edge := Disabled;
      }
      wasEnabled := enabled;
    }

    method ResetCircuit() returns (changed: bool)
      modifies this`tripped, this`failures
      ensures View() == Rearmed(old(View())) && changed == (View() != old(View()))
    {
      if !tripped && failures == 0 {
        return false;
      }
      tripped, failures := false, 0;
      return true;
    }

    method RecordResult(ok: bool) returns (trips: bool)
      modifies this`tripped, this`failures
      ensures View() == Recorded(old(View()), ok, failThreshold) && trips == Trips(old(View()), ok, failThreshold)
    {
      if ok {
        failures := 0;
        return false;
      }
      failures := failures + 1;
      if tripped || failures < failThreshold {
        return false;
      }
      tripped := true;
      return true;
    }

    method CheckStuck(now: int) returns (age: Option<int>)
      modifies this`inFlight, this`since, this`generation, this`postsFail
      ensures age == if IsStuck(old(View()), now, stuckMs) then Some(now - old(since)) else None
      ensures View() == if age.Some? then Reclaimed(old(View())) else old(View())
    {
      if !inFlight {
        return None;
      }
      if since == 0 || now - since <= stuckMs {
        return None;
      }
      age := Some(now - since);
      generation := generation + 1;
      inFlight, since := false, 0;
      postsFail := postsFail + 1;
    }

    method BeginPost(now: int) returns (token: nat)
      modifies this`inFlight, this`since
      ensures View() == Begun(old(View()), now) && token == generation
    {
      inFlight, since := true, now;
      token := generation;
    }

    method Complete(token: nat, ok: bool) returns (current: bool)
      modifies this`inFlight, this`since, this`postsOk, this`postsFail
      ensures View() == Completed(old(View()), token, ok) && current == (token == generation)
    {
      if token != generation {
        return false;
      }
      if ok {
        postsOk := postsOk + 1;
      } else {
        postsFail := postsFail + 1;
      }
      inFlight, since := false, 0;
      return true;
    }
  }

  // ---- the circuit breaker over a whole run of results -----------------------------------

  function Results(f: Feed, rs: seq<bool>, failThreshold: int): Feed {
    if rs == [] then f
    else Recorded(Results(f, rs[..|rs| - 1], failThreshold), rs[|rs| - 1], failThreshold)
  }

  predicate FailsFrom(rs: seq<bool>, k: nat, n: nat) {
    k + n <= |rs| && forall i :: k <= i < k + n ==> !rs[i]
  }

  /** Somewhere in rs there are n failures in a row. */
  ghost predicate FailsInARow(rs: seq<bool>, n: nat) {
    exists k: nat :: FailsFrom(rs, k, n)
  }

  /** The counter is the length of the failures at the end of rs. */
  predicate EndsWithFailures(rs: seq<bool>, n: nat) {
    n <= |rs| && FailsFrom(rs, |rs| - n, n) && (n < |rs| ==> rs[|rs| - n - 1])
  }

  /** A row of failures ends before the last result, or with it. */
  lemma RowLast(rs: seq<bool>, n: nat)
    requires rs != [] && n >= 1
    ensures FailsInARow(rs, n) <==>
            FailsInARow(rs[..|rs| - 1], n) || (n <= |rs| && FailsFrom(rs, |rs| - n, n))
  {
    var before := rs[..|rs| - 1];
    if FailsInARow(before, n) {
      var k: nat :| FailsFrom(before, k, n);
      assert FailsFrom(rs, k, n);
    }
    if FailsInARow(rs, n) {
      var k: nat :| FailsFrom(rs, k, n);
      assert k + n <= |before| ==> FailsFrom(before, k, n);
    }
  }

  /** The failures at the end, one result later. */
  lemma EndsLast(rs: seq<bool>, n: nat)
    requires rs != [] && EndsWithFailures(rs[..|rs| - 1], n)
    ensures EndsWithFailures(rs, if rs[|rs| - 1] then 0 else n + 1)
  {}

  /** They are at least n exactly when the last n results failed. */
  lemma EndsAtLeast(rs: seq<bool>, m: nat, n: nat)
    requires EndsWithFailures(rs, m) && 1 <= n
    ensures n <= |rs| && FailsFrom(rs, |rs| - n, n) <==> n <= m
  {
    if n > m && m < |rs| && n <= |rs| {
      assert rs[|rs| - m - 1];
    }
  }

  /** The breaker is open exactly when there were failThreshold failures in a row since it was armed. */
  lemma {:induction false} CircuitOpensOnRow(rs: seq<bool>, failThreshold: nat)
    requires failThreshold >= 1
    ensures var f := Results(NEW_FEED, rs, failThreshold);
            && EndsWithFailures(rs, f.failures)
            && (f.tripped <==> FailsInARow(rs, failThreshold))
  {
    hide FailsFrom, FailsInARow, EndsWithFailures;
    if rs == [] {
      NoRow(failThreshold);
    } else {
      var f := Results(NEW_FEED, rs[..|rs| - 1], failThreshold);
      CircuitOpensOnRow(rs[..|rs| - 1], failThreshold);
      RowLast(rs, failThreshold);
      EndsLast(rs, f.failures);
      EndsAtLeast(rs, Results(NEW_FEED, rs, failThreshold).failures, failThreshold);
    }
  }

  lemma NoRow(n: nat)
    requires n >= 1
    ensures !FailsInARow([], n) && EndsWithFailures([], 0)
  {
    assert forall k: nat :: !FailsFrom([], k, n);
  }

  /** The operator is told once: at the result that completes the first such row. */
  lemma CircuitAnnouncedOnce(rs: seq<bool>, i: nat, failThreshold: nat)
    requires failThreshold >= 1 && i < |rs|
    ensures Trips(Results(NEW_FEED, rs[..i], failThreshold), rs[i], failThreshold) <==>
            !FailsInARow(rs[..i], failThreshold) && FailsInARow(rs[..i + 1], failThreshold)
  {
    CircuitOpensOnRow(rs[..i], failThreshold);
    CircuitOpensOnRow(rs[..i + 1], failThreshold);
    assert rs[..i + 1][..i] == rs[..i];
  }
}
