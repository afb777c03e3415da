/**
 The item event queue and its POST workers. The game thread appends, takes batches and reclaims
 stuck posts; a worker completes its post and then deletes its batch from the front of the queue.
 A queued event is known by its identity, a number.
 */
module ItemFeed {
  import opened Common
  import opened PostFeed

  const ITEMS_MAX_QUEUE := 1024
  const ITEMS_BATCH_SIZE := 12
  const ITEMS_STUCK_MS := 20000
  const FAIL_THRESHOLD := 10

  type Row = nat

  /** What the game thread and the workers share. */
  datatype Shared = Shared(feed: Feed, queue: seq<Row>)

  datatype Job = Job(batch: seq<Row>, generation: nat)

  function BatchOf(queue: seq<Row>): seq<Row> {
    queue[..Min(|queue|, ITEMS_BATCH_SIZE)]
  }

  predicate CanFlush(s: Shared, hasUrl: bool) {
    !s.feed.inFlight && s.queue != [] && hasUrl
  }

  function Flushed(s: Shared, hasUrl: bool, now: int): Shared {
    if CanFlush(s, hasUrl) then s.(feed := Begun(s.feed, now)) else s
  }

  function JobOf(s: Shared, hasUrl: bool): Option<Job> {
    if CanFlush(s, hasUrl) then Some(Job(BatchOf(s.queue), s.feed.generation)) else None
  }

  predicate HasRoom(s: Shared) {
    |s.queue| < ITEMS_MAX_QUEUE
  }

  /** A new event: refused when the queue is full. */
  function Offered(s: Shared, row: Row): Shared {
    if HasRoom(s) then s.(queue := s.queue + [row]) else s
  }

  function Synced(s: Shared, enabled: bool): Shared {
    var feed := s.feed.(wasEnabled := enabled);
    s.(feed := if EdgeOf(s.feed, enabled) == Enabled then Rearmed(feed) else feed)
  }

  /** A post in flight for too long is given up. */
  function Unstuck(s: Shared, now: int): Shared {
    if IsStuck(s.feed, now, ITEMS_STUCK_MS) then s.(feed := Recorded(Reclaimed(s.feed), false, FAIL_THRESHOLD)) else s
  }

  /** One frame of the game thread, up to the flush. */
  function Checked(s: Shared, enabled: bool, now: int): Shared {
    if enabled then Unstuck(Synced(s, enabled), now) else Synced(s, enabled)
  }

  /** The flush at the end of a frame happens only if no post was in flight when it began. */
  predicate FrameFlushes(s: Shared, enabled: bool, hasUrl: bool) {
    enabled && CanFlush(s, hasUrl)
  }

  function Driven(s: Shared, enabled: bool, hasUrl: bool, now: int): Shared {
    var checked := Checked(s, enabled, now);
    if FrameFlushes(s, enabled, hasUrl) then checked.(feed := Begun(checked.feed, now)) else checked
  }

  function Cut(queue: seq<Row>, n: nat): seq<Row> {
    queue[Min(n, |queue|)..]
  }

  /** A worker's complete(); after a failure the breaker is told, after a success only once the rows are gone. */
  function Answered(s: Shared, generation: nat, ok: bool): Shared {
    var feed := Completed(s.feed, generation, ok);
    s.(feed := if generation == s.feed.generation && !ok then Recorded(feed, false, FAIL_THRESHOLD) else feed)
  }

  function Deleted(s: Shared, n: nat): Shared {
    Shared(Recorded(s.feed, true, FAIL_THRESHOLD), Cut(s.queue, n))
  }

  class ItemQueue {
    const state: FeedState
    var queue: seq<Row>
    var refused: nat

    ghost function View(): Shared
      reads this, state
    {
      Shared(state.View(), queue)
    }

    ghost predicate Valid() {
      state.stuckMs == ITEMS_STUCK_MS && state.failThreshold == FAIL_THRESHOLD
    }

    constructor ()
      ensures Valid() && fresh(state) && View() == Shared(NEW_FEED, [])
    {
      state := new FeedState(ITEMS_STUCK_MS, FAIL_THRESHOLD);
      queue, refused := [], 0;
    }

    method Flush(hasUrl: bool, now: int) returns (job: Option<Job>)
      requires Valid()
      modifies state
      ensures View() == Flushed(old(View()), hasUrl, now) && job == JobOf(old(View()), hasUrl)
    {
      if state.inFlight || queue == [] {
        return None;
      }
      if !hasUrl {
        return None;
      }
      var batch := if |queue| < ITEMS_BATCH_SIZE then queue else queue[..ITEMS_BATCH_SIZE];
      var generation := state.BeginPost(now);
      assert queue[..|queue|] == queue;
      return Some(Job(batch, generation));
    }

    method OnItemEvent(row: Row, hasUrl: bool, now: int) returns (job: Option<Job>)
      requires Valid()
      modifies this, state
      ensures refused == old(refused) + if HasRoom(old(View())) then 0 else 1
      ensures HasRoom(old(View())) ==>
                var offered := Offered(old(View()), row);
                View() == Flushed(offered, hasUrl, now) && job == JobOf(offered, hasUrl)
      ensures !HasRoom(old(View())) ==> View() == old(View()) && job == None
    {
      if |queue| >= ITEMS_MAX_QUEUE {
        refused := refused + 1;
        return None;
      }
      queue := queue + [row];
      job := Flush(hasUrl, now);
    }

    method Drive(enabled: bool, hasUrl: bool, now: int) returns (job: Option<Job>)
      requires Valid()
      modifies this, state
      ensures View() == Driven(old(View()), enabled, hasUrl, now)
      ensures job == if FrameFlushes(old(View()), enabled, hasUrl) then JobOf(old(View()), hasUrl) else None
    {
      var edge := state.SyncEnabled(enabled);
      if edge == Enabled {
        var _ := state.ResetCircuit();
      }
      if !enabled {
        return None;
      }
      if state.inFlight {
        var age := state.CheckStuck(now);
        if age.Some? {
          var _ := state.RecordResult(false);
        }
        return None;
      }
      if queue == [] {
        return None;
      }
      job := Flush(hasUrl, now);
    }

    /** The worker after its last attempt; tells whether it still has to delete its batch. */
    method Answer(generation: nat, ok: bool) returns (deletes: bool)
      requires Valid()
      modifies state
      ensures View() == Answered(old(View()), generation, ok)
      ensures deletes == (ok && generation == old(state.generation))
    {
      var current := state.Complete(generation, ok);
      if current && !ok {
        var _ := state.RecordResult(false);
      }
      deletes := current && ok;
    }

    method DeleteBatch(n: nat)
      requires Valid()
      modifies this, state
      ensures View() == Deleted(old(View()), n)
    {
      queue := if n < |queue| then queue[n..] else [];
      var _ := state.RecordResult(true);
    }
  }

  // ---- the game thread and its workers, interleaved ----------------------------------------

  datatype Phase = Sending | Deleting

  datatype Post = Post(job: Job, phase: Phase)

  /**
   Where the game thread stands between two of its reads or writes of what a worker also touches: before
   the look at the slot, past it, with a batch cut for the post it begins next, or before check_stuck().
   */
  datatype Place = Idle | Flushing(hasUrl: bool) | Cutting | Beginning(batch: seq<Row>) | Blocked

  /** All events ever taken into the queue, and the rows delivered, in the order of their deletes. */
  datatype World = World(shared: Shared, place: Place, posts: map<nat, Post>, next: nat, accepted: seq<Row>,
                         delivered: seq<Row>)

  const START := World(Shared(NEW_FEED, []), Idle, map[], 0, [], [])

  datatype Step =
    | Event(row: Row, hasUrl: bool)
    | Frame(enabled: bool, hasUrl: bool)
    | CheckStuck(now: int)
    | Look
    | CutBatch
    | Begin(now: int)
    | Answer(id: nat, ok: bool)
    | Delete(id: nat)

  /** A new event is a new object; the game thread and the workers move only as their places allow. */
  predicate Possible(w: World, e: Step) {
    match e
    case Event(row, _) => w.place == Idle && row !in w.accepted
    case Frame(_, _) => w.place == Idle
    case CheckStuck(_) => w.place == Blocked
    case Look => w.place.Flushing?
    case CutBatch => w.place == Cutting
    case Begin(_) => w.place.Beginning?
    case Answer(id, _) => id in w.posts && w.posts[id].phase == Sending
    case Delete(id) => id in w.posts && w.posts[id].phase == Deleting
  }

  /** The look at the slot, before a batch is cut. */
  predicate SeesFree(w: World, e: Step) {
    e == Look && w.place.Flushing? && CanFlush(w.shared, w.place.hasUrl)
  }

  function Next(w: World, e: Step): World
    requires Possible(w, e)
  {
    match e
    case Event(row, hasUrl) =>
      if !HasRoom(w.shared) then w
      else w.(shared := Offered(w.shared, row), accepted := w.accepted + [row], place := Flushing(hasUrl))
    case Frame(enabled, hasUrl) =>
      w.(shared := Synced(w.shared, enabled),
         place := if !enabled then Idle else if w.shared.feed.inFlight then Blocked
                  else if w.shared.queue == [] then Idle else Flushing(hasUrl))
    case CheckStuck(now) => w.(shared := Unstuck(w.shared, now), place := Idle)
    case Look => w.(place := if SeesFree(w, e) then Cutting else Idle)
    case CutBatch => w.(place := Beginning(BatchOf(w.shared.queue)))
    case Begin(now) =>
      w.(shared := w.shared.(feed := Begun(w.shared.feed, now)), place := Idle,
         posts := w.posts[w.next := Post(Job(w.place.batch, w.shared.feed.generation), Sending)], next := w.next + 1)
    case Answer(id, ok) =>
      var job := w.posts[id].job;
      w.(shared := Answered(w.shared, job.generation, ok),
         posts := if ok && job.generation == w.shared.feed.generation
                  then w.posts[id := Post(job, Deleting)] else w.posts - {id})
    case Delete(id) =>
      var batch := w.posts[id].job.batch;
      w.(shared := Deleted(w.shared, |batch|), posts := w.posts - {id}, delivered := w.delivered + batch)
  }

  /** Between a worker's complete() and its delete. */
  predicate InWindow(w: World) {
    exists id :: id in w.posts && w.posts[id].phase == Deleting
  }

  predicate Calm(w: World, e: Step) {
    !(InWindow(w) && SeesFree(w, e))
  }

  ghost predicate CalmRun(w: World, es: seq<Step>)
    decreases |es|
  {
    es == [] || (Possible(w, es[0]) && Calm(w, es[0]) && CalmRun(Next(w, es[0]), es[1..]))
  }

  ghost function Run(w: World, es: seq<Step>): World
    requires CalmRun(w, es)
    decreases |es|
  {
    if es == [] then w else Run(Next(w, es[0]), es[1..])
  }

  // ---- the law --------------------------------------------------------------------------------

  predicate Distinct(rows: seq<Row>) {
    forall i, j :: 0 <= i < j < |rows| ==> rows[i] != rows[j]
  }

  /** Post id is unfinished and carries the current generation. */
  predicate Owns(w: World, id: nat) {
    id in w.posts && w.posts[id].phase == Sending && w.posts[id].job.generation == w.shared.feed.generation
  }

  ghost predicate Lawful(w: World) {
    && w.accepted == w.delivered + w.shared.queue
    && Distinct(w.accepted)
    && |w.shared.queue| <= ITEMS_MAX_QUEUE
    && (w.shared.feed.inFlight <==> exists id :: Owns(w, id))
    && (forall i, j :: Owns(w, i) && Owns(w, j) ==> i == j)
    && (forall i :: Owns(w, i) ==> w.posts[i].job.batch <= w.shared.queue)
    && (forall i :: i in w.posts ==> i < w.next && w.posts[i].job.generation <= w.shared.feed.generation)
    && (forall i :: i in w.posts ==> 1 <= |w.posts[i].job.batch| <= ITEMS_BATCH_SIZE)
    && (forall i :: i in w.posts && w.posts[i].phase == Deleting ==>
          w.posts[i].job.batch <= w.shared.queue && !w.shared.feed.inFlight)
    && (forall i, j :: i in w.posts && j in w.posts && w.posts[i].phase == Deleting && w.posts[j].phase == Deleting ==>
          i == j)
    && (w.place == Cutting || w.place.Beginning? ==> !w.shared.feed.inFlight && !InWindow(w))
    && (w.place == Cutting ==> w.shared.queue != [])
    && (w.place.Beginning? ==> w.place.batch <= w.shared.queue && 1 <= |w.place.batch| <= ITEMS_BATCH_SIZE)
  }

  /** An accepted row that is neither queued nor delivered. */
  ghost predicate Loses(w: World) {
    exists r :: r in w.accepted && r !in w.delivered && r !in w.shared.queue
  }

  lemma LawfulStart()
    ensures Lawful(START)
  {}

  lemma Prefixes(q: seq<Row>, row: Row, b: seq<Row>)
    requires b <= q
    ensures b <= q + [row]
  {}

  /** A new event is queued behind every batch. */
  lemma LawfulEvent(w: World, row: Row, hasUrl: bool)
    requires Lawful(w) && Possible(w, Event(row, hasUrl))
    ensures Lawful(Next(w, Event(row, hasUrl)))
  {
    var w' := Next(w, Event(row, hasUrl));
    if HasRoom(w.shared) {
      assert forall i :: Owns(w', i) <==> Owns(w, i);
      forall i | i in w.posts && w.posts[i].job.batch <= w.shared.queue ensures w.posts[i].job.batch <= w'.shared.queue {
        Prefixes(w.shared.queue, row, w.posts[i].job.batch);
      }
    }
  }

  /** A step of the game thread that leaves queue, posts and slot alone, up to the feed's counters. */
  lemma LawfulSame(w: World, w': World)
    requires Lawful(w) && w'.posts == w.posts && w'.next == w.next && w'.shared.queue == w.shared.queue
    requires w'.accepted == w.accepted && w'.delivered == w.delivered
    requires w'.shared.feed.inFlight == w.shared.feed.inFlight
    requires w'.shared.feed.generation == w.shared.feed.generation
    requires w'.place == Cutting ==> !w.shared.feed.inFlight && !InWindow(w) && w.shared.queue != []
    requires w'.place.Beginning? ==>
               w.place == Cutting && w'.place.batch <= w.shared.queue && 1 <= |w'.place.batch| <= ITEMS_BATCH_SIZE
    ensures Lawful(w')
  {
    assert forall i :: Owns(w', i) <==> Owns(w, i);
  }

  lemma LawfulCut(w: World)
    requires Lawful(w) && Possible(w, CutBatch)
    ensures Lawful(Next(w, CutBatch))
  {
    assert BatchOf(w.shared.queue) <= w.shared.queue;
    LawfulSame(w, Next(w, CutBatch));
  }

  /** A reclaimed post goes stale: no unfinished post is current any more. */
  lemma LawfulStuck(w: World, now: int)
    requires Lawful(w) && Possible(w, CheckStuck(now))
    ensures Lawful(Next(w, CheckStuck(now)))
  {
    var w' := Next(w, CheckStuck(now));
    if IsStuck(w.shared.feed, now, ITEMS_STUCK_MS) {
      assert forall i :: !Owns(w', i);
    } else {
      LawfulSame(w, w');
    }
  }

  /** The batch cut becomes the post that owns the slot. */
  lemma LawfulBegin(w: World, now: int)
    requires Lawful(w) && Possible(w, Begin(now))
    ensures Lawful(Next(w, Begin(now)))
  {
    var w' := Next(w, Begin(now));
    assert Owns(w', w.next);
    assert forall i :: Owns(w', i) && i != w.next ==> Owns(w, i);
  }

  /** Completing the current post frees the slot; a stale worker changes nothing shared. */
  lemma LawfulAnswer(w: World, id: nat, ok: bool)
    requires Lawful(w) && Possible(w, Answer(id, ok))
    ensures Lawful(Next(w, Answer(id, ok)))
    ensures w.posts[id].job.generation != w.shared.feed.generation ==> Next(w, Answer(id, ok)).shared == w.shared
  {
    var w' := Next(w, Answer(id, ok));
    if w.posts[id].job.generation == w.shared.feed.generation {
      assert Owns(w, id);
      assert forall i :: Owns(w', i) ==> Owns(w, i) && i != id;
    } else {
      assert forall i :: Owns(w', i) <==> Owns(w, i);
    }
  }

  lemma CutPrefix(d: seq<Row>, b: seq<Row>, q: seq<Row>)
    requires b <= q
    ensures d + q == (d + b) + Cut(q, |b|)
  {
    assert q == b + q[|b|..];
  }

  lemma LawfulDelete(w: World, id: nat)
    requires Lawful(w) && Possible(w, Delete(id))
    ensures Lawful(Next(w, Delete(id)))
  {
    var w' := Next(w, Delete(id));
    CutPrefix(w.delivered, w.posts[id].job.batch, w.shared.queue);
    assert forall i :: Owns(w', i) ==> Owns(w, i);
  }

  lemma LawfulStep(w: World, e: Step)
    requires Lawful(w) && Possible(w, e) && Calm(w, e)
    ensures Lawful(Next(w, e))
  {
    hide Lawful;
    match e
    case Event(row, hasUrl) => LawfulEvent(w, row, hasUrl);
    case CheckStuck(now) => LawfulStuck(w, now);
    case CutBatch => LawfulCut(w);
    case Begin(now) => LawfulBegin(w, now);
    case Answer(id, ok) => LawfulAnswer(w, id, ok);
    case Delete(id) => LawfulDelete(w, id);
    case _ => LawfulSame(w, Next(w, e));
  }

  /**
   The law of the item queue, on every run that finds the slot free only outside a window: what was accepted is
   what was delivered followed by what is queued, in order; the slot is taken exactly when one
   unfinished post carries the current generation, and its batch is the front of the queue.
   */
  lemma {:induction false} ItemLaw(w: World, es: seq<Step>)
    requires Lawful(w) && CalmRun(w, es)
    ensures Lawful(Run(w, es))
    decreases |es|
  {
    hide Lawful, Next, Calm;
    if es != [] {
      LawfulStep(w, es[0]);
      ItemLaw(Next(w, es[0]), es[1..]);
    }
  }

  /** The law for every such run of a server: each accepted row is delivered or queued, once, in order. */
  lemma ItemRuns(es: seq<Step>)
    requires CalmRun(START, es)
    ensures var w := Run(START, es); w.accepted == w.delivered + w.shared.queue && Distinct(w.accepted) && !Loses(w)
  {
    LawfulStart();
    ItemLaw(START, es);
    hide Run, CalmRun;
    LawfulLosesNothing(Run(START, es));
  }

  // ---- the law needs complete() and the delete to be one step ---------------------------------

  lemma {:induction false} FreshRow(rows: seq<Row>) returns (x: Row)
    ensures forall i :: 0 <= i < |rows| ==> rows[i] < x
  {
    x := 0;
    if rows != [] {
      var last := |rows| - 1;
      x := FreshRow(rows[..last]);
      x := if x <= rows[last] then rows[last] + 1 else x;
    }
  }

  lemma RunStep(w: World, e: Step, es: seq<Step>)
    requires Possible(w, e) && Calm(w, e) && CalmRun(Next(w, e), es)
    ensures CalmRun(w, [e] + es) && Run(w, [e] + es) == Run(Next(w, e), es)
  {
    hide Next, Calm, Possible;
    assert ([e] + es)[1..] == es;
  }

  /** A post n began while post d still had to delete its batch. */
  ghost predicate Overlap(w: World, d: nat, n: nat) {
    && w.place == Idle && d in w.posts && w.posts[d].phase == Deleting && Owns(w, n) && w.shared.feed.inFlight
    && w.accepted == w.delivered + w.shared.queue && Distinct(w.accepted)
    && 0 < |w.posts[d].job.batch| <= |w.posts[n].job.batch| && |w.shared.queue| <= ITEMS_MAX_QUEUE
    && w.posts[d].job.batch <= w.posts[n].job.batch <= w.shared.queue
  }

  /** The slot is seen free inside a window, and the game thread goes on at once. */
  lemma WindowStart(w: World, e: Step, d: nat)
    requires Lawful(w) && Possible(w, e) && SeesFree(w, e) && d in w.posts && w.posts[d].phase == Deleting
    ensures Possible(Next(w, e), CutBatch) && Possible(Next(Next(w, e), CutBatch), Begin(0))
    ensures Overlap(Next(Next(Next(w, e), CutBatch), Begin(0)), d, w.next)
  {
    var q, b, c := w.shared.queue, w.posts[d].job.batch, BatchOf(w.shared.queue);
    assert b == q[..|b|] && c == q[..|c|] && |b| <= |c|;
    assert b == c[..|b|];
  }

  /** The row lost: it follows the second batch in the queue that the first delete left behind. */
  lemma LostRow(delivered: seq<Row>, b: seq<Row>, c: seq<Row>, rest: seq<Row>, x: Row)
    requires Distinct(delivered + c + rest) && x !in delivered + c + rest
    requires 0 < |b| <= |c| && b <= c
    ensures var q := Cut(c + rest, |b|) + [x];
            var r := (rest + [x])[0];
            && r in delivered + c + rest + [x]
            && r !in (delivered + b) + c && r !in Cut(q, |c|)
  {
    var q, r := Cut(c + rest, |b|) + [x], (rest + [x])[0];
    var all := delivered + c + rest + [x];
    var at := |delivered| + |c|;
    assert all[at] == r;
    assert Distinct(all);
    forall i | 0 <= i < |delivered + b + c| ensures (delivered + b + c)[i] != r {
      if i < |delivered| {
        assert all[i] != all[at];
      } else if i < |delivered| + |b| {
        assert (delivered + b + c)[i] == b[i - |delivered|] == c[i - |delivered|] == all[i];
      } else {
        assert (delivered + b + c)[i] == c[i - |delivered| - |b|] == all[i - |b|];
      }
    }
    forall i | 0 <= i < |Cut(q, |c|)| ensures Cut(q, |c|)[i] != r {
      assert Cut(q, |c|)[i] == q[|c| + i] == all[|delivered| + |b| + |c| + i];
    }
  }

  lemma OverlapLoses(w: World, d: nat, n: nat)
    requires Overlap(w, d, n)
    ensures exists es :: CalmRun(w, es) && Loses(Run(w, es))
  {
    var x := FreshRow(w.accepted);
    var b, c := w.posts[d].job.batch, w.posts[n].job.batch;
    var rest := w.shared.queue[|c|..];
    assert w.shared.queue == c + rest;
    var w1 := Next(w, Delete(d));
    assert w1.posts == w.posts - {d} && w1.delivered == w.delivered + b && w1.shared.queue == Cut(c + rest, |b|);
    var w2 := Next(w1, Event(x, false));
    assert w2.shared.queue == Cut(c + rest, |b|) + [x] && w2.accepted == w.accepted + [x];
    var w3 := Next(w2, Answer(n, true));
    assert n in w3.posts && w3.posts[n] == Post(w.posts[n].job, Deleting);
    var w4 := Next(w3, Delete(n));
    assert w.accepted == w.delivered + c + rest;
    LostRow(w.delivered, b, c, rest, x);
    assert Loses(w4) by {
      var r := (rest + [x])[0];
      assert r in w4.accepted && r !in w4.delivered && r !in w4.shared.queue;
    }
    var es := [Delete(d)] + ([Event(x, false)] + ([Answer(n, true)] + ([Delete(n)] + [])));
    RunStep(w3, Delete(n), []);
    RunStep(w2, Answer(n, true), [Delete(n)] + []);
    RunStep(w1, Event(x, false), [Answer(n, true)] + ([Delete(n)] + []));
    RunStep(w, Delete(d), [Event(x, false)] + ([Answer(n, true)] + ([Delete(n)] + [])));
    assert CalmRun(w, es) && Loses(Run(w, es));
  }

  lemma LawfulLosesNothing(w: World)
    requires Lawful(w)
    ensures !Loses(w)
  {}

  /**
   Exactly when a step of a lawful state is safe: if it finds the slot free while a worker is between its
   complete() and its delete, some continuation without any further such step loses an accepted row;
   otherwise none does.
   */
  lemma NoLossIffNoPostInWindow(w: World, e: Step)
    requires Lawful(w) && Possible(w, e)
    ensures (forall es :: CalmRun(Next(w, e), es) ==> !Loses(Run(Next(w, e), es))) <==> Calm(w, e)
  {
    if Calm(w, e) {
      LawfulStep(w, e);
      hide Next, Lawful, Loses, Calm;
      forall es | CalmRun(Next(w, e), es) ensures !Loses(Run(Next(w, e), es)) {
        ItemLaw(Next(w, e), es);
        LawfulLosesNothing(Run(Next(w, e), es));
      }
    } else {
      var d :| d in w.posts && w.posts[d].phase == Deleting;
      WindowStart(w, e, d);
      hide Next, Lawful, Loses, Overlap;
      var w1 := Next(w, e);
      var w2 := Next(w1, CutBatch);
      var w3 := Next(w2, Begin(0));
      OverlapLoses(w3, d, w.next);
      var es :| CalmRun(w3, es) && Loses(Run(w3, es));
      RunStep(w2, Begin(0), es);
      RunStep(w1, CutBatch, [Begin(0)] + es);
      assert CalmRun(w1, [CutBatch] + ([Begin(0)] + es)) && Loses(Run(w1, [CutBatch] + ([Begin(0)] + es)));
    }
  }

  /** The window can be reached: one event posted, its worker completes, another event arrives. */
  lemma WindowIsReachable()
    ensures exists es, e :: CalmRun(START, es) && Possible(Run(START, es), e) && !Calm(Run(START, es), e)
  {
    var e0, e1, e2, e3, e4, e5 := Event(0, true), Look, CutBatch, Begin(1), Answer(0, true), Event(1, true);
    var w1 := Next(START, e0);
    assert w1.shared.queue == [0];
    var w2 := Next(w1, e1);
    var w3 := Next(w2, e2);
    var w4 := Next(w3, e3);
    assert 0 in w4.posts && w4.posts[0].phase == Sending;
    var w5 := Next(w4, e4);
    assert 0 in w5.posts && w5.posts[0].phase == Deleting;
    var w6 := Next(w5, e5);
    assert 0 in w6.posts && w6.posts[0].phase == Deleting;
    var es := [e0] + ([e1] + ([e2] + ([e3] + ([e4] + ([e5] + [])))));
    RunStep(w5, e5, []);
    RunStep(w4, e4, [e5] + []);
    RunStep(w3, e3, [e4] + ([e5] + []));
    RunStep(w2, e2, [e3] + ([e4] + ([e5] + [])));
    RunStep(w1, e1, [e2] + ([e3] + ([e4] + ([e5] + []))));
    RunStep(START, e0, [e1] + ([e2] + ([e3] + ([e4] + ([e5] + [])))));
    assert CalmRun(START, es) && Run(START, es) == w6;
    assert Possible(Run(START, es), Look) && !Calm(Run(START, es), Look);
  }
}
