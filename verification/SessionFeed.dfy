/**
 The session event queue and its POST workers. Here the queue is cut from the front when it is full,
 and a worker never touches it: it leaves the settled batch in a list of acknowledgements before it
 completes its post, and the game thread removes those rows by identity.
 */
module SessionFeed {
  import opened Common
  import opened PostFeed

  const SESSION_MAX_QUEUE := 512
  const SESSION_BATCH_SIZE := 8
  const SESSION_STUCK_MS := 12000
  const FAIL_THRESHOLD := 10

  type Row = nat

  datatype Shared = Shared(feed: Feed, queue: seq<Row>, acks: seq<seq<Row>>)

  datatype Job = Job(batch: seq<Row>, generation: nat)

  // ---- the queue ------------------------------------------------------------------------------

  /** rows without those in gone, in order. */
  function Keep(rows: seq<Row>, gone: set<Row>): seq<Row> {
    if rows == [] then []
    else Keep(rows[..|rows| - 1], gone) + if rows[|rows| - 1] in gone then [] else [rows[|rows| - 1]]
  }

  function Elements(rows: seq<Row>): set<Row> {
    set r | r in rows
  }

  method AckBatch(queue: seq<Row>, batch: seq<Row>) returns (rest: seq<Row>, removed: nat)
    ensures rest == Keep(queue, Elements(batch)) && removed == |queue| - |rest|
  {
    rest := [];
    for i := 0 to |queue|
      invariant rest == Keep(queue[..i], Elements(batch)) && |rest| <= i
    {
      assert queue[..i + 1][..i] == queue[..i];
      if queue[i] !in batch {
        rest := rest + [queue[i]];
      }
    }
    assert queue[..|queue|] == queue;
    removed := |queue| - |rest|;
  }

  function Trimmed(queue: seq<Row>): seq<Row> {
    if |queue| >= SESSION_MAX_QUEUE then queue[1..] else queue
  }

  function Enqueued(s: Shared, row: Row): Shared {
    s.(queue := Trimmed(s.queue) + [row])
  }

  function AckOne(s: Shared): Shared
    requires s.acks != []
  {
    s.(acks := s.acks[1..], queue := Keep(s.queue, Elements(s.acks[0])))
  }

  function AckAll(s: Shared): Shared
    decreases |s.acks|
  {
    if s.acks == [] then s else AckAll(AckOne(s))
  }

  function BatchOf(queue: seq<Row>): seq<Row> {
    queue[..Min(|queue|, SESSION_BATCH_SIZE)]
  }

  function Synced(s: Shared, enabled: bool): Shared {
    var feed := s.feed.(wasEnabled := enabled);
    s.(feed := if EdgeOf(s.feed, enabled) == Enabled then Rearmed(feed) else feed)
  }

  function Checked(s: Shared, now: int): Shared {
    if IsStuck(s.feed, now, SESSION_STUCK_MS) then s.(feed := Recorded(Reclaimed(s.feed), false, FAIL_THRESHOLD)) else s
  }

  /** What an answer of the relay does to a batch: it is settled unless it is to be sent again. */
  datatype Outcome = Accepted | Retry | Rejected

  function OutcomeOf(status: int): Outcome {
    if status < 400 then Accepted
    else if status >= 500 || status == 408 || status == 429 then Retry
    else Rejected
  }

  /** A worker's last step. */
  function Finished(s: Shared, generation: nat, ok: bool): Shared {
    if generation != s.feed.generation then s
    else s.(feed := Recorded(Completed(s.feed, generation, ok), ok, FAIL_THRESHOLD))
  }

  // ---- the queue as the game thread's object ---------------------------------------------------

  class SessionQueue {
    const state: FeedState
    var queue: seq<Row>
    var acks: seq<seq<Row>>

    ghost function View(): Shared
      reads this, state
    {
      Shared(state.View(), queue, acks)
    }

    ghost predicate Valid() {
      state.stuckMs == SESSION_STUCK_MS && state.failThreshold == FAIL_THRESHOLD
    }

    constructor ()
      ensures Valid() && fresh(state) && View() == Shared(NEW_FEED, [], [])
    {
      state := new FeedState(SESSION_STUCK_MS, FAIL_THRESHOLD);
      queue, acks := [], [];
    }

    method Enqueue(row: Row)
      requires Valid()
      modifies this
      ensures View() == Enqueued(old(View()), row)
    {
      if |queue| >= SESSION_MAX_QUEUE {
        queue := queue[1..];
      }
      queue := queue + [row];
    }

    /** A lifecycle row is sent at once, alone, if no post is in flight. */
    method PostNow(row: Row, enabled: bool, now: int) returns (job: Option<Job>)
      requires Valid()
      modifies state
      ensures job == if enabled && !old(state.inFlight) then Some(Job([row], state.generation)) else None
      ensures View() == if job.Some? then old(View()).(feed := Begun(old(View()).feed, now)) else old(View())
    {
      if !enabled {
        return None;
      }
      if state.inFlight {
        return None;
      }
      var generation := state.BeginPost(now);
      job := Some(Job([row], generation));
    }

    method ApplyAcks()
      requires Valid()
      modifies this
      ensures View() == AckAll(old(View()))
      ensures acks == []
    {
      while acks != []
        invariant AckAll(View()) == AckAll(old(View()))
        decreases |acks|
      {
        var batch := acks[0];
        acks := acks[1..];
        var rest, removed := AckBatch(queue, batch);
        queue := rest;
      }
    }

    /** A whole frame during which no worker moves. */
    method Drive(enabled: bool, onStride: bool, now: int) returns (job: Option<Job>)
      requires Valid()
      modifies this, state
      ensures var s := AckAll(Synced(old(View()), enabled));
              && job == (if enabled && s.queue != [] && !s.feed.inFlight && onStride
                         then Some(Job(BatchOf(s.queue), s.feed.generation)) else None)
              && View() == if !enabled || s.queue == [] then s
                           else if s.feed.inFlight then Checked(s, now)
                           else if onStride then s.(feed := Begun(s.feed, now)) else s
    {
      var edge := state.SyncEnabled(enabled);
      if edge == Enabled {
        var _ := state.ResetCircuit();
      }
      ApplyAcks();
      if !enabled {
        return None;
      }
      if queue == [] {
        return None;
      }
      if state.inFlight {
        var age := state.CheckStuck(now);
        if age.Some? {
          var _ := state.RecordResult(false);
        }
        return None;
      }
      if !onStride {
        return None;
      }
      ApplyAcks();
      if queue == [] {
        return None;
      }
      var batch := if |queue| < SESSION_BATCH_SIZE then queue else queue[..SESSION_BATCH_SIZE];
      var generation := state.BeginPost(now);
      assert queue[..|queue|] == queue;
      job := Some(Job(batch, generation));
    }

    /** The worker's answer, before its complete(); tells whether the post counts as a success. */
    method Settle(batch: seq<Row>, status: int) returns (ok: bool)
      requires Valid()
      modifies this`acks
      ensures View() == old(View()).(acks := if OutcomeOf(status) == Retry then old(acks) else old(acks) + [batch])
      ensures ok == (OutcomeOf(status) == Accepted)
    {
      var outcome := OutcomeOf(status);
      if outcome != Retry {
        acks := acks + [batch];
      }
      ok := outcome == Accepted;
    }

    method Finish(generation: nat, ok: bool)
      requires Valid()
      modifies state
      ensures View() == Finished(old(View()), generation, ok)
    {
      var current := state.Complete(generation, ok);
      if current {
        var _ := state.RecordResult(ok);
      }
    }
  }

  // ---- the game thread and its workers, interleaved -----------------------------------------

  datatype Phase = Sending | Answered(ok: bool)

  datatype Post = Post(generation: nat, phase: Phase)

  /**
   Where the game thread stands between two of its reads or writes of what a worker also touches: it has
   a lifecycle row to post, drains the acknowledgements, is past that loop, has found a post in flight,
   drains a second time, is past that loop too, or has cut a batch for the post it begins next.
   */
  datatype Place =
    | Idle
    | Posting(row: Row)
    | Draining(enabled: bool)
    | Drained(enabled: bool)
    | Blocked
    | Redraining
    | Taking
    | Beginning(batch: seq<Row>)

  /**
   Beside the shared state: all rows ever queued, those the cap pushed out, those removed by an
   acknowledgement, and every batch taken. A post is numbered by its batch in `taken`; `settled`
   holds the posts answered with a delivery or a rejection, `timely` those of them whose generation
   was current at that moment.
   */
  datatype World = World(shared: Shared, place: Place, posts: map<nat, Post>, enqueued: seq<Row>,
                         capped: set<Row>, acked: set<Row>, taken: seq<seq<Row>>,
                         settled: set<nat>, timely: set<nat>)

  const START := World(Shared(NEW_FEED, [], []), Idle, map[], [], {}, {}, [], {}, {})

  datatype Step =
    | Enqueue(row: Row, lifecycle: bool)
    | LookNow(enabled: bool)
    | BeginFrame(enabled: bool)
    | ApplyAck
    | EndDrain
    | Look(onStride: bool)
    | CheckStuck(now: int)
    | Cut
    | Begin(now: int)
    | Answer(id: nat, status: int)
    | Break(id: nat)
    | Complete(id: nat)

  predicate Possible(w: World, e: Step) {
    match e
    case Enqueue(row, _) => w.place == Idle && row !in w.enqueued
    case LookNow(_) => w.place.Posting?
    case BeginFrame(_) => w.place == Idle
    case ApplyAck => (w.place.Draining? || w.place == Redraining) && w.shared.acks != []
    case EndDrain => (w.place.Draining? || w.place == Redraining) && w.shared.acks == []
    case Look(_) => w.place.Drained?
    case CheckStuck(_) => w.place == Blocked
    case Cut => w.place == Taking
    case Begin(_) => w.place.Beginning?
    case Answer(id, _) => id in w.posts && w.posts[id].phase == Sending && id < |w.taken|
    case Break(id) => id in w.posts && w.posts[id].phase == Sending
    case Complete(id) => id in w.posts && w.posts[id].phase.Answered?
  }

  function Posted(w: World, batch: seq<Row>, now: int): World {
    w.(shared := w.shared.(feed := Begun(w.shared.feed, now)),
       posts := w.posts[|w.taken| := Post(w.shared.feed.generation, Sending)], taken := w.taken + [batch])
  }

  function Next(w: World, e: Step): World
    requires Possible(w, e)
  {
    var s := w.shared;
    match e
    case Enqueue(row, lifecycle) =>
      w.(shared := Enqueued(s, row), enqueued := w.enqueued + [row],
         capped := if |s.queue| >= SESSION_MAX_QUEUE then w.capped + {s.queue[0]} else w.capped,
         place := if lifecycle then Posting(row) else Idle)
    case LookNow(enabled) => w.(place := if enabled && !s.feed.inFlight then Beginning([w.place.row]) else Idle)
    case BeginFrame(enabled) => w.(shared := Synced(s, enabled), place := Draining(enabled))
    case ApplyAck => w.(shared := AckOne(s), acked := w.acked + Elements(s.acks[0]) * Elements(s.queue))
    case EndDrain => w.(place := if w.place.Draining? then Drained(w.place.enabled) else Taking)
    case Look(onStride) =>
      w.(place := if !w.place.enabled || s.queue == [] then Idle
                  else if s.feed.inFlight then Blocked
                  else if onStride then Redraining else Idle)
    case CheckStuck(now) => w.(shared := Checked(s, now), place := Idle)
    case Cut => w.(place := if s.queue == [] then Idle else Beginning(BatchOf(s.queue)))
    case Begin(now) => Posted(w, w.place.batch, now).(place := Idle)
    case Answer(id, status) =>
      var outcome := OutcomeOf(status);
      var answered := w.(posts := w.posts[id := w.posts[id].(phase := Answered(outcome == Accepted))]);
      if outcome == Retry then answered
      else answered.(shared := s.(acks := s.acks + [w.taken[id]]), settled := w.settled + {id},
                     timely := if w.posts[id].generation == s.feed.generation then w.timely + {id} else w.timely)
    case Break(id) => w.(posts := w.posts[id := w.posts[id].(phase := Answered(false))])
    case Complete(id) =>
      w.(shared := Finished(s, w.posts[id].generation, w.posts[id].phase.ok), posts := w.posts - {id})
  }

  ghost predicate IsRun(w: World, es: seq<Step>)
    decreases |es|
  {
    es == [] || (Possible(w, es[0]) && IsRun(Next(w, es[0]), es[1..]))
  }

  ghost function Run(w: World, es: seq<Step>): World
    requires IsRun(w, es)
    decreases |es|
  {
    if es == [] then w else Run(Next(w, es[0]), es[1..])
  }

  // ---- what every run keeps ----------------------------------------------------------------------

  predicate Distinct(rows: seq<Row>) {
    forall i, j :: 0 <= i < j < |rows| ==> rows[i] != rows[j]
  }

  predicate Owns(w: World, id: nat) {
    id in w.posts && w.posts[id].generation == w.shared.feed.generation
  }

  predicate Disjoint(xs: seq<Row>, ys: seq<Row>) {
    forall r :: r in xs ==> r !in ys
  }

  /** The queue is what was enqueued without the rows that left, in order. */
  ghost predicate QueueKept(w: World) {
    && Distinct(w.enqueued)
    && (forall r :: r in w.capped + w.acked ==> r in w.enqueued)
    && |w.shared.queue| <= SESSION_MAX_QUEUE
    && w.shared.queue == Keep(w.enqueued, w.capped + w.acked)
  }

  ghost predicate SettledBatch(w: World, batch: seq<Row>) {
    exists id :: id in w.settled && id < |w.taken| && w.taken[id] == batch
  }

  /** A row removed by an acknowledgement was in a batch that was delivered or rejected. */
  ghost predicate AckedWasSettled(w: World) {
    && (forall b :: b in w.shared.acks ==> SettledBatch(w, b))
    && forall r :: r in w.acked ==> exists id :: id in w.settled && id < |w.taken| && r in w.taken[id]
  }

  /** Past the look at the slot: from there on no post is in flight until the game thread begins one. */
  predicate SlotSeenFree(w: World) {
    w.place == Redraining || w.place == Taking || w.place.Beginning?
  }

  /** The slot is taken exactly when one unfinished post carries the current generation: the last one begun. */
  ghost predicate SlotOwned(w: World) {
    && (w.shared.feed.inFlight <==> exists id :: Owns(w, id))
    && (forall i, j :: Owns(w, i) && Owns(w, j) ==> i == j)
    && (forall i :: i in w.posts ==> i < |w.taken| && w.posts[i].generation <= w.shared.feed.generation)
    && (forall i :: Owns(w, i) ==> i == |w.taken| - 1)
    && (SlotSeenFree(w) ==> !w.shared.feed.inFlight)
  }

  /** None of the rows is in a batch that was settled while its generation was current. */
  ghost predicate Unsettled(w: World, rows: seq<Row>) {
    forall id, r :: id in w.timely && id < |w.taken| && r in rows ==> r !in w.taken[id]
  }

  /**
   A row of a batch settled in time is in no later batch. While it is queued its acknowledgement is
   pending, and once the second drain is over none is queued any more, whatever late workers still add.
   */
  ghost predicate NoRepeat(w: World) {
    && (forall id :: id in w.timely ==> id < |w.taken|)
    && (w.place == Taking ==> Unsettled(w, w.shared.queue))
    && (w.place.Beginning? ==> Unsettled(w, w.place.batch))
    && (forall id, k :: id in w.timely && id < k < |w.taken| ==> Disjoint(w.taken[id], w.taken[k]))
    && (forall id, r :: id in w.timely && r in w.taken[id] && r in w.shared.queue ==>
          exists b :: b in w.shared.acks && r in b)
  }

  ghost predicate TakenEnqueued(w: World) {
    && (forall id :: 0 <= id < |w.taken| ==> forall r :: r in w.taken[id] ==> r in w.enqueued)
    && (w.place.Posting? ==> w.place.row in w.enqueued
                             && forall id :: 0 <= id < |w.taken| ==> w.place.row !in w.taken[id])
    && (w.place.Beginning? ==> forall r :: r in w.place.batch ==> r in w.enqueued)
  }

  ghost predicate Sound(w: World) {
    QueueKept(w) && AckedWasSettled(w) && SlotOwned(w) && NoRepeat(w) && TakenEnqueued(w)
  }

  // ---- rows kept in order --------------------------------------------------------------------------

  lemma {:induction false} KeepMembers(rows: seq<Row>, gone: set<Row>)
    ensures forall r :: r in Keep(rows, gone) <==> r in rows && r !in gone
    ensures |Keep(rows, gone)| <= |rows|
  {
    if rows != [] {
      KeepMembers(rows[..|rows| - 1], gone);
      assert rows == rows[..|rows| - 1] + [rows[|rows| - 1]];
    }
  }

  lemma KeepAppend(rows: seq<Row>, row: Row, gone: set<Row>)
    ensures Keep(rows + [row], gone) == Keep(rows, gone) + if row in gone then [] else [row]
  {
    assert (rows + [row])[..|rows|] == rows;
  }

  lemma {:induction false} KeepSame(rows: seq<Row>, gone: set<Row>, also: set<Row>)
    requires forall r :: r in rows ==> (r in gone <==> r in also)
    ensures Keep(rows, gone) == Keep(rows, also)
  {
    if rows != [] {
      KeepSame(rows[..|rows| - 1], gone, also);
    }
  }

  lemma {:induction false} KeepKeep(rows: seq<Row>, gone: set<Row>, more: set<Row>)
    ensures Keep(Keep(rows, gone), more) == Keep(rows, gone + more)
  {
    if rows != [] {
      var before, last := rows[..|rows| - 1], rows[|rows| - 1];
      KeepKeep(before, gone, more);
      if last !in gone {
        KeepAppend(Keep(before, gone), last, more);
      } else {
        assert Keep(before, gone) + [] == Keep(before, gone);
      }
    }
  }

  lemma DistinctFront(rows: seq<Row>)
    requires rows != [] && Distinct(rows)
    ensures var before, last := rows[..|rows| - 1], rows[|rows| - 1];
            rows == before + [last] && Distinct(before) && last !in before
  {}

  lemma KeptInside(rows: seq<Row>, gone: set<Row>)
    ensures Keep(rows, gone) != [] ==> Keep(rows, gone)[0] in rows
    ensures Keep(rows, gone) == [] ==> forall r :: r in rows ==> r in gone
  {
    KeepMembers(rows, gone);
    hide Keep;
    if Keep(rows, gone) != [] {
      assert Keep(rows, gone)[0] in Keep(rows, gone);
    }
  }

  /** Taking the first row away is keeping all rows but that one. */
  lemma {:induction false} KeepFirst(rows: seq<Row>, gone: set<Row>)
    requires Distinct(rows) && Keep(rows, gone) != []
    ensures Keep(rows, gone + {Keep(rows, gone)[0]}) == Keep(rows, gone)[1..]
  {
    if rows != [] {
      hide Keep, Distinct;
      var before, last := rows[..|rows| - 1], rows[|rows| - 1];
      var kept := Keep(before, gone);
      DistinctFront(rows);
      KeepAppend(before, last, gone);
      KeptInside(before, gone);
      if kept == [] {
        KeepAppend(before, last, gone + {last});
        KeepSame(before, gone, gone + {last});
      } else {
        KeepFirst(before, gone);
        KeepAppend(before, last, gone + {kept[0]});
      }
    }
  }

  // ---- one step -------------------------------------------------------------------------------------

  lemma EnqueueKept(w: World, row: Row, lifecycle: bool)
    requires QueueKept(w) && Possible(w, Enqueue(row, lifecycle))
    ensures QueueKept(Next(w, Enqueue(row, lifecycle)))
  {
    var gone := w.capped + w.acked;
    KeepAppend(w.enqueued, row, gone);
    if |w.shared.queue| >= SESSION_MAX_QUEUE {
      var first := w.shared.queue[0];
      KeepMembers(w.enqueued, gone);
      assert first in w.enqueued;
      KeepFirst(w.enqueued, gone);
      KeepAppend(w.enqueued, row, gone + {first});
      assert w.capped + {first} + w.acked == gone + {first};
    }
  }

  lemma AckKept(w: World)
    requires QueueKept(w) && Possible(w, ApplyAck)
    ensures QueueKept(Next(w, ApplyAck))
  {
    var gone, batch := w.capped + w.acked, Elements(w.shared.acks[0]);
    KeepMembers(w.enqueued, gone);
    KeepKeep(w.enqueued, gone, batch);
    KeepMembers(w.shared.queue, batch);
    KeepSame(w.enqueued, gone + batch, w.capped + (w.acked + batch * Elements(w.shared.queue)));
  }

  lemma QueueKeptStep(w: World, e: Step)
    requires QueueKept(w) && Possible(w, e)
    ensures QueueKept(Next(w, e))
  {
    match e
    case Enqueue(row, lifecycle) => EnqueueKept(w, row, lifecycle);
    case ApplyAck => AckKept(w);
    case _ =>
      hide QueueKept;
      SameQueue(w, e);
      StillKept(w, Next(w, e));
  }

  lemma SameQueue(w: World, e: Step)
    requires Possible(w, e) && !e.Enqueue? && !e.ApplyAck?
    ensures var w' := Next(w, e);
            w'.shared.queue == w.shared.queue && w'.enqueued == w.enqueued && w'.capped == w.capped
                && w'.acked == w.acked
  {}

  lemma StillKept(w: World, w': World)
    requires QueueKept(w)
    requires w'.shared.queue == w.shared.queue && w'.enqueued == w.enqueued && w'.capped == w.capped
             && w'.acked == w.acked
    ensures QueueKept(w')
  {}

  lemma MoreSettled(w: World, w': World, batch: seq<Row>)
    requires SettledBatch(w, batch) && w.settled <= w'.settled && w.taken <= w'.taken
    ensures SettledBatch(w', batch)
  {
    var id :| id in w.settled && id < |w.taken| && w.taken[id] == batch;
    assert w'.taken[id] == w.taken[id];
  }

  lemma HistoryGrows(w: World, e: Step)
    requires Possible(w, e)
    ensures w.settled <= Next(w, e).settled && w.taken <= Next(w, e).taken
  {}

  /** What one step does to the pending acknowledgements and the acknowledged rows. */
  lemma AcksStep(w: World, e: Step)
    requires Possible(w, e)
    ensures var w' := Next(w, e);
            && (forall b :: b in w'.shared.acks ==> b in w.shared.acks || SettledBatch(w', b))
            && (forall r :: r in w'.acked ==> r in w.acked || exists b :: b in w.shared.acks && r in b)
  {
    var w' := Next(w, e);
    match e
    case Answer(id, status) =>
      if OutcomeOf(status) != Retry {
        assert SettledBatch(w', w.taken[id]);
      }
    case ApplyAck =>
      assert w.shared.acks[0] in w.shared.acks;
    case _ =>
  }

  lemma AckedWasSettledStep(w: World, e: Step)
    requires AckedWasSettled(w) && Possible(w, e)
    ensures AckedWasSettled(Next(w, e))
  {
    var w' := Next(w, e);
    HistoryGrows(w, e);
    AcksStep(w, e);
    hide Next, Possible;
    forall b | b in w'.shared.acks ensures SettledBatch(w', b) {
      if b in w.shared.acks {
        MoreSettled(w, w', b);
      }
    }
    forall r | r in w'.acked ensures exists id :: id in w'.settled && id < |w'.taken| && r in w'.taken[id] {
      if r in w.acked {
        var id :| id in w.settled && id < |w.taken| && r in w.taken[id];
        assert w'.taken[id] == w.taken[id];
      } else {
        var b :| b in w.shared.acks && r in b;
        MoreSettled(w, w', b);
      }
    }
  }

  // ---- the slot ------------------------------------------------------------------------------------

  lemma SlotSame(w: World, w': World)
    requires SlotOwned(w)
    requires w'.posts.Keys == w.posts.Keys
    requires forall i :: i in w.posts ==> w'.posts[i].generation == w.posts[i].generation
    requires w'.taken == w.taken && w'.shared.feed.generation == w.shared.feed.generation
    requires w'.shared.feed.inFlight == w.shared.feed.inFlight
    requires SlotSeenFree(w') ==> SlotSeenFree(w) || !w.shared.feed.inFlight
    ensures SlotOwned(w')
  {
    assert forall i :: Owns(w', i) <==> Owns(w, i);
  }

  lemma SlotPosted(w: World, batch: seq<Row>, now: int)
    requires SlotOwned(w) && !w.shared.feed.inFlight
    ensures SlotOwned(Posted(w, batch, now).(place := Idle))
  {
    var w' := Posted(w, batch, now).(place := Idle);
    assert Owns(w', |w.taken|);
    assert forall i :: Owns(w', i) && i != |w.taken| ==> Owns(w, i);
  }

  lemma SlotReclaimed(w: World, now: int)
    requires SlotOwned(w)
    ensures SlotOwned(w.(shared := Checked(w.shared, now), place := Idle))
  {
    var w' := w.(shared := Checked(w.shared, now), place := Idle);
    if w'.shared == w.shared {
      assert forall i :: Owns(w', i) <==> Owns(w, i);
    } else {
      assert forall i :: !Owns(w', i);
    }
  }

  lemma SlotCompleted(w: World, id: nat)
    requires SlotOwned(w) && Possible(w, Complete(id))
    ensures SlotOwned(Next(w, Complete(id)))
  {
    var w' := Next(w, Complete(id));
    if Owns(w, id) {
      assert forall i :: Owns(w', i) ==> Owns(w, i) && i != id;
    } else {
      assert forall i :: Owns(w', i) <==> Owns(w, i);
    }
  }

  lemma SlotOwnedStep(w: World, e: Step)
    requires SlotOwned(w) && Possible(w, e)
    ensures SlotOwned(Next(w, e))
  {
    match e
    case CheckStuck(now) => SlotReclaimed(w, now);
    case Begin(now) => SlotPosted(w, w.place.batch, now);
    case Complete(id) => SlotCompleted(w, id);
    case _ =>
      hide SlotOwned;
      SlotSame(w, Next(w, e));
  }

  // ---- batches -----------------------------------------------------------------------------------------

  lemma TakenEnqueuedStep(w: World, e: Step)
    requires TakenEnqueued(w) && QueueKept(w) && Possible(w, e)
    ensures TakenEnqueued(Next(w, e))
  {
    hide Synced, Checked, Finished, AckOne, Enqueued, Begun, Keep, OutcomeOf;
    KeepMembers(w.enqueued, w.capped + w.acked);
    assert forall r :: r in w.shared.queue ==> r in w.enqueued;
    hide QueueKept;
  }

  /** No batch is begun by this step, and no row is queued that was taken before. */
  lemma NoRepeatSame(w: World, w': World)
    requires NoRepeat(w) && w'.taken == w.taken && w'.timely == w.timely && w'.shared.acks == w.shared.acks
    requires forall r :: r in w'.shared.queue ==>
               r in w.shared.queue || forall id :: 0 <= id < |w.taken| ==> r !in w.taken[id]
    requires w'.place == Taking ==> Unsettled(w, w'.shared.queue)
    requires w'.place.Beginning? ==> Unsettled(w, w'.place.batch)
    ensures NoRepeat(w')
  {}

  lemma NoRepeatBegin(w: World, now: int)
    requires NoRepeat(w) && Possible(w, Begin(now))
    ensures NoRepeat(Next(w, Begin(now)))
  {
    var w' := Next(w, Begin(now));
    forall id, k | id in w'.timely && id < k < |w'.taken| ensures Disjoint(w'.taken[id], w'.taken[k]) {
      assert id < |w.taken|;
      if k < |w.taken| {
        assert Disjoint(w.taken[id], w.taken[k]);
      }
    }
  }

  /** The second drain: when its loop ends, no row settled in time is queued. */
  lemma NoneLeft(w: World)
    requires NoRepeat(w) && w.shared.acks == []
    ensures Unsettled(w, w.shared.queue)
  {}

  lemma FirstRows(w: World)
    requires Unsettled(w, w.shared.queue)
    ensures Unsettled(w, BatchOf(w.shared.queue))
  {
    forall r | r in BatchOf(w.shared.queue) ensures r in w.shared.queue {}
  }

  lemma FreshUnsettled(w: World)
    requires TakenEnqueued(w) && w.place.Posting?
    ensures Unsettled(w, [w.place.row])
  {}

  lemma TakingUnsettled(w: World)
    requires NoRepeat(w)
    ensures w.place == Taking ==> Unsettled(w, w.shared.queue)
    ensures w.place.Beginning? ==> Unsettled(w, w.place.batch)
  {}

  lemma NoRepeatAnswer(w: World, id: nat, status: int)
    requires NoRepeat(w) && SlotOwned(w) && Possible(w, Answer(id, status))
    ensures NoRepeat(Next(w, Answer(id, status)))
  {
    var w' := Next(w, Answer(id, status));
    if OutcomeOf(status) != Retry {
      assert w.taken[id] in w'.shared.acks;
      assert forall b :: b in w.shared.acks ==> b in w'.shared.acks;
      assert id in w'.timely && id !in w.timely ==> Owns(w, id);
    }
  }

  lemma NoRepeatAck(w: World)
    requires NoRepeat(w) && Possible(w, ApplyAck)
    ensures NoRepeat(Next(w, ApplyAck))
  {
    var w' := Next(w, ApplyAck);
    KeepMembers(w.shared.queue, Elements(w.shared.acks[0]));
    hide Keep;
    forall id, r | id in w'.timely && r in w'.taken[id] && r in w'.shared.queue
      ensures exists b :: b in w'.shared.acks && r in b
    {
      var b :| b in w.shared.acks && r in b;
      assert b != w.shared.acks[0];
    }
  }

  lemma NoRepeatStep(w: World, e: Step)
    requires NoRepeat(w) && SlotOwned(w) && TakenEnqueued(w) && Possible(w, e)
    ensures NoRepeat(Next(w, e))
  {
    hide NoRepeat, SlotOwned, Unsettled;
    TakingUnsettled(w);
    match e
    case LookNow(enabled) =>
      FreshUnsettled(w);
      NoRepeatSame(w, Next(w, e));
    case EndDrain =>
      NoneLeft(w);
      NoRepeatSame(w, Next(w, e));
    case Cut =>
      FirstRows(w);
      NoRepeatSame(w, Next(w, e));
    case Begin(now) => NoRepeatBegin(w, now);
    case Answer(id, status) => NoRepeatAnswer(w, id, status);
    case ApplyAck => NoRepeatAck(w);
    case _ => NoRepeatSame(w, Next(w, e));
  }

  lemma SoundStep(w: World, e: Step)
    requires Sound(w) && Possible(w, e)
    ensures Sound(Next(w, e))
  {
    QueueKeptStep(w, e);
    AckedWasSettledStep(w, e);
    SlotOwnedStep(w, e);
    NoRepeatStep(w, e);
    TakenEnqueuedStep(w, e);
  }

  /**
   On every interleaving: a row leaves the queue only by the cap or by the acknowledgement of a batch
   that held it and was delivered or rejected, the others keep their order, and no row of a batch that
   was settled while its generation was current is ever put into a later batch.
   */
  lemma {:induction false} SessionLaw(w: World, es: seq<Step>)
    requires Sound(w) && IsRun(w, es)
    ensures Sound(Run(w, es))
    decreases |es|
  {
    hide Sound, Next, Possible;
    if es != [] {
      SoundStep(w, es[0]);
      SessionLaw(Next(w, es[0]), es[1..]);
    }
  }

  lemma SoundStart()
    ensures Sound(START)
  {
    assert forall id :: !Owns(START, id);
    assert Keep(START.enqueued, START.capped + START.acked) == [];
  }

  /**
   The law for every run of a server: what is queued is what was enqueued without the rows the cap pushed
   out and the rows acknowledged, each of the latter was in a batch that was delivered or rejected, and the
   batches settled in time share no row with a later one.
   */
  lemma SessionRuns(es: seq<Step>)
    requires IsRun(START, es)
    ensures var w := Run(START, es);
            && w.shared.queue == Keep(w.enqueued, w.capped + w.acked)
            && (forall r :: r in w.acked ==> exists id :: id in w.settled && id < |w.taken| && r in w.taken[id])
            && (forall id, k :: id in w.timely && id < k < |w.taken| ==> Disjoint(w.taken[id], w.taken[k]))
  {
    SoundStart();
    hide Run, IsRun;
    SessionLaw(START, es);
  }

  // ---- the second drain is needed --------------------------------------------------------------------

  /** The worlds of a run, step after step. */
  ghost predicate Steps(ws: seq<World>, es: seq<Step>) {
    && |ws| == |es| + 1
    && forall i :: 0 <= i < |es| ==> Possible(ws[i], es[i]) && Next(ws[i], es[i]) == ws[i + 1]
  }

  lemma {:induction false} StepsRun(ws: seq<World>, es: seq<Step>)
    requires Steps(ws, es)
    ensures IsRun(ws[0], es) && Run(ws[0], es) == ws[|es|]
    decreases |es|
  {
    hide Possible, Next;
    if es != [] {
      StepsRun(ws[1..], es[1..]);
    }
  }

  const FIRST_POST: seq<Step> :=
    [Enqueue(0, false), BeginFrame(true), EndDrain, Look(true), EndDrain, Cut, Begin(1)]

  /** One row is queued, cut and posted in an ordinary frame. */
  lemma FirstPost() returns (w: World)
    ensures IsRun(START, FIRST_POST) && Run(START, FIRST_POST) == w
    ensures w.place == Idle && w.shared.queue == [0] && w.shared.acks == [] && w.taken == [[0]]
    ensures w.shared.feed.inFlight && w.posts == map[0 := Post(w.shared.feed.generation, Sending)] && w.timely == {}
  {
    var es := FIRST_POST;
    var w1 := Next(START, es[0]);
    assert w1.shared.queue == [0];
    var w2 := Next(w1, es[1]);
    var w3 := Next(w2, es[2]);
    var w4 := Next(w3, es[3]);
    var w5 := Next(w4, es[4]);
    var w6 := Next(w5, es[5]);
    assert w6.place == Beginning([0]);
    w := Next(w6, es[6]);
    hide IsRun, Run;
    assert Steps([START, w1, w2, w3, w4, w5, w6, w], es);
    StepsRun([START, w1, w2, w3, w4, w5, w6, w], es);
  }

  const LATE_ANSWER: seq<Step> := [BeginFrame(true), EndDrain, Answer(0, 200), Complete(0), Look(true)]

  /** Its worker answers and completes after the first drain of a later frame. */
  lemma LateAnswer(w: World) returns (v: World)
    requires w.place == Idle && w.shared.queue == [0] && w.shared.acks == [] && w.taken == [[0]]
    requires w.shared.feed.inFlight && w.posts == map[0 := Post(w.shared.feed.generation, Sending)] && w.timely == {}
    ensures IsRun(w, LATE_ANSWER) && Run(w, LATE_ANSWER) == v
    ensures v.place == Redraining && v.shared.queue == [0] && v.shared.acks == [[0]] && v.taken == [[0]]
    ensures v.timely == {0} && !v.shared.feed.inFlight
  {
    var es := LATE_ANSWER;
    var w1 := Next(w, es[0]);
    var w2 := Next(w1, es[1]);
    var w3 := Next(w2, es[2]);
    assert w3.shared.acks == [[0]] && w3.timely == {0};
    var w4 := Next(w3, es[3]);
    v := Next(w4, es[4]);
    hide IsRun, Run;
    assert Steps([w, w1, w2, w3, w4, v], es);
    StepsRun([w, w1, w2, w3, w4, v], es);
  }

  lemma {:induction false} RunsJoin(w: World, es: seq<Step>, fs: seq<Step>)
    requires IsRun(w, es) && IsRun(Run(w, es), fs)
    ensures IsRun(w, es + fs) && Run(w, es + fs) == Run(Run(w, es), fs)
    decreases |es|
  {
    hide Next, Possible;
    if es == [] {
      assert es + fs == fs;
    } else {
      assert (es + fs)[1..] == es[1..] + fs;
      RunsJoin(Next(w, es[0]), es[1..], fs);
    }
  }

  /** The game thread cuts and begins at once, without draining again. */
  function Hasty(w: World, now: int): World
    requires w.place == Redraining
  {
    if w.shared.queue == [] then w.(place := Idle)
    else Posted(w, BatchOf(w.shared.queue), now).(place := Idle)
  }

  /**
   Without the second drain the law fails: a worker that answers and completes after the first drain
   leaves its settled rows queued, and the next batch would send them again.
   */
  lemma SecondDrainNeeded()
    ensures exists es :: IsRun(START, es) && Run(START, es).place == Redraining && !NoRepeat(Hasty(Run(START, es), 2))
  {
    var w := FirstPost();
    var v := LateAnswer(w);
    RunsJoin(START, FIRST_POST, LATE_ANSWER);
    var u := Hasty(v, 2);
    hide Run, IsRun;
    assert BatchOf(v.shared.queue) == [0];
    assert u.taken == [[0], [0]] && 0 in u.timely;
    assert !Disjoint(u.taken[0], u.taken[1]) by {
      assert 0 in u.taken[0] && 0 in u.taken[1];
    }
    assert IsRun(START, FIRST_POST + LATE_ANSWER) && Run(START, FIRST_POST + LATE_ANSWER) == v;
  }
}
