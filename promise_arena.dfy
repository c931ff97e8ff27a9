/**
 * The consistency invariant of the promise engine, stated over a snapshot of
 * its state, and one lemma per primitive state change saying when that change
 * keeps it.  The central part is the one-shot invariant: a promise has at
 * most one way left to be settled, and a settled promise has none.
 */
module PromiseArena {
  import opened Wrappers
  import opened PromiseModel

  /** A snapshot of the engine: the promise arena, the closure arenas, the task queue and the notifications. */
  datatype Arena = Arena(
    promises: seq<PromiseRecord>,
    latches: seq<Latch>,
    alls: seq<AllRecord>,
    races: seq<RaceRecord>,
    tasks: seq<Task>,
    notified: seq<nat>)

  ghost predicate HandlerIn(a: Arena, h: Handler) {
    HandlerOk(h, |a.promises|, |a.latches|, a.alls, a.races)
  }

  /** Indices in range, `_previous` links going down, settled promises without handlers. */
  ghost predicate RecordsValid(a: Arena) {
    var ps := a.promises;
    PreviousLinksDecrease(ps) &&
    (forall i :: 0 <= i < |ps| && ps[i].parent.Some? ==> ps[i].parent.value < |ps|) &&
    (forall i :: 0 <= i < |ps| ==> Below(ps[i].value, |ps|)) &&
    (forall i :: 0 <= i < |ps| && ps[i].state != Pending ==> ps[i].handlers == []) &&
    (forall i :: 0 <= i < |ps| && ps[i].state == Fulfilled ==> !ps[i].value.Promise?) &&
    (forall i, k :: 0 <= i < |ps| && 0 <= k < |ps[i].handlers| ==> HandlerIn(a, ps[i].handlers[k]))
  }

  /** Latches name existing promises; `all` and `race` records name existing latches. */
  ghost predicate ClosuresValid(a: Arena) {
    (forall l :: 0 <= l < |a.latches| ==> a.latches[l].target < |a.promises|) &&
    (forall c :: 0 <= c < |a.alls| ==> a.alls[c].latch < |a.latches|) &&
    (forall c, k :: 0 <= c < |a.alls| && 0 <= k < |a.alls[c].results| ==>
      Below(a.alls[c].results[k], |a.promises|)) &&
    (forall c :: 0 <= c < |a.races| ==> a.races[c].latch < |a.latches|)
  }

  /** Scheduled tasks name existing promises; a dispatch is only scheduled for a settled promise. */
  ghost predicate TasksValid(a: Arena) {
    (forall k :: 0 <= k < |a.tasks| ==> a.tasks[k].promise < |a.promises|) &&
    (forall k :: 0 <= k < |a.tasks| && !a.tasks[k].DispatchTask? ==> Below(a.tasks[k].value, |a.promises|)) &&
    (forall k :: 0 <= k < |a.tasks| && a.tasks[k].DispatchTask? ==>
      HandlerIn(a, a.tasks[k].handler) && a.promises[a.tasks[k].promise].state != Pending)
  }

  /**
   * The one-shot invariant.  A settlement source of a promise is an open
   * latch targeting it or a scheduled `_resolve`/`_reject` body for it.
   * Every promise has at most one source, and only a pending promise has one.
   */
  ghost predicate OneShot(a: Arena)
    requires TasksValid(a) && ClosuresValid(a)
  {
    (forall i, j :: 0 <= i < j < |a.tasks| && !a.tasks[i].DispatchTask? && !a.tasks[j].DispatchTask? ==>
      a.tasks[i].promise != a.tasks[j].promise) &&
    (forall i, l :: 0 <= i < |a.tasks| && 0 <= l < |a.latches| && !a.tasks[i].DispatchTask? && !a.latches[l].done ==>
      a.latches[l].target != a.tasks[i].promise) &&
    (forall l, m :: 0 <= l < m < |a.latches| && !a.latches[l].done && !a.latches[m].done ==>
      a.latches[l].target != a.latches[m].target) &&
    (forall i :: 0 <= i < |a.tasks| && !a.tasks[i].DispatchTask? ==> a.promises[a.tasks[i].promise].state == Pending) &&
    (forall l :: 0 <= l < |a.latches| && !a.latches[l].done ==> a.promises[a.latches[l].target].state == Pending)
  }

  /** The handled flag marks exactly the notified roots, each notified once. */
  ghost predicate NotificationsValid(a: Arena) {
    (forall i :: 0 <= i < |a.promises| ==> (a.promises[i].hasHandledRejection <==> i in a.notified)) &&
    (forall k :: 0 <= k < |a.notified| ==> a.notified[k] < |a.promises| && a.promises[a.notified[k]].previous.None?) &&
    (forall k, m :: 0 <= k < m < |a.notified| ==> a.notified[k] != a.notified[m])
  }

  ghost predicate Consistent(a: Arena) {
    RecordsValid(a) && ClosuresValid(a) && TasksValid(a) && OneShot(a) && NotificationsValid(a)
  }

  /** No open latch and no scheduled settlement targets `p`. */
  ghost predicate NoSource(a: Arena, p: nat) {
    (forall k :: 0 <= k < |a.tasks| && !a.tasks[k].DispatchTask? ==> a.tasks[k].promise != p) &&
    (forall l :: 0 <= l < |a.latches| && !a.latches[l].done ==> a.latches[l].target != p)
  }

  function SettlementValue(s: Settlement): Value {
    match s
    case FulfilWith(v) => v
    case RejectWith(r) => r
  }

  /**
   * What every engine operation keeps: the arenas, the queue and the
   * notification log only grow, closure records keep their shape, a latch
   * keeps its target and never reopens, `_previous` links never change, and
   * a settled promise keeps its state and value.
   */
  ghost predicate Grows(a: Arena, b: Arena) {
    |a.promises| <= |b.promises| && |a.latches| <= |b.latches| &&
    SameSlots(a.alls, b.alls) && SameRaces(a.races, b.races) &&
    a.tasks <= b.tasks && a.notified <= b.notified &&
    SettledKept(a.promises, b.promises) && LatchesKept(a.latches, b.latches)
  }

  /** A settled promise keeps its state and value, and no `_previous` link changes. */
  ghost predicate SettledKept(ps: seq<PromiseRecord>, ps': seq<PromiseRecord>)
    requires |ps| <= |ps'|
  {
    (forall i :: 0 <= i < |ps| && ps[i].state != Pending ==>
      ps'[i].state == ps[i].state && ps'[i].value == ps[i].value) &&
    (forall i :: 0 <= i < |ps| ==> ps'[i].previous == ps[i].previous)
  }

  /** A latch keeps its target and never reopens. */
  ghost predicate LatchesKept(ls: seq<Latch>, ls': seq<Latch>)
    requires |ls| <= |ls'|
  {
    forall l :: 0 <= l < |ls| ==> ls'[l].target == ls[l].target && (ls[l].done ==> ls'[l].done)
  }

  lemma GrowsTransitive(a: Arena, b: Arena, c: Arena)
    requires Grows(a, b) && Grows(b, c)
    ensures Grows(a, c)
  {
  }

  lemma GrowsReflexive(a: Arena)
    ensures Grows(a, a)
  {
  }

  /** Changing one record without touching its link, or its state and value once settled. */
  lemma RecordGrows(a: Arena, b: Arena, p: nat, r: PromiseRecord)
    requires p < |a.promises| && r.previous == a.promises[p].previous
    requires a.promises[p].state != Pending ==> r.state == a.promises[p].state && r.value == a.promises[p].value
    requires b == a.(promises := a.promises[p := r], notified := b.notified) && a.notified <= b.notified
    ensures Grows(a, b)
  {
  }

  /** Scheduling tasks and nothing else. */
  lemma QueueGrows(a: Arena, b: Arena)
    requires b == a.(tasks := b.tasks) && a.tasks <= b.tasks
    ensures Grows(a, b)
  {
  }

  // ---------------------------------------------------------------------------
  // What the invariant says about one record
  // ---------------------------------------------------------------------------

  /** A promise's value names an existing promise, its handlers are valid, and settled means no handlers. */
  lemma RecordFacts(a: Arena, p: nat)
    requires Consistent(a) && p < |a.promises|
    ensures PreviousLinksDecrease(a.promises)
    ensures Below(a.promises[p].value, |a.promises|)
    ensures a.promises[p].state != Pending ==> a.promises[p].handlers == []
    ensures a.promises[p].state == Fulfilled ==> !a.promises[p].value.Promise?
    ensures forall k :: 0 <= k < |a.promises[p].handlers| ==> HandlerIn(a, a.promises[p].handlers[k])
    ensures a.promises[p].hasHandledRejection <==> p in a.notified
  {
  }

  /** A latch names an existing promise, which is pending while the latch is open. */
  lemma LatchFacts(a: Arena, l: nat)
    requires Consistent(a) && l < |a.latches|
    ensures a.latches[l].target < |a.promises|
    ensures !a.latches[l].done ==> a.promises[a.latches[l].target].state == Pending
  {
  }

  lemma ClosureFacts(a: Arena)
    requires Consistent(a)
    ensures forall c :: 0 <= c < |a.alls| ==> a.alls[c].latch < |a.latches|
    ensures forall c, k :: 0 <= c < |a.alls| && 0 <= k < |a.alls[c].results| ==>
      Below(a.alls[c].results[k], |a.promises|)
    ensures forall c :: 0 <= c < |a.races| ==> a.races[c].latch < |a.latches|
  {
  }

  /** The head of the queue names an existing promise and carries valid contents. */
  lemma HeadFacts(a: Arena)
    requires Consistent(a) && |a.tasks| > 0
    ensures a.tasks[0].promise < |a.promises|
    ensures !a.tasks[0].DispatchTask? ==> Below(a.tasks[0].value, |a.promises|)
    ensures a.tasks[0].DispatchTask? ==>
      HandlerIn(a, a.tasks[0].handler) && a.promises[a.tasks[0].promise].state != Pending
  {
  }

  // ---------------------------------------------------------------------------
  // Primitive state changes that keep the invariant
  // ---------------------------------------------------------------------------

  /** Allocating a promise: the new record has no settlement source yet. */
  lemma AddPromiseKeeps(a: Arena, b: Arena)
    requires Consistent(a)
    requires b == a.(promises := a.promises + [NewRecord])
    ensures Consistent(b) && NoSource(b, |a.promises|)
  {
    var n := |a.promises|;
    forall h: Handler | HandlerIn(a, h)
      ensures HandlerIn(b, h)
    {
      HandlerOkGrows(h, n, |a.latches|, a.alls, a.races, n + 1, |a.latches|, a.alls, a.races);
    }
    assert forall i :: 0 <= i < n ==> b.promises[i] == a.promises[i];
    assert RecordsValid(b) by {
      forall i, k | 0 <= i < n + 1 && 0 <= k < |b.promises[i].handlers|
        ensures HandlerIn(b, b.promises[i].handlers[k])
      {
        assert i < n;
        assert HandlerIn(a, a.promises[i].handlers[k]);
      }
    }
  }

  /** A new `_execute` latch for a pending promise with no other source. */
  lemma AddLatchKeeps(a: Arena, b: Arena, p: nat)
    requires Consistent(a) && p < |a.promises| && a.promises[p].state == Pending && NoSource(a, p)
    requires b == a.(latches := a.latches + [Latch(p, false)])
    ensures Consistent(b)
  {
    var n := |a.latches|;
    forall h: Handler | HandlerIn(a, h)
      ensures HandlerIn(b, h)
    {
      HandlerOkGrows(h, |a.promises|, n, a.alls, a.races, |a.promises|, n + 1, a.alls, a.races);
    }
    assert forall l :: 0 <= l < n ==> b.latches[l] == a.latches[l];
  }

  /**
   * A resolving function passing its latch: the latch closes and the single
   * settlement of its target is scheduled.
   */
  lemma CloseLatchKeeps(a: Arena, b: Arena, l: nat, s: Settlement)
    requires Consistent(a) && l < |a.latches| && !a.latches[l].done
    requires Below(SettlementValue(s), |a.promises|)
    requires b == a.(latches := a.latches[l := Latch(a.latches[l].target, true)],
                     tasks := a.tasks + [SettleTask(a.latches[l].target, s)])
    ensures Consistent(b)
  {
    var t := a.latches[l].target;
    assert forall k :: 0 <= k < |a.tasks| ==> b.tasks[k] == a.tasks[k];
    assert b.tasks[|a.tasks|] == SettleTask(t, s);
    assert forall m :: 0 <= m < |a.latches| && m != l ==> b.latches[m] == a.latches[m];
  }

  /** `_resolve` scheduling `_reject` directly for a promise that has no source left. */
  lemma ScheduleSettleKeeps(a: Arena, b: Arena, p: nat, s: Settlement)
    requires Consistent(a) && p < |a.promises| && a.promises[p].state == Pending && NoSource(a, p)
    requires Below(SettlementValue(s), |a.promises|)
    requires b == a.(tasks := a.tasks + [SettleTask(p, s)])
    ensures Consistent(b)
  {
    assert forall k :: 0 <= k < |a.tasks| ==> b.tasks[k] == a.tasks[k];
  }

  /** `_handle` on a pending promise queues the handler. */
  lemma PushHandlerKeeps(a: Arena, b: Arena, p: nat, h: Handler)
    requires Consistent(a) && p < |a.promises| && a.promises[p].state == Pending && HandlerIn(a, h)
    requires b == a.(promises := a.promises[p := a.promises[p].(handlers := a.promises[p].handlers + [h])])
    ensures Consistent(b)
  {
    assert forall i :: 0 <= i < |a.promises| && i != p ==> b.promises[i] == a.promises[i];
    assert PreviousLinksDecrease(b.promises);
  }

  /** `_handle` on a settled promise schedules the dispatch. */
  lemma ScheduleDispatchKeeps(a: Arena, b: Arena, p: nat, h: Handler)
    requires Consistent(a) && p < |a.promises| && a.promises[p].state != Pending && HandlerIn(a, h)
    requires b == a.(tasks := a.tasks + [DispatchTask(p, h)])
    ensures Consistent(b)
  {
    assert forall k :: 0 <= k < |a.tasks| ==> b.tasks[k] == a.tasks[k];
  }

  /** `then` linking a fresh child to its receiver through `_previous`. */
  lemma SetPreviousKeeps(a: Arena, b: Arena, child: nat, p: nat)
    requires Consistent(a) && p < child < |a.promises| && !a.promises[child].hasHandledRejection
    requires b == a.(promises := a.promises[child := a.promises[child].(previous := Some(p))])
    ensures Consistent(b)
  {
    assert forall i :: 0 <= i < |a.promises| && i != child ==> b.promises[i] == a.promises[i];
    assert child !in a.notified;
  }

  /** Linking a promise created after `a` was taken keeps everything `Grows` promises about `a`. */
  lemma SetPreviousGrows(a: Arena, b: Arena, c: Arena, child: nat, p: nat)
    requires Grows(a, b) && |a.promises| <= child < |b.promises|
    requires c == b.(promises := b.promises[child := b.promises[child].(previous := Some(p))])
    ensures Grows(a, c)
  {
    assert forall i :: 0 <= i < |b.promises| && i != child ==> c.promises[i] == b.promises[i];
  }

  /** `_resolve`/`_reject` settling a promise that has no other source left. */
  lemma SettlePromiseKeeps(a: Arena, b: Arena, p: nat, state: State, v: Value)
    requires Consistent(a) && p < |a.promises| && a.promises[p].state == Pending && NoSource(a, p)
    requires state != Pending && Below(v, |a.promises|) && (state == Fulfilled ==> !v.Promise?)
    requires b == a.(promises := a.promises[p := a.promises[p].(state := state, value := v, handlers := [])])
    ensures Consistent(b)
  {
    assert forall i :: 0 <= i < |a.promises| && i != p ==> b.promises[i] == a.promises[i];
    assert PreviousLinksDecrease(b.promises);
  }

  /** Taking the head of the queue; a settlement taken leaves its promise pending and sourceless. */
  lemma PopKeeps(a: Arena, b: Arena)
    requires Consistent(a) && |a.tasks| > 0
    requires b == a.(tasks := a.tasks[1..])
    ensures Consistent(b)
    ensures !a.tasks[0].DispatchTask? ==>
      a.promises[a.tasks[0].promise].state == Pending && NoSource(b, a.tasks[0].promise)
  {
    assert forall k :: 0 <= k < |b.tasks| ==> b.tasks[k] == a.tasks[k + 1];
    if !a.tasks[0].DispatchTask? {
      forall k | 0 <= k < |b.tasks| && !b.tasks[k].DispatchTask?
        ensures b.tasks[k].promise != a.tasks[0].promise
      {
        assert a.tasks[k + 1] == b.tasks[k];
      }
    }
  }

  /** The unhandled-rejection notification for a chain root, at most once per root. */
  lemma NotifyKeeps(a: Arena, b: Arena, r: nat)
    requires Consistent(a) && r < |a.promises| && a.promises[r].previous.None?
    requires !a.promises[r].hasHandledRejection
    requires b == a.(promises := a.promises[r := a.promises[r].(hasHandledRejection := true)],
                     notified := a.notified + [r])
    ensures Consistent(b)
  {
    assert forall i :: 0 <= i < |a.promises| && i != r ==> b.promises[i] == a.promises[i];
    assert PreviousLinksDecrease(b.promises);
    assert r !in a.notified;
    assert forall k :: 0 <= k < |a.notified| ==> b.notified[k] == a.notified[k];
  }

  /** Setting `_parent` of a promise. */
  lemma SetParentKeeps(a: Arena, b: Arena, i: nat, root: nat)
    requires Consistent(a) && i < |a.promises| && root < |a.promises|
    requires b == a.(promises := a.promises[i := a.promises[i].(parent := Some(root))])
    ensures Consistent(b)
  {
    assert forall j :: 0 <= j < |a.promises| && j != i ==> b.promises[j] == a.promises[j];
    assert PreviousLinksDecrease(b.promises);
  }

  /** The closure state of a new `all` call. */
  lemma AddAllKeeps(a: Arena, b: Arena, rec: AllRecord)
    requires Consistent(a) && rec.latch < |a.latches|
    requires forall k :: 0 <= k < |rec.results| ==> Below(rec.results[k], |a.promises|)
    requires b == a.(alls := a.alls + [rec])
    ensures Consistent(b)
  {
    forall h: Handler | HandlerIn(a, h)
      ensures HandlerIn(b, h)
    {
      HandlerOkGrows(h, |a.promises|, |a.latches|, a.alls, a.races, |a.promises|, |a.latches|, b.alls, a.races);
    }
  }

  /** An `all` call recording a slot or its completion; the number of slots never changes. */
  lemma UpdateAllKeeps(a: Arena, b: Arena, c: nat, rec: AllRecord)
    requires Consistent(a) && c < |a.alls| && rec.latch == a.alls[c].latch
    requires |rec.results| == |a.alls[c].results|
    requires forall k :: 0 <= k < |rec.results| ==> Below(rec.results[k], |a.promises|)
    requires b == a.(alls := a.alls[c := rec])
    ensures Consistent(b)
  {
    forall h: Handler | HandlerIn(a, h)
      ensures HandlerIn(b, h)
    {
      HandlerOkGrows(h, |a.promises|, |a.latches|, a.alls, a.races, |a.promises|, |a.latches|, b.alls, a.races);
    }
  }

  /** The closure state of a new `race` call. */
  lemma AddRaceKeeps(a: Arena, b: Arena, rec: RaceRecord)
    requires Consistent(a) && rec.latch < |a.latches|
    requires b == a.(races := a.races + [rec])
    ensures Consistent(b)
  {
    forall h: Handler | HandlerIn(a, h)
      ensures HandlerIn(b, h)
    {
      HandlerOkGrows(h, |a.promises|, |a.latches|, a.alls, a.races, |a.promises|, |a.latches|, a.alls, b.races);
    }
  }

  /** A `race` call marking itself completed. */
  lemma UpdateRaceKeeps(a: Arena, b: Arena, c: nat, rec: RaceRecord)
    requires Consistent(a) && c < |a.races| && rec.latch == a.races[c].latch
    requires b == a.(races := a.races[c := rec])
    ensures Consistent(b)
  {
    forall h: Handler | HandlerIn(a, h)
      ensures HandlerIn(b, h)
    {
      HandlerOkGrows(h, |a.promises|, |a.latches|, a.alls, a.races, |a.promises|, |a.latches|, a.alls, b.races);
    }
  }
}
