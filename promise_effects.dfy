/**
 * What each operation of the promise engine does to a snapshot of its state,
 * as functions from the old snapshot to the new one.  Every method of the
 * engine is proved to leave exactly the snapshot its function computes, so
 * the lemmas here are statements about the engine itself.
 */
module PromiseEffects {
  import opened Wrappers
  import opened PromiseModel
  import opened PromiseArena

  // ---------------------------------------------------------------------------
  // The primitive changes
  // ---------------------------------------------------------------------------

  /**
   * One call of a resolving function of the `_execute` call that owns latch
   * `l` (Promise.ts lines 311-345): a closed latch ignores it; an open one
   * closes and schedules `_resolve` or `_reject` for its target.
   */
  function SettleAt(a: Arena, l: nat, s: Settlement): (b: Arena)
    requires l < |a.latches|
    ensures b.promises == a.promises && b.alls == a.alls && b.races == a.races && b.notified == a.notified
    ensures |b.latches| == |a.latches| && b.latches[l] == Latch(a.latches[l].target, true)
    ensures forall m :: 0 <= m < |a.latches| && m != l ==> b.latches[m] == a.latches[m]
    ensures a.tasks <= b.tasks && |b.tasks| <= |a.tasks| + 1
  {
    if a.latches[l].done then a
    else a.(latches := a.latches[l := Latch(a.latches[l].target, true)],
            tasks := a.tasks + [SettleTask(a.latches[l].target, s)])
  }

  /** `_handle(h)` on `p`: a pending promise queues the handler, a settled one schedules its dispatch. */
  function HandleAt(a: Arena, p: nat, h: Handler): (b: Arena)
    requires p < |a.promises|
    ensures |b.promises| == |a.promises| && b.latches == a.latches && b.alls == a.alls && b.races == a.races
    ensures b.notified == a.notified && a.tasks <= b.tasks
    ensures forall i :: 0 <= i < |a.promises| && i != p ==> b.promises[i] == a.promises[i]
    ensures b.promises[p].state == a.promises[p].state && b.promises[p].previous == a.promises[p].previous
  {
    if a.promises[p].state == Pending then
      a.(promises := a.promises[p := a.promises[p].(handlers := a.promises[p].handlers + [h])])
    else
      a.(tasks := a.tasks + [DispatchTask(p, h)])
  }

  /**
   * `then` with the callbacks already filtered (Promise.ts lines 592-610): a
   * fresh child linked to `p`, the `done` latch of the child's `_execute`,
   * and `_handle` of the reaction record on `p`.
   */
  function ThenAt(a: Arena, p: nat, onFulfilled: Option<Reaction>, onRejected: Option<Reaction>): (b: Arena)
    requires p < |a.promises|
    ensures |b.promises| == |a.promises| + 1 && b.promises[|a.promises|] == NewRecord.(previous := Some(p))
    ensures b.latches == a.latches + [Latch(|a.promises|, false)]
    ensures b.alls == a.alls && b.races == a.races && b.notified == a.notified && a.tasks <= b.tasks
    ensures forall i :: 0 <= i < |a.promises| && i != p ==> b.promises[i] == a.promises[i]
    ensures b.promises[p].state == a.promises[p].state && b.promises[p].previous == a.promises[p].previous
  {
    var child := |a.promises|;
    var grown := a.(promises := a.promises + [NewRecord.(previous := Some(p))],
                    latches := a.latches + [Latch(child, false)]);
    HandleAt(grown, p, Handler(onFulfilled, onRejected, |a.latches|))
  }

  /**
   * `PromisePolyfill.resolve(v)` (`FulfilWith`) and `PromisePolyfill.reject(r)`
   * (`RejectWith`): a new promise whose executor settles it at once.
   */
  function StaticAt(a: Arena, s: Settlement): (b: Arena)
    ensures |b.promises| == |a.promises| + 1 && b.promises[..|a.promises|] == a.promises
    ensures b.promises[|a.promises|] == NewRecord
    ensures b.latches == a.latches + [Latch(|a.promises|, true)]
    ensures b.tasks == a.tasks + [SettleTask(|a.promises|, s)]
    ensures b.alls == a.alls && b.races == a.races && b.notified == a.notified
  {
    var q := |a.promises|;
    a.(promises := a.promises + [NewRecord], latches := a.latches + [Latch(q, true)],
       tasks := a.tasks + [SettleTask(q, s)])
  }

  // ---------------------------------------------------------------------------
  // all, race, finally
  // ---------------------------------------------------------------------------

  /**
   * `resolveIndex(index, v)` inside `all` (Promise.ts lines 149-171): a
   * promise is followed with `then`, its rejection going to the aggregate's
   * reject; any other value fills its slot, and the last one resolves the
   * aggregate with the results.
   */
  function AllIndexAt(a: Arena, c: nat, index: nat, v: Value): (b: Arena)
    requires c < |a.alls| && index < |a.alls[c].results| && a.alls[c].latch < |a.latches|
    requires v.Promise? ==> v.id < |a.promises|
    ensures |a.promises| <= |b.promises| && |a.latches| <= |b.latches| && a.tasks <= b.tasks
    ensures |b.alls| == |a.alls| && b.races == a.races && b.notified == a.notified
  {
    var rec := a.alls[c];
    if v.Promise? then
      ThenAt(a, v.id, Some(AllElement(c, index)), Some(RejectFunction(rec.latch)))
    else
      var filled := a.(alls := a.alls[c := AllFilled(rec, index, v)]);
      if AllCompletes(rec) then SettleAt(filled, rec.latch, FulfilWith(Arr(AllFilled(rec, index, v).results)))
      else filled
  }

  /**
   * `resolveIndex(index, v)` inside `race` (Promise.ts lines 216-240): a
   * promise is followed with `then`; any other value resolves the aggregate
   * unless an earlier element already did.
   */
  function RaceIndexAt(a: Arena, c: nat, index: nat, v: Value): (b: Arena)
    requires c < |a.races| && a.races[c].latch < |a.latches|
    requires v.Promise? ==> v.id < |a.promises|
    ensures |a.promises| <= |b.promises| && |a.latches| <= |b.latches| && a.tasks <= b.tasks
    ensures b.alls == a.alls && |b.races| == |a.races| && b.notified == a.notified
  {
    var l := a.races[c].latch;
    if v.Promise? then ThenAt(a, v.id, Some(RaceElement(c, index)), Some(RejectFunction(l)))
    else if a.races[c].hasCompleted then a
    else SettleAt(a.(races := a.races[c := RaceRecord(true, l)]), l, FulfilWith(v))
  }

  /**
   * A `finally` closure (Promise.ts lines 570-581): `onFinally()`, then
   * `PromisePolyfill.resolve` of its result followed by `then(passOn)`.  A
   * throwing `onFinally` changes nothing.
   */
  function FinallyAt(a: Arena, onFinally: Arg, passOn: Reaction): (b: Arena)
    ensures |a.promises| <= |b.promises| && |a.latches| <= |b.latches| && a.tasks <= b.tasks
    ensures b.alls == a.alls && b.races == a.races && b.notified == a.notified
  {
    var done := CallWithoutArgumentCompletion(onFinally);
    if done.Abrupt? then a
    else ThenAt(StaticAt(a, FulfilWith(done.v)), |a.promises|, Some(passOn), None)
  }

  /**
   * The start of an `all` call on `n` elements, or of a `race` call when
   * `race` holds: the new promise, the `done` latch of its executor, and the
   * closure state of `resolveIndex` (Promise.ts lines 143-147 and 212-214).
   */
  function StartAggregateAt(a: Arena, race: bool, n: nat): Arena {
    var grown := a.(promises := a.promises + [NewRecord], latches := a.latches + [Latch(|a.promises|, false)]);
    if race then grown.(races := a.races + [RaceRecord(false, |a.latches|)])
    else grown.(alls := a.alls + [AllRecord(seq(n, _ => Undefined), n, false, |a.latches|)])
  }

  /**
   * `resolveIndex(index, v)` of the `all` record `c`, or of the `race`
   * record `c` when `race` holds.  A record or a value the state does not
   * hold leaves the state alone.
   */
  function IndexAt(a: Arena, race: bool, c: nat, index: nat, v: Value): Arena {
    if race then
      if c < |a.races| && a.races[c].latch < |a.latches| && (v.Promise? ==> v.id < |a.promises|)
      then RaceIndexAt(a, c, index, v) else a
    else
      if c < |a.alls| && index < |a.alls[c].results| && a.alls[c].latch < |a.latches| && (v.Promise? ==> v.id < |a.promises|)
      then AllIndexAt(a, c, index, v) else a
  }

  /** The executor loop of `all` or `race`: `resolveIndex(k, items[k])` for each `k < i`, in order. */
  function ElementsAt(a: Arena, race: bool, c: nat, items: seq<Value>, i: nat): Arena
    requires i <= |items|
  {
    if i == 0 then a else IndexAt(ElementsAt(a, race, c, items, i - 1), race, c, i - 1, items[i - 1])
  }

  /** `PromisePolyfill.all(input)` (Promise.ts lines 130-187). */
  function AllAt(a: Arena, input: Value): Arena {
    if !input.Arr? then StaticAt(a, RejectWith(TypeError(AllNeedsArray)))
    else if input.items == [] then StaticAt(a, FulfilWith(Arr([])))
    else ElementsAt(StartAggregateAt(a, false, |input.items|), false, |a.alls|, input.items, |input.items|)
  }

  /** `PromisePolyfill.race(input)` (Promise.ts lines 200-254). */
  function RaceAt(a: Arena, input: Value): Arena {
    if !input.Arr? then StaticAt(a, RejectWith(TypeError(RaceNeedsArray)))
    else if input.items == [] then StaticAt(a, FulfilWith(Arr([])))
    else ElementsAt(StartAggregateAt(a, true, |input.items|), true, |a.races|, input.items, |input.items|)
  }

  // ---------------------------------------------------------------------------
  // Calling a reaction
  // ---------------------------------------------------------------------------

  /** What calling `reaction(arg)` does to the engine's state. */
  function InvokeAt(a: Arena, reaction: Reaction, arg: Value): (b: Arena)
    requires ReactionOk(reaction, |a.promises|, |a.latches|, a.alls, a.races) && Below(arg, |a.promises|)
    ensures |a.promises| <= |b.promises| && |a.latches| <= |b.latches| && a.tasks <= b.tasks
    ensures |b.alls| == |a.alls| && |b.races| == |a.races| && b.notified == a.notified
    ensures forall i :: 0 <= i < |a.promises| ==> b.promises[i].previous == a.promises[i].previous
    ensures PreviousLinksDecrease(a.promises) ==> PreviousLinksDecrease(b.promises)
    ensures CompletionBelow(InvokeCompletion(reaction, arg, |a.promises|), |b.promises|)
  {
    match reaction
    case UserFunction(_) => a
    case FinallyOnFulfilled(onFinally) => FinallyAt(a, onFinally, ReturnValue(arg))
    case FinallyOnRejected(onFinally) => FinallyAt(a, onFinally, ReturnRejected(arg))
    case ReturnValue(_) => a
    case ReturnRejected(r) => StaticAt(a, RejectWith(r))
    case ResolveFunction(l) => SettleAt(a, l, FulfilWith(arg))
    case RejectFunction(l) => SettleAt(a, l, RejectWith(arg))
    case AllElement(c, index) => AllIndexAt(a, c, index, arg)
    case RaceElement(c, index) => RaceIndexAt(a, c, index, arg)
  }

  /**
   * How calling `reaction(arg)` completes, in an engine holding `n`
   * promises: a program's function as its behaviour says; a `finally`
   * closure with the promise `then` returned, or `onFinally`'s exception;
   * the pass-on closures with the value or `PromisePolyfill.reject` of the
   * reason; the engine's resolving functions and `resolveIndex` with
   * `undefined`.
   */
  function InvokeCompletion(reaction: Reaction, arg: Value, n: nat): Completion {
    match reaction
    case UserFunction(f) => CallCompletion(f, arg)
    case FinallyOnFulfilled(onFinally) => FinallyCompletion(onFinally, n)
    case FinallyOnRejected(onFinally) => FinallyCompletion(onFinally, n)
    case ReturnValue(v) => Normal(v)
    case ReturnRejected(_) => Normal(Promise(n))
    case _ => Normal(Undefined)
  }

  function FinallyCompletion(onFinally: Arg, n: nat): Completion {
    var done := CallWithoutArgumentCompletion(onFinally);
    if done.Abrupt? then done else Normal(Promise(n + 1))
  }

  /** The program callbacks that calling `reaction(arg)` invokes. */
  function InvokeLog(reaction: Reaction, arg: Value): seq<Invocation> {
    match reaction
    case UserFunction(f) => if f.Callback? then [Invocation(f.id, OneValue(arg))] else []
    case FinallyOnFulfilled(onFinally) => FinallyLog(onFinally)
    case FinallyOnRejected(onFinally) => FinallyLog(onFinally)
    case _ => []
  }

  function FinallyLog(onFinally: Arg): seq<Invocation> {
    if onFinally.Function? && onFinally.f.Callback? then [Invocation(onFinally.f.id, NoArguments)] else []
  }

  /** Every promise on `result`'s `_previous` chain, `result` included, gets `root` as `_parent`. */
  function Reparented(ps: seq<PromiseRecord>, result: nat, root: nat): (ps': seq<PromiseRecord>)
    requires result < |ps| && PreviousLinksDecrease(ps)
    ensures |ps'| == |ps|
  {
    seq(|ps|, i requires 0 <= i < |ps| => if OnChain(ps, result, i) then ps[i].(parent := Some(root)) else ps[i])
  }

  // ---------------------------------------------------------------------------
  // The scheduled tasks
  // ---------------------------------------------------------------------------

  /**
   * The callback part of the task `_handle` schedules (Promise.ts lines
   * 396-418): the reaction runs on `p`'s value, and a promise it returns
   * has its chain re-parented to the root of `p`'s chain.
   */
  function ReactAt(a: Arena, p: nat, reaction: Reaction): (b: Arena)
    requires p < |a.promises| && PreviousLinksDecrease(a.promises) && Below(a.promises[p].value, |a.promises|)
    requires ReactionOk(reaction, |a.promises|, |a.latches|, a.alls, a.races)
    ensures |a.promises| <= |b.promises| && |a.latches| <= |b.latches| && a.tasks <= b.tasks
  {
    var v := a.promises[p].value;
    var invoked := InvokeAt(a, reaction, v);
    var c := InvokeCompletion(reaction, v, |a.promises|);
    if c.Normal? && c.v.Promise? then
      invoked.(promises := Reparented(invoked.promises, c.v.id, Root(invoked.promises, p)))
    else
      invoked
  }

  /**
   * The whole task `_handle` schedules for a settled `p` (Promise.ts lines
   * 367-431): with no matching callback the child's resolving function passes
   * the value or reason on; otherwise the callback reacts and its completion
   * resolves or rejects the child.
   */
  function DispatchAt(a: Arena, p: nat, h: Handler): (b: Arena)
    requires p < |a.promises| && a.promises[p].state != Pending && HandlerIn(a, h)
    requires PreviousLinksDecrease(a.promises) && Below(a.promises[p].value, |a.promises|)
  {
    var state := a.promises[p].state;
    var v := a.promises[p].value;
    match MatchingReaction(state, h)
    case None => SettleAt(a, h.latch, if state == Fulfilled then FulfilWith(v) else RejectWith(v))
    case Some(r) =>
      ReactionOkGrows(r, |a.promises|, h.latch, a.alls, a.races, |a.promises|, |a.latches|, a.alls, a.races);
      SettleAt(ReactAt(a, p, r), h.latch, CompletionSettlement(InvokeCompletion(r, v, |a.promises|)))
  }

  /** The program callbacks the dispatch of `h` on a settled `p` invokes. */
  function DispatchLog(a: Arena, p: nat, h: Handler): seq<Invocation>
    requires p < |a.promises| && a.promises[p].state != Pending
  {
    match MatchingReaction(a.promises[p].state, h)
    case None => []
    case Some(r) => InvokeLog(r, a.promises[p].value)
  }

  /**
   * The task `_resolve` schedules (Promise.ts lines 496-543): resolving with
   * itself schedules a rejection with a TypeError; a promise is adopted
   * through a new `_execute` latch and `then`; any other value fulfils `p`
   * and hands its handlers to `_handle`.
   */
  function ResolveAt(a: Arena, p: nat, v: Value): (b: Arena)
    requires p < |a.promises| && Below(v, |a.promises|)
  {
    if v == Promise(p) then
      a.(tasks := a.tasks + [RejectTask(p, TypeError(SelfResolution))])
    else if v.Promise? then
      var l := |a.latches|;
      ThenAt(a.(latches := a.latches + [Latch(p, false)]), v.id, Some(ResolveFunction(l)), Some(RejectFunction(l)))
    else
      a.(promises := a.promises[p := a.promises[p].(state := Fulfilled, value := v, handlers := [])],
         tasks := a.tasks + DispatchTasks(p, a.promises[p].handlers))
  }

  /**
   * The task `_reject` schedules (Promise.ts lines 443-485): `p` is
   * rejected and its handlers go to `_handle`; with none, the root of its
   * chain is notified and marked unless it already was.
   */
  function RejectAt(a: Arena, p: nat, r: Value): (b: Arena)
    requires p < |a.promises| && PreviousLinksDecrease(a.promises)
  {
    var hs := a.promises[p].handlers;
    var ps := a.promises[p := a.promises[p].(state := Rejected, value := r, handlers := [])];
    if hs != [] then
      a.(promises := ps, tasks := a.tasks + DispatchTasks(p, hs))
    else
      var root := Root(a.promises, p);
      if ps[root].hasHandledRejection then a.(promises := ps)
      else a.(promises := ps[root := ps[root].(hasHandledRejection := true)], notified := a.notified + [root])
  }

  /** One turn of the scheduler: the oldest task is taken off the queue and run. */
  function StepAt(a: Arena): Arena
    requires Consistent(a) && a.tasks != []
  {
    HeadFacts(a);
    var rest := a.(tasks := a.tasks[1..]);
    match a.tasks[0]
    case ResolveTask(p, v) => ResolveAt(rest, p, v)
    case RejectTask(p, r) => RecordFacts(a, p); RejectAt(rest, p, r)
    case DispatchTask(p, h) => RecordFacts(a, p); DispatchAt(rest, p, h)
  }

  /** The program callbacks one turn of the scheduler invokes. */
  function StepLog(a: Arena): seq<Invocation>
    requires Consistent(a) && a.tasks != []
  {
    HeadFacts(a);
    if a.tasks[0].DispatchTask? then DispatchLog(a, a.tasks[0].promise, a.tasks[0].handler) else []
  }

  // ---------------------------------------------------------------------------
  // Following a promise
  // ---------------------------------------------------------------------------

  /**
   * `q` carries a reaction record with these callbacks: still queued on
   * `q`, or with its dispatch already scheduled.
   */
  ghost predicate Follows(a: Arena, q: nat, onFulfilled: Option<Reaction>, onRejected: Option<Reaction>) {
    q < |a.promises| &&
    ((exists h :: h in a.promises[q].handlers && h.onFulfilled == onFulfilled && h.onRejected == onRejected) ||
     (exists h :: DispatchTask(q, h) in a.tasks && h.onFulfilled == onFulfilled && h.onRejected == onRejected))
  }

  /** Handler lists and the queue only grow. */
  ghost predicate HandlersGrow(a: Arena, b: Arena) {
    |a.promises| <= |b.promises| && a.tasks <= b.tasks &&
    forall q :: 0 <= q < |a.promises| ==> a.promises[q].handlers <= b.promises[q].handlers
  }

  lemma FollowsKept(a: Arena, b: Arena, q: nat, onFulfilled: Option<Reaction>, onRejected: Option<Reaction>)
    requires Follows(a, q, onFulfilled, onRejected) && HandlersGrow(a, b)
    ensures Follows(b, q, onFulfilled, onRejected)
  {
    if h :| h in a.promises[q].handlers && h.onFulfilled == onFulfilled && h.onRejected == onRejected {
      var k :| 0 <= k < |a.promises[q].handlers| && a.promises[q].handlers[k] == h;
      assert b.promises[q].handlers[k] == h;
    } else {
      var h :| DispatchTask(q, h) in a.tasks && h.onFulfilled == onFulfilled && h.onRejected == onRejected;
      var k :| 0 <= k < |a.tasks| && a.tasks[k] == DispatchTask(q, h);
      assert b.tasks[k] == DispatchTask(q, h);
    }
  }

  /** `then` on `p` leaves `p` following the new reaction record, and takes nothing away. */
  lemma ThenAtFollows(a: Arena, p: nat, onFulfilled: Option<Reaction>, onRejected: Option<Reaction>)
    requires p < |a.promises|
    ensures HandlersGrow(a, ThenAt(a, p, onFulfilled, onRejected))
    ensures Follows(ThenAt(a, p, onFulfilled, onRejected), p, onFulfilled, onRejected)
  {
    var b := ThenAt(a, p, onFulfilled, onRejected);
    var h := Handler(onFulfilled, onRejected, |a.latches|);
    if a.promises[p].state == Pending {
      assert b.promises[p].handlers == a.promises[p].handlers + [h];
      assert b.promises[p].handlers[|a.promises[p].handlers|] == h;
    } else {
      assert b.tasks == a.tasks + [DispatchTask(p, h)];
      assert b.tasks[|a.tasks|] == DispatchTask(p, h);
    }
  }

  /** The reaction `all` or `race` gives element `k`. */
  function ElementReaction(race: bool, c: nat, k: nat): Reaction {
    if race then RaceElement(c, k) else AllElement(c, k)
  }

  /** Each of the first `n` elements that is a promise is followed with its `resolveIndex` and the aggregate's reject. */
  ghost predicate ElementsFollowed(a: Arena, items: seq<Value>, n: nat, race: bool, c: nat, l: nat)
    requires n <= |items|
  {
    forall k :: 0 <= k < n && items[k].Promise? ==>
      Follows(a, items[k].id, Some(ElementReaction(race, c, k)), Some(RejectFunction(l)))
  }

  lemma ElementsFollowedKept(a: Arena, b: Arena, items: seq<Value>, n: nat, race: bool, c: nat, l: nat)
    requires n <= |items| && ElementsFollowed(a, items, n, race, c, l) && HandlersGrow(a, b)
    ensures ElementsFollowed(b, items, n, race, c, l)
  {
    forall k | 0 <= k < n && items[k].Promise?
      ensures Follows(b, items[k].id, Some(ElementReaction(race, c, k)), Some(RejectFunction(l)))
    {
      FollowsKept(a, b, items[k].id, Some(ElementReaction(race, c, k)), Some(RejectFunction(l)));
    }
  }

  /**
   * `resolveIndex` inside `all` takes nothing away, and a promise element
   * ends up followed with `then(resolveIndex, reject)`.
   */
  lemma {:induction false} AllIndexFollows(a: Arena, c: nat, index: nat, v: Value)
    requires c < |a.alls| && index < |a.alls[c].results| && a.alls[c].latch < |a.latches|
    requires v.Promise? ==> v.id < |a.promises|
    ensures HandlersGrow(a, AllIndexAt(a, c, index, v))
    ensures v.Promise? ==>
      Follows(AllIndexAt(a, c, index, v), v.id, Some(AllElement(c, index)), Some(RejectFunction(a.alls[c].latch)))
  {
    if v.Promise? {
      ThenAtFollows(a, v.id, Some(AllElement(c, index)), Some(RejectFunction(a.alls[c].latch)));
    }
  }

  /**
   * `resolveIndex` inside `race` takes nothing away, and a promise element
   * ends up followed with `then(resolveIndex, reject)`.
   */
  lemma {:induction false} RaceIndexFollows(a: Arena, c: nat, index: nat, v: Value)
    requires c < |a.races| && a.races[c].latch < |a.latches|
    requires v.Promise? ==> v.id < |a.promises|
    ensures HandlersGrow(a, RaceIndexAt(a, c, index, v))
    ensures v.Promise? ==>
      Follows(RaceIndexAt(a, c, index, v), v.id, Some(RaceElement(c, index)), Some(RejectFunction(a.races[c].latch)))
  {
    if v.Promise? {
      ThenAtFollows(a, v.id, Some(RaceElement(c, index)), Some(RejectFunction(a.races[c].latch)));
    }
  }

  /** One more element of `all` handed to `resolveIndex`: the first `i + 1` elements are followed. */
  lemma AllIndexExtendsFollowed(a: Arena, c: nat, items: seq<Value>, i: nat)
    requires c < |a.alls| && i < |items| && i < |a.alls[c].results| && a.alls[c].latch < |a.latches|
    requires items[i].Promise? ==> items[i].id < |a.promises|
    requires ElementsFollowed(a, items, i, false, c, a.alls[c].latch)
    ensures ElementsFollowed(AllIndexAt(a, c, i, items[i]), items, i + 1, false, c, a.alls[c].latch)
  {
    AllIndexFollows(a, c, i, items[i]);
    ElementsFollowedKept(a, AllIndexAt(a, c, i, items[i]), items, i, false, c, a.alls[c].latch);
  }

  /** One more element of `race` handed to `resolveIndex`: the first `i + 1` elements are followed. */
  lemma RaceIndexExtendsFollowed(a: Arena, c: nat, items: seq<Value>, i: nat)
    requires c < |a.races| && i < |items| && a.races[c].latch < |a.latches|
    requires items[i].Promise? ==> items[i].id < |a.promises|
    requires ElementsFollowed(a, items, i, true, c, a.races[c].latch)
    ensures ElementsFollowed(RaceIndexAt(a, c, i, items[i]), items, i + 1, true, c, a.races[c].latch)
  {
    RaceIndexFollows(a, c, i, items[i]);
    ElementsFollowedKept(a, RaceIndexAt(a, c, i, items[i]), items, i, true, c, a.races[c].latch);
  }

  // ---------------------------------------------------------------------------
  // What the effects promise
  // ---------------------------------------------------------------------------

  /** A latch passes one settlement at most: once it has, every later call is ignored. */
  lemma SettleAtMostOnce(a: Arena, l: nat, s: Settlement, s': Settlement)
    requires l < |a.latches|
    ensures SettleAt(SettleAt(a, l, s), l, s') == SettleAt(a, l, s)
    ensures a.latches[l].done <==> SettleAt(a, l, s).tasks == a.tasks
  {
  }

  /**
   * The closures of `finally`: a throwing `onFinally` changes nothing and
   * its exception is the completion; otherwise a promise resolved with
   * `onFinally`'s result is followed by a fresh child, which the closure
   * returns, that passes the original value or reason on.
   */
  lemma FinallyAtEffect(a: Arena, onFinally: Arg, passOn: Reaction)
    ensures CallWithoutArgumentCompletion(onFinally).Abrupt? ==>
      FinallyAt(a, onFinally, passOn) == a &&
      FinallyCompletion(onFinally, |a.promises|) == CallWithoutArgumentCompletion(onFinally)
    ensures CallWithoutArgumentCompletion(onFinally).Normal? ==>
      var b := FinallyAt(a, onFinally, passOn);
      var q := |a.promises|;
      FinallyCompletion(onFinally, q) == Normal(Promise(q + 1)) &&
      |b.promises| == q + 2 && b.promises[..q] == a.promises &&
      b.promises[q].handlers == [Handler(Some(passOn), None, |a.latches| + 1)] &&
      b.promises[q + 1] == NewRecord.(previous := Some(q)) &&
      b.latches == a.latches + [Latch(q, true), Latch(q + 1, false)] &&
      b.tasks == a.tasks + [ResolveTask(q, CallWithoutArgumentCompletion(onFinally).v)] &&
      Follows(b, q, Some(passOn), None)
  {
    var done := CallWithoutArgumentCompletion(onFinally);
    if done.Normal? {
      var a1 := StaticAt(a, FulfilWith(done.v));
      var q := |a.promises|;
      ThenAtFollows(a1, q, Some(passOn), None);
      var b := FinallyAt(a, onFinally, passOn);
      assert b.promises[q].handlers == [Handler(Some(passOn), None, |a.latches| + 1)];
      assert b.promises[..q] == a.promises by {
        forall i | 0 <= i < q ensures b.promises[i] == a.promises[i] {
          assert a1.promises[i] == a.promises[i];
        }
      }
    }
  }

  /**
   * `resolveIndex` of `all` or `race` called with a value that is not a
   * promise: `all` fills the slot and resolves the aggregate with the
   * results when it was the last one; `race` resolves the aggregate with
   * the value unless an earlier element did.  Nothing else changes.
   */
  lemma InvokeAtElementPlain(a: Arena, reaction: Reaction, arg: Value)
    requires ReactionOk(reaction, |a.promises|, |a.latches|, a.alls, a.races) && Below(arg, |a.promises|)
    requires (reaction.AllElement? || reaction.RaceElement?) && !arg.Promise?
    ensures InvokeCompletion(reaction, arg, |a.promises|) == Normal(Undefined)
    ensures reaction.AllElement? ==>
      var b := InvokeAt(a, reaction, arg);
      var rec := a.alls[reaction.all];
      b.promises == a.promises && b.races == a.races &&
      b.alls == a.alls[reaction.all := AllFilled(rec, reaction.index, arg)] &&
      b.tasks == a.tasks +
        (if AllCompletes(rec) && !a.latches[rec.latch].done
         then [ResolveTask(a.latches[rec.latch].target, Arr(AllFilled(rec, reaction.index, arg).results))]
         else [])
    ensures reaction.RaceElement? ==>
      var b := InvokeAt(a, reaction, arg);
      var rec := a.races[reaction.race];
      b.promises == a.promises && b.alls == a.alls &&
      b.races == (if rec.hasCompleted then a.races else a.races[reaction.race := RaceRecord(true, rec.latch)]) &&
      b.tasks == a.tasks +
        (if !rec.hasCompleted && !a.latches[rec.latch].done then [ResolveTask(a.latches[rec.latch].target, arg)] else [])
  {
  }

  /**
   * `resolveIndex` of `all` or `race` called with a promise: `then` on it
   * with `resolveIndex` for the same slot and the aggregate's reject.
   */
  lemma InvokeAtElementPromise(a: Arena, reaction: Reaction, arg: Value)
    requires ReactionOk(reaction, |a.promises|, |a.latches|, a.alls, a.races) && Below(arg, |a.promises|)
    requires (reaction.AllElement? || reaction.RaceElement?) && arg.Promise?
    ensures var l := if reaction.AllElement? then a.alls[reaction.all].latch else a.races[reaction.race].latch;
      InvokeAt(a, reaction, arg) == ThenAt(a, arg.id, Some(reaction), Some(RejectFunction(l))) &&
      Follows(InvokeAt(a, reaction, arg), arg.id, Some(reaction), Some(RejectFunction(l)))
  {
    var l := if reaction.AllElement? then a.alls[reaction.all].latch else a.races[reaction.race].latch;
    ThenAtFollows(a, arg.id, Some(reaction), Some(RejectFunction(l)));
  }

  /**
   * A dispatch closes the handler's latch.  While that latch was open, the
   * dispatch ends by scheduling the child's settlement: the value or reason
   * passed on when no callback matches, the callback's completion otherwise.
   */
  lemma DispatchAtSettlesChild(a: Arena, p: nat, h: Handler)
    requires p < |a.promises| && a.promises[p].state != Pending && HandlerIn(a, h)
    requires PreviousLinksDecrease(a.promises) && Below(a.promises[p].value, |a.promises|)
    ensures var b := DispatchAt(a, p, h);
      h.latch < |b.latches| && b.latches[h.latch].done
    ensures var b := DispatchAt(a, p, h);
      var v := a.promises[p].value;
      !a.latches[h.latch].done ==>
        b.tasks[|b.tasks| - 1] ==
          SettleTask(a.latches[h.latch].target,
            match MatchingReaction(a.promises[p].state, h)
            case None => if a.promises[p].state == Fulfilled then FulfilWith(v) else RejectWith(v)
            case Some(r) => CompletionSettlement(InvokeCompletion(r, v, |a.promises|)))
  {
    match MatchingReaction(a.promises[p].state, h)
    case None =>
    case Some(r) =>
      ReactionOkGrows(r, |a.promises|, h.latch, a.alls, a.races, |a.promises|, |a.latches|, a.alls, a.races);
      HandlerLatchUntouched(r, |a.promises|, h, a.alls, a.races);
      var b := ReactAt(a, p, r);
      assert b.latches[h.latch] == a.latches[h.latch];
  }

  /**
   * A dispatch whose callback is the program's: the callback changes no
   * engine state, a promise it returns has its chain re-parented, and its
   * completion settles the child through the handler's latch.
   */
  lemma DispatchAtProgramCallback(a: Arena, p: nat, h: Handler)
    requires p < |a.promises| && a.promises[p].state != Pending && HandlerIn(a, h)
    requires PreviousLinksDecrease(a.promises) && Below(a.promises[p].value, |a.promises|)
    requires MatchingReaction(a.promises[p].state, h).Some? && MatchingReaction(a.promises[p].state, h).value.UserFunction?
    ensures var c := CallCompletion(MatchingReaction(a.promises[p].state, h).value.f, a.promises[p].value);
      DispatchAt(a, p, h) ==
        SettleAt(if c.Normal? && c.v.Promise?
                 then a.(promises := Reparented(a.promises, c.v.id, Root(a.promises, p)))
                 else a,
                 h.latch, CompletionSettlement(c))
  {
  }

  /**
   * A dispatch whose callback is `resolveIndex` of `all` or `race`, on a
   * value that is not a promise: the aggregate's update of
   * `InvokeAtElementPlain`, then the child of `then` resolved with
   * `undefined` while its latch was open.
   */
  lemma DispatchAtElementPlain(a: Arena, p: nat, h: Handler)
    requires p < |a.promises| && a.promises[p].state != Pending && HandlerIn(a, h)
    requires PreviousLinksDecrease(a.promises) && Below(a.promises[p].value, |a.promises|)
    requires MatchingReaction(a.promises[p].state, h).Some? && !a.promises[p].value.Promise?
    requires MatchingReaction(a.promises[p].state, h).value.AllElement? ||
             MatchingReaction(a.promises[p].state, h).value.RaceElement?
    ensures var r := MatchingReaction(a.promises[p].state, h).value;
      var v := a.promises[p].value;
      var b := DispatchAt(a, p, h);
      var own := if !a.latches[h.latch].done then [ResolveTask(a.latches[h.latch].target, Undefined)] else [];
      b.promises == a.promises &&
      (r.AllElement? ==>
        var rec := a.alls[r.all];
        b.races == a.races && b.alls == a.alls[r.all := AllFilled(rec, r.index, v)] &&
        b.tasks == a.tasks +
          (if AllCompletes(rec) && !a.latches[rec.latch].done
           then [ResolveTask(a.latches[rec.latch].target, Arr(AllFilled(rec, r.index, v).results))]
           else []) + own) &&
      (r.RaceElement? ==>
        var rec := a.races[r.race];
        b.alls == a.alls &&
        b.races == (if rec.hasCompleted then a.races else a.races[r.race := RaceRecord(true, rec.latch)]) &&
        b.tasks == a.tasks +
          (if !rec.hasCompleted && !a.latches[rec.latch].done
           then [ResolveTask(a.latches[rec.latch].target, v)]
           else []) + own)
  {
    var r := MatchingReaction(a.promises[p].state, h).value;
    ReactionOkGrows(r, |a.promises|, h.latch, a.alls, a.races, |a.promises|, |a.latches|, a.alls, a.races);
    HandlerLatchUntouched(r, |a.promises|, h, a.alls, a.races);
    InvokeAtElementPlain(a, r, a.promises[p].value);
  }

  /**
   * `_resolve`'s three outcomes: resolving with itself schedules the
   * rejection with a TypeError; a promise `v` is adopted, `p` staying
   * pending behind a new open latch and `v` following with that latch's
   * resolving functions; any other value fulfils `p` and schedules the
   * dispatch of each of its handlers, in order.
   */
  lemma ResolveAtEffect(a: Arena, p: nat, v: Value)
    requires p < |a.promises| && Below(v, |a.promises|)
    ensures v == Promise(p) ==>
      ResolveAt(a, p, v) == a.(tasks := a.tasks + [RejectTask(p, TypeError(SelfResolution))])
    ensures v.Promise? && v.id != p ==>
      var b := ResolveAt(a, p, v);
      var l := |a.latches|;
      b.promises[p] == a.promises[p] && b.latches[l] == Latch(p, false) &&
      Follows(b, v.id, Some(ResolveFunction(l)), Some(RejectFunction(l)))
    ensures !v.Promise? ==>
      var b := ResolveAt(a, p, v);
      b.promises[p].state == Fulfilled && b.promises[p].value == v && b.promises[p].handlers == [] &&
      b.tasks == a.tasks + DispatchTasks(p, a.promises[p].handlers) &&
      |b.promises| == |a.promises| && (forall i :: 0 <= i < |a.promises| && i != p ==> b.promises[i] == a.promises[i])
  {
    if v.Promise? && v.id != p {
      var l := |a.latches|;
      ThenAtFollows(a.(latches := a.latches + [Latch(p, false)]), v.id, Some(ResolveFunction(l)), Some(RejectFunction(l)));
    }
  }

  /**
   * `_reject`'s notification: with no handler, the root of `p`'s chain ends
   * up marked, and is notified exactly when it was not marked before; with
   * handlers, nobody is notified and each handler's dispatch is scheduled.
   */
  lemma RejectAtNotifiesOnce(a: Arena, p: nat, r: Value)
    requires p < |a.promises| && PreviousLinksDecrease(a.promises)
    ensures var b := RejectAt(a, p, r);
      |b.promises| == |a.promises| && b.promises[p].state == Rejected && b.promises[p].value == r &&
      b.promises[p].handlers == []
    ensures a.promises[p].handlers != [] ==>
      var b := RejectAt(a, p, r);
      b.notified == a.notified && b.tasks == a.tasks + DispatchTasks(p, a.promises[p].handlers)
    ensures a.promises[p].handlers == [] ==>
      var b := RejectAt(a, p, r);
      var root := Root(a.promises, p);
      b.tasks == a.tasks && b.promises[root].hasHandledRejection &&
      b.notified == a.notified + (if a.promises[root].hasHandledRejection then [] else [root])
    ensures forall i :: 0 <= i < |a.promises| && i != p && i != Root(a.promises, p) ==>
      RejectAt(a, p, r).promises[i] == a.promises[i]
  {
  }
}
