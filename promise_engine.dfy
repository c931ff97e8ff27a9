/**
 * The PromisePolyfill class of DEV_ONLY/Promise.ts as an engine over arenas:
 * every promise is a record in `promises`, every `_execute` call owns a
 * `done` latch in `latches`, every `all`/`race` call owns its closure state
 * in `alls`/`races`, and `schedule` appends to the FIFO queue `tasks`, which
 * `Step` pops.  Unhandled-rejection notifications are appended to
 * `notified`, invocations of the program's callbacks to `invocations`.
 */
module PromiseEngine {
  import opened Wrappers
  import opened PromiseModel
  import opened PromiseArena
  import opened PromiseEffects

  class Engine {
    var promises: seq<PromiseRecord>
    var latches: seq<Latch>
    var alls: seq<AllRecord>
    var races: seq<RaceRecord>
    /** The callbacks handed to `schedule`, oldest first. */
    var tasks: seq<Task>
    /** The chain roots an unhandled-rejection event was dispatched for. */
    var notified: seq<nat>
    /** The invocations of the program's callbacks, in order. */
    var invocations: seq<Invocation>

    ghost function Snapshot(): Arena
      reads this
    {
      Arena(promises, latches, alls, races, tasks, notified)
    }

    ghost predicate Valid()
      reads this
    {
      Consistent(Snapshot())
    }

    ghost predicate HandlerValid(h: Handler)
      reads this
    {
      HandlerIn(Snapshot(), h)
    }

    ghost predicate ReactionValid(r: Reaction)
      reads this
    {
      ReactionOk(r, |promises|, |latches|, alls, races)
    }

    /** No open latch and no scheduled `_resolve`/`_reject` targets `p`. */
    ghost predicate Sourceless(p: nat)
      reads this
    {
      NoSource(Snapshot(), p)
    }

    // -------------------------------------------------------------------------
    // Allocation, latches, scheduling
    // -------------------------------------------------------------------------

    constructor ()
      ensures Valid()
      ensures promises == [] && latches == [] && alls == [] && races == []
      ensures tasks == [] && notified == [] && invocations == []
    {
      promises, latches, alls, races := [], [], [], [];
      tasks, notified, invocations := [], [], [];
    }

    /** The field initialisation of the constructor. */
    method AllocPromise() returns (p: nat)
      requires Valid()
      modifies this
      ensures Valid() && Grows(old(Snapshot()), Snapshot())
      ensures p == |old(promises)| && promises == old(promises) + [NewRecord]
      ensures latches == old(latches) && alls == old(alls) && races == old(races)
      ensures tasks == old(tasks) && notified == old(notified) && invocations == old(invocations)
      ensures Sourceless(p)
    {
      ghost var a := Snapshot();
      p := |promises|;
      promises := promises + [NewRecord];
      AddPromiseKeeps(a, Snapshot());
    }

    /** The `done` latch of a new `_execute` call for `p`. */
    method NewLatch(p: nat) returns (l: nat)
      requires Valid() && p < |promises| && promises[p].state == Pending && Sourceless(p)
      modifies this
      ensures Valid() && Grows(old(Snapshot()), Snapshot())
      ensures l == |old(latches)| && latches == old(latches) + [Latch(p, false)]
      ensures promises == old(promises) && alls == old(alls) && races == old(races)
      ensures tasks == old(tasks) && notified == old(notified) && invocations == old(invocations)
    {
      ghost var a := Snapshot();
      l := |latches|;
      latches := latches + [Latch(p, false)];
      AddLatchKeeps(a, Snapshot(), p);
    }

    /**
     * The resolve (`FulfilWith`) or reject (`RejectWith`) closure of an
     * `_execute` call: a no-op once the latch is closed; otherwise it closes
     * the latch and schedules `_resolve` or `_reject` for the target, which
     * stays pending for now.
     */
    method Settle(l: nat, s: Settlement)
      requires Valid() && l < |latches| && Below(SettlementValue(s), |promises|)
      modifies this
      ensures Valid() && Grows(old(Snapshot()), Snapshot())
      ensures old(latches[l].done) ==> latches == old(latches) && tasks == old(tasks)
      ensures !old(latches[l].done) ==>
        latches == old(latches)[l := Latch(old(latches[l].target), true)] &&
        tasks == old(tasks) + [SettleTask(old(latches[l].target), s)]
      ensures promises == old(promises) && alls == old(alls) && races == old(races)
      ensures notified == old(notified) && invocations == old(invocations)
      ensures Snapshot() == SettleAt(old(Snapshot()), l, s)
    {
      if latches[l].done {
        return;
      }
      ghost var a := Snapshot();
      var target := latches[l].target;
      latches := latches[l := Latch(target, true)];
      tasks := tasks + [SettleTask(target, s)];
      CloseLatchKeeps(a, Snapshot(), l, s);
    }

    /** `_handle`: a pending promise queues the handler; a settled one only schedules its dispatch. */
    method Handle(p: nat, h: Handler)
      requires Valid() && p < |promises| && HandlerValid(h)
      modifies this
      ensures Valid() && Grows(old(Snapshot()), Snapshot())
      ensures old(promises[p].state) == Pending ==>
        promises == old(promises)[p := old(promises[p]).(handlers := old(promises[p].handlers) + [h])] &&
        tasks == old(tasks)
      ensures old(promises[p].state) != Pending ==>
        promises == old(promises) && tasks == old(tasks) + [DispatchTask(p, h)]
      ensures latches == old(latches) && alls == old(alls) && races == old(races)
      ensures notified == old(notified) && invocations == old(invocations)
      ensures Snapshot() == HandleAt(old(Snapshot()), p, h)
    {
      ghost var a := Snapshot();
      if promises[p].state == Pending {
        promises := promises[p := promises[p].(handlers := promises[p].handlers + [h])];
        PushHandlerKeeps(a, Snapshot(), p, h);
      } else {
        tasks := tasks + [DispatchTask(p, h)];
        ScheduleDispatchKeeps(a, Snapshot(), p, h);
      }
    }

    /** The loop of `_resolve`/`_reject` that hands every queued handler to `_handle`, in order. */
    method HandleAll(p: nat, hs: seq<Handler>)
      requires Valid() && p < |promises| && promises[p].state != Pending
      requires forall k :: 0 <= k < |hs| ==> HandlerValid(hs[k])
      modifies this
      ensures Valid() && Grows(old(Snapshot()), Snapshot())
      ensures tasks == old(tasks) + DispatchTasks(p, hs)
      ensures promises == old(promises) && latches == old(latches) && alls == old(alls) && races == old(races)
      ensures notified == old(notified) && invocations == old(invocations)
    {
      hide Consistent, Grows;
      var i := 0;
      while i < |hs|
        invariant 0 <= i <= |hs|
        invariant Valid()
        invariant promises == old(promises) && latches == old(latches) && alls == old(alls) && races == old(races)
        invariant notified == old(notified) && invocations == old(invocations)
        invariant tasks == old(tasks) + DispatchTasks(p, hs[..i])
      {
        Handle(p, hs[i]);
        assert DispatchTasks(p, hs[..i + 1]) == DispatchTasks(p, hs[..i]) + [DispatchTask(p, hs[i])];
        i := i + 1;
      }
      assert hs[..i] == hs;
      QueueGrows(old(Snapshot()), Snapshot());
    }

    // -------------------------------------------------------------------------
    // Construction and the executor
    // -------------------------------------------------------------------------

    /**
     * `_execute(executor)` for a program's function: a new latch for `p`,
     * then the function runs synchronously with the two resolving functions.
     */
    method Execute(p: nat, f: Fn)
      requires Valid() && p < |promises| && promises[p].state == Pending && Sourceless(p)
      requires FnBelow(f, |promises|)
      modifies this
      ensures Valid() && Grows(old(Snapshot()), Snapshot())
      ensures promises == old(promises) && alls == old(alls) && races == old(races)
      ensures notified == old(notified)
      ensures latches == old(latches) + [Latch(p, ExecutorSettlements(f) != [])]
      ensures tasks == old(tasks) + SettleTasks(p, ExecutorSettlements(f))
      ensures invocations == old(invocations) +
        (if f.Callback? then [Invocation(f.id, ResolvingFunctions)] else [])
    {
      hide Consistent;
      var l := NewLatch(p);
      match f
      case Callback(id, b) =>
        invocations := invocations + [Invocation(id, ResolvingFunctions)];
        if b.Throws? {
          Settle(l, RejectWith(b.e));
        }
      case Executor(steps) =>
        OnlyFirstStepSettles(steps);
        var i := 0;
        while i < |steps|
          invariant 0 <= i <= |steps|
          invariant Valid() && Grows(old(Snapshot()), Snapshot())
          invariant promises == old(promises) && alls == old(alls) && races == old(races)
          invariant notified == old(notified) && invocations == old(invocations)
          invariant latches == old(latches) + [Latch(p, i > 0)]
          invariant tasks == old(tasks) + (if i == 0 then [] else [SettleTask(p, StepSettlement(steps[0]))])
        {
          Settle(l, StepSettlement(steps[i]));
          i := i + 1;
          if steps[i - 1].Throw? {
            // the exception ends the executor; `_execute` catches it
            break;
          }
        }
    }

    /**
     * `new PromisePolyfill(executor)`: a TypeError thrown synchronously for a
     * non-function; otherwise a new pending promise whose executor has run.
     */
    method Construct(executor: Arg) returns (r: Result<nat, Value>)
      requires Valid() && ArgBelow(executor, |promises|)
      modifies this
      ensures Valid() && Grows(old(Snapshot()), Snapshot())
      ensures executor.NonFunction? ==> r == Err(TypeError(ResolverNotFunction)) && unchanged(this)
      ensures executor.Function? ==> r == Ok(|old(promises)|)
      ensures executor.Function? ==> promises == old(promises) + [NewRecord]
      ensures executor.Function? ==> tasks == old(tasks) + SettleTasks(r.value, ExecutorSettlements(executor.f))
      ensures executor.Function? ==>
        latches == old(latches) + [Latch(r.value, ExecutorSettlements(executor.f) != [])] &&
        invocations == old(invocations) +
          (if executor.f.Callback? then [Invocation(executor.f.id, ResolvingFunctions)] else []) &&
        alls == old(alls) && races == old(races) && notified == old(notified)
    {
      hide Consistent;
      if executor.NonFunction? {
        return Err(TypeError(ResolverNotFunction));
      }
      var p := AllocPromise();
      Execute(p, executor.f);
      r := Ok(p);
    }

    /** `PromisePolyfill.resolve(value)`: a new promise whose executor resolves it with `value`. */
    method StaticResolve(v: Value) returns (p: nat)
      requires Valid() && Below(v, |promises|)
      modifies this
      ensures Valid() && Grows(old(Snapshot()), Snapshot())
      ensures p == |old(promises)| && promises == old(promises) + [NewRecord]
      ensures tasks == old(tasks) + [ResolveTask(p, v)]
      ensures latches == old(latches) + [Latch(p, true)]
      ensures alls == old(alls) && races == old(races)
      ensures notified == old(notified) && invocations == old(invocations)
      ensures Snapshot() == StaticAt(old(Snapshot()), FulfilWith(v))
    {
      hide Consistent;
      p := AllocPromise();
      var l := NewLatch(p);
      Settle(l, FulfilWith(v));
    }

    /** `PromisePolyfill.reject(reason)`: a new promise whose executor rejects it with `reason`. */
    method StaticReject(r: Value) returns (p: nat)
      requires Valid() && Below(r, |promises|)
      modifies this
      ensures Valid() && Grows(old(Snapshot()), Snapshot())
      ensures p == |old(promises)| && promises == old(promises) + [NewRecord]
      ensures tasks == old(tasks) + [RejectTask(p, r)]
      ensures latches == old(latches) + [Latch(p, true)]
      ensures alls == old(alls) && races == old(races)
      ensures notified == old(notified) && invocations == old(invocations)
      ensures Snapshot() == StaticAt(old(Snapshot()), RejectWith(r))
    {
      hide Consistent;
      p := AllocPromise();
      var l := NewLatch(p);
      Settle(l, RejectWith(r));
    }

    // -------------------------------------------------------------------------
    // then, catch, finally
    // -------------------------------------------------------------------------

    /**
     * `then` with the callbacks already filtered: a new child whose executor
     * hands the reaction record to the receiver's `_handle`; the child's
     * `_previous` is the receiver, and the child is still pending.
     */
    method ThenWith(p: nat, onFulfilled: Option<Reaction>, onRejected: Option<Reaction>) returns (child: nat)
      requires Valid() && p < |promises|
      requires onFulfilled.Some? ==> ReactionOk(onFulfilled.value, |promises| + 1, |latches|, alls, races)
      requires onRejected.Some? ==> ReactionOk(onRejected.value, |promises| + 1, |latches|, alls, races)
      modifies this
      ensures Valid() && Grows(old(Snapshot()), Snapshot())
      ensures child == |old(promises)| && |promises| == child + 1
      ensures promises[child] == NewRecord.(previous := Some(p))
      ensures latches == old(latches) + [Latch(child, false)]
      ensures var h := Handler(onFulfilled, onRejected, |old(latches)|);
        if old(promises[p].state) == Pending then
          promises[..child] == old(promises)[p := old(promises[p]).(handlers := old(promises[p].handlers) + [h])] &&
          tasks == old(tasks)
        else
          promises[..child] == old(promises) && tasks == old(tasks) + [DispatchTask(p, h)]
      ensures alls == old(alls) && races == old(races)
      ensures notified == old(notified) && invocations == old(invocations)
      ensures Snapshot() == ThenAt(old(Snapshot()), p, onFulfilled, onRejected)
    {
      hide Consistent;
      ghost var a0 := Snapshot();
      child := AllocPromise();
      ghost var a1 := Snapshot();
      var l := NewLatch(child);
      ghost var a2 := Snapshot();
      GrowsTransitive(a0, a1, a2);
      var h := Handler(onFulfilled, onRejected, l);
      assert HandlerValid(h);
      Handle(p, h);
      ghost var a3 := Snapshot();
      GrowsTransitive(a0, a2, a3);
      LinkPrevious(child, p);
      SetPreviousGrows(a0, a3, Snapshot(), child, p);
    }

    /** `next._previous = this` at the end of `then`, for a child that is still fresh. */
    method LinkPrevious(child: nat, p: nat)
      requires Valid() && p < child < |promises| && !promises[child].hasHandledRejection
      modifies this
      ensures Valid()
      ensures promises == old(promises)[child := old(promises[child]).(previous := Some(p))]
      ensures latches == old(latches) && alls == old(alls) && races == old(races) && tasks == old(tasks)
      ensures notified == old(notified) && invocations == old(invocations)
    {
      ghost var a := Snapshot();
      promises := promises[child := promises[child].(previous := Some(p))];
      SetPreviousKeeps(a, Snapshot(), child, p);
    }

    /** `then(onFulfilled, onRejected)`: arguments that are not functions are treated as absent. */
    method Then(p: nat, onFulfilled: Arg, onRejected: Arg) returns (child: nat)
      requires Valid() && p < |promises|
      requires ArgBelow(onFulfilled, |promises| + 1) && ArgBelow(onRejected, |promises| + 1)
      modifies this
      ensures Valid() && Grows(old(Snapshot()), Snapshot())
      ensures child == |old(promises)| && |promises| == child + 1
      ensures promises[child] == NewRecord.(previous := Some(p))
      ensures latches == old(latches) + [Latch(child, false)]
      ensures var h := Handler(AsReaction(onFulfilled), AsReaction(onRejected), |old(latches)|);
        if old(promises[p].state) == Pending then
          promises[..child] == old(promises)[p := old(promises[p]).(handlers := old(promises[p].handlers) + [h])] &&
          tasks == old(tasks)
        else
          promises[..child] == old(promises) && tasks == old(tasks) + [DispatchTask(p, h)]
      ensures alls == old(alls) && races == old(races)
      ensures notified == old(notified) && invocations == old(invocations)
      ensures Snapshot() == ThenAt(old(Snapshot()), p, AsReaction(onFulfilled), AsReaction(onRejected))
    {
      hide Consistent;
      child := ThenWith(p, AsReaction(onFulfilled), AsReaction(onRejected));
    }

    /** `catch(onRejected)` is `then(null, onRejected)`. */
    method Catch(p: nat, onRejected: Arg) returns (child: nat)
      requires Valid() && p < |promises| && ArgBelow(onRejected, |promises| + 1)
      modifies this
      ensures Valid() && Grows(old(Snapshot()), Snapshot())
      ensures child == |old(promises)| && |promises| == child + 1
      ensures promises[child] == NewRecord.(previous := Some(p))
      ensures latches == old(latches) + [Latch(child, false)]
      ensures var h := Handler(None, AsReaction(onRejected), |old(latches)|);
        if old(promises[p].state) == Pending then
          promises[..child] == old(promises)[p := old(promises[p]).(handlers := old(promises[p].handlers) + [h])] &&
          tasks == old(tasks)
        else
          promises[..child] == old(promises) && tasks == old(tasks) + [DispatchTask(p, h)]
      ensures alls == old(alls) && races == old(races)
      ensures notified == old(notified) && invocations == old(invocations)
      ensures Snapshot() == ThenAt(old(Snapshot()), p, None, AsReaction(onRejected))
    {
      hide Consistent;
      child := Then(p, NonFunction(Null), onRejected);
    }

    /**
     * `finally(onFinally)`: `then` with the two closures that call
     * `onFinally()` and then pass the original value or reason on.
     */
    method Finally(p: nat, onFinally: Arg) returns (child: nat)
      requires Valid() && p < |promises| && ArgBelow(onFinally, |promises| + 1)
      modifies this
      ensures Valid() && Grows(old(Snapshot()), Snapshot())
      ensures child == |old(promises)| && |promises| == child + 1
      ensures promises[child] == NewRecord.(previous := Some(p))
      ensures latches == old(latches) + [Latch(child, false)]
      ensures var h := Handler(Some(FinallyOnFulfilled(onFinally)), Some(FinallyOnRejected(onFinally)), |old(latches)|);
        if old(promises[p].state) == Pending then
          promises[..child] == old(promises)[p := old(promises[p]).(handlers := old(promises[p].handlers) + [h])] &&
          tasks == old(tasks)
        else
          promises[..child] == old(promises) && tasks == old(tasks) + [DispatchTask(p, h)]
      ensures alls == old(alls) && races == old(races)
      ensures notified == old(notified) && invocations == old(invocations)
      ensures Snapshot() == ThenAt(old(Snapshot()), p, Some(FinallyOnFulfilled(onFinally)), Some(FinallyOnRejected(onFinally)))
    {
      hide Consistent;
      child := ThenWith(p, Some(FinallyOnFulfilled(onFinally)), Some(FinallyOnRejected(onFinally)));
    }
  
    // -------------------------------------------------------------------------
    // all, race
    // -------------------------------------------------------------------------

    /**
     * `resolveIndex(index, value)` inside `all`: a promise element is
     * followed with `then`, its rejection going to the aggregate's reject;
     * any other value fills its slot, and the last slot filled resolves the
     * aggregate with the results.
     */
    method AllResolveIndex(c: nat, index: nat, v: Value)
      requires Valid() && c < |alls| && index < |alls[c].results| && Below(v, |promises|)
      modifies this
      ensures Valid() && Grows(old(Snapshot()), Snapshot())
      ensures races == old(races) && notified == old(notified) && invocations == old(invocations)
      ensures v.Promise? ==>
        alls == old(alls) && |promises| == |old(promises)| + 1 &&
        promises[|old(promises)|] == NewRecord.(previous := Some(v.id)) &&
        latches == old(latches) + [Latch(|old(promises)|, false)]
      ensures v.Promise? ==>
        var h := Handler(Some(AllElement(c, index)), Some(RejectFunction(old(alls[c].latch))), |old(latches)|);
        if old(promises[v.id].state) == Pending then
          promises[v.id].handlers == old(promises[v.id].handlers) + [h] && tasks == old(tasks)
        else
          tasks == old(tasks) + [DispatchTask(v.id, h)]
      ensures !v.Promise? ==>
        promises == old(promises) && alls == old(alls)[c := AllFilled(old(alls[c]), index, v)]
      ensures !v.Promise? && AllCompletes(old(alls[c])) && !old(latches[alls[c].latch].done) ==>
        latches == old(latches)[old(alls[c].latch) := Latch(old(latches[alls[c].latch].target), true)] &&
        tasks == old(tasks) + [ResolveTask(old(latches[alls[c].latch].target), Arr(AllFilled(old(alls[c]), index, v).results))]
      ensures !v.Promise? && !(AllCompletes(old(alls[c])) && !old(latches[alls[c].latch].done)) ==>
        latches == old(latches) && tasks == old(tasks)
      ensures Snapshot() == AllIndexAt(old(Snapshot()), c, index, v)
    {
      hide Consistent;
      ClosureFacts(Snapshot());
      var rec := alls[c];
      if v.Promise? {
        var child := ThenWith(v.id, Some(AllElement(c, index)), Some(RejectFunction(rec.latch)));
        assert promises[v.id] == promises[..child][v.id];
        return;
      }
      var results := rec.results[index := v];
      var remaining := rec.remaining - 1;
      var completes := remaining == 0 && !rec.hasCompleted;
      ghost var a := Snapshot();
      alls := alls[c := AllRecord(results, remaining, rec.hasCompleted || completes, rec.latch)];
      UpdateAllKeeps(a, Snapshot(), c, alls[c]);
      if completes {
        Settle(rec.latch, FulfilWith(Arr(results)));
      }
    }

    /**
     * `PromisePolyfill.all(promises)`: a non-array is rejected with a
     * TypeError and an empty array fulfils with `[]`; otherwise a new promise
     * whose executor runs `resolveIndex` on every element in order.  Elements
     * that are not promises fill their slots at once, so an array of such
     * values resolves the result with exactly that array.
     */
    method All(input: Value) returns (p: nat)
      requires Valid() && ElementsBelow(input, |promises|)
      modifies this
      ensures Valid() && Grows(old(Snapshot()), Snapshot())
      ensures p == |old(promises)| && p < |promises|
      ensures !input.Arr? ==> tasks == old(tasks) + [RejectTask(p, TypeError(AllNeedsArray))]
      ensures input == Arr([]) ==> tasks == old(tasks) + [ResolveTask(p, Arr([]))]
      ensures input.Arr? && input.items != [] ==>
        |alls| == |old(alls)| + 1 && alls[|old(alls)|].latch == |old(latches)| &&
        |old(latches)| < |latches| && latches[|old(latches)|].target == p &&
        |alls[|old(alls)|].results| == |input.items| &&
        (forall k :: 0 <= k < |input.items| ==>
          alls[|old(alls)|].results[k] == if input.items[k].Promise? then Undefined else input.items[k]) &&
        alls[|old(alls)|].remaining == |input.items| - PlainCount(input.items) &&
        (alls[|old(alls)|].hasCompleted <==> PlainCount(input.items) == |input.items|)
      ensures input.Arr? && input.items != [] && PlainCount(input.items) == |input.items| ==>
        tasks == old(tasks) + [ResolveTask(p, input)]
      ensures input.Arr? && input.items != [] ==>
        ElementsFollowed(Snapshot(), input.items, |input.items|, false, |old(alls)|, |old(latches)|)
      ensures Snapshot() == AllAt(old(Snapshot()), input) && invocations == old(invocations)
    {
      hide Consistent;
      if !input.Arr? {
        p := StaticReject(TypeError(AllNeedsArray));
        return;
      }
      if input.items == [] {
        p := StaticResolve(Arr([]));
        return;
      }
      p := AllOfArray(input.items);
    }

    /** The executor of `all` for a non-empty array. */
    method AllOfArray(items: seq<Value>) returns (p: nat)
      requires Valid() && items != [] && forall k :: 0 <= k < |items| ==> Below(items[k], |promises|)
      modifies this
      ensures Valid() && Grows(old(Snapshot()), Snapshot())
      ensures p == |old(promises)| && p < |promises|
      ensures |alls| == |old(alls)| + 1 && alls[|old(alls)|].latch == |old(latches)|
      ensures |old(latches)| < |latches| && latches[|old(latches)|].target == p
      ensures |alls[|old(alls)|].results| == |items|
      ensures forall k :: 0 <= k < |items| ==>
        alls[|old(alls)|].results[k] == if items[k].Promise? then Undefined else items[k]
      ensures alls[|old(alls)|].remaining == |items| - PlainCount(items)
      ensures alls[|old(alls)|].hasCompleted <==> PlainCount(items) == |items|
      ensures PlainCount(items) == |items| ==> tasks == old(tasks) + [ResolveTask(p, Arr(items))]
      ensures ElementsFollowed(Snapshot(), items, |items|, false, |old(alls)|, |old(latches)|)
      ensures Snapshot() == ElementsAt(StartAggregateAt(old(Snapshot()), false, |items|), false, |old(alls)|, items, |items|)
      ensures invocations == old(invocations)
    {
      hide Consistent;
      var n := |items|;
      var c;
      p, c := StartAll(items);
      var l := alls[c].latch;
      ghost var a1 := Snapshot();
      var i := 0;
      while i < n
        invariant 0 <= i <= n
        invariant Valid() && Grows(old(Snapshot()), Snapshot()) && |alls| == c + 1 && alls[c].latch == l
        invariant AllProgress(p, c, items, i, old(tasks))
        invariant Snapshot() == ElementsAt(a1, false, c, items, i)
        invariant invocations == old(invocations)
      {
        ghost var before := Snapshot();
        AllStep(p, c, items, i, old(tasks));
        GrowsTransitive(old(Snapshot()), before, Snapshot());
        i := i + 1;
      }
      assert items[..n] == items;
    }

    /** The promise, its `_execute` latch and the closure state of a new `all` call. */
    method StartAll(items: seq<Value>) returns (p: nat, c: nat)
      requires Valid() && items != [] && forall k :: 0 <= k < |items| ==> Below(items[k], |promises|)
      modifies this
      ensures Valid() && Grows(old(Snapshot()), Snapshot())
      ensures p == |old(promises)| && c == |old(alls)| && |alls| == c + 1
      ensures latches == old(latches) + [Latch(p, false)] && alls[c].latch == |old(latches)|
      ensures AllProgress(p, c, items, 0, old(tasks))
      ensures Snapshot() == StartAggregateAt(old(Snapshot()), false, |items|) && invocations == old(invocations)
    {
      hide Consistent;
      var n := |items|;
      ghost var a0 := Snapshot();
      p := AllocPromise();
      var l := NewLatch(p);
      c := |alls|;
      ghost var a1 := Snapshot();
      GrowsTransitive(a0, old(Snapshot()), a1);
      alls := alls + [AllRecord(seq(n, _ => Undefined), n, false, l)];
      AddAllKeeps(a1, Snapshot(), alls[c]);
      assert Grows(old(Snapshot()), Snapshot());
      assert items[..0] == [];
    }

    /**
     * The state of an `all` call whose executor has passed the first `i`
     * elements to `resolveIndex`: the plain ones fill their slots, the
     * aggregate counts them down, once every element was plain the result
     * is resolved with the array, and each promise among them is followed
     * with `then(resolveIndex, reject)`.
     */
    ghost predicate AllProgress(p: nat, c: nat, items: seq<Value>, i: nat, before: seq<Task>)
      reads this
    {
      var n := |items|;
      i <= n && c < |alls| && p < |promises| &&
      (forall k :: 0 <= k < n ==> Below(items[k], |promises|)) &&
      alls[c].latch < |latches| && latches[alls[c].latch].target == p && |alls[c].results| == n &&
      (forall k :: 0 <= k < n ==>
        alls[c].results[k] == if k < i && !items[k].Promise? then items[k] else Undefined) &&
      alls[c].remaining == n - PlainCount(items[..i]) &&
      alls[c].hasCompleted == (PlainCount(items[..i]) == n) &&
      latches[alls[c].latch].done == alls[c].hasCompleted &&
      (PlainCount(items[..i]) == i ==> tasks == before + (if i == n then [ResolveTask(p, Arr(items))] else [])) &&
      ElementsFollowed(Snapshot(), items, i, false, c, alls[c].latch)
    }

    /** One turn of the executor loop of `all`. */
    method AllStep(p: nat, c: nat, items: seq<Value>, i: nat, ghost before: seq<Task>)
      requires Valid() && i < |items| && AllProgress(p, c, items, i, before)
      modifies this
      ensures Valid() && Grows(old(Snapshot()), Snapshot()) && |alls| == |old(alls)|
      ensures AllProgress(p, c, items, i + 1, before)
      ensures Snapshot() == IndexAt(old(Snapshot()), false, c, i, items[i]) && invocations == old(invocations)
    {
      hide Consistent, ElementsFollowed;
      var n := |items|;
      assert items[..i + 1][..i] == items[..i];
      ghost var count := PlainCount(items[..i]);
      assert PlainCount(items[..i + 1]) == count + (if items[i].Promise? then 0 else 1);
      ghost var a := Snapshot();
      ClosureFacts(a);
      AllIndexExtendsFollowed(a, c, items, i);
      AllResolveIndex(c, i, items[i]);
      if PlainCount(items[..i + 1]) == n {
        assert alls[c].results == items;
      }
    }

    /**
     * `resolveIndex(index, value)` inside `race`: a promise element is
     * followed with `then`; any other value resolves the aggregate unless
     * an earlier element already did.
     */
    method RaceResolveIndex(c: nat, index: nat, v: Value)
      requires Valid() && c < |races| && Below(v, |promises|)
      modifies this
      ensures Valid() && Grows(old(Snapshot()), Snapshot())
      ensures alls == old(alls) && notified == old(notified) && invocations == old(invocations)
      ensures v.Promise? ==>
        races == old(races) && |promises| == |old(promises)| + 1 &&
        promises[|old(promises)|] == NewRecord.(previous := Some(v.id)) &&
        latches == old(latches) + [Latch(|old(promises)|, false)]
      ensures v.Promise? ==>
        var h := Handler(Some(RaceElement(c, index)), Some(RejectFunction(old(races[c].latch))), |old(latches)|);
        if old(promises[v.id].state) == Pending then
          promises[v.id].handlers == old(promises[v.id].handlers) + [h] && tasks == old(tasks)
        else
          tasks == old(tasks) + [DispatchTask(v.id, h)]
      ensures !v.Promise? && old(races[c].hasCompleted) ==>
        promises == old(promises) && races == old(races) && latches == old(latches) && tasks == old(tasks)
      ensures !v.Promise? && !old(races[c].hasCompleted) ==>
        promises == old(promises) && races == old(races)[c := RaceRecord(true, old(races[c].latch))]
      ensures !v.Promise? && !old(races[c].hasCompleted) && !old(latches[races[c].latch].done) ==>
        latches == old(latches)[old(races[c].latch) := Latch(old(latches[races[c].latch].target), true)] &&
        tasks == old(tasks) + [ResolveTask(old(latches[races[c].latch].target), v)]
      ensures !v.Promise? && !old(races[c].hasCompleted) && old(latches[races[c].latch].done) ==>
        latches == old(latches) && tasks == old(tasks)
      ensures Snapshot() == RaceIndexAt(old(Snapshot()), c, index, v)
    {
      hide Consistent;
      ClosureFacts(Snapshot());
      var l := races[c].latch;
      if v.Promise? {
        var child := ThenWith(v.id, Some(RaceElement(c, index)), Some(RejectFunction(l)));
        assert promises[v.id] == promises[..child][v.id];
        return;
      }
      if !races[c].hasCompleted {
        ghost var a := Snapshot();
        races := races[c := RaceRecord(true, l)];
        UpdateRaceKeeps(a, Snapshot(), c, races[c]);
        Settle(l, FulfilWith(v));
      }
    }

    /**
     * `PromisePolyfill.race(promises)`: a non-array is rejected with a
     * TypeError and an empty array fulfils with `[]`; otherwise the first
     * element that is not a promise settles the result synchronously, and
     * the aggregate is completed exactly when there is such an element.
     */
    method Race(input: Value) returns (p: nat)
      requires Valid() && ElementsBelow(input, |promises|)
      modifies this
      ensures Valid() && Grows(old(Snapshot()), Snapshot())
      ensures p == |old(promises)| && p < |promises|
      ensures !input.Arr? ==> tasks == old(tasks) + [RejectTask(p, TypeError(RaceNeedsArray))]
      ensures input == Arr([]) ==> tasks == old(tasks) + [ResolveTask(p, Arr([]))]
      ensures input.Arr? && input.items != [] ==>
        |races| == |old(races)| + 1 && races[|old(races)|].latch == |old(latches)| &&
        |old(latches)| < |latches| && latches[|old(latches)|].target == p &&
        (races[|old(races)|].hasCompleted <==> exists k :: 0 <= k < |input.items| && !input.items[k].Promise?)
      ensures input.Arr? && (exists k :: 0 <= k < |input.items| && !input.items[k].Promise?) ==>
        ResolveTask(p, input.items[FirstPlain(input.items)]) in tasks[|old(tasks)|..]
      ensures input.Arr? && input.items != [] ==>
        ElementsFollowed(Snapshot(), input.items, |input.items|, true, |old(races)|, |old(latches)|)
      ensures Snapshot() == RaceAt(old(Snapshot()), input) && invocations == old(invocations)
    {
      hide Consistent;
      if !input.Arr? {
        p := StaticReject(TypeError(RaceNeedsArray));
        return;
      }
      if input.items == [] {
        p := StaticResolve(Arr([]));
        return;
      }
      p := RaceOfArray(input.items);
    }

    /** The executor of `race` for a non-empty array. */
    method RaceOfArray(items: seq<Value>) returns (p: nat)
      requires Valid() && items != [] && forall k :: 0 <= k < |items| ==> Below(items[k], |promises|)
      modifies this
      ensures Valid() && Grows(old(Snapshot()), Snapshot())
      ensures p == |old(promises)| && p < |promises|
      ensures |races| == |old(races)| + 1 && races[|old(races)|].latch == |old(latches)|
      ensures |old(latches)| < |latches| && latches[|old(latches)|].target == p
      ensures races[|old(races)|].hasCompleted <==> exists k :: 0 <= k < |items| && !items[k].Promise?
      ensures (exists k :: 0 <= k < |items| && !items[k].Promise?) ==>
        ResolveTask(p, items[FirstPlain(items)]) in tasks[|old(tasks)|..]
      ensures ElementsFollowed(Snapshot(), items, |items|, true, |old(races)|, |old(latches)|)
      ensures Snapshot() == ElementsAt(StartAggregateAt(old(Snapshot()), true, |items|), true, |old(races)|, items, |items|)
      ensures invocations == old(invocations)
    {
      hide Consistent, SettledKept, LatchesKept;
      var c;
      p, c := StartRace(items);
      ghost var started := Snapshot();
      ghost var at := RaceLoop(p, c, items);
      GrowsTransitive(old(Snapshot()), started, Snapshot());
      if races[c].hasCompleted {
        assert tasks[|old(tasks)|..][at - |old(tasks)|] == tasks[at];
      }
    }

    /** The executor loop of `race`: `resolveIndex` on every element, in order. */
    method RaceLoop(p: nat, c: nat, items: seq<Value>) returns (ghost at: nat)
      requires Valid() && RaceProgress(p, c, items, 0, tasks, 0)
      modifies this
      ensures Valid() && Grows(old(Snapshot()), Snapshot())
      ensures |races| == |old(races)| && races[c].latch == old(races[c].latch)
      ensures RaceProgress(p, c, items, |items|, old(tasks), at)
      ensures Snapshot() == ElementsAt(old(Snapshot()), true, c, items, |items|)
      ensures invocations == old(invocations)
    {
      hide Consistent, SettledKept, LatchesKept;
      at := 0;
      GrowsReflexive(Snapshot());
      var i := 0;
      while i < |items|
        invariant 0 <= i <= |items|
        invariant Valid() && Grows(old(Snapshot()), Snapshot())
        invariant |races| == |old(races)| && races[c].latch == old(races[c].latch)
        invariant RaceProgress(p, c, items, i, old(tasks), at)
        invariant Snapshot() == ElementsAt(old(Snapshot()), true, c, items, i)
        invariant invocations == old(invocations)
      {
        ghost var before := Snapshot();
        at := RaceStep(p, c, items, i, old(tasks), at);
        GrowsTransitive(old(Snapshot()), before, Snapshot());
        i := i + 1;
      }
    }

    /** The promise, its `_execute` latch and the closure state of a new `race` call. */
    method StartRace(items: seq<Value>) returns (p: nat, c: nat)
      requires Valid() && items != [] && forall k :: 0 <= k < |items| ==> Below(items[k], |promises|)
      modifies this
      ensures Valid() && Grows(old(Snapshot()), Snapshot())
      ensures p == |old(promises)| && c == |old(races)| && |races| == c + 1
      ensures latches == old(latches) + [Latch(p, false)] && races[c].latch == |old(latches)|
      ensures RaceProgress(p, c, items, 0, old(tasks), 0)
      ensures Snapshot() == StartAggregateAt(old(Snapshot()), true, |items|) && invocations == old(invocations)
    {
      hide Consistent;
      ghost var a0 := Snapshot();
      p := AllocPromise();
      var l := NewLatch(p);
      c := |races|;
      ghost var a1 := Snapshot();
      GrowsTransitive(a0, old(Snapshot()), a1);
      races := races + [RaceRecord(false, l)];
      AddRaceKeeps(a1, Snapshot(), races[c]);
      assert Grows(old(Snapshot()), Snapshot());
    }

    /**
     * The state of a `race` call whose executor has passed the first `i`
     * elements to `resolveIndex`: the aggregate has completed exactly when
     * one of them was not a promise, the first such value was then
     * scheduled as the result's resolution at index `at` of the queue, and
     * each promise among them is followed with `then(resolveIndex, reject)`.
     */
    ghost predicate RaceProgress(p: nat, c: nat, items: seq<Value>, i: nat, before: seq<Task>, at: nat)
      reads this
    {
      i <= |items| && p < |promises| && c < |races| && races[c].latch < |latches| &&
      latches[races[c].latch].target == p && |before| <= |tasks| &&
      (forall k :: 0 <= k < |items| ==> Below(items[k], |promises|)) &&
      (races[c].hasCompleted <==> exists k :: 0 <= k < i && !items[k].Promise?) &&
      latches[races[c].latch].done == races[c].hasCompleted &&
      (races[c].hasCompleted ==> |before| <= at < |tasks| && tasks[at] == ResolveTask(p, items[FirstPlain(items)])) &&
      ElementsFollowed(Snapshot(), items, i, true, c, races[c].latch)
    }

    /** One turn of the executor loop of `race`. */
    method RaceStep(p: nat, c: nat, items: seq<Value>, i: nat, ghost before: seq<Task>, ghost at: nat)
      returns (ghost at': nat)
      requires Valid() && i < |items| && RaceProgress(p, c, items, i, before, at)
      modifies this
      ensures Valid() && Grows(old(Snapshot()), Snapshot())
      ensures |races| == |old(races)| && races[c].latch == old(races[c].latch)
      ensures RaceProgress(p, c, items, i + 1, before, at')
      ensures Snapshot() == IndexAt(old(Snapshot()), true, c, i, items[i]) && invocations == old(invocations)
    {
      hide Consistent, SettledKept, LatchesKept, ElementsFollowed;
      ghost var a := Snapshot();
      ghost var completed := races[c].hasCompleted;
      at' := if completed then at else |tasks|;
      ClosureFacts(a);
      RaceIndexExtendsFollowed(a, c, items, i);
      RaceResolveIndex(c, i, items[i]);
      if !completed && !items[i].Promise? {
        assert FirstPlain(items) == i;
      }
      if completed {
        assert a.tasks <= tasks && tasks[at] == a.tasks[at];
      }
    }

    // -------------------------------------------------------------------------
    // The chain walks
    // -------------------------------------------------------------------------

    /** The `while (x._previous)` walk to the root of a chain. */
    method FindRoot(p: nat) returns (r: nat)
      requires p < |promises| && PreviousLinksDecrease(promises)
      ensures r == Root(promises, p)
      ensures OnChain(promises, p, r) && promises[r].previous.None?
    {
      r := p;
      while promises[r].previous.Some?
        invariant r < |promises| && Root(promises, r) == Root(promises, p)
        decreases r
      {
        r := promises[r].previous.value;
      }
      RootOnChain(promises, p);
    }

    /** `_parent := root` for one promise. */
    method SetParent(i: nat, root: nat)
      requires Valid() && i < |promises| && root < |promises|
      modifies this
      ensures Valid() && Grows(old(Snapshot()), Snapshot())
      ensures promises == old(promises)[i := old(promises[i]).(parent := Some(root))]
      ensures latches == old(latches) && alls == old(alls) && races == old(races) && tasks == old(tasks)
      ensures notified == old(notified) && invocations == old(invocations)
    {
      ghost var a := Snapshot();
      promises := promises[i := promises[i].(parent := Some(root))];
      SetParentKeeps(a, Snapshot(), i, root);
    }

    /**
     * The bookkeeping after a callback of a handler on `p` returned the
     * promise `result`: every promise on `result`'s `_previous` chain,
     * `result` included, gets the root of `p`'s chain as `_parent`.
     */
    method Rewire(p: nat, result: nat)
      requires Valid() && p < |promises| && result < |promises|
      modifies this
      ensures Valid() && Grows(old(Snapshot()), Snapshot())
      ensures |promises| == |old(promises)|
      ensures forall i :: 0 <= i < |promises| ==>
        promises[i] == if OnChain(old(promises), result, i)
                       then old(promises[i]).(parent := Some(Root(old(promises), p)))
                       else old(promises[i])
      ensures latches == old(latches) && alls == old(alls) && races == old(races) && tasks == old(tasks)
      ensures notified == old(notified) && invocations == old(invocations)
      ensures PreviousLinksDecrease(old(promises)) &&
        promises == Reparented(old(promises), result, Root(old(promises), p))
    {
      hide Consistent, SettledKept, LatchesKept;
      RecordFacts(Snapshot(), p);
      ghost var ps := promises;
      var root := FindRoot(p);
      var q: nat := result;
      SetParent(q, root);
      while promises[q].previous.Some?
        invariant q < |promises| && |promises| == |ps| && Valid() && PreviousLinksDecrease(ps)
        invariant Grows(old(Snapshot()), Snapshot())
        invariant OnChain(ps, result, q)
        invariant forall i :: 0 <= i < |ps| ==>
          promises[i] == if OnChain(ps, result, i) && q <= i then ps[i].(parent := Some(root)) else ps[i]
        invariant latches == old(latches) && alls == old(alls) && races == old(races) && tasks == old(tasks)
        invariant notified == old(notified) && invocations == old(invocations)
        decreases q
      {
        var next := promises[q].previous.value;
        OnChainStep(ps, result, q);
        forall i | 0 <= i < |ps| && OnChain(ps, result, i) && next <= i < q
          ensures i == next
        {
          ChainOrdered(ps, result, q, i);
        }
        q := next;
        ghost var before := Snapshot();
        SetParent(q, root);
        GrowsTransitive(old(Snapshot()), before, Snapshot());
      }
      assert forall i :: 0 <= i < |ps| && OnChain(ps, result, i) ==> q <= i;
    }

    // -------------------------------------------------------------------------
    // Calling callbacks
    // -------------------------------------------------------------------------

    /** `onFinally()`: a call with no argument. */
    method CallWithoutArgument(onFinally: Arg) returns (c: Completion)
      modifies this
      ensures c == CallWithoutArgumentCompletion(onFinally)
      ensures invocations == old(invocations) +
        (if onFinally.Function? && onFinally.f.Callback? then [Invocation(onFinally.f.id, NoArguments)] else [])
      ensures promises == old(promises) && latches == old(latches) && alls == old(alls) && races == old(races)
      ensures tasks == old(tasks) && notified == old(notified)
    {
      if onFinally.Function? && onFinally.f.Callback? {
        invocations := invocations + [Invocation(onFinally.f.id, NoArguments)];
      }
      c := CallWithoutArgumentCompletion(onFinally);
    }

    /**
     * `callback(value)` in the task `_handle` schedules.  A program's callback
     * completes as its behaviour says; the engine's own closures do what
     * `finally`, `_resolve`'s adoption, `all` and `race` built them to do.
     */
    method Invoke(reaction: Reaction, arg: Value) returns (c: Completion)
      requires Valid() && ReactionValid(reaction) && Below(arg, |promises|)
      modifies this
      ensures Valid() && Grows(old(Snapshot()), Snapshot())
      ensures CompletionBelow(c, |promises|)
      ensures forall l :: 0 <= l < |old(latches)| && ReactionLatch(reaction, old(alls), old(races)) != Some(l) ==>
        latches[l] == old(latches[l])
      ensures reaction.UserFunction? ==>
        c == CallCompletion(reaction.f, arg) && promises == old(promises) && latches == old(latches) &&
        tasks == old(tasks)
      ensures reaction.UserFunction? ==>
        invocations == old(invocations) +
          (if reaction.f.Callback? then [Invocation(reaction.f.id, OneValue(arg))] else [])
      ensures Snapshot() == InvokeAt(old(Snapshot()), reaction, arg)
      ensures c == InvokeCompletion(reaction, arg, |old(promises)|)
      ensures invocations == old(invocations) + InvokeLog(reaction, arg)
    {
      hide Consistent, SettledKept, LatchesKept;
      match reaction
      case UserFunction(f) =>
        if f.Callback? {
          invocations := invocations + [Invocation(f.id, OneValue(arg))];
        }
        c := CallCompletion(f, arg);
        GrowsReflexive(Snapshot());
      case FinallyOnFulfilled(onFinally) =>
        c := InvokeFinally(onFinally, ReturnValue(arg));
      case FinallyOnRejected(onFinally) =>
        c := InvokeFinally(onFinally, ReturnRejected(arg));
      case ReturnValue(v) =>
        c := Normal(v);
        GrowsReflexive(Snapshot());
      case ReturnRejected(r) =>
        var q := StaticReject(r);
        c := Normal(Promise(q));
      case ResolveFunction(l) =>
        Settle(l, FulfilWith(arg));
        c := Normal(Undefined);
      case RejectFunction(l) =>
        Settle(l, RejectWith(arg));
        c := Normal(Undefined);
      case AllElement(all, index) =>
        AllResolveIndex(all, index, arg);
        c := Normal(Undefined);
      case RaceElement(race, index) =>
        RaceResolveIndex(race, index, arg);
        c := Normal(Undefined);
    }

    /**
     * The body of both `finally` closures: `PromisePolyfill.resolve(onFinally())`
     * followed by `then(passOn)`, where `passOn` returns the original value or
     * `PromisePolyfill.reject` of the original reason.
     */
    method InvokeFinally(onFinally: Arg, passOn: Reaction) returns (c: Completion)
      requires Valid() && ArgBelow(onFinally, |promises|) && ReactionValid(passOn)
      requires passOn.ReturnValue? || passOn.ReturnRejected?
      modifies this
      ensures Valid() && Grows(old(Snapshot()), Snapshot())
      ensures CompletionBelow(c, |promises|)
      ensures forall l :: 0 <= l < |old(latches)| ==> latches[l] == old(latches[l])
      ensures CallWithoutArgumentCompletion(onFinally).Abrupt? ==>
        c == CallWithoutArgumentCompletion(onFinally) && tasks == old(tasks)
      ensures CallWithoutArgumentCompletion(onFinally).Normal? ==>
        var q := |old(promises)|;
        c == Normal(Promise(q + 1)) && |promises| == q + 2 &&
        promises[q].handlers == [Handler(Some(passOn), None, |old(latches)| + 1)] &&
        promises[q + 1] == NewRecord.(previous := Some(q)) &&
        tasks == old(tasks) + [ResolveTask(q, CallWithoutArgumentCompletion(onFinally).v)]
      ensures Snapshot() == FinallyAt(old(Snapshot()), onFinally, passOn)
      ensures c == FinallyCompletion(onFinally, |old(promises)|)
      ensures invocations == old(invocations) + FinallyLog(onFinally)
    {
      hide Consistent;
      var done := CallWithoutArgument(onFinally);
      assert Grows(old(Snapshot()), Snapshot());
      if done.Abrupt? {
        return done;
      }
      ghost var a1 := Snapshot();
      var q := StaticResolve(done.v);
      ghost var a2 := Snapshot();
      GrowsTransitive(old(Snapshot()), a1, a2);
      var next := ThenWith(q, Some(passOn), None);
      GrowsTransitive(old(Snapshot()), a2, Snapshot());
      assert promises[q] == promises[..next][q];
      c := Normal(Promise(next));
    }

    // -------------------------------------------------------------------------
    // The scheduled tasks
    // -------------------------------------------------------------------------

    /**
     * The task `_handle` schedules for a settled promise `p`: with no
     * matching callback the child's resolving function passes the value or
     * reason on; otherwise the callback runs, a returned promise has its
     * chain re-parented, and the callback's return value resolves the child
     * while a throw rejects it.
     */
    method RunDispatch(p: nat, h: Handler) returns (outcome: Option<Completion>)
      requires Valid() && p < |promises| && promises[p].state != Pending && HandlerValid(h)
      modifies this
      ensures Valid() && Grows(old(Snapshot()), Snapshot())
      ensures outcome.None? <==> MatchingReaction(old(promises[p].state), h).None?
      ensures h.latch < |latches| && latches[h.latch].done
      ensures outcome.None? && !old(latches[h.latch].done) ==>
        promises == old(promises) &&
        tasks == old(tasks) + [SettleTask(old(latches[h.latch].target),
          if old(promises[p].state) == Fulfilled then FulfilWith(old(promises[p].value))
          else RejectWith(old(promises[p].value)))]
      ensures outcome.Some? && MatchingReaction(old(promises[p].state), h).value.UserFunction? ==>
        outcome.value == CallCompletion(MatchingReaction(old(promises[p].state), h).value.f, old(promises[p].value))
      ensures outcome.Some? && !old(latches[h.latch].done) ==>
        |tasks| > 0 && tasks[|tasks| - 1] == SettleTask(old(latches[h.latch].target), CompletionSettlement(outcome.value))
      ensures outcome.Some? && outcome.value.Normal? && outcome.value.v.Promise? ==>
        outcome.value.v.id < |promises| && PreviousLinksDecrease(promises) &&
        promises[outcome.value.v.id].parent == Some(Root(promises, p))
      ensures (MatchingReaction(old(promises[p].state), h).Some? &&
               MatchingReaction(old(promises[p].state), h).value.AllElement? && !old(promises[p].value).Promise?) ==>
        var r := MatchingReaction(old(promises[p].state), h).value;
        var rec := old(alls[r.all]);
        var v := old(promises[p].value);
        outcome == Some(Normal(Undefined)) && promises == old(promises) && races == old(races) &&
        alls == old(alls)[r.all := AllFilled(rec, r.index, v)] &&
        tasks == old(tasks) +
          (if AllCompletes(rec) && !old(latches[rec.latch].done)
           then [ResolveTask(old(latches[rec.latch].target), Arr(AllFilled(rec, r.index, v).results))]
           else []) +
          (if !old(latches[h.latch].done) then [ResolveTask(old(latches[h.latch].target), Undefined)] else [])
      ensures (MatchingReaction(old(promises[p].state), h).Some? &&
               MatchingReaction(old(promises[p].state), h).value.RaceElement? && !old(promises[p].value).Promise?) ==>
        var r := MatchingReaction(old(promises[p].state), h).value;
        var rec := old(races[r.race]);
        outcome == Some(Normal(Undefined)) && promises == old(promises) && alls == old(alls) &&
        races == old(races)[r.race := RaceRecord(true, rec.latch)] &&
        tasks == old(tasks) +
          (if !rec.hasCompleted && !old(latches[rec.latch].done)
           then [ResolveTask(old(latches[rec.latch].target), old(promises[p].value))]
           else []) +
          (if !old(latches[h.latch].done) then [ResolveTask(old(latches[h.latch].target), Undefined)] else [])
      ensures Snapshot() == DispatchAt(old(Snapshot()), p, h)
      ensures invocations == old(invocations) + DispatchLog(old(Snapshot()), p, h)
    {
      hide Consistent, SettledKept, LatchesKept;
      RecordFacts(Snapshot(), p);
      var state := promises[p].state;
      var value := promises[p].value;
      var reaction := MatchingReaction(state, h);
      if reaction.None? {
        Settle(h.latch, if state == Fulfilled then FulfilWith(value) else RejectWith(value));
        return None;
      }
      var c := React(p, h, reaction.value);
      ghost var a1 := Snapshot();
      Settle(h.latch, CompletionSettlement(c));
      GrowsTransitive(old(Snapshot()), a1, Snapshot());
      outcome := Some(c);
    }

    /**
     * The callback part of a dispatch: the matching reaction runs on the
     * settled value, and a promise it returns has its chain re-parented to
     * the root of `p`'s chain.  The handler's own latch is left alone.
     */
    method React(p: nat, h: Handler, r: Reaction) returns (c: Completion)
      requires Valid() && p < |promises| && promises[p].state != Pending && HandlerValid(h)
      requires MatchingReaction(promises[p].state, h) == Some(r) && ReactionValid(r)
      modifies this
      ensures Valid() && Grows(old(Snapshot()), Snapshot())
      ensures CompletionBelow(c, |promises|)
      ensures h.latch < |latches| && latches[h.latch] == old(latches[h.latch])
      ensures r.UserFunction? ==> c == CallCompletion(r.f, old(promises[p].value))
      ensures c.Normal? && c.v.Promise? ==>
        c.v.id < |promises| && PreviousLinksDecrease(promises) && promises[c.v.id].parent == Some(Root(promises, p))
      ensures Snapshot() == ReactAt(old(Snapshot()), p, r)
      ensures c == InvokeCompletion(r, old(promises[p].value), |old(promises)|)
      ensures invocations == old(invocations) + InvokeLog(r, old(promises[p].value))
    {
      hide Consistent, SettledKept, LatchesKept;
      RecordFacts(Snapshot(), p);
      ReactionOkGrows(r, |promises|, h.latch, alls, races, |promises|, |latches|, alls, races);
      HandlerLatchUntouched(r, |promises|, h, alls, races);
      c := Invoke(r, promises[p].value);
      assert latches[h.latch] == old(latches[h.latch]);
      ghost var a1 := Snapshot();
      AdoptResult(p, c);
      GrowsTransitive(old(Snapshot()), a1, Snapshot());
      if c.Normal? && c.v.Promise? {
        RecordFacts(a1, p);
        RootFrame(a1.promises, promises, p);
      }
    }

    /**
     * After a callback of a handler on `p` completed with `c`: a returned
     * promise has every promise on its chain re-parented to the root of
     * `p`'s chain; any other completion changes nothing.
     */
    method AdoptResult(p: nat, c: Completion)
      requires Valid() && p < |promises| && CompletionBelow(c, |promises|)
      modifies this
      ensures Valid() && Grows(old(Snapshot()), Snapshot())
      ensures latches == old(latches) && alls == old(alls) && races == old(races) && tasks == old(tasks)
      ensures notified == old(notified) && invocations == old(invocations)
      ensures PreviousLinksDecrease(old(promises))
      ensures promises == if c.Normal? && c.v.Promise?
                          then Reparented(old(promises), c.v.id, Root(old(promises), p))
                          else old(promises)
      ensures c.Normal? && c.v.Promise? ==>
        PreviousLinksDecrease(promises) && promises[c.v.id].parent == Some(Root(promises, p))
    {
      hide Consistent, SettledKept, LatchesKept;
      RecordFacts(Snapshot(), p);
      if c.Normal? && c.v.Promise? {
        Rewire(p, c.v.id);
        RecordFacts(Snapshot(), p);
        RootFrame(old(promises), promises, p);
      } else {
        GrowsReflexive(Snapshot());
      }
    }

    /**
     * The task `_resolve` schedules: resolving with itself rejects with a
     * TypeError; resolving with a promise adopts it through a fresh
     * `_execute` latch; any other value fulfils the promise and hands its
     * handlers to `_handle`, in order.
     */
    method RunResolve(p: nat, v: Value)
      requires Valid() && p < |promises| && promises[p].state == Pending && Sourceless(p) && Below(v, |promises|)
      modifies this
      ensures Valid() && Grows(old(Snapshot()), Snapshot())
      ensures v == Promise(p) ==>
        promises == old(promises) && tasks == old(tasks) + [RejectTask(p, TypeError(SelfResolution))]
      ensures v.Promise? && v.id != p ==>
        promises[p].state == Pending && |promises| == |old(promises)| + 1 &&
        latches == old(latches) + [Latch(p, false), Latch(|old(promises)|, false)] &&
        promises[|old(promises)|] == NewRecord.(previous := Some(v.id))
      ensures v.Promise? && v.id != p ==>
        var h := Handler(Some(ResolveFunction(|old(latches)|)), Some(RejectFunction(|old(latches)|)), |old(latches)| + 1);
        if old(promises[v.id].state) == Pending then
          promises[v.id].handlers == old(promises[v.id].handlers) + [h] && tasks == old(tasks)
        else
          tasks == old(tasks) + [DispatchTask(v.id, h)]
      ensures !v.Promise? ==>
        promises == old(promises)[p := old(promises[p]).(state := Fulfilled, value := v, handlers := [])] &&
        tasks == old(tasks) + DispatchTasks(p, old(promises[p].handlers))
      ensures Snapshot() == ResolveAt(old(Snapshot()), p, v) && invocations == old(invocations)
    {
      hide Consistent, SettledKept, LatchesKept;
      if v == Promise(p) {
        ghost var a := Snapshot();
        tasks := tasks + [RejectTask(p, TypeError(SelfResolution))];
        ScheduleSettleKeeps(a, Snapshot(), p, RejectWith(TypeError(SelfResolution)));
        QueueGrows(a, Snapshot());
        return;
      }
      if v.Promise? {
        var l := NewLatch(p);
        ghost var a1 := Snapshot();
        var child := ThenWith(v.id, Some(ResolveFunction(l)), Some(RejectFunction(l)));
        GrowsTransitive(old(Snapshot()), a1, Snapshot());
        assert promises[v.id] == promises[..child][v.id];
        assert promises[p] == promises[..child][p];
        return;
      }
      RecordFacts(Snapshot(), p);
      var handlers := promises[p].handlers;
      ghost var a := Snapshot();
      promises := promises[p := promises[p].(state := Fulfilled, value := v, handlers := [])];
      SettlePromiseKeeps(a, Snapshot(), p, Fulfilled, v);
      RecordGrows(a, Snapshot(), p, promises[p]);
      ghost var a1 := Snapshot();
      HandleAll(p, handlers);
      GrowsTransitive(a, a1, Snapshot());
    }

    /**
     * The task `_reject` schedules: the promise is rejected and its handlers
     * go to `_handle` in order; with no handler, the root of its `_previous`
     * chain is notified unless it already was, and is marked.
     */
    method RunReject(p: nat, r: Value)
      requires Valid() && p < |promises| && promises[p].state == Pending && Sourceless(p) && Below(r, |promises|)
      modifies this
      ensures Valid() && Grows(old(Snapshot()), Snapshot())
      ensures |promises| == |old(promises)| && latches == old(latches) && alls == old(alls) && races == old(races)
      ensures promises[p].state == Rejected && promises[p].value == r && promises[p].handlers == []
      ensures old(promises[p].handlers) != [] ==>
        tasks == old(tasks) + DispatchTasks(p, old(promises[p].handlers)) && notified == old(notified)
      ensures old(promises[p].handlers) == [] ==>
        PreviousLinksDecrease(old(promises)) && tasks == old(tasks) &&
        notified == old(notified) +
          (if old(promises[Root(promises, p)].hasHandledRejection) then [] else [Root(old(promises), p)]) &&
        promises[Root(old(promises), p)].hasHandledRejection
      ensures Snapshot() == RejectAt(old(Snapshot()), p, r) && invocations == old(invocations)
    {
      hide Consistent, SettledKept, LatchesKept;
      RecordFacts(Snapshot(), p);
      var handlers := promises[p].handlers;
      ghost var a := Snapshot();
      promises := promises[p := promises[p].(state := Rejected, value := r, handlers := [])];
      SettlePromiseKeeps(a, Snapshot(), p, Rejected, r);
      RecordGrows(a, Snapshot(), p, promises[p]);
      ghost var a1 := Snapshot();
      if handlers != [] {
        HandleAll(p, handlers);
        GrowsTransitive(a, a1, Snapshot());
        return;
      }
      RecordFacts(Snapshot(), p);
      RootFrame(a.promises, promises, p);
      var origin := FindRoot(p);
      RecordFacts(Snapshot(), origin);
      if !promises[origin].hasHandledRejection {
        ghost var b := Snapshot();
        promises := promises[origin := promises[origin].(hasHandledRejection := true)];
        notified := notified + [origin];
        NotifyKeeps(b, Snapshot(), origin);
        RecordGrows(b, Snapshot(), origin, promises[origin]);
        GrowsTransitive(a, b, Snapshot());
      }
    }

    /**
     * One turn of the scheduler: the oldest task is taken off the queue and
     * run.  The rest of the queue keeps its order, new tasks go behind it,
     * and no settled promise changes state or value.
     */
    method Step()
      requires Valid() && tasks != []
      modifies this
      ensures Valid() && Grows(old(Snapshot()).(tasks := old(tasks[1..])), Snapshot())
      ensures old(tasks[0]).ResolveTask? && !old(tasks[0]).value.Promise? ==>
        promises[old(tasks[0]).promise].state == Fulfilled &&
        promises[old(tasks[0]).promise].value == old(tasks[0]).value &&
        tasks == old(tasks[1..]) + DispatchTasks(old(tasks[0]).promise, old(promises[tasks[0].promise].handlers))
      ensures old(tasks[0]) == ResolveTask(old(tasks[0]).promise, Promise(old(tasks[0]).promise)) ==>
        tasks == old(tasks[1..]) + [RejectTask(old(tasks[0]).promise, TypeError(SelfResolution))]
      ensures old(tasks[0]).RejectTask? ==>
        promises[old(tasks[0]).promise].state == Rejected &&
        promises[old(tasks[0]).promise].value == old(tasks[0]).value
      ensures Snapshot() == StepAt(old(Snapshot()))
      ensures invocations == old(invocations) + StepLog(old(Snapshot()))
    {
      hide Consistent;
      HeadFacts(Snapshot());
      var t := tasks[0];
      ghost var a := Snapshot();
      tasks := tasks[1..];
      PopKeeps(a, Snapshot());
      match t
      case ResolveTask(p, v) =>
        RunResolve(p, v);
      case RejectTask(p, r) =>
        RunReject(p, r);
      case DispatchTask(p, h) =>
        var outcome := RunDispatch(p, h);
    }

    /**
     * `c = p.then(() => c)` on a fulfilled `p`, run until the queue holds
     * one task again: the dispatch calls the callback, which returns `c`
     * itself, so `c`'s resolving function schedules `_resolve` of `c` with
     * `c`, and that task schedules the rejection of `c` with a TypeError.
     */
    method ThenReturningItself(p: nat, id: nat) returns (child: nat)
      requires Valid() && p < |promises| && promises[p].state == Fulfilled && tasks == []
      modifies this
      ensures Valid() && child == |old(promises)| && child < |promises| && promises[child].state == Pending
      ensures tasks == [RejectTask(child, TypeError(SelfResolution))]
      ensures invocations == old(invocations) + [Invocation(id, OneValue(old(promises[p].value)))]
    {
      hide Consistent;
      child := Then(p, Function(Callback(id, Returns(Promise(|promises|)))), NonFunction(Undefined));
      Step();
      Step();
    }
  }
}
