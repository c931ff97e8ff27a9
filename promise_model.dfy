/**
 * The data of the promise engine of DEV_ONLY/Promise.ts and the pure facts
 * about it: values, user functions abstracted to what they do, the records
 * of the promise arena, the scheduled tasks, and the walks over `_previous`
 * links.  The engine that changes this data is the class `Engine` in module
 * PromiseEngine.
 */
module PromiseModel {
  import opened Wrappers

  /** The TypeErrors the engine itself creates. */
  datatype TypeErrorKind =
    | ResolverNotFunction   // `new PromisePolyfill(x)` with a non-function `x`
    | SelfResolution        // `_resolve` called with the promise itself
    | AllNeedsArray         // `all` of a non-array
    | RaceNeedsArray        // `race` of a non-array
    | NotCallable           // calling a value that is not a function

  /**
   * The values that travel through promises.  `Promise(id)` is a
   * PromisePolyfill, identified by its index in the arena; every other object
   * (a foreign thenable included) is a `Plain` datum.
   */
  datatype Value =
    | Undefined
    | Null
    | Plain(datum: int)
    | Arr(items: seq<Value>)
    | TypeError(kind: TypeErrorKind)
    | Promise(id: nat)

  /** What a callback does when it is invoked. */
  datatype Behaviour = Returns(v: Value) | ReturnsArgument | Throws(e: Value)

  /** What an executor does with the resolving functions it is given, in order. */
  datatype ExecutorStep = CallResolve(v: Value) | CallReject(r: Value) | Throw(e: Value)

  /** A function supplied by the program: an executor script, or a callback with an identity. */
  datatype Fn =
    | Executor(steps: seq<ExecutorStep>)
    | Callback(id: nat, behaviour: Behaviour)

  /** An argument where the code tests `typeof x === 'function'`. */
  datatype Arg = Function(f: Fn) | NonFunction(v: Value)

  /**
   * The functions a reaction record may hold: a program's function, or one of
   * the closures the engine builds itself (in `finally`, in `_resolve`'s
   * adoption, in `all` and `race`).
   */
  datatype Reaction =
    | UserFunction(f: Fn)
    | FinallyOnFulfilled(onFinally: Arg)    // value => resolve(onFinally()).then(() => value)
    | FinallyOnRejected(onFinally: Arg)     // reason => resolve(onFinally()).then(() => reject(reason))
    | ReturnValue(v: Value)                 // () => value
    | ReturnRejected(r: Value)              // () => PromisePolyfill.reject(reason)
    | ResolveFunction(latch: nat)           // the resolve given by an `_execute` call
    | RejectFunction(latch: nat)            // the reject given by an `_execute` call
    | AllElement(all: nat, index: nat)      // _value => resolveIndex(index, _value) in `all`
    | RaceElement(race: nat, index: nat)    // _value => resolveIndex(index, _value) in `race`

  datatype State = Pending | Fulfilled | Rejected

  /**
   * `[onFulfilled, onRejected, thenResolve, thenReject]`: the two callbacks
   * (absent when not functions) and the latch of the child's resolving functions.
   */
  datatype Handler = Handler(onFulfilled: Option<Reaction>, onRejected: Option<Reaction>, latch: nat)

  /** The fields of one PromisePolyfill (the debug-trace fields aside). */
  datatype PromiseRecord = PromiseRecord(
    state: State,
    value: Value,
    handlers: seq<Handler>,
    previous: Option<nat>,
    parent: Option<nat>,
    hasHandledRejection: bool)

  /** A promise as the constructor leaves its fields before the executor runs. */
  const NewRecord: PromiseRecord := PromiseRecord(Pending, Null, [], None, None, false)

  /** The `done` flag of one `_execute` call, and the promise its resolving functions settle. */
  datatype Latch = Latch(target: nat, done: bool)

  /** A callback handed to `schedule`. */
  datatype Task =
    | ResolveTask(promise: nat, value: Value)       // the body of `_resolve`
    | RejectTask(promise: nat, value: Value)        // the body of `_reject`
    | DispatchTask(promise: nat, handler: Handler)  // the body scheduled by `_handle`

  /** The closure state of one `all` call: `results`, `remaining`, `hasCompleted` and its `resolve`/`reject`. */
  datatype AllRecord = AllRecord(results: seq<Value>, remaining: int, hasCompleted: bool, latch: nat)

  /** The closure state of one `race` call. */
  datatype RaceRecord = RaceRecord(hasCompleted: bool, latch: nat)

  /** What a callback invocation ends with: a return value or a thrown error. */
  datatype Completion = Normal(v: Value) | Abrupt(e: Value)

  /** The arguments one invocation of a program's callback received. */
  datatype Arguments = NoArguments | OneValue(v: Value) | ResolvingFunctions

  /** One invocation of a program's callback. */
  datatype Invocation = Invocation(id: nat, args: Arguments)

  // ---------------------------------------------------------------------------
  // Arena indices in range
  // ---------------------------------------------------------------------------

  /** A value names no promise outside an arena of `n` promises. */
  predicate Below(v: Value, n: nat) {
    v.Promise? ==> v.id < n
  }

  predicate StepBelow(s: ExecutorStep, n: nat) {
    match s
    case CallResolve(v) => Below(v, n)
    case CallReject(r) => Below(r, n)
    case Throw(e) => Below(e, n)
  }

  predicate FnBelow(f: Fn, n: nat) {
    match f
    case Executor(steps) => forall k :: 0 <= k < |steps| ==> StepBelow(steps[k], n)
    case Callback(_, b) => (b.Returns? ==> Below(b.v, n)) && (b.Throws? ==> Below(b.e, n))
  }

  predicate ArgBelow(a: Arg, n: nat) {
    match a
    case Function(f) => FnBelow(f, n)
    case NonFunction(v) => Below(v, n)
  }

  /**
   * The indices a reaction holds exist, in arenas of the given sizes, and
   * every latch it can close is below `bound`.
   */
  predicate ReactionOk(r: Reaction, n: nat, bound: nat, alls: seq<AllRecord>, races: seq<RaceRecord>) {
    match r
    case UserFunction(f) => FnBelow(f, n)
    case FinallyOnFulfilled(a) => ArgBelow(a, n)
    case FinallyOnRejected(a) => ArgBelow(a, n)
    case ReturnValue(v) => Below(v, n)
    case ReturnRejected(v) => Below(v, n)
    case ResolveFunction(l) => l < bound
    case RejectFunction(l) => l < bound
    case AllElement(c, i) => c < |alls| && i < |alls[c].results| && alls[c].latch < bound
    case RaceElement(c, _) => c < |races| && races[c].latch < bound
  }

  /**
   * A reaction record in arenas of the given sizes.  Its callbacks existed
   * before the child's latch was made, so they can only close older latches.
   */
  predicate HandlerOk(h: Handler, n: nat, latches: nat, alls: seq<AllRecord>, races: seq<RaceRecord>) {
    (h.onFulfilled.Some? ==> ReactionOk(h.onFulfilled.value, n, h.latch, alls, races)) &&
    (h.onRejected.Some? ==> ReactionOk(h.onRejected.value, n, h.latch, alls, races)) &&
    h.latch < latches
  }

  /** `all` records keep their number of slots and their latch. */
  predicate SameSlots(alls: seq<AllRecord>, alls': seq<AllRecord>) {
    |alls| <= |alls'| &&
    forall c :: 0 <= c < |alls| ==> |alls'[c].results| == |alls[c].results| && alls'[c].latch == alls[c].latch
  }

  /** `race` records keep their latch. */
  predicate SameRaces(races: seq<RaceRecord>, races': seq<RaceRecord>) {
    |races| <= |races'| && forall c :: 0 <= c < |races| ==> races'[c].latch == races[c].latch
  }

  lemma HandlerOkGrows(h: Handler, n: nat, l: nat, alls: seq<AllRecord>, races: seq<RaceRecord>,
                       n': nat, l': nat, alls': seq<AllRecord>, races': seq<RaceRecord>)
    requires HandlerOk(h, n, l, alls, races)
    requires n <= n' && l <= l' && SameSlots(alls, alls') && SameRaces(races, races')
    ensures HandlerOk(h, n', l', alls', races')
  {
  }

  lemma ReactionOkGrows(r: Reaction, n: nat, bound: nat, alls: seq<AllRecord>, races: seq<RaceRecord>,
                        n': nat, bound': nat, alls': seq<AllRecord>, races': seq<RaceRecord>)
    requires ReactionOk(r, n, bound, alls, races)
    requires n <= n' && bound <= bound' && SameSlots(alls, alls') && SameRaces(races, races')
    ensures ReactionOk(r, n', bound', alls', races')
  {
  }

  /** The elements of an array argument of `all` or `race` name existing promises. */
  predicate ElementsBelow(input: Value, n: nat) {
    input.Arr? ==> forall k :: 0 <= k < |input.items| ==> Below(input.items[k], n)
  }

  predicate CompletionBelow(c: Completion, n: nat) {
    match c
    case Normal(v) => Below(v, n)
    case Abrupt(e) => Below(e, n)
  }

  /** The one latch that invoking the reaction may close among the latches that exist when it is invoked. */
  function ReactionLatch(r: Reaction, alls: seq<AllRecord>, races: seq<RaceRecord>): Option<nat> {
    match r
    case ResolveFunction(l) => Some(l)
    case RejectFunction(l) => Some(l)
    case AllElement(c, _) => if c < |alls| then Some(alls[c].latch) else None
    case RaceElement(c, _) => if c < |races| then Some(races[c].latch) else None
    case _ => None
  }

  /** A reaction of a valid handler never closes that handler's own latch. */
  lemma HandlerLatchUntouched(r: Reaction, n: nat, h: Handler, alls: seq<AllRecord>, races: seq<RaceRecord>)
    requires ReactionOk(r, n, h.latch, alls, races)
    ensures ReactionLatch(r, alls, races) != Some(h.latch)
  {
  }

  // ---------------------------------------------------------------------------
  // `_previous` chains
  // ---------------------------------------------------------------------------

  /** `then` links a child to a receiver created before it, so the links go down. */
  ghost predicate PreviousLinksDecrease(ps: seq<PromiseRecord>) {
    forall i :: 0 <= i < |ps| && ps[i].previous.Some? ==> ps[i].previous.value < i
  }

  /**
   * The root of `p`'s chain: the promise reached by following `_previous`
   * links until there is none (the walks at Promise.ts lines 405-409 and 475-479).
   */
  function Root(ps: seq<PromiseRecord>, p: nat): (r: nat)
    requires p < |ps| && PreviousLinksDecrease(ps)
    ensures r <= p && ps[r].previous.None?
    ensures ps[p].previous.None? ==> r == p
    decreases p
  {
    match ps[p].previous
    case None => p
    case Some(q) => Root(ps, q)
  }

  /** Whether `q` lies on the `_previous` chain that starts at `p` (`p` included). */
  function OnChain(ps: seq<PromiseRecord>, p: nat, q: nat): (b: bool)
    requires p < |ps| && PreviousLinksDecrease(ps)
    ensures b ==> q <= p
    ensures b ==> Root(ps, q) == Root(ps, p)
    decreases p
  {
    p == q || (ps[p].previous.Some? && OnChain(ps, ps[p].previous.value, q))
  }

  /** The root is on the chain, and a root is its own root. */
  lemma {:induction false} RootOnChain(ps: seq<PromiseRecord>, p: nat)
    requires p < |ps| && PreviousLinksDecrease(ps)
    ensures OnChain(ps, p, Root(ps, p))
    ensures Root(ps, Root(ps, p)) == Root(ps, p)
    decreases p
  {
    if ps[p].previous.Some? {
      RootOnChain(ps, ps[p].previous.value);
    }
  }

  /** Two arenas with the same `_previous` links below `|ps|` agree on every root there. */
  lemma {:induction false} RootFrame(ps: seq<PromiseRecord>, ps': seq<PromiseRecord>, p: nat)
    requires PreviousLinksDecrease(ps) && PreviousLinksDecrease(ps')
    requires |ps| <= |ps'| && p < |ps|
    requires forall i :: 0 <= i < |ps| ==> ps'[i].previous == ps[i].previous
    ensures Root(ps', p) == Root(ps, p)
    ensures forall q :: OnChain(ps', p, q) <==> OnChain(ps, p, q)
    decreases p
  {
    if ps[p].previous.Some? {
      RootFrame(ps, ps', ps[p].previous.value);
    }
  }

  /**
   * A child made by `then` has its receiver's root: a rejection that reaches
   * the child with no handler is reported against the receiver's chain.
   */
  lemma ChildSharesRoot(ps: seq<PromiseRecord>, child: nat, receiver: nat)
    requires PreviousLinksDecrease(ps) && child < |ps|
    requires ps[child].previous == Some(receiver)
    ensures Root(ps, child) == Root(ps, receiver)
    ensures OnChain(ps, child, receiver)
  {
  }

  /** Following one more `_previous` link stays on the chain. */
  lemma {:induction false} OnChainStep(ps: seq<PromiseRecord>, p: nat, q: nat)
    requires p < |ps| && PreviousLinksDecrease(ps)
    requires OnChain(ps, p, q) && ps[q].previous.Some?
    ensures OnChain(ps, p, ps[q].previous.value)
    decreases p
  {
    if p != q {
      OnChainStep(ps, ps[p].previous.value, q);
    }
  }

  /**
   * The links of one chain are totally ordered: of two promises on the chain
   * from `p`, the lower one lies on the chain from the higher one.
   */
  lemma {:induction false} ChainOrdered(ps: seq<PromiseRecord>, p: nat, q: nat, i: nat)
    requires p < |ps| && PreviousLinksDecrease(ps)
    requires OnChain(ps, p, q) && OnChain(ps, p, i) && i <= q
    ensures OnChain(ps, q, i)
    decreases p
  {
    if p != q {
      ChainOrdered(ps, ps[p].previous.value, q, i);
    }
  }

  // ---------------------------------------------------------------------------
  // Executors and the `done` latch
  // ---------------------------------------------------------------------------

  /** What a resolving-function call asks of the promise. */
  datatype Settlement = FulfilWith(v: Value) | RejectWith(r: Value)

  function StepSettlement(s: ExecutorStep): Settlement {
    match s
    case CallResolve(v) => FulfilWith(v)
    case CallReject(r) => RejectWith(r)
    case Throw(e) => RejectWith(e)
  }

  /**
   * One `_execute` call running an executor script (Promise.ts lines 311-344):
   * each resolving-function call passes only while `done` is false and then
   * sets it; a throw ends the script and reaches the catch, which respects
   * `done` too.  The result is the final latch and the settlements that
   * passed, in order.
   */
  function RunSteps(steps: seq<ExecutorStep>, done: bool): (bool, seq<Settlement>)
    decreases |steps|
  {
    if steps == [] then (done, [])
    else
      var passed := if done then [] else [StepSettlement(steps[0])];
      if steps[0].Throw? then (true, passed)
      else
        var rest := RunSteps(steps[1..], true);
        (rest.0, passed + rest.1)
  }

  /**
   * The one-shot guard: only the first of resolve, reject or a throw has an
   * effect, and the latch is closed after any of them.
   */
  lemma {:induction false} OnlyFirstStepSettles(steps: seq<ExecutorStep>)
    ensures RunSteps(steps, false).1 == if steps == [] then [] else [StepSettlement(steps[0])]
    ensures RunSteps(steps, false).0 == (steps != [])
    ensures RunSteps(steps, true) == (true, [])
  {
    ClosedLatchPassesNothing(steps);
    if steps != [] && !steps[0].Throw? {
      ClosedLatchPassesNothing(steps[1..]);
      var rest := RunSteps(steps[1..], true);
      assert RunSteps(steps, false).1 == [StepSettlement(steps[0])] + rest.1;
      assert RunSteps(steps, false).0 == rest.0;
    }
  }

  lemma {:induction false} ClosedLatchPassesNothing(steps: seq<ExecutorStep>)
    ensures RunSteps(steps, true) == (true, [])
    decreases |steps|
  {
    if steps == [] {
    } else if steps[0].Throw? {
      assert RunSteps(steps, true).1 == [];
    } else {
      ClosedLatchPassesNothing(steps[1..]);
      var rest := RunSteps(steps[1..], true);
      assert RunSteps(steps, true).1 == [] + rest.1;
      assert RunSteps(steps, true).0 == rest.0;
    }
  }

  /** The settlements a program's function requests when the constructor runs it as executor. */
  function ExecutorSettlements(f: Fn): seq<Settlement> {
    match f
    case Executor(steps) => RunSteps(steps, false).1
    case Callback(_, b) => if b.Throws? then [RejectWith(b.e)] else []
  }

  /** The task that `_resolve` or `_reject` schedules for a settlement. */
  function SettleTask(p: nat, s: Settlement): Task {
    match s
    case FulfilWith(v) => ResolveTask(p, v)
    case RejectWith(r) => RejectTask(p, r)
  }

  function SettleTasks(p: nat, ss: seq<Settlement>): (ts: seq<Task>)
    ensures |ts| == |ss| && forall k :: 0 <= k < |ss| ==> ts[k] == SettleTask(p, ss[k])
  {
    if ss == [] then [] else [SettleTask(p, ss[0])] + SettleTasks(p, ss[1..])
  }

  /** A program's function as executor requests at most one settlement. */
  lemma ExecutorSettlesAtMostOnce(f: Fn)
    ensures |ExecutorSettlements(f)| <= 1
    ensures f.Executor? && f.steps != [] ==> ExecutorSettlements(f) == [StepSettlement(f.steps[0])]
  {
    if f.Executor? {
      OnlyFirstStepSettles(f.steps);
    }
  }

  // ---------------------------------------------------------------------------
  // Reaction dispatch
  // ---------------------------------------------------------------------------

  /** The dispatch tasks scheduled for a drained handler list, in registration order. */
  function DispatchTasks(p: nat, hs: seq<Handler>): (ts: seq<Task>)
    ensures |ts| == |hs|
    ensures forall k :: 0 <= k < |hs| ==> ts[k] == DispatchTask(p, hs[k])
  {
    if hs == [] then [] else [DispatchTask(p, hs[0])] + DispatchTasks(p, hs[1..])
  }

  /** `then` keeps only functions: a non-function argument is an absent callback. */
  function AsReaction(a: Arg): (r: Option<Reaction>)
    ensures r.Some? <==> a.Function?
    ensures r.Some? ==> r.value == UserFunction(a.f)
  {
    match a
    case Function(f) => Some(UserFunction(f))
    case NonFunction(_) => None
  }

  /** The callback a dispatch invokes: the one matching the settled state, if present. */
  function MatchingReaction(state: State, h: Handler): (r: Option<Reaction>)
    requires state != Pending
    ensures r.Some? <==> (if state == Fulfilled then h.onFulfilled.Some? else h.onRejected.Some?)
    ensures r.Some? ==> r == (if state == Fulfilled then h.onFulfilled else h.onRejected)
  {
    if state == Fulfilled then h.onFulfilled else h.onRejected
  }

  /**
   * The completion of calling a program's function with one argument.  A
   * callback does what its behaviour says; an executor script called as a
   * callback receives a value where it expects its resolve function, so its
   * first call of it throws a TypeError.
   */
  function CallCompletion(f: Fn, arg: Value): (c: Completion)
    ensures f.Callback? ==> (c.Abrupt? <==> f.behaviour.Throws?)
    ensures f.Callback? && f.behaviour.ReturnsArgument? ==> c == Normal(arg)
    ensures f.Executor? ==> (c.Normal? <==> f.steps == [])
  {
    match f
    case Callback(_, b) =>
      (match b
       case Returns(v) => Normal(v)
       case ReturnsArgument => Normal(arg)
       case Throws(e) => Abrupt(e))
    case Executor(steps) =>
      if steps == [] then Normal(Undefined)
      else if steps[0].Throw? then Abrupt(steps[0].e)
      else Abrupt(TypeError(NotCallable))
  }

  /** The completion of `onFinally()`: calling a non-function throws a TypeError. */
  function CallWithoutArgumentCompletion(a: Arg): (c: Completion)
    ensures a.NonFunction? ==> c == Abrupt(TypeError(NotCallable))
    ensures a.Function? ==> c == CallCompletion(a.f, Undefined)
  {
    match a
    case Function(f) => CallCompletion(f, Undefined)
    case NonFunction(_) => Abrupt(TypeError(NotCallable))
  }

  /** The resolving-function call a callback's completion makes on the child of `then`. */
  function CompletionSettlement(c: Completion): Settlement {
    match c
    case Normal(v) => FulfilWith(v)
    case Abrupt(e) => RejectWith(e)
  }

  // ---------------------------------------------------------------------------
  // `all`: filling the result slots
  // ---------------------------------------------------------------------------

  /** `results[index] = value` for each recorded index, in the order the elements completed. */
  function Fill(results: seq<Value>, order: seq<nat>, values: seq<Value>): (r: seq<Value>)
    requires |values| == |results|
    requires forall k :: 0 <= k < |order| ==> order[k] < |results|
    ensures |r| == |results|
    decreases |order|
  {
    if order == [] then results
    else Fill(results[order[0] := values[order[0]]], order[1..], values)
  }

  /** After filling, a slot holds its element's value if it was recorded, and is untouched otherwise. */
  lemma {:induction false} FillSlots(results: seq<Value>, order: seq<nat>, values: seq<Value>)
    requires |values| == |results|
    requires forall k :: 0 <= k < |order| ==> order[k] < |results|
    ensures forall i :: 0 <= i < |results| ==>
      Fill(results, order, values)[i] == if i in order then values[i] else results[i]
    decreases |order|
  {
    if order != [] {
      var next := results[order[0] := values[order[0]]];
      FillSlots(next, order[1..], values);
      forall i | 0 <= i < |results|
        ensures Fill(results, order, values)[i] == if i in order then values[i] else results[i]
      {
        assert i in order <==> i == order[0] || i in order[1..];
      }
    }
  }

  /**
   * Whatever order the elements complete in, once every index has been
   * recorded the results are index-aligned with the elements' values.
   */
  lemma AllResultsIndexAligned(n: nat, order: seq<nat>, values: seq<Value>)
    requires |values| == n
    requires forall k :: 0 <= k < |order| ==> order[k] < n
    requires forall i :: 0 <= i < n ==> i in order
    ensures Fill(seq(n, _ => Undefined), order, values) == values
  {
    FillSlots(seq(n, _ => Undefined), order, values);
  }

  /**
   * The `all` record after `resolveIndex(index, value)` with a value that is
   * not a promise: the slot holds the value, one fewer slot is outstanding,
   * and the record is completed once the count has reached zero.
   */
  function AllFilled(rec: AllRecord, index: nat, v: Value): (r: AllRecord)
    requires index < |rec.results|
    ensures |r.results| == |rec.results| && r.latch == rec.latch && r.results[index] == v
    ensures forall k :: 0 <= k < |r.results| && k != index ==> r.results[k] == rec.results[k]
    ensures r.remaining == rec.remaining - 1
    ensures r.hasCompleted <==> rec.hasCompleted || rec.remaining == 1
  {
    AllRecord(rec.results[index := v], rec.remaining - 1, rec.hasCompleted || rec.remaining == 1, rec.latch)
  }

  /** That call resolves the aggregate: it fills the last outstanding slot of a record not yet completed. */
  predicate AllCompletes(rec: AllRecord) {
    rec.remaining == 1 && !rec.hasCompleted
  }

  /** The `all` record after `resolveIndex` ran for the indices of `order` in turn, each with its element's value. */
  function FillRecord(rec: AllRecord, order: seq<nat>, values: seq<Value>): (r: AllRecord)
    requires |values| == |rec.results|
    requires forall k :: 0 <= k < |order| ==> order[k] < |rec.results|
    ensures |r.results| == |rec.results| && r.latch == rec.latch
    decreases |order|
  {
    if order == [] then rec
    else FillRecord(AllFilled(rec, order[0], values[order[0]]), order[1..], values)
  }

  /**
   * Running `resolveIndex` for a sequence of indices fills the slots as
   * `Fill` does, counts one slot down per call, and completes the record
   * exactly when the count passes from one to zero on the way.
   */
  lemma {:induction false} FillRecordFills(rec: AllRecord, order: seq<nat>, values: seq<Value>)
    requires |values| == |rec.results|
    requires forall k :: 0 <= k < |order| ==> order[k] < |rec.results|
    ensures FillRecord(rec, order, values).results == Fill(rec.results, order, values)
    ensures FillRecord(rec, order, values).remaining == rec.remaining - |order|
    ensures FillRecord(rec, order, values).hasCompleted <==> rec.hasCompleted || 1 <= rec.remaining <= |order|
    decreases |order|
  {
    if order != [] {
      FillRecordFills(AllFilled(rec, order[0], values[order[0]]), order[1..], values);
    }
  }

  /**
   * A fresh `all` record of `n` slots whose every index is resolved once,
   * in any order, ends with no outstanding slot, completed, and holding the
   * elements' values index by index.
   */
  lemma AllRecordIndexAligned(n: nat, latch: nat, order: seq<nat>, values: seq<Value>)
    requires |values| == n && |order| == n
    requires forall k :: 0 <= k < |order| ==> order[k] < n
    requires forall i :: 0 <= i < n ==> i in order
    ensures var r := FillRecord(AllRecord(seq(n, _ => Undefined), n, false, latch), order, values);
      r.remaining == 0 && (r.hasCompleted <==> n > 0) && r.results == values
  {
    FillRecordFills(AllRecord(seq(n, _ => Undefined), n, false, latch), order, values);
    AllResultsIndexAligned(n, order, values);
  }

  /** How many of the elements are not promises, so `all` records them synchronously. */
  function PlainCount(items: seq<Value>): (c: nat)
    ensures c <= |items|
    ensures c == |items| <==> forall k :: 0 <= k < |items| ==> !items[k].Promise?
  {
    if items == [] then 0
    else
      var init := items[..|items| - 1];
      assert forall k :: 0 <= k < |init| ==> init[k] == items[k];
      PlainCount(init) + (if items[|items| - 1].Promise? then 0 else 1)
  }

  /** The index of the first element that is not a promise: the one `race` settles with synchronously. */
  function FirstPlain(items: seq<Value>): (k: nat)
    requires exists j :: 0 <= j < |items| && !items[j].Promise?
    ensures k < |items| && !items[k].Promise?
    ensures forall j :: 0 <= j < k ==> items[j].Promise?
  {
    if !items[0].Promise? then 0
    else
      var j :| 0 <= j < |items| && !items[j].Promise?;
      assert items[1..][j - 1] == items[j];
      1 + FirstPlain(items[1..])
  }
}
