# Promise and Symbol polyfills, modelled in Dafny

The repository ships two development-only polyfills, modelled here.

- `DEV_ONLY/Promise.ts` is a promise implementation along the lines of ECMA-262 6th edition, section 25.4.
  - Every promise keeps a state, a value and a list of pending handlers.
  - It also keeps a `_previous` link to the promise `then` was called on, a `_parent` link, and a flag recording whether an unhandled rejection was already reported.
  - An injected `schedule` function runs the bodies of `_resolve`, `_reject` and the handler dispatch later, in order.
  - On top of this sit `then`, `catch`, `finally` and the statics `resolve`, `reject`, `all` and `race`.
- `DEV_ONLY/Symbol.ts` is a symbol polyfill.
  - Symbols are frozen objects carrying a description and a random string of 128 zero-width characters.
  - A global registry backs `Symbol.for` and `Symbol.keyFor` (ECMA-262 6th edition, sections 19.4.2.1 and 19.4.2.5).
  - A map `symbolMap` goes from a symbol's string form to the symbol. The wrappers of `Object.getOwnPropertyNames`, `Object.keys` and `Object.getOwnPropertySymbols` use it to hide those names, or to turn them back into symbols.

The model has six files.

- `wrappers.dfy` defines `Option` and `Result`.
- `symbol.dfy` (module `SymbolRegistry`) holds the symbol functions and the registry.
  - The pure parts are functions with lemmas.
  - The mutable registry and `symbolMap` live in the class `Realm`. Its methods update them in place.
- `promise_model.dfy` (module `PromiseModel`) holds the data of the promise engine and pure facts about it:
  - values, reactions, handlers, records and tasks;
  - the walk along `_previous` links;
  - what an executor or callback does;
  - the slot bookkeeping of `all` and `race`.
- `promise_arena.dfy` (module `PromiseArena`) states the engine's consistency invariant over a snapshot of its state.
  - Its central part is the one-shot invariant: a promise has at most one pending way to be settled, and a settled promise has none.
  - One lemma per primitive state change shows that the change keeps the invariant.
  - `Grows` states what no operation undoes:
    - a settled promise keeps its state and value;
    - `_previous` links never change;
    - a `done` latch never reopens;
    - the task queue and the notification log only grow at the back.
- `promise_effects.dfy` (module `PromiseEffects`) states what each engine operation does, as a function from the old snapshot of the state to the new one.
  - The primitive effects are `SettleAt` (a resolving function of `_execute`), `HandleAt` (`_handle`), `ThenAt` (`then`) and `StaticAt` (`resolve` and `reject`).
  - They compose into `AllIndexAt` and `RaceIndexAt` (`resolveIndex`), `AllAt` and `RaceAt` (the whole `all` and `race` calls, through the executor loop `ElementsAt`), `FinallyAt`, `InvokeAt` (calling any reaction), `ReactAt`, `DispatchAt`, `ResolveAt` and `RejectAt` (the three scheduled tasks), and `StepAt` (one turn of the scheduler).
  - `InvokeCompletion`, `InvokeLog`, `DispatchLog` and `StepLog` give how a call completes and which program callbacks it calls.
  - The lemmas state what the effects promise: a latch passes one settlement, the outcomes of `_resolve` and `_reject`, the `finally` chain, the `all` and `race` updates, and `Follows`, which says that a promise carries a given reaction record.
- `promise_engine.dfy` (module `PromiseEngine`) is the class `Engine`, holding the engine's mutable state.
  - The promises live in an arena `seq<PromiseRecord>`, indexed by identity.
  - Each `_execute` call has a `done` latch in `latches`.
  - The closure state of each `all` and `race` call is in `alls` and `races`.
  - The scheduler's queue is `tasks`. Unhandled-rejection events are logged in `notified`, and calls of the program's callbacks in `invocations`.
  - Every method keeps `Valid()` (the invariant above) and `Grows`.
  - Every method states its whole new state. Either it names each field's new value, or it states that the snapshot equals the matching `PromiseEffects` function of the old snapshot. Every method also states what it appends to `invocations`, or that it leaves it unchanged.
  - The one exception is `ThenReturningItself`, a scenario rather than an operation. It states the child, the queue and the callback log.
  - `Step` pops the oldest task and runs it. Its new state is `StepAt` of the old one. The lemmas about `ResolveAt`, `RejectAt` and `DispatchAt` give what each kind of task does.

## Model

| member | source | states |
|---|---|---|
| SymbolRegistry.RegistryName | DEV_ONLY/Symbol.ts:6 | the registry name is the key's string wrapped in two brackets on each side |
| SymbolRegistry.RegistryNameInjective | DEV_ONLY/Symbol.ts:6 | different keys give different registry names |
| SymbolRegistry.IsSameValue | DEV_ONLY/Symbol.ts:13-29 | for the non-number values modelled, two values are the same value exactly when they are equal (same type and identity) |
| SymbolRegistry.Unique | DEV_ONLY/Symbol.ts:55-58 | `unique(n)` has one character per random draw, each one ZWNJ (U+200C) when the draw was below 0.5 and ZWJ (U+200D) otherwise |
| SymbolRegistry.SymbolToStringSeparatesData | DEV_ONLY/Symbol.ts:78-80 | two symbols with the same description have the same string form only if they carry the same data string, so `symbolMap` keys are distinct for distinct data |
| SymbolRegistry.IndexOfName | DEV_ONLY/Symbol.ts:112-118 | the intended search of `Symbol.for` (the corrected search of the first Findings row) finds the first entry storing the key's string, and finds none exactly when no entry stores it |
| SymbolRegistry.IndexOfSymbol | DEV_ONLY/Symbol.ts:136-142 | the search of `Symbol.keyFor` finds the first entry holding the symbol, and finds none exactly when no entry holds it |
| SymbolRegistry.ForAppendsAtMostOne | DEV_ONLY/Symbol.ts:108-129 | with the intended search, `Symbol.for` keeps every existing entry. It appends exactly one entry (key, string, new symbol) on a miss and nothing on a hit |
| SymbolRegistry.IndexOfNameAfterMiss | DEV_ONLY/Symbol.ts:120-126 | after a miss of the intended search appends an entry, the intended search for that entry's string finds it at the end |
| SymbolRegistry.ForIdempotent | DEV_ONLY/Symbol.ts:108-129 | with the intended search, two `Symbol.for` calls with keys of the same string form return the same symbol, and the second leaves the registry unchanged |
| SymbolRegistry.IndexOfSymbolAfterFresh | DEV_ONLY/Symbol.ts:120-126 | a newly created symbol appended to the registry is found at the end |
| SymbolRegistry.KeyForAfterFor | DEV_ONLY/Symbol.ts:108-143 | `Symbol.keyFor(Symbol.for(k))` gives back the stored key, whose string form is that of `k`; on a miss it gives back `k` itself |
| SymbolRegistry.ForKeepsWellFormed | DEV_ONLY/Symbol.ts:120-126 | `Symbol.for` with the intended search keeps the registry well formed: each entry's string is `String(key)`, strings are distinct, symbols are distinct |
| SymbolRegistry.ForSymbolKeyNeverFoundAsWritten | DEV_ONLY/Symbol.ts:108-126 | as written, a key whose string is `symbol` is never found, because its registry name collides with the `[[symbol]]` slot of the entry literal |
| SymbolRegistry.SymbolNameNeverFoundAsWritten | DEV_ONLY/Symbol.ts:11 | as written, the search for the string `symbol` misses on every registry |
| SymbolRegistry.EntryMatchesAsWritten | DEV_ONLY/Symbol.ts:115 | for any other string, reading the entry object under the registry name matches exactly when the entry stores that string |
| SymbolRegistry.IndexOfNameAsWrittenAgrees | DEV_ONLY/Symbol.ts:112-118 | for every string except `symbol`, the search as written agrees with the intended search |
| SymbolRegistry.ForSymbolKeyTwiceAsWritten | DEV_ONLY/Symbol.ts:108-129 | as written, two `Symbol.for` calls with a key whose string is `symbol` both miss. They return the two different symbols they created and append two entries |
| SymbolRegistry.ForAsWrittenAgrees | DEV_ONLY/Symbol.ts:108-129 | for every key whose string is not `symbol`, `Symbol.for` as written returns and stores what the intended one does |
| SymbolRegistry.TypeOfAsWrittenMissesSymbols | DEV_ONLY/Symbol.ts:47-53 | as written, `typeOf` of a polyfilled symbol is `object` where `symbol` is intended, and `typeOf` answers plain `typeof` for every value. The `instanceof _Symbol` test walks the prototype chain of class `Symbol` instances, which never holds `_Symbol.prototype` |
| SymbolRegistry.TypeOf | DEV_ONLY/Symbol.ts:47-53 | the intended `typeOf` is `symbol` exactly for symbol objects, and plain `typeof` for everything else |
| SymbolRegistry.AllNames | DEV_ONLY/Symbol.ts:157-160 | the own property names, in order |
| SymbolRegistry.HideSymbolNames | DEV_ONLY/Symbol.ts:160 | a name is in the result exactly when it is one of the names and does not stand for a symbol. The result is no longer than the names |
| SymbolRegistry.SymbolsNamed | DEV_ONLY/Symbol.ts:164-170 | every collected symbol is the symbol of one of the names, and every name that stands for a symbol contributes its symbol. There is at most one symbol per name |
| SymbolRegistry.HideSymbolNamesAppend | DEV_ONLY/Symbol.ts:160 | filtering a concatenation concatenates the filtered parts. With FiltersOfOneName this fixes the order and the multiplicity of the kept names |
| SymbolRegistry.SymbolsNamedAppend | DEV_ONLY/Symbol.ts:164-170 | collecting over a concatenation concatenates the collected parts. With FiltersOfOneName this fixes the order and the multiplicity of the symbols |
| SymbolRegistry.FiltersOfOneName | DEV_ONLY/Symbol.ts:159-171 | a single name is kept exactly when it does not stand for a symbol; otherwise it is turned into its symbol |
| SymbolRegistry.FiltersPartitionNames | DEV_ONLY/Symbol.ts:159-171 | each name is kept by the filter exactly when it does not stand for a symbol; a name that does stand for one has its symbol collected. The two results together are exactly as long as the names |
| SymbolRegistry.InheritedNamesMisreadAsWritten | DEV_ONLY/Symbol.ts:160-166 | as written, an own property named like an `Object.prototype` member is dropped by `getOwnPropertyNames`, and that inherited member is pushed as a "symbol" |
| SymbolRegistry.NotInHiddenAsWritten | DEV_ONLY/Symbol.ts:160 | as written, an `Object.prototype` member name never survives the filter |
| SymbolRegistry.FiltersAsWrittenAgree | DEV_ONLY/Symbol.ts:159-171 | for names that are no `Object.prototype` member, the filters as written agree with the intended ones |
| SymbolRegistry.HiddenAsWrittenAgree | DEV_ONLY/Symbol.ts:160 | for names that are no `Object.prototype` member, the filter as written returns the intended list |
| SymbolRegistry.CollectedAsWrittenAgree | DEV_ONLY/Symbol.ts:163-171 | for names that are no `Object.prototype` member, the reduce as written pushes the intended symbols, one by one and in order |
| SymbolRegistry.Realm.constructor | DEV_ONLY/Symbol.ts:3-4 | the registry and `symbolMap` start empty |
| SymbolRegistry.Realm.NewSymbol | DEV_ONLY/Symbol.ts:61-72 | a new symbol with `String(description)` (none for undefined) and 128 random characters, recorded in `symbolMap` under its string form. The registry is unchanged |
| SymbolRegistry.Realm.CallSymbol | DEV_ONLY/Symbol.ts:83-89 | under `new`, a TypeError "Symbol cannot be a constructor" and no change; otherwise a new symbol as `NewSymbol` |
| SymbolRegistry.Realm.FindName | DEV_ONLY/Symbol.ts:112-118 | the search loop returns `IndexOfName` of the registry, the intended search |
| SymbolRegistry.Realm.For | DEV_ONLY/Symbol.ts:108-129 | with the intended search, returns the found symbol, or a new one described by the key and appended with its key and string. Creates a symbol exactly on a miss and keeps the registry well formed |
| SymbolRegistry.Realm.KeyFor | DEV_ONLY/Symbol.ts:131-143 | a TypeError "Symbol.keyFor accepts symbol arguments." for a non-symbol; otherwise the key of the entry holding the symbol, or undefined |
| SymbolRegistry.Realm.GetOwnPropertyNames | DEV_ONLY/Symbol.ts:159-161 | the own names filtered by `HideSymbolNames`, in their order: a name is returned exactly when it is an own name that is not in `symbolMap` |
| SymbolRegistry.Realm.Keys | DEV_ONLY/Symbol.ts:173-175 | the enumerable own names filtered by `HideSymbolNames`, in their order: a name is returned exactly when it is an enumerable own name that is not in `symbolMap` |
| SymbolRegistry.Realm.GetOwnPropertySymbols | DEV_ONLY/Symbol.ts:163-171 | the reduce loop returns `SymbolsNamed` of the own names: in order, the symbol of each own name that stands for one |
| PromiseModel.Root | DEV_ONLY/Promise.ts:475-479 | the walk along `_previous` ends at a promise without `_previous`, at or below the start |
| PromiseModel.OnChain | DEV_ONLY/Promise.ts:413-419 | every promise on a chain lies at or below its start and shares its root |
| PromiseModel.RootOnChain | DEV_ONLY/Promise.ts:405-409 | the root lies on the chain and is its own root |
| PromiseModel.RootFrame | DEV_ONLY/Promise.ts:475-479 | the root and the chain depend only on `_previous` links, so growing the arena or changing other fields keeps them |
| PromiseModel.ChildSharesRoot | DEV_ONLY/Promise.ts:607 | a child of `then` has the receiver on its chain and the same root |
| PromiseModel.OnChainStep | DEV_ONLY/Promise.ts:415-418 | the chain is closed under following `_previous` |
| PromiseModel.ChainOrdered | DEV_ONLY/Promise.ts:413-419 | a chain's members below a member are on that member's own chain |
| PromiseModel.OnlyFirstStepSettles | DEV_ONLY/Promise.ts:311-344 | of an executor's calls of its resolving functions (or a throw), only the first settles; all later ones are ignored |
| PromiseModel.ClosedLatchPassesNothing | DEV_ONLY/Promise.ts:316-333 | once `done` is set, the resolving functions do nothing |
| PromiseModel.ExecutorSettlesAtMostOnce | DEV_ONLY/Promise.ts:311-344 | an executor requests at most one settlement, namely the one its first step makes |
| PromiseModel.SettleTasks | DEV_ONLY/Promise.ts:323-332 | the tasks scheduled for a list of settlements, one per settlement and in order |
| PromiseModel.DispatchTasks | DEV_ONLY/Promise.ts:529-535 | one dispatch task per queued handler, in registration order |
| PromiseModel.AsReaction | DEV_ONLY/Promise.ts:593-599 | `then` keeps an argument as callback exactly when it is a function |
| PromiseModel.MatchingReaction | DEV_ONLY/Promise.ts:372-376 | the callback chosen is `onFulfilled` for a fulfilled promise and `onRejected` for a rejected one, when present |
| PromiseModel.CallCompletion | DEV_ONLY/Promise.ts:401-402 | a callback throws exactly when its behaviour throws; an executor script called as a callback completes normally only when it makes no call |
| PromiseModel.CallWithoutArgumentCompletion | DEV_ONLY/Promise.ts:572-574 | `onFinally()` throws a TypeError when `onFinally` is not a function, and otherwise completes as the call with undefined |
| PromiseModel.Fill | DEV_ONLY/Promise.ts:167 | filling slots keeps the length of `results` |
| PromiseModel.FillSlots | DEV_ONLY/Promise.ts:167 | after filling, each slot holds its value if it was filled and its old content otherwise |
| PromiseModel.AllResultsIndexAligned | DEV_ONLY/Promise.ts:149-181 | when every slot is filled, in any order, `results` is exactly the list of values by index |
| PromiseModel.AllFilled | DEV_ONLY/Promise.ts:167-173 | one `resolveIndex` call with a value that is not a promise: that slot holds the value and the others are kept, `remaining` goes down by one, and the record is completed once the count has passed one |
| PromiseModel.FillRecord | DEV_ONLY/Promise.ts:149-181 | a sequence of `resolveIndex` calls keeps the slot count and the latch of the record |
| PromiseModel.FillRecordFills | DEV_ONLY/Promise.ts:149-181 | a sequence of `resolveIndex` calls fills the slots as `Fill` does, counts `remaining` down once per call, and completes the record exactly when the count passed one on the way |
| PromiseModel.AllRecordIndexAligned | DEV_ONLY/Promise.ts:143-186 | when each index of a fresh record is resolved once, in any order, the record ends with no slot outstanding, completed, and holding the values by index |
| PromiseModel.PlainCount | DEV_ONLY/Promise.ts:169 | the non-promise elements are counted, and all of them are such exactly when the count is the length |
| PromiseModel.FirstPlain | DEV_ONLY/Promise.ts:236-251 | the first element that is not a promise, which is the one `race` resolves with |
| PromiseArena.RecordFacts | DEV_ONLY/Promise.ts:523-537 | in a consistent engine, a settled promise has no handlers, a fulfilled value is never a PromisePolyfill, and the handled flag marks exactly the notified roots |
| PromiseArena.LatchFacts | DEV_ONLY/Promise.ts:312-333 | while a latch is open, its promise is pending |
| PromiseArena.AddPromiseKeeps | DEV_ONLY/Promise.ts:79-95 | a new promise keeps the invariant and has no settlement source |
| PromiseArena.CloseLatchKeeps | DEV_ONLY/Promise.ts:316-333 | closing an open latch and scheduling its settlement keeps the one-shot invariant |
| PromiseArena.ScheduleSettleKeeps | DEV_ONLY/Promise.ts:444 | scheduling `_resolve` or `_reject` for a pending promise with no other source keeps the invariant |
| PromiseArena.PushHandlerKeeps | DEV_ONLY/Promise.ts:358-363 | queueing a handler on a pending promise keeps the invariant |
| PromiseArena.ScheduleDispatchKeeps | DEV_ONLY/Promise.ts:366 | scheduling a dispatch for a settled promise keeps the invariant |
| PromiseArena.SetPreviousKeeps | DEV_ONLY/Promise.ts:607 | linking a fresh child to an older receiver keeps `_previous` links going down |
| PromiseArena.SettlePromiseKeeps | DEV_ONLY/Promise.ts:445-459 | settling a pending promise with no other source and clearing its handlers keeps the invariant |
| PromiseArena.PopKeeps | DEV_ONLY/Promise.ts:501-505 | taking the head task keeps the invariant, and leaves a settled task's promise without any other source |
| PromiseArena.NotifyKeeps | DEV_ONLY/Promise.ts:481-485 | marking an unmarked root and logging its event keeps every root notified at most once |
| PromiseArena.SetParentKeeps | DEV_ONLY/Promise.ts:411-416 | setting `_parent` keeps the invariant |
| PromiseArena.UpdateAllKeeps | DEV_ONLY/Promise.ts:167-172 | updating an `all` record with the same latch and slot count keeps the invariant |
| PromiseArena.UpdateRaceKeeps | DEV_ONLY/Promise.ts:236-240 | updating a `race` record with the same latch keeps the invariant |
| PromiseEffects.SettleAt | DEV_ONLY/Promise.ts:311-345 | a resolving function of `_execute` closes its latch and appends at most one task. Other latches, the promises, the aggregates and the notifications are untouched |
| PromiseEffects.HandleAt | DEV_ONLY/Promise.ts:357-366 | `_handle` leaves every other promise, the latches, the aggregates and the notifications alone. The receiver keeps its state and `_previous`, and the queue only grows at the back |
| PromiseEffects.ThenAt | DEV_ONLY/Promise.ts:592-610 | `then` adds one pending child linked to the receiver and one open latch for it. Every other old promise is unchanged, the receiver keeps its state and `_previous`, and the queue only grows at the back |
| PromiseEffects.StaticAt | DEV_ONLY/Promise.ts:266-282 | `resolve(v)` and `reject(r)` add one promise with its latch closed, and append its `_resolve` or `_reject` to the queue. Nothing else changes |
| PromiseEffects.AllIndexAt | DEV_ONLY/Promise.ts:149-171 | `resolveIndex` of `all` only adds promises, latches and tasks at the back. It keeps the number of `all` records and leaves the `race` records and the notifications alone |
| PromiseEffects.RaceIndexAt | DEV_ONLY/Promise.ts:216-240 | `resolveIndex` of `race` only adds promises, latches and tasks at the back. It keeps the number of `race` records and leaves the `all` records and the notifications alone |
| PromiseEffects.FinallyAt | DEV_ONLY/Promise.ts:570-581 | a `finally` closure only adds promises, latches and tasks at the back, and leaves the aggregates and the notifications alone |
| PromiseEffects.InvokeAt | DEV_ONLY/Promise.ts:402 | calling any reaction only adds promises, latches and tasks at the back. It keeps every `_previous` link and their descent, and its completion names only existing promises |
| PromiseEffects.Reparented | DEV_ONLY/Promise.ts:404-420 | re-parenting keeps the arena's length. `Rewire` proves that the two walks of `_handle` compute exactly this arena |
| PromiseEffects.ReactAt | DEV_ONLY/Promise.ts:396-420 | the callback part of a dispatch only adds promises, latches and tasks at the back |
| PromiseEffects.FollowsKept | DEV_ONLY/Promise.ts:357-366 | a reaction record stays queued on its promise, or its dispatch stays scheduled, while handler lists and the queue only grow |
| PromiseEffects.ThenAtFollows | DEV_ONLY/Promise.ts:601-607 | `then` leaves its receiver carrying the new reaction record, and removes no handler and no task |
| PromiseEffects.ElementsFollowedKept | DEV_ONLY/Promise.ts:152-160 | the `then` registrations of the elements of `all` or `race` survive any later growth of handler lists and the queue |
| PromiseEffects.AllIndexFollows | DEV_ONLY/Promise.ts:149-160 | `resolveIndex` of `all` removes no handler and no task. A promise element ends up carrying `then(resolveIndex for its slot, reject)` |
| PromiseEffects.RaceIndexFollows | DEV_ONLY/Promise.ts:216-231 | `resolveIndex` of `race` removes no handler and no task. A promise element ends up carrying `then(resolveIndex for its slot, reject)` |
| PromiseEffects.AllIndexExtendsFollowed | DEV_ONLY/Promise.ts:183-185 | one more turn of the loop of `all`: every promise among the first `i + 1` elements carries its `then(resolveIndex, reject)` |
| PromiseEffects.RaceIndexExtendsFollowed | DEV_ONLY/Promise.ts:250-252 | one more turn of the loop of `race`: every promise among the first `i + 1` elements carries its `then(resolveIndex, reject)` |
| PromiseEffects.SettleAtMostOnce | DEV_ONLY/Promise.ts:316-333 | a second call of a resolving function changes nothing. A call appends a task exactly when the latch was open |
| PromiseEffects.FinallyAtEffect | DEV_ONLY/Promise.ts:570-581 | a throwing `onFinally` changes nothing and its exception is the completion. Otherwise `resolve(onFinally())` is built with `_resolve` of the result queued. It carries a new child that passes the original value or reason on, and that child is the completion |
| PromiseEffects.InvokeAtElementPlain | DEV_ONLY/Promise.ts:162-171 | `resolveIndex` with a value that is not a promise. For `all`, the slot is filled as `AllFilled` does, and the aggregate's resolution with `results` is queued exactly on the completing call while its latch is open. For `race`, the aggregate is marked, and its resolution is queued exactly when no earlier element completed it and its latch is open. The promises do not change |
| PromiseEffects.InvokeAtElementPromise | DEV_ONLY/Promise.ts:152-160 | `resolveIndex` with a promise is exactly `then` on it with `resolveIndex` for the same slot and the aggregate's reject, and the promise carries that record |
| PromiseEffects.DispatchAtSettlesChild | DEV_ONLY/Promise.ts:366-430 | a dispatch closes the handler's latch. While that latch was open, the last task queued is the child's settlement: the value or reason passed on without a callback, and otherwise the callback's completion |
| PromiseEffects.DispatchAtProgramCallback | DEV_ONLY/Promise.ts:396-430 | with a program callback, the dispatch is exactly the child's resolving function applied to the callback's completion. A returned promise first has its chain re-parented, and no other engine state changes |
| PromiseEffects.DispatchAtElementPlain | DEV_ONLY/Promise.ts:366-430 | a dispatch of `resolveIndex` with a value that is not a promise: the aggregate's update as in `InvokeAtElementPlain`, then the child's resolution with undefined while its latch was open. The promises do not change |
| PromiseEffects.ResolveAtEffect | DEV_ONLY/Promise.ts:500-542 | `_resolve` with the promise itself queues only `_reject` with a TypeError. Another promise is adopted: the promise is unchanged behind a new open latch, and the other promise carries that latch's resolving functions. Any other value fulfils the promise, clears its handlers and queues their dispatches in order, with every other promise unchanged |
| PromiseEffects.RejectAtNotifiesOnce | DEV_ONLY/Promise.ts:443-486 | `_reject` rejects the promise with the reason and clears its handlers. With handlers, it queues their dispatches in order and notifies nobody. Without handlers, the root of the chain ends up flagged and is notified exactly when it was not flagged before. No promise other than the promise and the root changes |
| PromiseEngine.Engine.constructor | DEV_ONLY/Promise.ts:9-11 | a new engine has no promises, tasks or notifications, and is consistent |
| PromiseEngine.Engine.AllocPromise | DEV_ONLY/Promise.ts:79-95 | a new record: pending, value null, no handlers, no `_previous` or `_parent`, not flagged |
| PromiseEngine.Engine.NewLatch | DEV_ONLY/Promise.ts:312 | a new open `done` latch for the promise |
| PromiseEngine.Engine.Settle | DEV_ONLY/Promise.ts:316-333 | a closed latch ignores the call. An open one closes and schedules `_resolve` or `_reject` for its promise, which stays pending. The new state is `SettleAt` of the old |
| PromiseEngine.Engine.Handle | DEV_ONLY/Promise.ts:357-366 | a pending promise queues the handler at the end, and a settled one schedules its dispatch. The new state is `HandleAt` of the old |
| PromiseEngine.Engine.HandleAll | DEV_ONLY/Promise.ts:529-535 | the queued handlers go to `_handle` in order, so their dispatches are appended in registration order |
| PromiseEngine.Engine.Execute | DEV_ONLY/Promise.ts:311-344 | the executor runs at once. Its first settling step, a call or a throw, is scheduled; every later one is ignored |
| PromiseEngine.Engine.Construct | DEV_ONLY/Promise.ts:67-100 | a non-function executor throws "Promise resolver … is not a function" and changes nothing; otherwise a new pending promise whose executor ran: its latch, tasks and program-callback invocations are stated, and nothing else changes |
| PromiseEngine.Engine.StaticResolve | DEV_ONLY/Promise.ts:280-282 | a new promise with `_resolve(value)` scheduled and its latch closed, as `StaticAt` |
| PromiseEngine.Engine.StaticReject | DEV_ONLY/Promise.ts:266-268 | a new promise with `_reject(reason)` scheduled and its latch closed, as `StaticAt` |
| PromiseEngine.Engine.ThenWith | DEV_ONLY/Promise.ts:601-609 | a new pending child whose `_previous` is the receiver. The receiver's `_handle` got the handler holding the child's resolving functions. The callbacks may return the child itself. The new state is `ThenAt` of the old |
| PromiseEngine.Engine.LinkPrevious | DEV_ONLY/Promise.ts:607 | only the child's `_previous` changes |
| PromiseEngine.Engine.Then | DEV_ONLY/Promise.ts:592-610 | a non-function argument is treated as absent, and a callback may return the child itself. The child is pending and linked to the receiver, with a new open latch for it. A pending receiver queues the handler and a settled one schedules it. The new state is `ThenAt` of the old with the filtered callbacks; no other promise and no aggregate changes |
| PromiseEngine.Engine.Catch | DEV_ONLY/Promise.ts:555-557 | `then` with no fulfilment callback; the callback may return the child itself. The new state is `ThenAt` of the old |
| PromiseEngine.Engine.Finally | DEV_ONLY/Promise.ts:570-578 | `then` with the two closures that call `onFinally()` and pass the value or reason on. `onFinally` may return the child itself. The new state is `ThenAt` of the old |
| PromiseEngine.Engine.AllResolveIndex | DEV_ONLY/Promise.ts:149-181 | a promise element is followed with `then`, its rejection going to `reject`. Any other value updates the record as `AllFilled` does, and the call that `AllCompletes` resolves the aggregate with `results` if its latch is open. The new state is `AllIndexAt` of the old |
| PromiseEngine.Engine.All | DEV_ONLY/Promise.ts:130-187 | a non-array is rejected with a TypeError, and `[]` is resolved with `[]`. Otherwise each plain element fills its slot, every promise element carries `then(resolveIndex for its slot, reject)`, and an array without promises is resolved with exactly that array. The new state is `AllAt` of the old, and no program callback is called |
| PromiseEngine.Engine.AllOfArray | DEV_ONLY/Promise.ts:143-186 | the executor of `all`. The results hold the plain elements and undefined for promises, `remaining` counts the promises, and the aggregate completes exactly when there are none. Every promise element carries `then(resolveIndex for its slot, reject)`. The new state is the start of the call followed by `resolveIndex` on each element in order (`ElementsAt`), and no program callback is called |
| PromiseEngine.Engine.StartAll | DEV_ONLY/Promise.ts:143-147 | a new promise with an open latch and an empty `all` record counting every element, as `StartAggregateAt` |
| PromiseEngine.Engine.AllStep | DEV_ONLY/Promise.ts:183-185 | one turn of the loop is `resolveIndex` on one more element. It keeps the `all` progress invariant for that element, including its `then` registration when it is a promise |
| PromiseEngine.Engine.RaceResolveIndex | DEV_ONLY/Promise.ts:216-248 | a promise element is followed with `then`. Any other value resolves the aggregate unless it has completed, and marks it completed. The new state is `RaceIndexAt` of the old |
| PromiseEngine.Engine.Race | DEV_ONLY/Promise.ts:200-254 | a non-array is rejected with a TypeError, and `[]` is resolved with `[]`. Otherwise the aggregate completes exactly when some element is not a promise, and the first such element is what resolves it. Every promise element carries `then(resolveIndex for its slot, reject)`. The new state is `RaceAt` of the old, and no program callback is called |
| PromiseEngine.Engine.RaceOfArray | DEV_ONLY/Promise.ts:212-253 | the executor of `race`: completed exactly when some element is not a promise, with the first such element's resolution queued, and every promise element followed. The new state is the start of the call followed by `resolveIndex` on each element in order (`ElementsAt`) |
| PromiseEngine.Engine.RaceLoop | DEV_ONLY/Promise.ts:250-252 | the executor loop of `race`: the new state is `resolveIndex` on every element in order (`ElementsAt`), and the progress invariant holds for all the elements |
| PromiseEngine.Engine.StartRace | DEV_ONLY/Promise.ts:212-214 | a new promise with an open latch and a `race` record not yet completed, as `StartAggregateAt` |
| PromiseEngine.Engine.RaceStep | DEV_ONLY/Promise.ts:250-252 | one turn of the loop of `race` is `resolveIndex` on one more element. It keeps the progress invariant: the aggregate is completed exactly when a plain element has been seen, the first such element's resolution is queued, and each promise element seen carries its `then` registration |
| PromiseEngine.Engine.FindRoot | DEV_ONLY/Promise.ts:405-409 | the walk returns the root of the chain |
| PromiseEngine.Engine.SetParent | DEV_ONLY/Promise.ts:411-416 | only one `_parent` changes |
| PromiseEngine.Engine.Rewire | DEV_ONLY/Promise.ts:404-420 | exactly the promises on the returned promise's chain, itself included, get the root of the handled promise's chain as `_parent`. The arena becomes `Reparented` of the old one, and nothing else changes |
| PromiseEngine.Engine.CallWithoutArgument | DEV_ONLY/Promise.ts:572-574 | `onFinally()` completes as `CallWithoutArgumentCompletion` and logs one argument-less invocation of a program callback |
| PromiseEngine.Engine.Invoke | DEV_ONLY/Promise.ts:402 | the new state is `InvokeAt` of the old, the completion is `InvokeCompletion`, and the log grows by `InvokeLog`. A program callback completes as its behaviour says, changes no engine state and logs one call. The engine's own closures settle their latch or build the `finally` chain (`FinallyAtEffect`). `resolveIndex` updates its aggregate (`InvokeAtElementPlain`) or follows a promise (`InvokeAtElementPromise`). No other latch changes |
| PromiseEngine.Engine.InvokeFinally | DEV_ONLY/Promise.ts:572-576 | a throwing `onFinally` throws on. Otherwise the result is a new child of `resolve(onFinally())` that passes the original value or reason on. The new state is `FinallyAt` of the old, and the log grows by the one `onFinally()` call |
| PromiseEngine.Engine.RunDispatch | DEV_ONLY/Promise.ts:366-430 | the new state is `DispatchAt` of the old, and the log grows by `DispatchLog`. Without a matching callback, the child's latch passes the value or reason on. Otherwise the callback's return resolves the child and a throw rejects it, and a returned promise is re-parented to the root of the handled chain. When an `all` or `race` element fulfils with a plain value, the record is updated and the aggregate's resolution is scheduled ahead of the child's |
| PromiseEngine.Engine.React | DEV_ONLY/Promise.ts:401-420 | the matching callback runs on the settled value, and a returned promise gets the root of the handled chain as `_parent`. The child's latch is untouched. The new state is `ReactAt` of the old, the completion is `InvokeCompletion`, and the log grows by `InvokeLog` |
| PromiseEngine.Engine.AdoptResult | DEV_ONLY/Promise.ts:402-420 | a returned promise has its chain re-parented to the root of the handled chain, as `Reparented` states. Any other completion changes nothing, and no other field changes |
| PromiseEngine.Engine.RunResolve | DEV_ONLY/Promise.ts:500-542 | resolving with itself schedules a TypeError rejection. Resolving with another promise adopts it through a fresh `_execute` of its `then`. Any other value fulfils the promise and hands its handlers to `_handle` in order. The new state is `ResolveAt` of the old, and no program callback is called |
| PromiseEngine.Engine.RunReject | DEV_ONLY/Promise.ts:443-488 | the promise is rejected and its handlers are dispatched in order. With no handler, the root of its `_previous` chain is notified once and flagged. The new state is `RejectAt` of the old, and no program callback is called |
| PromiseEngine.Engine.Step | DEV_ONLY/Promise.ts:366-542 | the oldest task runs, and the new state is `StepAt` of the old: `ResolveAt`, `RejectAt` or `DispatchAt` on the rest of the queue. The rest of the queue keeps its order ahead of new tasks, and no settled promise changes state or value. The log grows by `StepLog` |
| PromiseEngine.Engine.ThenReturningItself | DEV_ONLY/Promise.ts:500-507 | `c = p.then(() => c)` on a fulfilled `p`, run for two turns: the callback is called once with `p`'s value, `c` stays pending, and the queue holds exactly `_reject` of `c` with a TypeError |

## Left out

- The host scheduler (`queueMicrotask` or whatever `schedule` is) is not part of this model. It is modelled as the FIFO queue `tasks`, and `Step` runs one entry. Interleaving with other host work is not modelled.
- `window.dispatchEvent` of the `unhandledrejection` event is modelled as appending the root to `notified`. The event object and its listeners are not part of this model.
- Debug tracing (`useDebugTrace`, `_handlerName`, `_stack`, `getNormalizedStack`, `getDebugTracingStack`) only affects error stacks, so it is left out.
- The program's functions are abstracted to what they do. A callback returns a value, returns its argument or throws. An executor is a script of calls of its resolving functions and throws. Program code that itself calls engine operations is not modelled.
- An executor script passed as a `then` callback is approximated. It completes normally only when it makes no call. When its first step is a throw, it throws that value. When its first step is a call of `resolve` or `reject`, it throws a TypeError, because a callback receives no resolving functions.
- `then` constructs the child through `this.constructor`. Subclasses are not modelled; the child is always a PromisePolyfill.
- Foreign thenables are treated as plain values, as the code's `instanceof PromisePolyfill` tests do.
- The `try`/`catch` blocks in `all`, `race` and `_resolve` guard statements that cannot throw for the values modelled, so their catch branches are not modelled.
- PromiseEngine.Engine.AllResolveIndex: the `results` array of `all` is an array with holes. Unfilled slots are modelled as undefined, and the array handed to `resolve` is a copy rather than the same, still-mutable object.
- PromiseEngine.Engine.AllResolveIndex: the engine carries no invariant tying an `all` record's `remaining` to its unfilled slots, nor one saying each element's callback fires at most once. Index alignment at `remaining == 0` is therefore proved for the record update (`AllRecordIndexAligned`, over any order in which each index is resolved once) and for arrays without promises (`All`), not as an invariant of the running engine.
- SymbolRegistry.Realm.FindName: runs the intended match of the first Findings row, not the read under the registry name. The two agree for every string except `symbol` (`IndexOfNameAsWrittenAgrees`).
- SymbolRegistry.Realm.For: runs the intended search, so `Valid()` keeps registry strings distinct. As written, `Symbol.for("symbol")` appends a new entry on every call (`ForSymbolKeyTwiceAsWritten`). For every other key the two agree (`ForAsWrittenAgrees`).
- SymbolRegistry.Realm.GetOwnPropertyNames: tests `name in symbolMap`, the intended filter of the second Findings row, not the truthy read on `{}`. The two agree for names that are no `Object.prototype` member (`FiltersAsWrittenAgree`).
- SymbolRegistry.Realm.Keys: the same intended filter as `GetOwnPropertyNames`, with the same agreement.
- SymbolRegistry.Realm.GetOwnPropertySymbols: the intended reduce of the second Findings row. The one as written agrees with it for names that are no `Object.prototype` member (`FiltersAsWrittenAgree`).
- PromiseEngine.Engine.RunResolve: the handler list is dispatched and then cleared, as in the code. The model sets it to empty together with the state, which is the same final state because `_handle` on a settled promise only schedules.
- `finally` on a rejected promise passes the reason on through an internal `PromisePolyfill.reject(reason)` promise. Its unhandled-rejection notification comes out of the model as it does in the code. No lemma is stated about it.
- SymbolRegistry.IsSameValue: the `number` branch (NaN and ±0) is left out, because numbers are modelled as integers.
- `setFrozen` and `setNonEnumerable` property attributes, `toJSON`, `valueOf` and the well-known symbols installed at load time (`Symbol.iterator` and the rest) are not part of this model. The well-known symbols only add entries to `symbolMap` before the program runs.
- `Math.random()` in `unique` becomes a parameter `coins`, one draw per character.
- SymbolRegistry.Realm.NewSymbol: the string form of a symbol is assumed to identify it in `symbolMap`. A clash of two random data strings overwrites the older entry, as in the code, but no probability is modelled.
- DEV_ONLY/App.ts is a demonstration page and is not part of this model.

## Findings

| source | as written | input that shows it | evidently intended | confidence | as-written member | corrected member |
|---|---|---|---|---|---|---|
| DEV_ONLY/Symbol.ts:110-126 | the entry literal stores the string under `[[${key}]]`, and for key `symbol` that name is `[[symbol]]`, the same as the `SYMBOL` slot, which the later symbol overwrites | `Symbol.for("symbol")` twice | both calls return the same symbol, and the second leaves the registry unchanged | not executed | SymbolRegistry.ForSymbolKeyTwiceAsWritten | SymbolRegistry.ForIdempotent |
| DEV_ONLY/Symbol.ts:4, 160-166 | `symbolMap` is a plain `{}`, so `symbolMap[name]` is truthy for names inherited from `Object.prototype` | an object with an own property `toString` | `getOwnPropertyNames` keeps `toString`, and `getOwnPropertySymbols` does not return the inherited function | not executed | SymbolRegistry.InheritedNamesMisreadAsWritten | SymbolRegistry.FiltersPartitionNames |
| DEV_ONLY/Symbol.ts:47-53 | `typeOf` tests `instanceof _Symbol`, but symbols are instances of the class `Symbol`, whose prototype chain (`Symbol.prototype`, then `Object.prototype`) does not hold `_Symbol.prototype` | `typeOf(_Symbol("a"))` | `"symbol"` | not executed | SymbolRegistry.TypeOfAsWrittenMissesSymbols | SymbolRegistry.TypeOf |
