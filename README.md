# Circuit-breaker state machine (`BreakerBase`)

This project models the state machine that every circuit-breaking strategy
of the sentinel library shares. The source is
`sentinel/src/core/circuitbreaker/breaker/mod.rs`.

A breaker is `Closed`, `Open` or `HalfOpen`. It holds a recovery timeout and
a "next retry" timestamp. Four guarded transitions move it along the edges
of the documented diagram:

- Closed → Open
- Open → HalfOpen
- HalfOpen → Open
- HalfOpen → Closed

Each transition acts only when it finds the state it expects. When it acts,
it notifies every registered listener once, in registration order, with
the state it left. The two strategy trips (Closed → Open, HalfOpen → Open)
re-arm the timer to now + timeout; the hook's rollback into Open keeps the
old retry time.
Moving to HalfOpen is meant to hand the probe's entry a rollback hook, as
the comments at mod.rs:191-193 say. If that entry turns out to have been
blocked, the hook returns a still-HalfOpen breaker to Open. The model
follows that intent. The code as written panics on that path before the
hook is registered (see "## Findings").

The Dafny module `Breaker` (`breaker.dfy`) holds three layers:

- The enums and their defaults.
- A value-level specification: `Apply` gives the effect of one step on a
  `Base` (state, next retry time, notification stream). `Run` and `Path`
  extend it to sequences of steps. Lemmas state the guard, the edge
  followed, the notifications issued and the timer behaviour. They also
  state that along any sequence of steps the observed states form a path
  of the diagram, with one broadcast per actual state change.
- The class `BreakerBase`: one method per source operation, each stating
  its whole new state. The four transitions and `OnExit` (the hook's body)
  are also tied to `Apply` by a postcondition. `Notify` is not a source
  operation: it factors out the listener loop that the source repeats at
  mod.rs:159-166, 179-182, 207-214, 233-240 and 253-256.

The clock (`utils::curr_time_millis`) is a `now` parameter. The contents
of the process-wide listener registry at the time of a call are a
`listeners` parameter. Listeners are recorded as a stream of `Notice`
values: which listener was called, and with which callback.

## Model

| member | source | states |
|---|---|---|
| Breaker.DefaultStrategy | sentinel/src/core/circuitbreaker/breaker/mod.rs:58-62 | a rule without a strategy uses the slow-request-ratio strategy |
| Breaker.DefaultState | sentinel/src/core/circuitbreaker/breaker/mod.rs:72-76 | the default state is Closed |
| Breaker.BreakerBase.constructor | sentinel/src/core/circuitbreaker/breaker/mod.rs:118-130 | a fresh breaker is in the default state (Closed), has an unarmed timer and has notified no one; the recovery timeout is a `u32` |
| Breaker.BreakerBase.CurrentState | sentinel/src/core/circuitbreaker/breaker/mod.rs:137-139 | returns the breaker's state and changes nothing |
| Breaker.BreakerBase.RetryTimeoutArrived | sentinel/src/core/circuitbreaker/breaker/mod.rs:141-143 | true exactly when `now` has reached the next retry time; changes nothing |
| Breaker.BreakerBase.UpdateNextRetryTimestamp | sentinel/src/core/circuitbreaker/breaker/mod.rs:145-150 | the next retry time becomes now + recovery timeout; nothing else changes |
| Breaker.BreakerBase.Notify | sentinel/src/core/circuitbreaker/breaker/mod.rs:159-166 | appends one callback per registered listener, in registration order, and changes nothing else |
| Breaker.BreakerBase.FromClosedToOpen | sentinel/src/core/circuitbreaker/breaker/mod.rs:154-171 | wins iff the breaker was Closed; a win makes it Open, arms the timer to now + timeout and issues `to_open(prev = Closed, snapshot)` to each listener; a loss changes nothing; agrees with `Apply` |
| Breaker.BreakerBase.FromOpenToHalfOpen | sentinel/src/core/circuitbreaker/breaker/mod.rs:175-224 | wins iff the breaker was Open; a win makes it HalfOpen and issues `to_half_open(prev = Open)` to each listener without touching the timer; a rollback hook is installed iff it won and the entry is present; it still wins when the entry is absent; agrees with `Apply` |
| Breaker.BreakerBase.OnExit | sentinel/src/core/circuitbreaker/breaker/mod.rs:200-217 | the rollback hook: rolls back iff the entry was blocked and the breaker is HalfOpen; then it becomes Open and each listener gets `to_open(prev = HalfOpen, rollback snapshot)`, with the timer not re-armed; otherwise nothing changes |
| Breaker.BreakerBase.FromHalfOpenToOpen | sentinel/src/core/circuitbreaker/breaker/mod.rs:228-245 | wins iff the breaker was HalfOpen; a win makes it Open, re-arms the timer to now + timeout and issues `to_open(prev = HalfOpen, snapshot)` to each listener; a loss changes nothing; agrees with `Apply` |
| Breaker.BreakerBase.FromHalfOpenToClosed | sentinel/src/core/circuitbreaker/breaker/mod.rs:249-261 | wins iff the breaker was HalfOpen; a win makes it Closed and issues `to_closed(prev = HalfOpen)` to each listener, leaving the timer as it was; a loss changes nothing; agrees with `Apply` |
| Breaker.BroadcastAt | sentinel/src/core/circuitbreaker/breaker/mod.rs:159-166 | the callbacks of one transition are exactly one per listener, the k-th going to the k-th registered listener |
| Breaker.StepContract | sentinel/src/core/circuitbreaker/breaker/mod.rs:152-261 | a step acts only when it finds its expected state (and, for the hook, a blocked entry), and always acts then; acting, it follows an edge of the diagram and appends one broadcast of the edge taken; the timer is re-armed exactly by the two strategy trips; a step that does not act changes nothing |
| Breaker.WinnerNotifiesEachListenerOnce | sentinel/src/core/circuitbreaker/breaker/mod.rs:159-166 | a step that acts keeps the earlier callbacks and adds exactly one per listener, in registration order, each naming the state left and the state entered |
| Breaker.WinChangesState | sentinel/src/core/circuitbreaker/breaker/mod.rs:156-157 | a step acts iff it changes the state |
| Breaker.AtMostOneWinner | sentinel/src/core/circuitbreaker/breaker/mod.rs:152-153 | of two steps that expect the same state, taken one after the other, at most one wins |
| Breaker.BlockedProbeRollsBack | sentinel/src/core/circuitbreaker/breaker/mod.rs:191-217 | from Open, a half-open transition followed by the hook of a blocked entry leaves the breaker Open with its old retry time; listeners hear HalfOpen and then Open with the rollback snapshot |
| Breaker.UnblockedProbeExitIsNoOp | sentinel/src/core/circuitbreaker/breaker/mod.rs:204-216 | the hook of an entry that was not blocked changes nothing |
| Breaker.OpenToHalfOpenAsWritten | sentinel/src/core/circuitbreaker/breaker/mod.rs:175-224 | `from_open_to_half_open` as written: unless the breaker is Open it returns false and changes nothing; with no entry it moves to HalfOpen, notifies listeners and returns true with no hook; with an entry it panics after the HalfOpen commit and the broadcast, because the upgraded `Rc` is never unique and `Rc::get_mut` fails; so it never returns with a hook installed; the retry time is never touched |
| Breaker.HookRegistrationPanics | sentinel/src/core/circuitbreaker/breaker/mod.rs:184-199 | as written, an Open breaker reached with any entry always panics at the `Weak::upgrade` or `Rc::get_mut` unwrap (the upgrade itself adds a strong reference, so the `Rc` is never unique), after moving to HalfOpen and notifying listeners, and installs no hook |
| Breaker.HookRegistrationPanicsExample | sentinel/src/core/circuitbreaker/breaker/mod.rs:198-199 | the concrete case: an entry with one strong and one weak reference makes the registration panic |
| Breaker.AsWrittenAgreesWhereItReturns | sentinel/src/core/circuitbreaker/breaker/mod.rs:175-224 | wherever the code as written returns, it agrees with the intended transition and installs no hook; it panics exactly when the intended transition wins with an entry present |
| Breaker.TimerArrivesAfterTimeout | sentinel/src/core/circuitbreaker/breaker/mod.rs:141-150 | after a trip at time t, the retry time has arrived at time t' iff t' >= t + recovery timeout |
| Breaker.StepNotices | sentinel/src/core/circuitbreaker/breaker/mod.rs:152-261 | one step keeps the notification stream as a prefix, and adds one callback per listener iff it changes the state |
| Breaker.PathIsValid | sentinel/src/core/circuitbreaker/breaker/mod.rs:1-13 | for any sequence of steps, the states observed start at the initial state, end at the final one, and each step stays put or follows an edge of the diagram (so Closed → HalfOpen and Open → Closed never occur) |
| Breaker.NoticesCountChanges | sentinel/src/core/circuitbreaker/breaker/mod.rs:152-261 | over any sequence of steps, the notification stream only grows, by exactly one callback per listener per actual state change |

## Left out

- The `Mutex` around the state, `Arc`/`Rc`/`RefCell` sharing, `AtomicU64` orderings and the lock being released before the hook is registered: each method is one atomic step.
- The process-wide listener registry and what listeners do: the registry's contents at the time of a call are a parameter, and each callback is recorded as a `Notice`. Listeners cannot fail in the model. In the code a listener that panics is not isolated: it unwinds out of the transition after the state has already changed, and it poisons the state mutex and the registry mutex, so every later `lock().unwrap()` panics.
- The rule handed to listeners and `bound_rule`: `Rule` is defined outside this file and is not part of this model.
- `logging::error!` when the entry is missing: a side effect only; the model keeps the transition and installs no hook.
- The entry context, `when_exit` registration, `Weak::upgrade` and `Rc::get_mut`: reduced to a `hasEntry` flag and the `hookInstalled` result. `OnExit` is the hook's body. This follows the intent at mod.rs:191-193. The code as written panics at mod.rs:198-199 whenever an entry is present. `OpenToHalfOpenAsWritten` models that path (see "## Findings").
- Breaker.BreakerBase.OnExit: the hook's `Ok(())` result is constant and not returned; the model returns whether a rollback happened instead.
- Breaker.BreakerBase.OnExit: nothing ties a hook run to an earlier won half-open transition. The model lets the hook run at any time, which covers every order the entry lifecycle allows. It also covers a run the source cannot make: `FromOpenToHalfOpen(false, …)` (no entry, so `hookInstalled` is false) followed by `OnExit(true, …)` rolls the breaker back, although without an entry no hook exists. The safety lemmas hold for this larger set of runs.
- The snapshot's value (a float, `1.0` for the hook): snapshots are opaque tags, `Rollback` standing for the hook's fixed value.
- `CircuitBreakerTrait`: it declares signatures only.
- The strategy and statistics submodules (`error_count`, `error_ratio`, `slow_request`, `stat`): their source is not part of this model, and neither is the code that constructs a `BreakerBase`. The constructor here starts Closed with a next retry time of 0.
- Breaker.BreakerBase.UpdateNextRetryTimestamp: times are unbounded naturals, so the u64 overflow of now + timeout is not modelled.
- Breaker.PathIsValid: a whole sequence of steps uses one fixed listener list, while the methods take the list per call. A listener registered between two steps is outside this lemma.
- Breaker.NoticesCountChanges: the same fixed listener list holds for the whole sequence of steps, so a listener registered between two steps is outside this lemma.
- Serde derives and `Hash`.

## Findings

| source | as written | input that shows it | evidently intended | confidence | as-written member | corrected member |
|---|---|---|---|---|---|---|
| sentinel/src/core/circuitbreaker/breaker/mod.rs:198-199 | `Rc::get_mut(&mut entry.upgrade().unwrap()).unwrap()` needs a unique `Rc`. The upgrade itself adds a strong reference (and the context's `Weak` handle is still alive), so `get_mut` returns `None` and the `unwrap` panics. The breaker is left HalfOpen with listeners notified and no rollback hook. The panic also unwinds while the registry guard taken at mod.rs:179 is alive (`drop(state)` at 194 releases only the state guard), which poisons the process-wide listener registry: afterwards every winning transition of any breaker commits its state and then panics at `state_change_listeners().lock().unwrap()`. | an Open breaker and an entry owned once and seen through one `Weak` (strong 1, weak 1) | register the rollback hook on the entry and return true (comment at mod.rs:191-193) | not executed; follows the documented semantics of `Weak::upgrade` and `Rc::get_mut` | Breaker.HookRegistrationPanics | Breaker.BreakerBase.FromOpenToHalfOpen |
