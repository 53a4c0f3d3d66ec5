/**
  The circuit-breaker state machine shared by every breaking strategy.

  A breaker is Closed (calls flow), Open (calls are refused until the
  recovery timer elapses) or HalfOpen (one probe call is in flight). The
  four guarded transitions each compare the current state with the one
  they expect and act only on a match; a transition that acts moves the
  state, may re-arm the recovery timer, and notifies every registered
  listener once, in registration order, with the state it left.

  Each method of `BreakerBase` is one atomic step on the object: the lock
  around the state is not modelled. The clock and the contents of the
  listener registry at the time of the call are parameters.
*/
module Breaker {

  newtype u8 = x: int | 0 <= x < 0x100
  newtype u32 = x: int | 0 <= x < 0x1_0000_0000

  /** The strategy a breaking rule selects. */
  datatype BreakerStrategy = SlowRequestRatio | ErrorRatio | ErrorCount | Custom(code: u8)

  /** States of the circuit-breaker state machine. */
  datatype State = Closed | HalfOpen | Open

  /** The strategy a rule gets when none is given. */
  function DefaultStrategy(): (s: BreakerStrategy)
    ensures s == SlowRequestRatio
  {
    SlowRequestRatio
  }

  /** The state a breaker starts in. */
  function DefaultState(): (s: State)
    ensures s == Closed
  {
    Closed
  }

  /** The edges drawn in the state diagram: the only state changes a breaker may make. */
  predicate Edge(from: State, to: State)
  {
    || (from == Closed && to == Open)
    || (from == Open && to == HalfOpen)
    || (from == HalfOpen && to == Open)
    || (from == HalfOpen && to == Closed)
  }

  /**
    The value carried to `to_open` listeners. Only its identity matters:
    `Rollback` is the fixed value the probe-rollback hook passes, `Tag(id)`
    is whatever the calling strategy observed.
  */
  datatype Snapshot = Rollback | Tag(id: nat)

  type ListenerId = nat

  /** The callback a transition issues, with the state the breaker left. */
  datatype Change =
    | ToOpen(prev: State, snapshot: Snapshot)
    | ToHalfOpen(prev: State)
    | ToClosed(prev: State)
  {
    /** The state the breaker entered. */
    function Target(): State
    {
      match this
      case ToOpen(_, _) => Open
      case ToHalfOpen(_) => HalfOpen
      case ToClosed(_) => Closed
    }
  }

  /** One callback delivered to one listener. */
  datatype Notice = Notice(listener: ListenerId, change: Change)

  /** The callbacks of one transition: one per listener, in registration order. */
  function Broadcast(listeners: seq<ListenerId>, change: Change): seq<Notice>
  {
    if listeners == [] then []
    else Broadcast(listeners[..|listeners| - 1], change) + [Notice(listeners[|listeners| - 1], change)]
  }

  lemma {:induction false} BroadcastAt(listeners: seq<ListenerId>, change: Change, k: nat)
    requires k < |listeners|
    ensures |Broadcast(listeners, change)| == |listeners|
    ensures Broadcast(listeners, change)[k] == Notice(listeners[k], change)
  {
    var n := |listeners|;
    if k < n - 1 {
      BroadcastAt(listeners[..n - 1], change, k);
    } else if n > 1 {
      BroadcastAt(listeners[..n - 1], change, 0);
    }
  }

  lemma {:induction false} BroadcastLength(listeners: seq<ListenerId>, change: Change)
    ensures |Broadcast(listeners, change)| == |listeners|
  {
    if listeners != [] {
      BroadcastLength(listeners[..|listeners| - 1], change);
    }
  }

  // ---------------------------------------------------------------------
  // The state machine as a function on values: the specification that the
  // methods of BreakerBase are proved against.
  // ---------------------------------------------------------------------

  /** What a breaker holds that its transitions change. */
  datatype Base = Base(state: State, nextRetry: nat, log: seq<Notice>)

  /** One step on a breaker: a guarded transition or a run of the rollback hook. */
  datatype Op =
    | ClosedToOpen(now: nat, snapshot: Snapshot)
    | OpenToHalfOpen
    | HalfOpenToOpen(now: nat, snapshot: Snapshot)
    | HalfOpenToClosed
    | ProbeExit(isBlocked: bool)

  /** Whether the step acted, and the breaker after it. */
  datatype Outcome = Outcome(won: bool, after: Base)

  /** The state a step must find for it to act. */
  function Expected(op: Op): State
  {
    match op
    case ClosedToOpen(_, _) => Closed
    case OpenToHalfOpen => Open
    case HalfOpenToOpen(_, _) => HalfOpen
    case HalfOpenToClosed => HalfOpen
    case ProbeExit(_) => HalfOpen
  }

  function Apply(b: Base, op: Op, retryTimeout: nat, listeners: seq<ListenerId>): Outcome
  {
    match op
    case ClosedToOpen(now, snapshot) =>
      if b.state == Closed then
        Outcome(true, Base(Open, now + retryTimeout, b.log + Broadcast(listeners, ToOpen(Closed, snapshot))))
      else Outcome(false, b)
    case OpenToHalfOpen =>
      if b.state == Open then
        Outcome(true, b.(state := HalfOpen, log := b.log + Broadcast(listeners, ToHalfOpen(Open))))
      else Outcome(false, b)
    case HalfOpenToOpen(now, snapshot) =>
      if b.state == HalfOpen then
        Outcome(true, Base(Open, now + retryTimeout, b.log + Broadcast(listeners, ToOpen(HalfOpen, snapshot))))
      else Outcome(false, b)
    case HalfOpenToClosed =>
      if b.state == HalfOpen then
        Outcome(true, b.(state := Closed, log := b.log + Broadcast(listeners, ToClosed(HalfOpen))))
      else Outcome(false, b)
    case ProbeExit(isBlocked) =>
      if isBlocked && b.state == HalfOpen then
        Outcome(true, b.(state := Open, log := b.log + Broadcast(listeners, ToOpen(HalfOpen, Rollback))))
      else Outcome(false, b)
  }

  /** The callback a step issues to each listener when it acts. */
  function Announced(op: Op): Change
  {
    match op
    case ClosedToOpen(_, snapshot) => ToOpen(Closed, snapshot)
    case OpenToHalfOpen => ToHalfOpen(Open)
    case HalfOpenToOpen(_, snapshot) => ToOpen(HalfOpen, snapshot)
    case HalfOpenToClosed => ToClosed(HalfOpen)
    case ProbeExit(_) => ToOpen(HalfOpen, Rollback)
  }

  /**
    A step acts only when it finds the state it expects (the hook also needs
    a blocked entry); acting, it follows an edge of the diagram, appends one
    broadcast of the edge it took, and re-arms the timer exactly when it is
    a trip decided by a strategy. A step that does not act changes nothing.
  */
  lemma StepContract(b: Base, op: Op, retryTimeout: nat, listeners: seq<ListenerId>)
    ensures var r := Apply(b, op, retryTimeout, listeners);
      && (r.won ==> b.state == Expected(op))
      && (b.state == Expected(op) && !op.ProbeExit? ==> r.won)
      && (op.ProbeExit? ==> (r.won <==> op.isBlocked && b.state == HalfOpen))
      && (!r.won ==> r.after == b)
      && (r.won ==> Edge(b.state, r.after.state))
      && (r.won ==> r.after.log == b.log + Broadcast(listeners, Announced(op)))
      && (r.won ==> Announced(op).prev == b.state && Announced(op).Target() == r.after.state)
      && (r.won && (op.ClosedToOpen? || op.HalfOpenToOpen?) ==> r.after.nextRetry == op.now + retryTimeout)
      && (!(r.won && (op.ClosedToOpen? || op.HalfOpenToOpen?)) ==> r.after.nextRetry == b.nextRetry)
  {
  }

  /**
    A step that acts notifies every listener exactly once, in registration
    order, with the state the breaker left and the state it entered; the
    callbacks already issued are kept as they were.
  */
  lemma WinnerNotifiesEachListenerOnce(b: Base, op: Op, retryTimeout: nat, listeners: seq<ListenerId>)
    requires Apply(b, op, retryTimeout, listeners).won
    ensures var after := Apply(b, op, retryTimeout, listeners).after;
      && |after.log| == |b.log| + |listeners|
      && after.log[..|b.log|] == b.log
      && forall k :: 0 <= k < |listeners| ==>
           && after.log[|b.log| + k].listener == listeners[k]
           && after.log[|b.log| + k].change.prev == b.state
           && after.log[|b.log| + k].change.Target() == after.state
  {
    var after := Apply(b, op, retryTimeout, listeners).after;
    var change := Announced(op);
    StepContract(b, op, retryTimeout, listeners);
    BroadcastLength(listeners, change);
    forall k | 0 <= k < |listeners|
      ensures after.log[|b.log| + k] == Notice(listeners[k], change)
    {
      BroadcastAt(listeners, change, k);
    }
  }

  /** A step that acts always changes the state, so no step acts twice in a row. */
  lemma WinChangesState(b: Base, op: Op, retryTimeout: nat, listeners: seq<ListenerId>)
    ensures Apply(b, op, retryTimeout, listeners).won <==>
            Apply(b, op, retryTimeout, listeners).after.state != b.state
  {
  }

  /**
    Two steps that expect the same state, taken one after the other, have
    at most one winner: the first winner leaves that state.
  */
  lemma AtMostOneWinner(b: Base, first: Op, second: Op, retryTimeout: nat, listeners: seq<ListenerId>)
    requires Expected(first) == Expected(second)
    ensures var r1 := Apply(b, first, retryTimeout, listeners);
            !(r1.won && Apply(r1.after, second, retryTimeout, listeners).won)
  {
  }

  /**
    A blocked probe rolls the breaker back: from Open, a won half-open
    transition followed by the hook of a blocked entry leaves the breaker
    Open with the same retry time it had, so the next caller may probe at
    once; listeners hear HalfOpen and then Open.
  */
  lemma BlockedProbeRollsBack(b: Base, retryTimeout: nat, listeners: seq<ListenerId>)
    requires b.state == Open
    ensures var r1 := Apply(b, OpenToHalfOpen, retryTimeout, listeners);
            var r2 := Apply(r1.after, ProbeExit(true), retryTimeout, listeners);
            && r1.won && r2.won
            && r2.after.state == Open
            && r2.after.nextRetry == b.nextRetry
            && r2.after.log == b.log + Broadcast(listeners, ToHalfOpen(Open))
                                     + Broadcast(listeners, ToOpen(HalfOpen, Rollback))
  {
  }

  /** The hook of an entry that was not blocked never changes anything. */
  lemma UnblockedProbeExitIsNoOp(b: Base, retryTimeout: nat, listeners: seq<ListenerId>)
    ensures Apply(b, ProbeExit(false), retryTimeout, listeners) == Outcome(false, b)
  {
  }

  // ---------------------------------------------------------------------
  // Hook registration as the code is written
  // ---------------------------------------------------------------------

  /**
    The reference counts of the probe entry's `Rc`, as seen from the
    context, which holds the entry through a `Weak` handle.
  */
  datatype EntryCounts = EntryCounts(strong: nat, weak: nat)

  /** `Weak::upgrade`: fails once no strong reference is left, and otherwise adds one. */
  function Upgrade(c: EntryCounts): Option<EntryCounts>
  {
    if c.strong == 0 then None else Some(c.(strong := c.strong + 1))
  }

  datatype Option<T> = None | Some(value: T)

  /** `Rc::get_mut`: unique access needs exactly one strong and no weak reference. */
  predicate GetMutSucceeds(c: EntryCounts)
  {
    c.strong == 1 && c.weak == 0
  }

  /** How `from_open_to_half_open` ends as written: it returns, or an `unwrap` panics. */
  datatype HalfOpenEnd =
    | Returned(won: bool, hookInstalled: bool, after: Base)
    | Panicked(after: Base)

  /**
    `from_open_to_half_open` as written: after the state change and the
    broadcast, a present entry is upgraded and `Rc::get_mut` is unwrapped
    before the hook is registered.
  */
  function OpenToHalfOpenAsWritten(b: Base, entry: Option<EntryCounts>, listeners: seq<ListenerId>): (e: HalfOpenEnd)
    ensures b.state != Open ==> e == Returned(false, false, b)
    ensures b.state == Open && entry.None? ==> e.Returned? && e.won && !e.hookInstalled
    ensures b.state == Open && entry.Some? ==> e.Panicked?
    ensures !(e.Returned? && e.hookInstalled)
    ensures b.state == Open ==> e.after.state == HalfOpen && e.after.nextRetry == b.nextRetry
                                && e.after.log == b.log + Broadcast(listeners, ToHalfOpen(Open))
  {
    if b.state != Open then Returned(false, false, b)
    else
      var after := b.(state := HalfOpen, log := b.log + Broadcast(listeners, ToHalfOpen(Open)));
      match entry
      case None => Returned(true, false, after)
      case Some(c) =>
        match Upgrade(c)
        case None => Panicked(after)
        case Some(up) => if GetMutSucceeds(up) then Returned(true, true, after) else Panicked(after)
  }

  /**
    As written, the hook is never registered: the upgrade itself adds a
    strong reference, so the upgraded `Rc` is never unique and every Open
    breaker reached with an entry panics after it has already moved to
    HalfOpen and notified its listeners, with no rollback hook installed.
  */
  lemma HookRegistrationPanics(b: Base, c: EntryCounts, listeners: seq<ListenerId>)
    requires b.state == Open
    ensures var e := OpenToHalfOpenAsWritten(b, Some(c), listeners);
      && e.Panicked?
      && e.after.state == HalfOpen
      && e.after.log == b.log + Broadcast(listeners, ToHalfOpen(Open))
  {
  }

  /** The smallest case: an entry owned once and seen through one `Weak` handle. */
  lemma HookRegistrationPanicsExample(listeners: seq<ListenerId>)
    ensures OpenToHalfOpenAsWritten(Base(Open, 0, []), Some(EntryCounts(1, 1)), listeners).Panicked?
  {
    HookRegistrationPanics(Base(Open, 0, []), EntryCounts(1, 1), listeners);
  }

  /**
    Wherever the code as written returns, it agrees with the intended
    transition `Apply`; it never installs a hook; and it
    fails to return exactly on the path the hook was meant for.
  */
  lemma AsWrittenAgreesWhereItReturns(b: Base, entry: Option<EntryCounts>, retryTimeout: nat, listeners: seq<ListenerId>)
    ensures var e := OpenToHalfOpenAsWritten(b, entry, listeners);
            var r := Apply(b, OpenToHalfOpen, retryTimeout, listeners);
      && e.after == r.after
      && (e.Returned? ==> e.won == r.won && !e.hookInstalled)
      && (e.Panicked? <==> r.won && entry.Some?)
  {
  }

  /**
    After a trip at time `now`, the recovery timer has arrived at time
    `later` exactly when `later` is at least `now` plus the recovery timeout.
  */
  lemma TimerArrivesAfterTimeout(b: Base, op: Op, retryTimeout: nat, listeners: seq<ListenerId>, later: nat)
    requires op.ClosedToOpen? || op.HalfOpenToOpen?
    requires Apply(b, op, retryTimeout, listeners).won
    ensures RetryDue(Apply(b, op, retryTimeout, listeners).after, later) <==> later >= op.now + retryTimeout
  {
  }

  /** Whether a probe may be attempted at time `now`. */
  predicate RetryDue(b: Base, now: nat)
  {
    now >= b.nextRetry
  }

  // ---------------------------------------------------------------------
  // Sequences of steps
  // ---------------------------------------------------------------------

  /** The breaker after a sequence of steps. */
  function Run(b: Base, ops: seq<Op>, retryTimeout: nat, listeners: seq<ListenerId>): Base
    decreases |ops|
  {
    if ops == [] then b
    else Run(Apply(b, ops[0], retryTimeout, listeners).after, ops[1..], retryTimeout, listeners)
  }

  /** The states a breaker passes through during a sequence of steps, starting with its own. */
  function Path(b: Base, ops: seq<Op>, retryTimeout: nat, listeners: seq<ListenerId>): seq<State>
    decreases |ops|
  {
    if ops == [] then [b.state]
    else [b.state] + Path(Apply(b, ops[0], retryTimeout, listeners).after, ops[1..], retryTimeout, listeners)
  }

  /** Every step stays put or follows an edge of the diagram. */
  predicate ValidPath(p: seq<State>)
  {
    |p| <= 1 || ((p[0] == p[1] || Edge(p[0], p[1])) && ValidPath(p[1..]))
  }

  /** The number of actual state changes along a path. */
  function Changes(p: seq<State>): nat
  {
    if |p| <= 1 then 0
    else (if p[0] != p[1] then 1 else 0) + Changes(p[1..])
  }

  /**
    Whatever sequence of steps is taken, the states observed form a path
    of the diagram that starts at the breaker's state and ends at its
    final state: no edge is skipped and none is invented.
  */
  lemma {:induction false} PathIsValid(b: Base, ops: seq<Op>, retryTimeout: nat, listeners: seq<ListenerId>)
    ensures var p := Path(b, ops, retryTimeout, listeners);
      && |p| == |ops| + 1
      && p[0] == b.state
      && p[|ops|] == Run(b, ops, retryTimeout, listeners).state
      && ValidPath(p)
    decreases |ops|
  {
    if ops != [] {
      var r := Apply(b, ops[0], retryTimeout, listeners);
      StepContract(b, ops[0], retryTimeout, listeners);
      PathIsValid(r.after, ops[1..], retryTimeout, listeners);
    }
  }

  /** One step adds one broadcast to the notification stream if it changes the state, and nothing otherwise. */
  lemma StepNotices(b: Base, op: Op, retryTimeout: nat, listeners: seq<ListenerId>)
    ensures var after := Apply(b, op, retryTimeout, listeners).after;
      && |after.log| == |b.log| + (if after.state != b.state then |listeners| else 0)
      && after.log[..|b.log|] == b.log
  {
    StepContract(b, op, retryTimeout, listeners);
    BroadcastLength(listeners, Announced(op));
  }

  lemma Distribute(n: nat, d: nat, c: nat)
    ensures n * (d + c) == n * d + n * c
  {
  }

  /**
    Listeners are notified exactly once per actual state change: the
    notification stream only grows, and it grows by one callback per
    listener for every change of state along the path.
  */
  lemma {:induction false} NoticesCountChanges(b: Base, ops: seq<Op>, retryTimeout: nat, listeners: seq<ListenerId>)
    ensures var after := Run(b, ops, retryTimeout, listeners);
      && |after.log| == |b.log| + |listeners| * Changes(Path(b, ops, retryTimeout, listeners))
      && after.log[..|b.log|] == b.log
    decreases |ops|
  {
    if ops != [] {
      var next := Apply(b, ops[0], retryTimeout, listeners).after;
      StepNotices(b, ops[0], retryTimeout, listeners);
      NoticesCountChanges(next, ops[1..], retryTimeout, listeners);
      PathIsValid(next, ops[1..], retryTimeout, listeners);
      var rest := Path(next, ops[1..], retryTimeout, listeners);
      var p := Path(b, ops, retryTimeout, listeners);
      assert p[1..] == rest;
      var d := if next.state != b.state then 1 else 0;
      assert Changes(p) == d + Changes(rest);
      var final := Run(next, ops[1..], retryTimeout, listeners);
      assert final == Run(b, ops, retryTimeout, listeners);
      assert |final.log| == |b.log| + |listeners| * Changes(p) by {
        Distribute(|listeners|, d, Changes(rest));
      }
      assert final.log[..|b.log|] == final.log[..|next.log|][..|b.log|];
    }
  }

  // ---------------------------------------------------------------------
  // The breaker object
  // ---------------------------------------------------------------------

  class BreakerBase {
    /** Recovery timeout in milliseconds: how long the breaker stays Open before a probe. */
    const retryTimeout: u32
    /** The time from which a probe may be attempted. */
    var nextRetry: nat
    var state: State
    /** Every callback issued to a listener so far, in order. */
    var log: seq<Notice>

    function View(): Base
      reads this
    {
      Base(state, nextRetry, log)
    }

    constructor (retryTimeout: u32)
      ensures this.retryTimeout == retryTimeout
      ensures state == DefaultState() && nextRetry == 0 && log == []
    {
      this.retryTimeout := retryTimeout;
      nextRetry := 0;
      state := DefaultState();
      log := [];
    }

    method CurrentState() returns (s: State)
      ensures s == state
    {
      s := state;
    }

    method RetryTimeoutArrived(now: nat) returns (arrived: bool)
      ensures arrived <==> now >= nextRetry
      ensures arrived == RetryDue(View(), now)
    {
      arrived := now >= nextRetry;
    }

    method UpdateNextRetryTimestamp(now: nat)
      modifies this`nextRetry
      ensures nextRetry == now + retryTimeout as nat
    {
      nextRetry := now + retryTimeout as nat;
    }

    /** Issues `change` to every listener, in registration order. */
    method Notify(listeners: seq<ListenerId>, change: Change)
      modifies this`log
      ensures log == old(log) + Broadcast(listeners, change)
    {
      var i := 0;
      while i < |listeners|
        invariant 0 <= i <= |listeners|
        invariant log == old(log) + Broadcast(listeners[..i], change)
      {
        assert listeners[..i + 1][..i] == listeners[..i];
        log := log + [Notice(listeners[i], change)];
        i := i + 1;
      }
      assert listeners[..i] == listeners;
    }

    method FromClosedToOpen(now: nat, snapshot: Snapshot, listeners: seq<ListenerId>) returns (won: bool)
      modifies this`state, this`nextRetry, this`log
      ensures won <==> old(state) == Closed
      ensures won ==> state == Open && nextRetry == now + retryTimeout as nat
                      && log == old(log) + Broadcast(listeners, ToOpen(Closed, snapshot))
      ensures !won ==> state == old(state) && nextRetry == old(nextRetry) && log == old(log)
      ensures Outcome(won, View()) == Apply(old(View()), ClosedToOpen(now, snapshot), retryTimeout as nat, listeners)
    {
      if state == Closed {
        state := Open;
        UpdateNextRetryTimestamp(now);
        Notify(listeners, ToOpen(Closed, snapshot));
        won := true;
      } else {
        won := false;
      }
    }

    /**
      Moves an Open breaker to HalfOpen. When the caller's entry is present,
      a rollback hook is handed to it (`hookInstalled`); that hook is
      `OnExit`. Without an entry the transition still happens, unguarded.
    */
    method FromOpenToHalfOpen(hasEntry: bool, listeners: seq<ListenerId>) returns (won: bool, hookInstalled: bool)
      modifies this`state, this`log
      ensures won <==> old(state) == Open
      ensures hookInstalled <==> won && hasEntry
      ensures won ==> state == HalfOpen && log == old(log) + Broadcast(listeners, ToHalfOpen(Open))
      ensures !won ==> state == old(state) && log == old(log)
      ensures Outcome(won, View()) == Apply(old(View()), OpenToHalfOpen, retryTimeout as nat, listeners)
    {
      if state == Open {
        state := HalfOpen;
        Notify(listeners, ToHalfOpen(Open));
        hookInstalled := hasEntry;
        won := true;
      } else {
        won, hookInstalled := false, false;
      }
    }

    /**
      The rollback hook run when the probe's entry exits: a probe that was
      blocked elsewhere gives its slot back by returning a still-HalfOpen
      breaker to Open. The retry time is left as it was.
    */
    method OnExit(isBlocked: bool, listeners: seq<ListenerId>) returns (rolledBack: bool)
      modifies this`state, this`log
      ensures rolledBack <==> isBlocked && old(state) == HalfOpen
      ensures rolledBack ==> state == Open && log == old(log) + Broadcast(listeners, ToOpen(HalfOpen, Rollback))
      ensures !rolledBack ==> state == old(state) && log == old(log)
      ensures Outcome(rolledBack, View()) == Apply(old(View()), ProbeExit(isBlocked), retryTimeout as nat, listeners)
    {
      if isBlocked && state == HalfOpen {
        state := Open;
        Notify(listeners, ToOpen(HalfOpen, Rollback));
        rolledBack := true;
      } else {
        rolledBack := false;
      }
    }

    method FromHalfOpenToOpen(now: nat, snapshot: Snapshot, listeners: seq<ListenerId>) returns (won: bool)
      modifies this`state, this`nextRetry, this`log
      ensures won <==> old(state) == HalfOpen
      ensures won ==> state == Open && nextRetry == now + retryTimeout as nat
                      && log == old(log) + Broadcast(listeners, ToOpen(HalfOpen, snapshot))
      ensures !won ==> state == old(state) && nextRetry == old(nextRetry) && log == old(log)
      ensures Outcome(won, View()) == Apply(old(View()), HalfOpenToOpen(now, snapshot), retryTimeout as nat, listeners)
    {
      if state == HalfOpen {
        state := Open;
        UpdateNextRetryTimestamp(now);
        Notify(listeners, ToOpen(HalfOpen, snapshot));
        won := true;
      } else {
        won := false;
      }
    }

    method FromHalfOpenToClosed(listeners: seq<ListenerId>) returns (won: bool)
      modifies this`state, this`log
      ensures won <==> old(state) == HalfOpen
      ensures won ==> state == Closed && log == old(log) + Broadcast(listeners, ToClosed(HalfOpen))
      ensures !won ==> state == old(state) && log == old(log)
      ensures Outcome(won, View()) == Apply(old(View()), HalfOpenToClosed, retryTimeout as nat, listeners)
    {
      if state == HalfOpen {
        state := Closed;
        Notify(listeners, ToClosed(HalfOpen));
        won := true;
      } else {
        won := false;
      }
    }
  }
}
