/** The per-stage circuit breaker, the value it hands out while degraded, and its
    save/load cycle through a snapshot that drops the failure count. */
module Breakers {
  import opened Wrappers

  datatype CircuitState = Closed | Open | HalfOpen

  /** The three mutable fields of a breaker, as one value. */
  datatype Fields = Fields(mode: CircuitState, failures: int, openedAt: Option<real>)

  const FRESH := Fields(Closed, 0, None)
  const DEFAULT_THRESHOLD: int := 3
  const DEFAULT_TIMEOUT: real := 60.0

  /** What a caller sees at clock reading `now`: an open breaker whose cooldown is
      over reads as half open, without being changed. */
  function StateAt(f: Fields, timeout: real, now: real): CircuitState {
    if f.mode == Open && f.openedAt.Some? && now - f.openedAt.value >= timeout
    then HalfOpen else f.mode
  }

  datatype Settings = Settings(threshold: int, timeout: real)

  /** One reported outcome. A failure reads the clock up to twice: once to see
      whether it was a probe, once to stamp the new cooldown. */
  datatype Outcome = Success | Failure(probedAt: real, stampedAt: real)

  function AfterFailure(f: Fields, s: Settings, probedAt: real, stampedAt: real): Fields {
    if StateAt(f, s.timeout, probedAt) == HalfOpen then
      f.(mode := Open, openedAt := Some(stampedAt))
    else if f.failures + 1 >= s.threshold then
      Fields(Open, f.failures + 1, Some(stampedAt))
    else
      f.(failures := f.failures + 1)
  }

  function AfterOutcome(f: Fields, s: Settings, o: Outcome): Fields {
    match o
    case Success => FRESH
    case Failure(probedAt, stampedAt) => AfterFailure(f, s, probedAt, stampedAt)
  }

  /** A whole history of outcomes, oldest first. */
  function AfterAll(s: Settings, h: seq<Outcome>): Fields {
    if h == [] then FRESH
    else AfterOutcome(AfterAll(s, h[..|h| - 1]), s, h[|h| - 1])
  }

  class CircuitBreaker {
    const name: string
    const settings: Settings
    var mode: CircuitState
    var failureCount: int
    var openedAt: Option<real>

    function View(): Fields
      reads this
    {
      Fields(mode, failureCount, openedAt)
    }

    constructor (name: string, settings: Settings)
      ensures this.name == name && this.settings == settings
      ensures View() == FRESH
    {
      this.name := name;
      this.settings := settings;
      mode, failureCount, openedAt := Closed, 0, None;
    }

    method State(now: real) returns (r: CircuitState)
      ensures r == StateAt(View(), settings.timeout, now)
    {
      var cooldownElapsed := false;
      if openedAt.Some? {
        cooldownElapsed := now - openedAt.value >= settings.timeout;
      }
      if mode == Open && cooldownElapsed {
        return HalfOpen;
      }
      return mode;
    }

    method IsOpen(now: real) returns (r: bool)
      ensures r <==> StateAt(View(), settings.timeout, now) == Open
    {
      var s := State(now);
      return s == Open;
    }

    method RecordSuccess()
      modifies this
      ensures View() == AfterOutcome(old(View()), settings, Success)
    {
      mode := Closed;
      failureCount := 0;
      openedAt := None;
    }

    method RecordFailure(probedAt: real, stampedAt: real)
      modifies this
      ensures View() == AfterOutcome(old(View()), settings, Failure(probedAt, stampedAt))
    {
      var s := State(probedAt);
      if s == HalfOpen {
        mode := Open;
        openedAt := Some(stampedAt);
        return;
      }
      failureCount := failureCount + 1;
      if failureCount >= settings.threshold {
        mode := Open;
        openedAt := Some(stampedAt);
      }
    }
  }

  /** Pairs a breaker with the value to use and the value to degrade to. */
  class DegradingBreaker<T> {
    const breaker: CircuitBreaker
    const primary: T
    const fallback: T

    constructor (breaker: CircuitBreaker, primary: T, fallback: T)
      ensures this.breaker == breaker && this.primary == primary && this.fallback == fallback
    {
      this.breaker := breaker;
      this.primary := primary;
      this.fallback := fallback;
    }

    method Current(now: real) returns (r: T)
      ensures r == if StateAt(breaker.View(), breaker.settings.timeout, now) == Open
                   then fallback else primary
    {
      var open := breaker.IsOpen(now);
      if open {
        return fallback;
      }
      return primary;
    }
  }

  // ---------------------------------------------------------------- closed form

  /** Failures since the last success. */
  function TrailingFailures(h: seq<Outcome>): nat {
    if h == [] || h[|h| - 1].Success? then 0
    else 1 + TrailingFailures(h[..|h| - 1])
  }

  /** The state a history amounts to, with no reference to the machine: a threshold
      below one acts like one, and the cooldown runs from the last failure. */
  function Verdict(s: Settings, h: seq<Outcome>, now: real): CircuitState {
    if TrailingFailures(h) < Max(1, s.threshold) then Closed
    else if now - h[|h| - 1].stampedAt >= s.timeout then HalfOpen
    else Open
  }

  lemma {:induction false} FieldsOfHistory(s: Settings, h: seq<Outcome>)
    ensures var f := AfterAll(s, h);
            if TrailingFailures(h) < Max(1, s.threshold)
            then f == Fields(Closed, TrailingFailures(h), None)
            else h[|h| - 1].Failure? && f.mode == Open
                 && f.openedAt == Some(h[|h| - 1].stampedAt) && f.failures >= Max(1, s.threshold)
  {
    if h != [] {
      FieldsOfHistory(s, h[..|h| - 1]);
    }
  }

  /** For every history, every threshold, every timeout and every reading of the
      clock, the mutable breaker reads as the closed form says. */
  lemma ClosedForm(s: Settings, h: seq<Outcome>, now: real)
    ensures StateAt(AfterAll(s, h), s.timeout, now) == Verdict(s, h, now)
  {
    FieldsOfHistory(s, h);
  }

  // ---------------------------------------------------------------- save and load

  datatype Snapshot = Snapshot(state: CircuitState, settings: Settings)

  function SnapshotOf(f: Fields, s: Settings, now: real): Snapshot {
    Snapshot(StateAt(f, s.timeout, now), s)
  }

  /** The fields of a breaker rebuilt from a snapshot, when the last failure it is
      driven through is stamped at `restoredAt`. */
  function Restored(snap: Snapshot, restoredAt: real): Fields {
    if snap.state == Closed || snap.settings.threshold < 1 then FRESH
    else Fields(Open, snap.settings.threshold, Some(restoredAt))
  }

  method TakeSnapshot(b: CircuitBreaker, now: real) returns (snap: Snapshot)
    ensures snap == SnapshotOf(b.View(), b.settings, now)
  {
    var s := b.State(now);
    snap := Snapshot(s, b.settings);
  }

  /** Rebuilds a breaker through its public operations only. `clock(i)` is the i-th
      reading the rebuild takes. */
  method RestoreBreaker(name: string, snap: Snapshot, clock: nat -> real)
    returns (b: CircuitBreaker)
    ensures fresh(b) && b.name == name && b.settings == snap.settings
    ensures b.View() == Restored(snap, clock(2 * Max(1, snap.settings.threshold) - 1))
  {
    b := new CircuitBreaker(name, snap.settings);
    if snap.state != Closed {
      var i := 0;
      while i < snap.settings.threshold
        invariant 0 <= i <= Max(0, snap.settings.threshold)
        invariant b.settings == snap.settings && fresh(b) && b.name == name
        invariant b.View() == if 0 < i == snap.settings.threshold
                              then Fields(Open, i, Some(clock(2 * i - 1)))
                              else Fields(Closed, i, None)
      {
        b.RecordFailure(clock(2 * i), clock(2 * i + 1));
        i := i + 1;
      }
    }
  }

  /** A life with reloads: an outcome is reported, or the process saves the breaker
      at `savedAt` and a later one rebuilds it at `restoredAt`. */
  datatype Happening = Reported(outcome: Outcome) | Reload(savedAt: real, restoredAt: real)

  function Live(f: Fields, s: Settings, h: seq<Happening>): Fields {
    if h == [] then f
    else
      var g := Live(f, s, h[..|h| - 1]);
      match h[|h| - 1]
      case Reported(o) => AfterOutcome(g, s, o)
      case Reload(savedAt, restoredAt) => Restored(SnapshotOf(g, s, savedAt), restoredAt)
  }

  /** Failures still remembered: a success forgets them, and so does a reload of a
      breaker that has not tripped. */
  function Remembered(s: Settings, h: seq<Happening>): nat {
    if h == [] then 0
    else
      var r := Remembered(s, h[..|h| - 1]);
      match h[|h| - 1]
      case Reported(Success) => 0
      case Reported(Failure(_, _)) => r + 1
      case Reload(_, _) => if r >= s.threshold then r else 0
  }

  /** When the running cooldown began: the last failure or reload. */
  function LastMark(h: seq<Happening>): real {
    if h == [] then 0.0
    else match h[|h| - 1]
      case Reported(Success) => 0.0
      case Reported(Failure(_, stampedAt)) => stampedAt
      case Reload(_, restoredAt) => restoredAt
  }

  lemma {:induction false} FieldsOfLife(s: Settings, h: seq<Happening>)
    requires s.threshold >= 1
    ensures var f := Live(FRESH, s, h);
            if Remembered(s, h) < s.threshold then f == Fields(Closed, Remembered(s, h), None)
            else h != [] && f.mode == Open && f.openedAt == Some(LastMark(h)) && f.failures >= s.threshold
  {
    if h != [] {
      FieldsOfLife(s, h[..|h| - 1]);
    }
  }

  /** The closed form survives any number of save/load cycles, with remembered
      failures in place of trailing ones: a closed breaker forgets on reload, a
      tripped one restarts its cooldown. */
  lemma ClosedFormWithReloads(s: Settings, h: seq<Happening>, now: real)
    requires s.threshold >= 1
    ensures StateAt(Live(FRESH, s, h), s.timeout, now) ==
            if Remembered(s, h) < s.threshold then Closed
            else if now - LastMark(h) >= s.timeout then HalfOpen
            else Open
  {
    FieldsOfLife(s, h);
  }

  predicate NoSuccess(h: seq<Happening>) {
    forall i :: 0 <= i < |h| ==> h[i] != Reported(Success)
  }

  /** A breaker that is not closed stays so, through any failures and any number of
      save/load cycles, until a success is recorded. */
  lemma {:induction false} NeverSilentlyCloses(f: Fields, s: Settings, h: seq<Happening>)
    requires s.threshold >= 1
    requires f.mode == Open && f.failures >= s.threshold
    requires NoSuccess(h)
    ensures var g := Live(f, s, h); g.mode == Open && g.failures >= s.threshold
    ensures forall now: real :: StateAt(Live(f, s, h), s.timeout, now) != Closed
  {
    if h != [] {
      var h' := h[..|h| - 1];
      assert NoSuccess(h');
      NeverSilentlyCloses(f, s, h');
      assert h[|h| - 1] != Reported(Success);
    }
  }

  /** The reload keeps a tripped breaker tripped exactly when the threshold is at
      least one: below that the rebuild records no failure at all. */
  lemma ReloadKeepsTripped(f: Fields, s: Settings, savedAt: real, restoredAt: real)
    requires StateAt(f, s.timeout, savedAt) != Closed
    ensures (forall now: real ::
              StateAt(Restored(SnapshotOf(f, s, savedAt), restoredAt), s.timeout, now) != Closed)
            <==> s.threshold >= 1
  {
    if s.threshold < 1 {
      assert StateAt(Restored(SnapshotOf(f, s, savedAt), restoredAt), s.timeout, 0.0) == Closed;
    }
  }

  /** With a threshold of zero: one failure opens the breaker, and a reload a second later
      closes it. */
  lemma ReloadCloses() returns (s: Settings, h: seq<Outcome>)
    ensures StateAt(AfterAll(s, h), s.timeout, 1.0) == Open
    ensures StateAt(Restored(SnapshotOf(AfterAll(s, h), s, 1.0), 1.0), s.timeout, 1.0) == Closed
  {
    s, h := Settings(0, 60.0), [Failure(0.0, 0.0)];
    assert AfterAll(s, h[..0]) == FRESH;
  }

  /** Reloads only, each restored no earlier than the breaker opened. */
  ghost predicate OnlyReloadsAfter(h: seq<Happening>, t: real) {
    forall i :: 0 <= i < |h| ==> h[i].Reload? && h[i].restoredAt >= t
  }

  /** With no further calls, a reloaded breaker lets a probe through only at times
      when the original would have, too. */
  lemma {:induction false} ReloadIsConservative(f: Fields, s: Settings, h: seq<Happening>, now: real)
    requires s.threshold >= 1
    requires f.mode == Open && f.openedAt.Some?
    requires OnlyReloadsAfter(h, f.openedAt.value)
    ensures var g := Live(f, s, h);
            g.mode == Open && g.openedAt.Some? && g.openedAt.value >= f.openedAt.value
    ensures StateAt(Live(f, s, h), s.timeout, now) == HalfOpen
            ==> StateAt(f, s.timeout, now) == HalfOpen
  {
    if h != [] {
      var h' := h[..|h| - 1];
      assert OnlyReloadsAfter(h', f.openedAt.value);
      ReloadIsConservative(f, s, h', now);
      assert h[|h| - 1].Reload?;
    }
  }
}
