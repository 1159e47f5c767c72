/** The health state machine of a path (crates/polywan/src/health.rs,
    FR-HEALTH-1 to FR-HEALTH-4). */
module Health {
  import opened Model

  datatype Level = Down | Up

  datatype Reason = ProbeFailed | Degraded | Lost(cause: nat) | ProbesRecovered | Startup

  datatype Outcome = Passed | Failed | PoorQuality

  datatype Transition = Transition(from: Level, to: Level, reason: Reason)

  /** Counters and thresholds are bytes. */
  type Byte = x: nat | x < 256

  datatype Hysteresis = Hysteresis(fall: Byte, rise: Byte)

  datatype Snapshot = Snapshot(level: Level, passes: Byte, failures: Byte)

  datatype Machine = Machine(level: Level, reason: Reason, passes: Byte, failures: Byte, optimistic: bool, ready: bool)

  function Increment(n: Byte): Byte { if n == 255 then 255 else n + 1 }

  function FailureReason(o: Outcome): Reason { if o == PoorQuality then Degraded else ProbeFailed }

  /** A path that is not ready starts down; a checkpoint is resumed; a cold start
      is optimistic. */
  function Start(ready: bool, notReady: Reason, warm: Option<Snapshot>): Machine
  {
    if !ready then Machine(Down, notReady, 0, 0, false, false)
    else match warm
         case Some(s) => Machine(s.level, Startup, s.passes, s.failures, false, true)
         case None => Machine(Up, Startup, 0, 0, true, true)
  }

  function Go(m: Machine, to: Level, reason: Reason): (Machine, Option<Transition>)
  {
    (m.(level := to, reason := reason), if m.level == to then None else Some(Transition(m.level, to, reason)))
  }

  function SetReady(m: Machine, ready: bool, reason: Reason): (Machine, Option<Transition>)
  {
    if ready == m.ready then (m, None)
    else
      var n := m.(ready := ready, passes := 0, failures := 0, optimistic := false);
      if ready then (n, None) else Go(n, Down, reason)
  }

  function Round(m: Machine, o: Outcome, h: Hysteresis): (Machine, Option<Transition>)
  {
    if !m.ready then (m, None)
    else if m.optimistic then
      if o == Passed then (m.(optimistic := false, passes := 1), None)
      else Go(m.(optimistic := false, failures := 1), Down, FailureReason(o))
    else if o == Passed then
      var n := m.(failures := 0, passes := Increment(m.passes));
      if n.level == Down && n.passes >= h.rise then Go(n, Up, ProbesRecovered) else (n, None)
    else
      var n := m.(passes := 0, failures := Increment(m.failures));
      if n.level == Up && n.failures >= h.fall then Go(n, Down, FailureReason(o)) else (n, None)
  }

  // ------------------------------------------------------------------- traces

  datatype Event = Readiness(ready: bool, reason: Reason) | Completed(outcome: Outcome, h: Hysteresis)

  function Apply(m: Machine, e: Event): (Machine, Option<Transition>)
  {
    match e case Readiness(r, why) => SetReady(m, r, why) case Completed(o, h) => Round(m, o, h)
  }

  /** The machine after a history. */
  function After(m: Machine, es: seq<Event>): Machine
  {
    if es == [] then m else Apply(After(m, es[..|es| - 1]), es[|es| - 1]).0
  }

  /** Passed rounds since the last other round or change of readiness, those
      carried by a checkpoint included. */
  function PassStreak(m: Machine, es: seq<Event>): nat
  {
    if es == [] then m.passes
    else
      var init, e := es[..|es| - 1], es[|es| - 1];
      var ready := After(m, init).ready;
      match e
      case Readiness(r, _) => if r == ready then PassStreak(m, init) else 0
      case Completed(o, _) =>
        if !ready then PassStreak(m, init) else if o == Passed then PassStreak(m, init) + 1 else 0
  }

  /** Rounds that did not pass, likewise. */
  function FailStreak(m: Machine, es: seq<Event>): nat
  {
    if es == [] then m.failures
    else
      var init, e := es[..|es| - 1], es[|es| - 1];
      var ready := After(m, init).ready;
      match e
      case Readiness(r, _) => if r == ready then FailStreak(m, init) else 0
      case Completed(o, _) =>
        if !ready then FailStreak(m, init) else if o == Passed then 0 else FailStreak(m, init) + 1
  }

  /** Whether the next round is the first of a cold start. */
  predicate Cold(m: Machine, es: seq<Event>) { After(m, es).optimistic }

  ghost predicate Started(m: Machine) { exists ready, notReady, warm :: m == Start(ready, notReady, warm) }

  function Saturated(n: nat): Byte { if n > 255 then 255 else n }

  /** The machine `n` with streaks `p` and `f`. */
  predicate Matches(n: Machine, p: nat, f: nat)
  {
    && n.passes == Saturated(p) && n.failures == Saturated(f)
    && (!n.ready ==> n.level == Down && !n.optimistic)
    && (n.optimistic ==> p == 0 && f == 0 && n.level == Up)
  }

  lemma RoundMatches(n: Machine, p: nat, f: nat, o: Outcome, h: Hysteresis)
    requires Matches(n, p, f)
    ensures Matches(Round(n, o, h).0,
                    if !n.ready then p else if o == Passed then p + 1 else 0,
                    if !n.ready then f else if o == Passed then 0 else f + 1)
  {
  }

  lemma ReadinessMatches(n: Machine, p: nat, f: nat, ready: bool, why: Reason)
    requires Matches(n, p, f)
    ensures Matches(SetReady(n, ready, why).0, if ready == n.ready then p else 0, if ready == n.ready then f else 0)
  {
  }

  /** The counters are the streaks, saturated; a path that is not ready is down. */
  lemma {:induction false} CountersAreStreaks(m: Machine, es: seq<Event>)
    requires Started(m)
    ensures Matches(After(m, es), PassStreak(m, es), FailStreak(m, es))
    decreases |es|
  {
    if es != [] {
      hide Matches, Round, SetReady;
      var init, e := es[..|es| - 1], es[|es| - 1];
      CountersAreStreaks(m, init);
      match e
      case Readiness(r, why) =>
        ReadinessMatches(After(m, init), PassStreak(m, init), FailStreak(m, init), r, why);
      case Completed(o, h) =>
        RoundMatches(After(m, init), PassStreak(m, init), FailStreak(m, init), o, h);
    }
  }

  /** What a completed round does to a ready path, in terms of its history: a
      fall needs `fall` consecutive rounds that did not pass (or one, the first
      of a cold start), a rise needs `rise` consecutive passed ones; saturation
      of the counters makes no difference. */
  lemma RoundIff(m: Machine, es: seq<Event>, o: Outcome, h: Hysteresis)
    requires Started(m)
    ensures var n, all := After(m, es), es + [Completed(o, h)];
            var t := Round(n, o, h).1;
            && (t == Some(Transition(Up, Down, FailureReason(o)))
                <==> n.ready && n.level == Up && o != Passed && (Cold(m, es) || FailStreak(m, all) >= h.fall))
            && (t == Some(Transition(Down, Up, ProbesRecovered))
                <==> n.ready && n.level == Down && o == Passed && PassStreak(m, all) >= h.rise)
            && (t.Some? ==> t.value.from != t.value.to && t.value.from == n.level)
  {
    CountersAreStreaks(m, es);
    var all := es + [Completed(o, h)];
    assert all[..|all| - 1] == es;
  }

  /** Losing readiness takes the path down at once; gaining it changes nothing
      yet and starts the streaks afresh. */
  lemma ReadinessIff(m: Machine, es: seq<Event>, ready: bool, why: Reason)
    requires Started(m)
    ensures var n, all := After(m, es), es + [Readiness(ready, why)];
            var t := SetReady(n, ready, why).1;
            && (t.Some? <==> n.ready && !ready && n.level == Up)
            && (t.Some? ==> t.value == Transition(Up, Down, why))
            && (!ready ==> After(m, all).level == Down)
            && (ready && !n.ready ==> After(m, all).level == Down && PassStreak(m, all) == 0 && !Cold(m, all))
  {
    CountersAreStreaks(m, es);
    var all := es + [Readiness(ready, why)];
    assert all[..|all| - 1] == es;
  }

  /** The transitions reported along a history. */
  function Reported(m: Machine, es: seq<Event>): seq<Transition>
  {
    if es == [] then []
    else
      var init, e := es[..|es| - 1], es[|es| - 1];
      var t := Apply(After(m, init), e).1;
      Reported(m, init) + (if t.Some? then [t.value] else [])
  }

  /** Reported transitions alternate, starting from the first level and ending at
      the present one: none is missed and none is reported twice. */
  lemma {:induction false} TransitionsAlternate(m: Machine, es: seq<Event>)
    ensures var ts := Reported(m, es);
            && (forall i :: 0 <= i < |ts| ==> ts[i].from != ts[i].to)
            && (forall i :: 0 < i < |ts| ==> ts[i].from == ts[i - 1].to)
            && (ts != [] ==> ts[0].from == m.level)
            && After(m, es).level == if ts == [] then m.level else ts[|ts| - 1].to
    decreases |es|
  {
    if es != [] {
      var init, e := es[..|es| - 1], es[|es| - 1];
      TransitionsAlternate(m, init);
      OneTransition(After(m, init), e);
      hide Apply;
    }
  }

  lemma OneTransition(m: Machine, e: Event)
    ensures var (n, t) := Apply(m, e);
            && (t.None? ==> n.level == m.level)
            && (t.Some? ==> t.value.from == m.level && t.value.to == n.level && t.value.from != t.value.to)
  {
  }

  // ------------------------------------------------------------------ a path

  /** The machine in place, with the history that led to its state. */
  class Path {
    var level: Level
    var reason: Reason
    var passes: Byte
    var failures: Byte
    var optimistic: bool
    var ready: bool
    ghost const start: Machine
    ghost var history: seq<Event>

    function Now(): Machine
      reads this
    {
      Machine(level, reason, passes, failures, optimistic, ready)
    }

    ghost predicate Valid()
      reads this
    {
      Started(start) && Now() == After(start, history)
    }

    constructor (isReady: bool, notReady: Reason, warm: Option<Snapshot>)
      ensures Now() == Start(isReady, notReady, warm) && start == Now() && history == [] && Valid()
      ensures !ready ==> level == Down
    {
      passes, failures, optimistic, ready := 0, 0, false, isReady;
      if !isReady {
        level, reason := Down, notReady;
      } else if warm.Some? {
        level, reason := warm.value.level, Startup;
        passes, failures := warm.value.passes, warm.value.failures;
      } else {
        level, reason, optimistic := Up, Startup, true;
      }
      start := Start(isReady, notReady, warm);
      history := [];
    }

    /** A transition is reported if and only if the level changes. */
    method Move(to: Level, why: Reason) returns (t: Option<Transition>)
      modifies this`level, this`reason
      ensures level == to && reason == why
      ensures t == if old(level) == to then None else Some(Transition(old(level), to, why))
    {
      reason := why;
      if level == to {
        return None;
      }
      var from := level;
      level := to;
      t := Some(Transition(from, to, why));
    }

    /** Losing readiness takes the path down at once; a transition is reported if
        and only if the level changed; gained readiness starts afresh. */
    method ChangeReady(isReady: bool, why: Reason) returns (t: Option<Transition>)
      requires Valid()
      modifies this
      ensures Valid() && history == old(history) + [Readiness(isReady, why)] && ready == isReady
      ensures (t.Some? <==> level != old(level)) && (!ready ==> level == Down)
      ensures t.Some? ==> t.value == Transition(Up, Down, why) && old(ready) && !isReady
      ensures isReady && !old(ready) ==> level == Down && PassStreak(start, history) == 0 && !optimistic
    {
      ghost var before := history;
      ReadinessIff(start, before, isReady, why);
      CountersAreStreaks(start, before);
      AfterOne(start, before, Readiness(isReady, why));
      history := history + [Readiness(isReady, why)];
      hide After, PassStreak, FailStreak;
      t := Switch(isReady, why);
    }

    method Switch(isReady: bool, why: Reason) returns (t: Option<Transition>)
      modifies this`level, this`reason, this`passes, this`failures, this`optimistic, this`ready
      ensures (Now(), t) == SetReady(old(Now()), isReady, why)
    {
      if isReady == ready {
        return None;
      }
      ready := isReady;
      passes, failures, optimistic := 0, 0, false;
      if isReady {
        t := None;
      } else {
        t := Move(Down, why);
      }
    }

    /** A round takes a ready path down after `fall` rounds in a row that did not
        pass, or at the first round of a cold start, and up after `rise` passed
        ones in a row; otherwise nothing is reported. */
    method CompleteRound(o: Outcome, h: Hysteresis) returns (t: Option<Transition>)
      requires Valid()
      modifies this
      ensures Valid() && history == old(history) + [Completed(o, h)] && ready == old(ready)
      ensures (t.Some? <==> level != old(level)) && (!ready ==> level == Down)
      ensures level == Down && old(level) == Up
         <==> ready && old(level) == Up && o != Passed && (old(optimistic) || FailStreak(start, history) >= h.fall)
      ensures level == Up && old(level) == Down
         <==> ready && old(level) == Down && o == Passed && PassStreak(start, history) >= h.rise
      ensures t.Some? ==>
                t.value == Transition(old(level), level, if level == Up then ProbesRecovered else FailureReason(o))
    {
      ghost var before := history;
      RoundIff(start, before, o, h);
      CountersAreStreaks(start, before);
      AfterOne(start, before, Completed(o, h));
      history := history + [Completed(o, h)];
      hide After, PassStreak, FailStreak;
      t := Judge(o, h);
    }

    method Judge(o: Outcome, h: Hysteresis) returns (t: Option<Transition>)
      modifies this`level, this`reason, this`passes, this`failures, this`optimistic
      ensures (Now(), t) == Round(old(Now()), o, h)
    {
      t := None;
      if !ready {
        return;
      }
      if optimistic {
        optimistic := false;
        if o == Passed {
          passes := 1;
        } else {
          failures := 1;
          t := Move(Down, FailureReason(o));
        }
        return;
      }
      if o == Passed {
        failures := 0;
        passes := Increment(passes);
        if level == Down && passes >= h.rise {
          t := Move(Up, ProbesRecovered);
        }
      } else {
        passes := 0;
        failures := Increment(failures);
        if level == Up && failures >= h.fall {
          t := Move(Down, FailureReason(o));
        }
      }
    }
  }

  lemma AfterOne(m: Machine, es: seq<Event>, e: Event)
    ensures After(m, es + [e]) == Apply(After(m, es), e).0
  {
    assert (es + [e])[..|es + [e]| - 1] == es;
  }
}
