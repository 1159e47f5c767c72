/** The rolling-hour admission of messages (`Admission::admit` in
    crates/polywan/src/mail.rs, FR-MAIL-2). */
module Admission {
  import opened Model

  /** Times are on one clock; `hour` is the length of the window. */
  datatype Decision = Yes(suppressed: nat) | No(notice: bool)

  /** Elapsed time, which never is negative. */
  function Since(now: int, t: int): nat { if now < t then 0 else now - t }

  /** The admissions of the last hour. */
  function Recent(admitted: seq<int>, now: int, hour: nat): seq<int>
  {
    if admitted != [] && Since(now, admitted[0]) >= hour then Recent(admitted[1..], now, hour) else admitted
  }

  datatype State = State(admitted: seq<int>, notice: Option<int>, suppressed: nat)

  function After(s: State, now: int, max: nat, hour: nat): (State, Decision)
  {
    var recent := Recent(s.admitted, now, hour);
    if |recent| < max then (State(recent + [now], s.notice, 0), Yes(s.suppressed))
    else
      var notice := s.notice.None? || Since(now, s.notice.value) >= hour;
      (State(recent, if notice then Some(now) else s.notice, s.suppressed + 1), No(notice))
  }

  class Gate {
    var admitted: seq<int>
    var notice: Option<int>
    var suppressed: nat

    function Now(): State
      reads this
    {
      State(admitted, notice, suppressed)
    }

    constructor ()
      ensures Now() == State([], None, 0)
    {
      admitted, notice, suppressed := [], None, 0;
    }

    method Admit(now: int, max: nat, hour: nat) returns (d: Decision)
      modifies this
      ensures (Now(), d) == After(old(Now()), now, max, hour)
    {
      while admitted != [] && Since(now, admitted[0]) >= hour
        invariant Recent(admitted, now, hour) == Recent(old(admitted), now, hour)
        invariant notice == old(notice) && suppressed == old(suppressed)
        decreases |admitted|
      {
        admitted := admitted[1..];
      }
      if |admitted| < max {
        admitted := admitted + [now];
        d := Yes(suppressed);
        suppressed := 0;
        return;
      }
      suppressed := suppressed + 1;
      var due := notice.None? || Since(now, notice.value) >= hour;
      if due {
        notice := Some(now);
      }
      d := No(due);
    }
  }

  // ---------------------------------------------------------------- histories

  /** All admissions and all notices so far, the suppressions made and those
      already reported. */
  datatype Log = Log(state: State, last: int, admissions: seq<int>, notices: seq<int>, made: nat, reported: nat)

  function Record(g: Log, now: int, max: nat, hour: nat): Log
  {
    var (s, d) := After(g.state, now, max, hour);
    match d
    case Yes(n) => g.(state := s, last := now, admissions := g.admissions + [now], reported := g.reported + n)
    case No(notice) =>
      g.(state := s, last := now, notices := if notice then g.notices + [now] else g.notices, made := g.made + 1)
  }

  /** Any `max` + 1 admissions span at least an hour. */
  ghost predicate Spread(v: seq<int>, max: nat, hour: nat)
  {
    forall i :: 0 <= i && i + max < |v| ==> v[i + max] - v[i] >= hour
  }

  predicate Ascending(v: seq<int>) { forall i, j :: 0 <= i <= j < |v| ==> v[i] <= v[j] }

  /** The deque is the end of the history, and what left it is an hour old. */
  ghost predicate Window(v: seq<int>, deque: seq<int>, last: int, max: nat, hour: nat)
  {
    && |deque| <= |v| && deque == v[|v| - |deque|..] && |deque| <= max
    && (forall i :: 0 <= i < |v| - |deque| ==> v[i] + hour <= last)
    && (forall i :: 0 <= i < |v| ==> v[i] <= last)
    && Ascending(v) && Spread(v, max, hour)
  }

  ghost predicate Notices(g: Log, hour: nat)
  {
    && (forall i :: 0 < i < |g.notices| ==> g.notices[i] - g.notices[i - 1] >= hour)
    && g.state.notice == (if g.notices == [] then None else Some(g.notices[|g.notices| - 1]))
    && (g.notices != [] ==> g.notices[|g.notices| - 1] <= g.last)
  }

  ghost predicate Inv(g: Log, max: nat, hour: nat)
  {
    && Window(g.admissions, g.state.admitted, g.last, max, hour) && Notices(g, hour)
    && g.made == g.reported + g.state.suppressed
  }

  lemma {:induction false} RecentIs(admitted: seq<int>, now: int, hour: nat) returns (k: nat)
    requires Ascending(admitted)
    ensures k <= |admitted| && Recent(admitted, now, hour) == admitted[k..]
    ensures forall i :: 0 <= i < k ==> Since(now, admitted[i]) >= hour
    decreases |admitted|
  {
    if admitted != [] && Since(now, admitted[0]) >= hour {
      var rest := admitted[1..];
      assert forall i, j :: 0 <= i <= j < |rest| ==> rest[i] <= rest[j] by {
        assert forall i :: 0 <= i < |rest| ==> rest[i] == admitted[i + 1];
      }
      k := RecentIs(rest, now, hour);
      assert rest[k..] == admitted[k + 1..];
      assert forall i :: 0 < i < k + 1 ==> admitted[i] == rest[i - 1];
      k := k + 1;
    } else {
      k := 0;
    }
  }

  lemma SpreadGrows(v: seq<int>, now: int, max: nat, hour: nat)
    requires Spread(v, max, hour) && (|v| >= max ==> max > 0 && v[|v| - max] + hour <= now)
    ensures Spread(v + [now], max, hour)
  {
    var w := v + [now];
    forall i | 0 <= i && i + max < |w| ensures w[i + max] - w[i] >= hour {
      if i + max < |v| { assert w[i + max] == v[i + max] && w[i] == v[i]; }
    }
  }

  /** Nothing happened yet, or the clock did not go back. */
  predicate Later(g: Log, now: int) { now >= g.last || (g.admissions == [] && g.notices == []) }

  lemma WindowLater(v: seq<int>, deque: seq<int>, last: int, now: int, max: nat, hour: nat)
    requires Window(v, deque, last, max, hour) && (now >= last || v == []) && hour > 0
    ensures Window(v, Recent(deque, now, hour), now, max, hour)
  {
    var k := |v| - |deque|;
    SliceAscending(v, k);
    var j := RecentIs(deque, now, hour);
    hide Recent, Spread;
    assert deque[j..] == v[k + j..];
    forall i | 0 <= i < k + j ensures v[i] + hour <= now {
      if i >= k { assert v[i] == deque[i - k]; }
    }
  }

  lemma WindowAdmits(v: seq<int>, deque: seq<int>, now: int, max: nat, hour: nat)
    requires Window(v, deque, now, max, hour) && |deque| < max
    ensures Window(v + [now], deque + [now], now, max, hour)
  {
    hide Spread;
    SpreadGrows(v, now, max, hour);
    var k := |v| - |deque|;
    assert (v + [now])[k..] == v[k..] + [now];
  }

  lemma SliceAscending(v: seq<int>, k: nat)
    requires Ascending(v) && k <= |v|
    ensures Ascending(v[k..])
  {
  }

  lemma RecordKeeps(g: Log, now: int, max: nat, hour: nat)
    requires Inv(g, max, hour) && hour > 0 && Later(g, now)
    ensures Inv(Record(g, now, max, hour), max, hour)
  {
    hide Window, Recent;
    WindowLater(g.admissions, g.state.admitted, g.last, now, max, hour);
    var recent := Recent(g.state.admitted, now, hour);
    if |recent| < max { WindowAdmits(g.admissions, recent, now, max, hour); }
  }

  /** The log after calls at the given times. */
  function Run(times: seq<int>, max: nat, hour: nat): Log
  {
    if times == [] then Log(State([], None, 0), 0, [], [], 0, 0)
    else Record(Run(times[..|times| - 1], max, hour), times[|times| - 1], max, hour)
  }

  lemma {:induction false} RunKeeps(times: seq<int>, max: nat, hour: nat)
    requires hour > 0 && Ascending(times)
    ensures Inv(Run(times, max, hour), max, hour)
    ensures times != [] ==> Run(times, max, hour).last == times[|times| - 1]
    ensures times == [] ==> Run(times, max, hour).admissions == [] && Run(times, max, hour).notices == []
    decreases |times|
  {
    hide Record, Inv;
    if times == [] {
      StartInv(max, hour);
    } else {
      var n := |times| - 1;
      RunKeeps(times[..n], max, hour);
      assert n > 0 ==> times[n - 1] <= times[n];
      RecordKeeps(Run(times[..n], max, hour), times[n], max, hour);
      RecordLast(Run(times[..n], max, hour), times[n], max, hour);
    }
  }

  lemma StartInv(max: nat, hour: nat)
    ensures Inv(Log(State([], None, 0), 0, [], [], 0, 0), max, hour)
  {
  }

  lemma RecordLast(g: Log, now: int, max: nat, hour: nat)
    ensures Record(g, now, max, hour).last == now
  {
  }

  /** For non-decreasing times and a fixed limit: admissions less than an hour
      apart are at most `max`, notices are at least an hour apart, and every
      suppression is reported once or still pending. */
  lemma AdmissionPromise(times: seq<int>, max: nat, hour: nat, i: nat, j: nat)
    requires hour > 0 && Ascending(times)
    ensures var g := Run(times, max, hour);
            && (i <= j < |g.admissions| && g.admissions[j] - g.admissions[i] < hour ==> j - i + 1 <= max)
            && (i < j < |g.notices| ==> g.notices[j] - g.notices[i] >= hour)
            && g.made == g.reported + g.state.suppressed && |times| == |g.admissions| + g.made
  {
    RunKeeps(times, max, hour);
    Calls(times, max, hour);
    var g := Run(times, max, hour);
    hide Run;
    if i <= j < |g.admissions| && j - i >= max {
      assert g.admissions[i] <= g.admissions[j - max];
      assert g.admissions[j - max + max] - g.admissions[j - max] >= hour;
    }
    if i < j < |g.notices| { NoticesApart(g, hour, i, j); }
  }

  lemma {:induction false} Calls(times: seq<int>, max: nat, hour: nat)
    ensures |times| == |Run(times, max, hour).admissions| + Run(times, max, hour).made
    decreases |times|
  {
    if times != [] { Calls(times[..|times| - 1], max, hour); }
  }

  lemma {:induction false} NoticesApart(g: Log, hour: nat, i: nat, j: nat)
    requires Notices(g, hour) && i < j < |g.notices|
    ensures g.notices[j] - g.notices[i] >= hour
    decreases j
  {
    if i < j - 1 { NoticesApart(g, hour, i, j - 1); }
  }
}
