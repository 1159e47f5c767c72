/** Write-ahead system settings (crates/polywan/src/worker.rs,
    crates/polywan/src/sysctl.rs, crates/polywan/src/state.rs): baselines are
    durable before the values they belong to are changed. */
module Settings {
  import opened Model

  /** The settings PolyWAN wants, and any other. */
  datatype Key =
    | Forwarding(family: Family)
    | HashPolicy(family: Family)
    | RpFilter(interface: nat)
    | SrcValidMark(interface: nat)
    | IgnoreLinkdown(family: Family, interface: nat)
    | OtherKey(name: nat)

  /** The one value PolyWAN ever sets for a key. */
  function WantedValue(k: Key): string { if k.RpFilter? then "2" else "1" }

  /** A wanted setting; those of an absent interface are skipped. */
  datatype Setting = Setting(key: Key, value: string, perInterface: bool)

  datatype Difference = Difference(setting: Setting, current: string)

  datatype Manifest = Manifest(baseline: map<Key, string>, written: map<Key, string>)

  type Values = map<Key, string>

  // ------------------------------------------------------------- differences

  /** The settings whose value differs, or an error. */
  function Differences(settings: seq<Setting>, values: Values, unreadable: set<Key>): Option<seq<Difference>>
  {
    if settings == [] then Some([])
    else
      var before, s := Differences(settings[..|settings| - 1], values, unreadable), settings[|settings| - 1];
      if before.None? || s.key in unreadable || (s.key !in values && !s.perInterface) then None
      else if s.key !in values || values[s.key] == s.value then before
      else Some(before.value + [Difference(s, values[s.key])])
  }

  method FindDifferences(settings: seq<Setting>, values: Values, unreadable: set<Key>)
    returns (r: Option<seq<Difference>>)
    ensures r == Differences(settings, values, unreadable)
  {
    var v: seq<Difference> := [];
    for i := 0 to |settings|
      invariant Differences(settings[..i], values, unreadable) == Some(v)
    {
      var s := settings[i];
      assert settings[..i + 1][..i] == settings[..i];
      if s.key in unreadable || (s.key !in values && !s.perInterface) {
        LaterFails(settings, values, unreadable, i + 1);
        return None;
      }
      if s.key in values && values[s.key] != s.value {
        v := v + [Difference(s, values[s.key])];
      }
    }
    assert settings[..|settings|] == settings;
    r := Some(v);
  }

  lemma {:induction false} LaterFails(settings: seq<Setting>, values: Values, unreadable: set<Key>, i: nat)
    requires i <= |settings| && Differences(settings[..i], values, unreadable).None?
    ensures Differences(settings, values, unreadable).None?
    decreases |settings|
  {
    if i < |settings| {
      assert settings[..|settings| - 1][..i] == settings[..i];
      LaterFails(settings[..|settings| - 1], values, unreadable, i);
    } else {
      assert settings[..i] == settings;
    }
  }

  /** Exactly the present settings with another value, with that value. */
  lemma {:induction false} DifferencesAre(settings: seq<Setting>, values: Values, unreadable: set<Key>)
    requires Differences(settings, values, unreadable).Some?
    ensures forall d :: d in Differences(settings, values, unreadable).value <==>
              && d.setting in settings && d.setting.key in values
              && d.current == values[d.setting.key] && d.current != d.setting.value
    decreases |settings|
  {
    if settings != [] { DifferencesAre(settings[..|settings| - 1], values, unreadable); }
  }

  // ------------------------------------------------------------------ record

  /** The baseline is recorded the first time only. */
  function RecordOne(m: Manifest, d: Difference): Manifest
  {
    var k := d.setting.key;
    Manifest(if k in m.baseline then m.baseline else m.baseline[k := d.current], m.written[k := d.setting.value])
  }

  function Recorded(m: Manifest, diffs: seq<Difference>): Manifest
  {
    if diffs == [] then m else RecordOne(Recorded(m, diffs[..|diffs| - 1]), diffs[|diffs| - 1])
  }

  /** All differences of one look are recorded; the rest is as it was. */
  lemma {:induction false} RecordedAre(m: Manifest, diffs: seq<Difference>, values: Values, k: Key)
    requires forall d :: d in diffs ==> d.setting.key in values && d.current == values[d.setting.key]
    requires forall d :: d in diffs ==> d.setting.value == WantedValue(d.setting.key)
    ensures var r := Recorded(m, diffs);
            && ((exists d :: d in diffs && d.setting.key == k) ==>
                  && k in values && k in r.baseline && k in r.written && r.written[k] == WantedValue(k)
                  && r.baseline[k] == if k in m.baseline then m.baseline[k] else values[k])
            && ((forall d :: d in diffs ==> d.setting.key != k) ==>
                  && (k in r.baseline <==> k in m.baseline) && (k in m.baseline ==> r.baseline[k] == m.baseline[k])
                  && (k in r.written <==> k in m.written) && (k in m.written ==> r.written[k] == m.written[k]))
    decreases |diffs|
  {
    if diffs != [] {
      var init, last := diffs[..|diffs| - 1], diffs[|diffs| - 1];
      assert forall d :: d in diffs <==> d in init || d == last;
      RecordedAre(m, init, values, k);
    }
  }

  method RecordAll(m: Manifest, diffs: seq<Difference>) returns (r: Manifest)
    ensures r == Recorded(m, diffs)
  {
    r := m;
    for i := 0 to |diffs|
      invariant r == Recorded(m, diffs[..i])
    {
      assert diffs[..i + 1][..i] == diffs[..i];
      r := RecordOne(r, diffs[i]);
    }
    assert diffs[..|diffs|] == diffs;
  }

  function KeysOf(diffs: seq<Difference>): seq<Key> { seq(|diffs|, i requires 0 <= i < |diffs| => diffs[i].setting.key) }

  // ------------------------------------------------------------------- steps

  /** The kernel's values, the manifest on disk and in memory, the keys still to
      write; and, to state what is promised, the original values, the keys
      somebody else ever changed, and the keys whose value PolyWAN wrote last. */
  datatype State = State(values: Values, disk: Manifest, memory: Manifest, pending: seq<Key>,
                         original: Values, touched: set<Key>, ours: set<Key>)

  datatype Event =
    | Begin(settings: seq<Setting>, unreadable: set<Key>, stored: bool)
    | WriteNext
    | WriteFails
    | GiveBack(key: Key)
    | StoreMemory
    | Crash
    | Foreign(key: Key, value: Option<string>)

  ghost predicate AsWanted(settings: seq<Setting>)
  {
    forall i :: 0 <= i < |settings| ==> settings[i].value == WantedValue(settings[i].key)
  }

  /** The start of an application: the baselines are stored before any value is
      written; if they cannot be stored, nothing happens. */
  function Begun(s: State, settings: seq<Setting>, unreadable: set<Key>, stored: bool): State
  {
    var diffs := Differences(settings, s.values, unreadable);
    if diffs.None? then s
    else
      var recorded := Recorded(s.memory, diffs.value);
      if recorded == s.memory then s.(pending := KeysOf(diffs.value))
      else if stored then s.(disk := recorded, memory := recorded, pending := KeysOf(diffs.value))
      else s
  }

  /** Handing one setting back: restored where it is still PolyWAN's. */
  function HandedBack(s: State, k: Key): State
    requires k in s.memory.written
  {
    var m := s.memory;
    var restored := k in s.values && s.values[k] == m.written[k] && k in m.baseline && m.baseline[k] != m.written[k];
    s.(values := if restored then s.values[k := m.baseline[k]] else s.values,
       memory := Manifest(m.baseline - {k}, m.written - {k}), ours := s.ours - {k})
  }

  ghost predicate Takes(s: State, e: Event, s': State)
  {
    match e
    case Begin(settings, unreadable, stored) =>
      s.pending == [] && AsWanted(settings) && s' == Begun(s, settings, unreadable, stored)
    case WriteNext =>
      s.pending != [] && s.pending[0] in s.values
      && s' == s.(values := s.values[s.pending[0] := WantedValue(s.pending[0])], pending := s.pending[1..],
                  ours := s.ours + {s.pending[0]})
    case WriteFails => s' == s.(pending := [])
    case GiveBack(k) => s.pending == [] && k in s.memory.written && s' == HandedBack(s, k)
    case StoreMemory => s.pending == [] && s' == s.(disk := s.memory)
    case Crash => s' == s.(pending := [], memory := s.disk)
    case Foreign(k, v) =>
      s' == s.(values := if v.Some? then s.values[k := v.value] else s.values - {k}, touched := s.touched + {k},
               ours := s.ours - {k})
  }

  // --------------------------------------------------------------- invariant

  /** A recorded key has its original value and what PolyWAN sets. */
  predicate Sound(m: Manifest, original: Values, k: Key)
  {
    && (k in m.written <==> k in m.baseline)
    && (k in m.written ==> k in original && m.baseline[k] == original[k] && m.written[k] == WantedValue(k))
  }

  /** A key nobody else changed holds its original value, or PolyWAN's while
      both manifests record it. */
  predicate Consistent(s: State, k: Key)
  {
    && (k in s.values <==> k in s.original)
    && Sound(s.disk, s.original, k) && Sound(s.memory, s.original, k)
    && (k in s.values && s.values[k] != s.original[k] ==>
          s.values[k] == WantedValue(k) && k in s.disk.written && k in s.memory.written && k in s.ours)
  }

  /** The write-ahead rule, for every key whoever changed it: a value PolyWAN
      wrote last is in the durable manifest, under the one value PolyWAN sets;
      so is every key still to be written. */
  predicate Ahead(s: State, k: Key)
  {
    && (k in s.disk.written <==> k in s.disk.baseline) && (k in s.memory.written <==> k in s.memory.baseline)
    && (k in s.disk.written ==> s.disk.written[k] == WantedValue(k))
    && (k in s.memory.written ==>
          && s.memory.written[k] == WantedValue(k)
          && k in s.disk.written && s.disk.baseline[k] == s.memory.baseline[k])
    && (k in s.pending ==> k in s.memory.written)
    && (k in s.ours ==> k in s.memory.written && k in s.values && s.values[k] == WantedValue(k))
  }

  ghost predicate Inv(s: State) { forall k :: Ahead(s, k) && (k !in s.touched ==> Consistent(s, k)) }

  /** A fresh installation. */
  predicate Fresh(s: State)
  {
    && s.values == s.original && s.disk == Manifest(map[], map[]) && s.memory == s.disk && s.pending == []
    && s.touched == {} && s.ours == {}
  }

  lemma FreshInv(s: State)
    requires Fresh(s)
    ensures Inv(s)
  {
  }

  /** What the start of an application records of a key. */
  lemma BeginRecords(s: State, settings: seq<Setting>, unreadable: set<Key>, k: Key)
    requires AsWanted(settings) && Differences(settings, s.values, unreadable).Some?
    ensures var diffs := Differences(settings, s.values, unreadable).value;
            var r := Recorded(s.memory, diffs);
            if k in KeysOf(diffs)
            then && k in s.values && s.values[k] != WantedValue(k) && k in r.baseline && k in r.written
                 && r.written[k] == WantedValue(k)
                 && r.baseline[k] == (if k in s.memory.baseline then s.memory.baseline[k] else s.values[k])
            else && (k in r.baseline <==> k in s.memory.baseline) && (k in r.written <==> k in s.memory.written)
                 && (k in r.baseline ==> r.baseline[k] == s.memory.baseline[k])
                 && (k in r.written ==> r.written[k] == s.memory.written[k])
  {
    hide Differences, Recorded;
    var diffs := Differences(settings, s.values, unreadable).value;
    DifferencesAre(settings, s.values, unreadable);
    forall d | d in diffs
      ensures d.setting.key in s.values && d.current == s.values[d.setting.key] && d.current != d.setting.value
              && d.setting.value == WantedValue(d.setting.key)
    {
      var i :| 0 <= i < |settings| && settings[i] == d.setting;
    }
    RecordedAre(s.memory, diffs, s.values, k);
    KeysAre(diffs, k);
  }

  lemma BeginKeeps(s: State, settings: seq<Setting>, unreadable: set<Key>, stored: bool, k: Key)
    requires s.pending == [] && AsWanted(settings) && Ahead(s, k)
    ensures Ahead(Begun(s, settings, unreadable, stored), k)
    ensures Consistent(s, k) ==> Consistent(Begun(s, settings, unreadable, stored), k)
  {
    hide Differences, Recorded, KeysOf;
    if Differences(settings, s.values, unreadable).Some? { BeginRecords(s, settings, unreadable, k); }
  }

  lemma KeysAre(diffs: seq<Difference>, k: Key)
    ensures k in KeysOf(diffs) <==> exists d :: d in diffs && d.setting.key == k
  {
    if d :| d in diffs && d.setting.key == k {
      var i :| 0 <= i < |diffs| && diffs[i] == d;
      assert KeysOf(diffs)[i] == k;
    }
  }

  lemma OtherKeeps(s: State, e: Event, s': State, k: Key)
    requires Takes(s, e, s') && !e.Begin? && Ahead(s, k)
    ensures Ahead(s', k)
    ensures Consistent(s, k) && k !in s'.touched ==> Consistent(s', k)
  {
    hide Begun;
  }

  /** Every step keeps the write-ahead rule of every key, and what is promised of
      the keys that nobody else changed. */
  lemma StepKeeps(s: State, e: Event, s': State)
    requires Inv(s) && Takes(s, e, s')
    ensures Inv(s')
  {
    hide Ahead, Consistent, Begun;
    forall k ensures Ahead(s', k) && (k !in s'.touched ==> Consistent(s', k)) {
      if e.Begin? {
        BeginKeeps(s, e.settings, e.unreadable, e.stored, k);
        BegunFrame(s, e.settings, e.unreadable, e.stored);
      } else {
        OtherKeeps(s, e, s', k);
        TouchedGrows(s, e, s');
      }
    }
  }

  lemma BegunFrame(s: State, settings: seq<Setting>, unreadable: set<Key>, stored: bool)
    ensures var s' := Begun(s, settings, unreadable, stored);
            s'.touched == s.touched && s'.ours == s.ours && s'.values == s.values && s'.original == s.original
  {
    hide Differences, Recorded, KeysOf;
  }

  lemma TouchedGrows(s: State, e: Event, s': State)
    requires Takes(s, e, s') && !e.Begin?
    ensures s.touched <= s'.touched
  {
    hide Begun;
  }

  ghost predicate IsRun(trace: seq<State>, events: seq<Event>)
  {
    && |trace| == |events| + 1
    && forall i :: 0 <= i < |events| ==> Takes(trace[i], events[i], trace[i + 1])
  }

  /** At every point of every run, crashes included: a key holding a value
      PolyWAN wrote is in the durable manifest, and a key nobody else changed is
      there with its original value. */
  lemma {:induction false} RunInv(trace: seq<State>, events: seq<Event>, i: nat)
    requires IsRun(trace, events) && Inv(trace[0]) && i < |trace|
    ensures Inv(trace[i])
    decreases i
  {
    hide Inv, Takes;
    if i > 0 {
      RunInv(trace, events, i - 1);
      StepKeeps(trace[i - 1], events[i - 1], trace[i]);
    }
  }

  lemma {:induction false} OriginalKept(trace: seq<State>, events: seq<Event>, i: nat)
    requires IsRun(trace, events) && i < |trace|
    ensures trace[i].original == trace[0].original
    decreases i
  {
    if i > 0 {
      OriginalKept(trace, events, i - 1);
      hide Begun;
      assert Takes(trace[i - 1], events[i - 1], trace[i]);
      OriginalStep(trace[i - 1], events[i - 1], trace[i]);
    }
  }

  lemma OriginalStep(s: State, e: Event, s': State)
    requires Takes(s, e, s')
    ensures s'.original == s.original
  {
  }

  // ----------------------------------------------------------------- restore

  /** The values after restoring the manifest's keys that are still PolyWAN's. */
  function Restored(m: Manifest, values: Values): Values
  {
    map k | k in values ::
      if k in m.written && k in m.baseline && values[k] == m.written[k] then m.baseline[k] else values[k]
  }

  /** Restores every recorded key that still has the value PolyWAN set; fails on
      the keys that cannot be read or written. */
  method Restore(m: Manifest, values: Values, failing: set<Key>) returns (restored: Values, failed: set<Key>)
    ensures forall k :: k in restored <==> k in values
    ensures forall k :: k in values && k !in failing ==> restored[k] == Restored(m, values)[k]
    ensures forall k :: k in values && k in failing ==> restored[k] == values[k]
    ensures failed <= failing
    ensures forall k :: k in values && restored[k] != Restored(m, values)[k] ==> k in failed
  {
    restored, failed := values, {};
    var rest := m.written.Keys;
    while rest != {}
      invariant rest <= m.written.Keys && failed <= failing - rest
      invariant forall k :: k in restored <==> k in values
      invariant forall k :: k in values ==>
        restored[k] == if k in rest || k in failing then values[k] else Restored(m, values)[k]
      invariant forall k :: k in values && k in failing && k !in rest ==>
        k in failed || Restored(m, values)[k] == values[k]
      decreases rest
    {
      var k :| k in rest;
      rest := rest - {k};
      if k in m.baseline && k in values {
        if k in failing {
          failed := failed + {k};
        } else if values[k] == m.written[k] && m.baseline[k] != m.written[k] {
          restored := restored[k := m.baseline[k]];
        }
      }
    }
  }

  /** After any run, crashes included, a successful restore returns every key
      nobody else changed to its original value and touches no other key. */
  lemma RestoreReturns(trace: seq<State>, events: seq<Event>, i: nat)
    requires IsRun(trace, events) && Inv(trace[0]) && i < |trace|
    ensures var s := trace[i];
            var after := Restored(s.disk, s.values);
            && (forall k :: k !in s.touched ==> (k in after <==> k in trace[0].original))
            && (forall k :: k in after && k !in s.touched ==> after[k] == trace[0].original[k])
            && (forall k :: k in after && after[k] != s.values[k] ==>
                  k in s.disk.written && s.values[k] == s.disk.written[k])
  {
    hide Takes;
    RunInv(trace, events, i);
    OriginalKept(trace, events, i);
    var s := trace[i];
    forall k | k in s.values && k !in s.touched ensures k in s.original && Restored(s.disk, s.values)[k] == s.original[k] {
      assert Consistent(s, k);
    }
    forall k | k !in s.touched ensures k in s.values <==> k in s.original { assert Consistent(s, k); }
  }

  /** From a fresh installation. */
  lemma RestoreFromFresh(trace: seq<State>, events: seq<Event>, i: nat)
    requires IsRun(trace, events) && Fresh(trace[0]) && i < |trace|
    ensures var s := trace[i];
            && (forall k :: k in s.ours ==> k in s.disk.written && k in s.disk.baseline)
            && (forall k :: k in s.values && k !in s.touched ==>
                  k in trace[0].values && Restored(s.disk, s.values)[k] == trace[0].values[k])
  {
    hide Takes, Consistent;
    FreshInv(trace[0]);
    RunInv(trace, events, i);
    RestoreReturns(trace, events, i);
    forall k | k in trace[i].ours ensures k in trace[i].disk.written && k in trace[i].disk.baseline {
      assert Ahead(trace[i], k);
    }
  }

  // ------------------------------------------ keys that somebody else changed

  /** A step after which a key is still PolyWAN's keeps its durable baseline. */
  lemma BaselineStays(s: State, e: Event, s': State, k: Key)
    requires Ahead(s, k) && Takes(s, e, s') && k in s.ours && k in s'.ours
    ensures k in s.disk.baseline && k in s'.disk.baseline && s'.disk.baseline[k] == s.disk.baseline[k]
  {
    hide Differences, Recorded, KeysOf;
    if e.Begin? && Differences(e.settings, s.values, e.unreadable).Some? {
      BeginRecords(s, e.settings, e.unreadable, k);
    }
  }

  /** A key becomes PolyWAN's only by being written. */
  lemma OnlyWritten(s: State, e: Event, s': State, k: Key)
    requires Takes(s, e, s') && k !in s.ours && k in s'.ours
    ensures e == WriteNext && s.pending != [] && s.pending[0] == k && k in s.values
  {
    hide Begun;
    if e.Begin? { BegunFrame(s, e.settings, e.unreadable, e.stored); }
  }

  /** The write at step `j` took the key over, and it is PolyWAN's since. */
  ghost predicate TookOver(trace: seq<State>, events: seq<Event>, j: nat, i: nat, k: Key)
  {
    && j < i < |trace| && j < |events| && events[j] == WriteNext
    && trace[j].pending != [] && trace[j].pending[0] == k && k in trace[j].values && k !in trace[j].ours
    && forall m :: j < m <= i ==> k in trace[m].ours
  }

  lemma {:induction false} FindTakeOver(trace: seq<State>, events: seq<Event>, i: nat, k: Key) returns (j: nat)
    requires IsRun(trace, events) && Inv(trace[0]) && trace[0].ours == {} && i < |trace| && k in trace[i].ours
    ensures TookOver(trace, events, j, i, k)
    ensures k in trace[j].disk.baseline && k in trace[i].disk.baseline
    ensures trace[i].disk.baseline[k] == trace[j].disk.baseline[k]
    decreases i
  {
    hide Takes, Ahead, Consistent;
    var s, s', e := trace[i - 1], trace[i], events[i - 1];
    RunInv(trace, events, i - 1);
    if k in s.ours {
      j := FindTakeOver(trace, events, i - 1, k);
      BaselineStays(s, e, s', k);
    } else {
      OnlyWritten(s, e, s', k);
      j := i - 1;
      WriteKeepsDisk(s, s');
    }
  }

  lemma WriteKeepsDisk(s: State, s': State)
    requires Takes(s, WriteNext, s') && Ahead(s, s.pending[0])
    ensures s'.disk == s.disk && s.pending[0] in s.disk.baseline
  {
  }

  /** Whoever changed a key before, at every point of every run: restoring a key
      that PolyWAN wrote last returns it to the value that PolyWAN replaced if and
      only if the recorded baseline was that value when the write was made. */
  lemma RestoresReplacedIff(trace: seq<State>, events: seq<Event>, i: nat, k: Key) returns (j: nat)
    requires IsRun(trace, events) && Inv(trace[0]) && trace[0].ours == {} && i < |trace| && k in trace[i].ours
    ensures TookOver(trace, events, j, i, k) && k in trace[j].disk.baseline && k in trace[i].values
    ensures Restored(trace[i].disk, trace[i].values)[k] == trace[j].values[k]
       <==> trace[j].disk.baseline[k] == trace[j].values[k]
  {
    hide Takes, Consistent;
    RunInv(trace, events, i);
    assert Ahead(trace[i], k);
    j := FindTakeOver(trace, events, i, k);
  }

  lemma {:induction false} StillUntouched(trace: seq<State>, events: seq<Event>, j: nat, i: nat, k: Key)
    requires IsRun(trace, events) && j <= i < |trace| && k !in trace[i].touched
    ensures k !in trace[j].touched
    decreases i
  {
    hide Takes;
    if j < i {
      TouchedStays(trace[i - 1], events[i - 1], trace[i]);
      StillUntouched(trace, events, j, i - 1, k);
    }
  }

  lemma TouchedStays(s: State, e: Event, s': State)
    requires Takes(s, e, s')
    ensures s.touched <= s'.touched
  {
    hide Begun;
    if e.Begin? { BegunFrame(s, e.settings, e.unreadable, e.stored); }
  }

  /** For a key nobody else changed the condition always holds: the value replaced
      is the original one, and so is the baseline. */
  lemma UntouchedReplaced(trace: seq<State>, events: seq<Event>, i: nat, k: Key) returns (j: nat)
    requires IsRun(trace, events) && Inv(trace[0]) && trace[0].ours == {} && i < |trace|
    requires k in trace[i].ours && k !in trace[i].touched
    ensures TookOver(trace, events, j, i, k) && k in trace[j].disk.baseline && k in trace[0].original
    ensures trace[j].disk.baseline[k] == trace[j].values[k] == trace[0].original[k]
  {
    hide Takes;
    j := RestoresReplacedIff(trace, events, i, k);
    StillUntouched(trace, events, j, i, k);
    RunInv(trace, events, j);
    OriginalKept(trace, events, j);
    assert Consistent(trace[j], k) && Ahead(trace[j], k);
  }

  lemma OneSetting(k: Key, values: Values)
    requires k in values && values[k] != WantedValue(k)
    ensures Differences([Setting(k, WantedValue(k), false)], values, {})
         == Some([Difference(Setting(k, WantedValue(k), false), values[k])])
  {
    var settings := [Setting(k, WantedValue(k), false)];
    var d := Difference(settings[0], values[k]);
    assert settings[..0] == [] && settings[|settings| - 1] == settings[0];
    assert Differences([], values, {}) == Some([]);
    assert [] + [d] == [d];
  }

  lemma OneRecord(m: Manifest, d: Difference)
    ensures Recorded(m, [d]) == RecordOne(m, d) && KeysOf([d]) == [d.setting.key]
  {
    assert [d][..0] == [];
    assert Recorded(m, []) == m;
  }

  lemma BegunOne(s: State, k: Key)
    requires k in s.values && s.values[k] != WantedValue(k)
    ensures var r := RecordOne(s.memory, Difference(Setting(k, WantedValue(k), false), s.values[k]));
            Begun(s, [Setting(k, WantedValue(k), false)], {}, true)
            == if r == s.memory then s.(pending := [k]) else s.(disk := r, memory := r, pending := [k])
  {
    hide Differences, Recorded, KeysOf;
    OneSetting(k, s.values);
    OneRecord(s.memory, Difference(Setting(k, WantedValue(k), false), s.values[k]));
  }

  /** The failing side is reached from a fresh installation: a setting is recorded
      but its write fails, somebody else changes it, it is applied again, and
      restoring returns it to the old baseline instead of the value replaced. */
  lemma StaleBaseline() returns (trace: seq<State>, events: seq<Event>)
    ensures IsRun(trace, events) && |trace| == 6 && Fresh(trace[0])
    ensures var k := Forwarding(V4);
            && TookOver(trace, events, 4, 5, k) && trace[4].values == map[k := "7"]
            && Restored(trace[5].disk, trace[5].values) == map[k := "0"]
  {
    var k := Forwarding(V4);
    var settings := [Setting(k, "1", false)];
    var m := Manifest(map[k := "0"], map[k := "1"]);
    var s0 := State(map[k := "0"], Manifest(map[], map[]), Manifest(map[], map[]), [], map[k := "0"], {}, {});
    hide Begun;
    BegunOne(s0, k);
    var s1 := s0.(disk := m, memory := m, pending := [k]);
    var s2 := s1.(pending := []);
    var s3 := s2.(values := map[k := "7"], touched := {k});
    BegunOne(s3, k);
    var s4 := s3.(pending := [k]);
    var s5 := s4.(values := map[k := "1"], pending := [], ours := {k});
    trace := [s0, s1, s2, s3, s4, s5];
    events := [Begin(settings, {}, true), WriteFails, Foreign(k, Some("7")), Begin(settings, {}, true), WriteNext];
    assert Takes(s0, events[0], s1) && Takes(s1, WriteFails, s2) && Takes(s2, events[2], s3);
    assert Takes(s3, events[3], s4) && Takes(s4, WriteNext, s5);
  }

  // ------------------------------------------------------------- application

  function Written(values: Values, diffs: seq<Difference>): Values
  {
    if diffs == [] then values
    else Written(values, diffs[..|diffs| - 1])[diffs[|diffs| - 1].setting.key := diffs[|diffs| - 1].setting.value]
  }

  /** The kernel's values and the manifest on disk and in memory. */
  class Machine {
    var values: Values
    var disk: Manifest
    var memory: Manifest

    /** Applies the settings of one scope: baselines recorded and stored before
        the values; writes stop at the first failure (after `failAfter`).
        Without management, nothing is changed. */
    method Apply(settings: seq<Setting>, unreadable: set<Key>, manage: bool, stored: bool, failAfter: nat)
      returns (ok: bool, done: nat)
      modifies this
      ensures var diffs := Differences(settings, old(values), unreadable);
              var recorded := Recorded(old(memory), if diffs.Some? then diffs.value else []);
              var storable := recorded == old(memory) || stored;
              && (ok <==> !manage || (diffs.Some? && storable && failAfter >= |diffs.value|))
              && (if !manage || diffs.None? || !storable
                  then values == old(values) && disk == old(disk) && memory == old(memory) && done == 0
                  else && done == (if failAfter < |diffs.value| then failAfter else |diffs.value|)
                       && values == Written(old(values), diffs.value[..done])
                       && memory == recorded && disk == (if recorded == old(memory) then old(disk) else recorded))
    {
      done := 0;
      var found := FindDifferences(settings, values, unreadable);
      if !manage {
        return true, 0;
      }
      if found.None? {
        return false, 0;
      }
      var diffs := found.value;
      var recorded := RecordAll(memory, diffs);
      if recorded != memory {
        if !stored {
          return false, 0;
        }
        disk := recorded;
        memory := recorded;
      }
      ok, done := WriteAll(diffs, failAfter);
    }

    method WriteAll(diffs: seq<Difference>, failAfter: nat) returns (ok: bool, done: nat)
      modifies this`values
      ensures done == (if failAfter < |diffs| then failAfter else |diffs|) && (ok <==> failAfter >= |diffs|)
      ensures values == Written(old(values), diffs[..done])
    {
      done := 0;
      while done < |diffs|
        invariant done <= |diffs| && done <= failAfter
        invariant values == Written(old(values), diffs[..done])
      {
        if done == failAfter {
          return false, done;
        }
        assert diffs[..done + 1][..done] == diffs[..done];
        values := values[diffs[done].setting.key := diffs[done].setting.value];
        done := done + 1;
      }
      ok := true;
    }
  }

  /** The keys of the first writes. */
  function Wrote(diffs: seq<Difference>): set<Key> { set d | d in diffs :: d.setting.key }

  /** The steps of an application: stored baselines, then single writes, so that
      a crash may fall between any two of them. */
  lemma ApplyIsRun(s: State, settings: seq<Setting>, unreadable: set<Key>, done: nat)
    returns (trace: seq<State>, events: seq<Event>)
    requires s.pending == [] && AsWanted(settings) && Differences(settings, s.values, unreadable).Some?
    requires done <= |Differences(settings, s.values, unreadable).value|
    ensures IsRun(trace, events) && trace[0] == s
    ensures var diffs := Differences(settings, s.values, unreadable).value;
            var begun := Begun(s, settings, unreadable, true);
            trace[|trace| - 1] == begun.(values := Written(s.values, diffs[..done]), pending := KeysOf(diffs)[done..],
                                         ours := s.ours + Wrote(diffs[..done]))
    decreases done
  {
    hide Differences, Recorded, Begun, Written, Wrote;
    var diffs := Differences(settings, s.values, unreadable).value;
    var begun := Begun(s, settings, unreadable, true);
    if done == 0 {
      trace, events := [s, begun], [Begin(settings, unreadable, true)];
      BegunPending(s, settings, unreadable);
    } else {
      trace, events := ApplyIsRun(s, settings, unreadable, done - 1);
      var last := trace[|trace| - 1];
      DifferencesAre(settings, s.values, unreadable);
      assert diffs[done - 1] in diffs;
      var i :| 0 <= i < |settings| && settings[i] == diffs[done - 1].setting;
      WriteStep(s.values, diffs, done, last);
      var next := last.(values := Written(s.values, diffs[..done]), pending := KeysOf(diffs)[done..],
                        ours := s.ours + Wrote(diffs[..done]));
      assert Takes(last, WriteNext, next);
      trace, events := trace + [next], events + [WriteNext];
    }
  }

  lemma BegunPending(s: State, settings: seq<Setting>, unreadable: set<Key>)
    requires Differences(settings, s.values, unreadable).Some?
    ensures var diffs := Differences(settings, s.values, unreadable).value;
            var begun := Begun(s, settings, unreadable, true);
            && begun.pending == KeysOf(diffs)[0..] && begun.values == Written(s.values, diffs[..0])
            && begun.ours == s.ours + Wrote(diffs[..0])
  {
    var diffs := Differences(settings, s.values, unreadable).value;
    assert KeysOf(diffs)[0..] == KeysOf(diffs) && diffs[..0] == [];
  }

  lemma WriteStep(values: Values, diffs: seq<Difference>, done: nat, last: State)
    requires 0 < done <= |diffs| && diffs[done - 1].setting.key in values
    requires diffs[done - 1].setting.value == WantedValue(diffs[done - 1].setting.key)
    requires last.values == Written(values, diffs[..done - 1]) && last.pending == KeysOf(diffs)[done - 1..]
    ensures last.pending != [] && last.pending[0] in last.values && last.pending[1..] == KeysOf(diffs)[done..]
    ensures Written(values, diffs[..done]) == last.values[last.pending[0] := WantedValue(last.pending[0])]
    ensures Wrote(diffs[..done]) == Wrote(diffs[..done - 1]) + {last.pending[0]}
  {
    WrittenKeys(values, diffs[..done - 1]);
    assert diffs[..done][..done - 1] == diffs[..done - 1];
    assert diffs[..done] == diffs[..done - 1] + [diffs[done - 1]];
  }

  lemma {:induction false} WrittenKeys(values: Values, diffs: seq<Difference>)
    ensures forall k :: k in values ==> k in Written(values, diffs)
    decreases |diffs|
  {
    if diffs != [] { WrittenKeys(values, diffs[..|diffs| - 1]); }
  }
}
