/** The in-memory event history and its pages (`Ring` in
    crates/polywan/src/events.rs, FR-EV-2, FR-API-2). */
module History {
  import opened Model

  const RING_EVENTS: nat := 1000
  const RING_BYTES: nat := 4194304

  /** A serialised event: its sequence number and its length. */
  datatype Entry = Entry(number: nat, size: nat)

  function Bytes(v: seq<Entry>): nat { if v == [] then 0 else v[0].size + Bytes(v[1..]) }

  predicate Fits(v: seq<Entry>) { |v| <= RING_EVENTS && Bytes(v) <= RING_BYTES }

  /** `ring` is an end of `all`, and any longer one exceeds a bound. */
  ghost predicate Covers(all: seq<Entry>, ring: seq<Entry>)
  {
    && |ring| <= |all| && ring == all[|all| - |ring|..]
    && (|ring| < |all| ==> !Fits(all[|all| - |ring| - 1..]))
  }

  /** The history of `all` events: its longest end within both bounds. */
  ghost predicate IsHistory(all: seq<Entry>, ring: seq<Entry>) { Covers(all, ring) && Fits(ring) }

  lemma {:induction false} BytesConcat(a: seq<Entry>, b: seq<Entry>)
    ensures Bytes(a + b) == Bytes(a) + Bytes(b)
    decreases |a|
  {
    if a == [] {
      assert a + b == b;
    } else {
      assert (a + b)[1..] == a[1..] + b;
      BytesConcat(a[1..], b);
    }
  }

  lemma {:induction false} BytesOne(e: Entry)
    ensures Bytes([e]) == e.size
  {
    assert [e][1..] == [];
  }

  /** Appending keeps what did not fit from fitting. */
  lemma StillTooMuch(v: seq<Entry>, e: Entry)
    requires !Fits(v)
    ensures !Fits(v + [e])
  {
    BytesConcat(v, [e]);
  }

  lemma CoversAppend(all: seq<Entry>, ring: seq<Entry>, e: Entry)
    requires Covers(all, ring)
    ensures Covers(all + [e], ring + [e])
  {
    hide Fits;
    if |ring| < |all| {
      var longer := all[|all| - |ring| - 1..];
      StillTooMuch(longer, e);
      assert (all + [e])[|all| - |ring| - 1..] == longer + [e];
    }
  }

  lemma CoversEvict(all: seq<Entry>, ring: seq<Entry>)
    requires Covers(all, ring) && ring != [] && !Fits(ring)
    ensures Covers(all, ring[1..])
  {
    hide Fits;
  }

  lemma NotEmpty(v: seq<Entry>)
    ensures !Fits(v) ==> v != []
  {
  }

  lemma FirstOut(v: seq<Entry>)
    requires v != []
    ensures Bytes(v) == v[0].size + Bytes(v[1..])
  {
  }

  // -------------------------------------------------------------------- pages

  datatype Page = Page(reset: bool, truncated: bool, events: seq<Entry>)

  function Latest(ring: seq<Entry>): nat { if ring == [] then 0 else ring[|ring| - 1].number }

  function Oldest(ring: seq<Entry>): nat { if ring == [] then Latest(ring) + 1 else ring[0].number }

  predicate Newer(after: Option<nat>, e: Entry) { after.None? || e.number > after.value }

  /** How many leading events are not newer. */
  function Skipped(ring: seq<Entry>, after: Option<nat>): (n: nat)
    ensures n <= |ring|
  {
    if ring == [] || Newer(after, ring[0]) then 0 else 1 + Skipped(ring[1..], after)
  }

  predicate Rising(v: seq<Entry>) { forall i :: 0 < i < |v| ==> v[i].number == v[i - 1].number + 1 }

  lemma {:induction false} RisingApart(v: seq<Entry>, i: nat, j: nat)
    requires Rising(v) && i <= j < |v|
    ensures v[j].number == v[i].number + (j - i)
    decreases j
  {
    if i < j { RisingApart(v, i, j - 1); }
  }

  class Ring {
    var events: seq<Entry>
    var bytes: nat

    ghost predicate Valid()
      reads this
    {
      bytes == Bytes(events)
    }

    constructor ()
      ensures Valid() && events == []
    {
      events, bytes := [], 0;
    }

    /** Appends an event and evicts the oldest ones while a bound is exceeded. */
    method Push(e: Entry, ghost all: seq<Entry>)
      requires Valid() && IsHistory(all, events)
      modifies this
      ensures Valid() && IsHistory(all + [e], events)
    {
      hide Bytes, Covers;
      BytesConcat(events, [e]);
      BytesOne(e);
      CoversAppend(all, events, e);
      bytes := bytes + e.size;
      events := events + [e];
      while |events| > RING_EVENTS || bytes > RING_BYTES
        invariant Valid() && Covers(all + [e], events)
        decreases |events|
      {
        NotEmpty(events);
        CoversEvict(all + [e], events);
        FirstOut(events);
        bytes := bytes - events[0].size;
        events := events[1..];
      }
    }

    /** The events after `after`, at most `limit` and `maxBytes`, at least one
        when there is one. */
    method Read(other: bool, after: Option<nat>, limit: nat, maxBytes: nat) returns (p: Page)
      ensures p == PageOf(events, other, after, limit, maxBytes)
    {
      var latest := Latest(events);
      var reset := other || (after.Some? && after.value > latest);
      var cursor := if reset then None else after;
      var truncated := cursor.Some? && cursor.value + 1 < Oldest(events);
      var from := SkipOld(events, cursor);
      var found := TakeSome(events[from..], if limit < RING_EVENTS then limit else RING_EVENTS, maxBytes);
      p := Page(reset, truncated, found);
    }
  }

  method SkipOld(v: seq<Entry>, cursor: Option<nat>) returns (from: nat)
    ensures from == Skipped(v, cursor)
  {
    from := 0;
    while from < |v| && !Newer(cursor, v[from])
      invariant from <= |v| && Skipped(v, cursor) == from + Skipped(v[from..], cursor)
    {
      assert v[from..][1..] == v[from + 1..];
      from := from + 1;
    }
  }

  method TakeSome(rest: seq<Entry>, cap: nat, maxBytes: nat) returns (found: seq<Entry>)
    ensures found == rest[..Taken(rest, cap, maxBytes)]
  {
    var n: nat, size: nat := 0, 0;
    while n < |rest| && n < cap && (n == 0 || size + rest[n].size <= maxBytes)
      invariant n <= |rest| && n <= cap
      invariant Taken(rest, cap, maxBytes) == n + TakenMore(rest[n..], cap - n, n == 0, size, maxBytes)
    {
      assert rest[n..][1..] == rest[n + 1..];
      size := size + rest[n].size;
      n := n + 1;
    }
    found := rest[..n];
  }

  /** How many further events a page takes. */
  function TakenMore(rest: seq<Entry>, room: int, empty: bool, size: nat, maxBytes: nat): (n: nat)
    ensures n <= |rest|
  {
    if rest == [] || room <= 0 || (!empty && size + rest[0].size > maxBytes) then 0
    else 1 + TakenMore(rest[1..], room - 1, false, size + rest[0].size, maxBytes)
  }

  function Taken(rest: seq<Entry>, cap: nat, maxBytes: nat): (n: nat)
    ensures n <= |rest|
  {
    TakenMore(rest, cap, true, 0, maxBytes)
  }

  function PageOf(ring: seq<Entry>, other: bool, after: Option<nat>, limit: nat, maxBytes: nat): Page
  {
    var reset := other || (after.Some? && after.value > Latest(ring));
    var cursor := if reset then None else after;
    var rest := ring[Skipped(ring, cursor)..];
    var cap := if limit < RING_EVENTS then limit else RING_EVENTS;
    Page(reset, cursor.Some? && cursor.value + 1 < Oldest(ring), rest[..Taken(rest, cap, maxBytes)])
  }

  // ------------------------------------------------------- what a page promises

  /** All events so far, numbered from 1, none larger than the ring. */
  predicate Numbered(all: seq<Entry>)
  {
    forall i :: 0 <= i < |all| ==> all[i].number == i + 1 && all[i].size <= RING_BYTES
  }

  /** The latest event is in the history if and only if it is not larger than the
      whole ring. */
  lemma LatestKept(all: seq<Entry>, ring: seq<Entry>)
    requires IsHistory(all, ring) && all != []
    ensures ring != [] <==> all[|all| - 1].size <= RING_BYTES
  {
    var last := all[|all| - 1];
    BytesOne(last);
    if ring == [] {
      assert all[|all| - 1..] == [last];
    } else {
      assert ring == ring[..|ring| - 1] + [last];
      BytesConcat(ring[..|ring| - 1], [last]);
    }
  }

  lemma HistoryNumbers(all: seq<Entry>, ring: seq<Entry>)
    requires IsHistory(all, ring) && Numbered(all)
    ensures forall i :: 0 <= i < |ring| ==> ring[i].number == |all| - |ring| + i + 1
    ensures Latest(ring) == |all| && Oldest(ring) == |all| - |ring| + 1
  {
    if all != [] { LatestKept(all, ring); }
  }

  lemma {:induction false} SkippedIs(v: seq<Entry>, after: Option<nat>, first: nat)
    requires forall i :: 0 <= i < |v| ==> v[i].number == first + i
    requires after.Some? ==> after.value < first + |v|
    ensures Skipped(v, after) == if after.None? || after.value < first then 0 else after.value - first + 1
    decreases |v|
  {
    if v != [] && after.Some? && after.value >= first {
      SkippedIs(v[1..], after, first + 1);
    }
  }

  lemma TakenSome(rest: seq<Entry>, cap: nat, maxBytes: nat)
    requires cap > 0 && rest != []
    ensures Taken(rest, cap, maxBytes) > 0
  {
  }

  /** The page a client gets that asks after the last number it received:
      consecutive events right after it, or after what was evicted, and then
      the page says so; empty only if there is nothing newer. */
  ghost predicate Answers(all: seq<Entry>, ring: seq<Entry>, after: Option<nat>, p: Page)
  {
    var a := if after.Some? then after.value else 0;
    && !p.reset && Rising(p.events)
    && (p.events == [] <==> a == |all|)
    && (forall e :: e in p.events ==> e in all && e.number > a)
    && (p.truncated <==> after.Some? && exists e :: e in all && e.number > a && e !in ring)
    && (p.events != [] && after.Some? && !p.truncated ==> p.events[0].number == a + 1)
  }

  lemma PageShape(all: seq<Entry>, ring: seq<Entry>, after: Option<nat>, limit: nat, maxBytes: nat)
    returns (from: nat, n: nat)
    requires IsHistory(all, ring) && Numbered(all) && limit > 0 && (after.Some? ==> after.value <= |all|)
    ensures from <= |ring| && n <= |ring| - from
    ensures var p := PageOf(ring, false, after, limit, maxBytes);
            && !p.reset && p.events == ring[from..from + n] && (n == 0 <==> from == |ring|)
            && (p.truncated <==> after.Some? && after.value < |all| - |ring|)
    ensures from == if after.None? || after.value <= |all| - |ring| then 0 else after.value - (|all| - |ring|)
  {
    hide IsHistory, Numbered;
    HistoryNumbers(all, ring);
    HistoryLength(all, ring);
    SkippedIs(ring, after, |all| - |ring| + 1);
    from := Skipped(ring, after);
    var cap := if limit < RING_EVENTS then limit else RING_EVENTS;
    var rest := ring[from..];
    n := Taken(rest, cap, maxBytes);
    if rest != [] { TakenSome(rest, cap, maxBytes); }
    assert rest[..n] == ring[from..from + n];
  }

  lemma HistoryLength(all: seq<Entry>, ring: seq<Entry>)
    requires IsHistory(all, ring)
    ensures |ring| <= |all|
  {
  }

  lemma PageAnswers(all: seq<Entry>, ring: seq<Entry>, after: Option<nat>, limit: nat, maxBytes: nat)
    requires IsHistory(all, ring) && Numbered(all) && limit > 0 && (after.Some? ==> after.value <= |all|)
    ensures Answers(all, ring, after, PageOf(ring, false, after, limit, maxBytes))
  {
    hide PageOf, Answers, IsHistory, Numbered;
    var from, n := PageShape(all, ring, after, limit, maxBytes);
    NothingNewer(all, ring);
    EndOf(all, ring);
    ShapeAnswers(all, ring, after, PageOf(ring, false, after, limit, maxBytes), from, n);
  }

  lemma ShapeAnswers(all: seq<Entry>, ring: seq<Entry>, after: Option<nat>, p: Page, from: nat, n: nat)
    requires Numbered(all) && |ring| <= |all| && ring == all[|all| - |ring|..] && (ring == [] <==> all == [])
    requires after.Some? ==> after.value <= |all|
    requires from + n <= |ring| && !p.reset && p.events == ring[from..from + n] && (n == 0 <==> from == |ring|)
    requires p.truncated <==> after.Some? && after.value < |all| - |ring|
    requires from == if after.None? || after.value <= |all| - |ring| then 0 else after.value - (|all| - |ring|)
    ensures Answers(all, ring, after, p)
  {
    hide Numbered;
    SliceRises(all, ring, from, n);
    hide Rising;
    Evicted(all, ring, if after.Some? then after.value else 0);
  }

  lemma EndOf(all: seq<Entry>, ring: seq<Entry>)
    requires IsHistory(all, ring)
    ensures |ring| <= |all| && ring == all[|all| - |ring|..]
  {
  }

  lemma NothingNewer(all: seq<Entry>, ring: seq<Entry>)
    requires IsHistory(all, ring) && Numbered(all)
    ensures ring == [] <==> all == []
  {
    if all != [] { LatestKept(all, ring); }
  }

  lemma SliceRises(all: seq<Entry>, ring: seq<Entry>, from: nat, n: nat)
    requires Numbered(all) && |ring| <= |all| && ring == all[|all| - |ring|..] && from + n <= |ring|
    ensures var v := ring[from..from + n];
            && Rising(v) && (forall e :: e in v ==> e in all && e.number > |all| - |ring| + from)
            && (n > 0 ==> v[0].number == |all| - |ring| + from + 1)
  {
    var v, gone := ring[from..from + n], |all| - |ring|;
    assert forall i :: 0 <= i < n ==> v[i] == all[gone + from + i];
  }

  /** What was evicted since `a`. */
  lemma Evicted(all: seq<Entry>, ring: seq<Entry>, a: nat)
    requires Numbered(all) && |ring| <= |all| && ring == all[|all| - |ring|..]
    ensures (exists e :: e in all && e.number > a && e !in ring) <==> a < |all| - |ring|
  {
    var gone := |all| - |ring|;
    if e :| e in all && e.number > a && e !in ring {
      var i :| 0 <= i < |all| && all[i] == e;
      assert forall j :: gone <= j < |all| ==> all[j] == ring[j - gone];
      assert i < gone;
    }
    if a < gone {
      var e := all[a];
      assert forall j :: 0 <= j < |ring| ==> ring[j].number == gone + j + 1;
      assert e in all && e.number > a && e !in ring;
    }
  }

  /** Another instance, or a cursor beyond the latest event, starts over from the
      oldest event kept; otherwise nothing is reset. */
  lemma ResetIff(all: seq<Entry>, ring: seq<Entry>, other: bool, after: Option<nat>, limit: nat, maxBytes: nat)
    requires IsHistory(all, ring) && Numbered(all) && limit > 0
    ensures var p := PageOf(ring, other, after, limit, maxBytes);
            && (p.reset <==> other || (after.Some? && after.value > |all|))
            && (p.reset ==> !p.truncated && p.events == PageOf(ring, false, None, limit, maxBytes).events)
            && (p.reset && all != [] ==> p.events != [] && p.events[0] == ring[0])
  {
    hide IsHistory, Numbered;
    HistoryNumbers(all, ring);
    NothingNewer(all, ring);
    var from, n := PageShape(all, ring, None, limit, maxBytes);
  }

  // ---------------------------------------------------------------- a client

  /** A poll: where the client was, and what it got. */
  datatype Poll = Poll(after: Option<nat>, page: Page)

  function NextAfter(q: Poll): Option<nat>
  {
    if q.page.events == [] then q.after else Some(q.page.events[|q.page.events| - 1].number)
  }

  /** All events, the ring, the client's position and its polls. */
  datatype Session = Session(all: seq<Entry>, ring: seq<Entry>, after: Option<nat>, log: seq<Poll>)

  datatype Step = Emit(size: nat) | Ask(limit: nat, maxBytes: nat)

  ghost predicate Takes(s: Session, e: Step, s': Session)
  {
    match e
    case Emit(size) =>
      && size <= RING_BYTES
      && s'.all == s.all + [Entry(|s.all| + 1, size)] && IsHistory(s'.all, s'.ring)
      && s'.after == s.after && s'.log == s.log
    case Ask(limit, maxBytes) =>
      && limit > 0
      && var q := Poll(s.after, PageOf(s.ring, false, s.after, limit, maxBytes));
         s' == s.(after := NextAfter(q), log := s.log + [q])
  }

  /** A poll without a silent gap. */
  predicate Honest(q: Poll)
  {
    && !q.page.reset && Rising(q.page.events)
    && (q.page.events != [] && q.after.Some? ==>
          && q.page.events[0].number > q.after.value
          && (!q.page.truncated ==> q.page.events[0].number == q.after.value + 1))
  }

  ghost predicate Inv(s: Session)
  {
    && IsHistory(s.all, s.ring) && Numbered(s.all) && (s.after.Some? ==> s.after.value <= |s.all|)
    && (forall i :: 0 <= i < |s.log| ==> Honest(s.log[i]))
    && (forall i :: 0 < i < |s.log| ==> s.log[i].after == NextAfter(s.log[i - 1]))
    && s.after == (if s.log == [] then None else NextAfter(s.log[|s.log| - 1]))
    && (s.log != [] ==> s.log[0].after.None?)
  }

  lemma StepKeeps(s: Session, e: Step, s': Session)
    requires Inv(s) && Takes(s, e, s')
    ensures Inv(s')
  {
    hide IsHistory, PageOf;
    if e.Ask? {
      var p := PageOf(s.ring, false, s.after, e.limit, e.maxBytes);
      PageAnswers(s.all, s.ring, s.after, e.limit, e.maxBytes);
      if p.events != [] {
        var last := p.events[|p.events| - 1];
        assert last in p.events;
        var i :| 0 <= i < |s.all| && s.all[i] == last;
      }
    }
  }

  ghost predicate IsRun(trace: seq<Session>, steps: seq<Step>)
  {
    && |trace| == |steps| + 1 && trace[0] == Session([], [], None, [])
    && forall i :: 0 <= i < |steps| ==> Takes(trace[i], steps[i], trace[i + 1])
  }

  lemma {:induction false} RunInv(trace: seq<Session>, steps: seq<Step>, i: nat)
    requires IsRun(trace, steps) && i < |trace|
    ensures Inv(trace[i])
    decreases i
  {
    hide Takes, IsHistory;
    if i > 0 {
      RunInv(trace, steps, i - 1);
      StepKeeps(trace[i - 1], steps[i - 1], trace[i]);
    } else {
      EmptyHistory();
    }
  }

  lemma EmptyHistory()
    ensures IsHistory([], [])
  {
  }

  /** What a client received, in order. */
  function Received(log: seq<Poll>): seq<Entry>
  {
    if log == [] then [] else Received(log[..|log| - 1]) + log[|log| - 1].page.events
  }

  ghost predicate Chained(log: seq<Poll>)
  {
    && (forall i :: 0 <= i < |log| ==> Honest(log[i]))
    && (forall i :: 0 < i < |log| ==> log[i].after == NextAfter(log[i - 1]))
    && (log != [] ==> log[0].after.None?)
  }

  lemma {:induction false} ReceivedEnd(log: seq<Poll>)
    requires Chained(log)
    ensures var v := Received(log);
            (if log == [] then None else NextAfter(log[|log| - 1])) == if v == [] then None else Some(v[|v| - 1].number)
    decreases |log|
  {
    if log != [] { ReceivedEnd(log[..|log| - 1]); }
  }

  predicate Increasing(v: seq<Entry>) { forall i :: 0 < i < |v| ==> v[i - 1].number < v[i].number }

  lemma Joined(a: seq<Entry>, b: seq<Entry>)
    requires a != [] && b != [] ==> a[|a| - 1].number < b[0].number
    ensures Increasing(a) && Rising(b) ==> Increasing(a + b)
    ensures Rising(a) && Rising(b) && (a != [] && b != [] ==> a[|a| - 1].number + 1 == b[0].number) ==> Rising(a + b)
  {
    var v := a + b;
    forall i | 0 < i < |v| ensures v[i] == if i < |a| then a[i] else b[i - |a|] {}
    if Increasing(a) && Rising(b) {
      forall i | 0 < i < |v| ensures v[i - 1].number < v[i].number {
        if i > |a| { assert v[i - 1] == b[i - |a| - 1]; }
      }
    }
    if Rising(a) && Rising(b) && (a != [] && b != [] ==> a[|a| - 1].number + 1 == b[0].number) {
      forall i | 0 < i < |v| ensures v[i].number == v[i - 1].number + 1 {
        if i > |a| { assert v[i - 1] == b[i - |a| - 1]; }
      }
    }
  }

  /** Over any run, the numbers received strictly increase, and without a
      truncated page nothing is missing between the first and the last. */
  lemma {:induction false} NoSilentGap(log: seq<Poll>)
    requires Chained(log)
    ensures Increasing(Received(log))
    ensures (forall i :: 0 <= i < |log| ==> !log[i].page.truncated) ==> Rising(Received(log))
    decreases |log|
  {
    hide Increasing, Rising;
    if log == [] {
      assert Received(log) == [];
      Joined([], []);
      EmptyRises();
    } else {
      var init, q := log[..|log| - 1], log[|log| - 1];
      NoSilentGap(init);
      ReceivedEnd(init);
      assert Honest(q);
      Joined(Received(init), q.page.events);
    }
  }

  lemma EmptyRises()
    ensures Increasing([]) && Rising([])
  {
  }

  /** The history promise, for every run of emissions and polls. */
  lemma ClientSeesEverything(trace: seq<Session>, steps: seq<Step>, i: nat)
    requires IsRun(trace, steps) && i < |trace|
    ensures Increasing(Received(trace[i].log))
    ensures (forall j :: 0 <= j < |trace[i].log| ==> !trace[i].log[j].page.truncated) ==> Rising(Received(trace[i].log))
    ensures Fits(trace[i].ring)
    ensures i < |steps| && steps[i].Ask? ==>
              Answers(trace[i].all, trace[i].ring, trace[i].after, trace[i + 1].log[|trace[i].log|].page)
  {
    RunInv(trace, steps, i);
    NoSilentGap(trace[i].log);
    hide Received, PageOf, Answers, Honest, Increasing, Rising;
    if i < |steps| && steps[i].Ask? {
      assert Takes(trace[i], steps[i], trace[i + 1]);
      PageAnswers(trace[i].all, trace[i].ring, trace[i].after, steps[i].limit, steps[i].maxBytes);
    }
  }
}
