/** A notifier's bounded queue (`Bus::emit` and `Queue::recv` in
    crates/polywan/src/events.rs, FR-EV-3), with the emitter and the receiver
    split into their atomic steps. */
module Notifier {
  import opened Model

  /** A selected event and its serialised size. */
  datatype Item = Item(id: nat, size: nat)

  /** What the emitter is doing: the size is already counted; `over` if the
      count it saw exceeds the bound. */
  datatype Emitter = Idle | Counted(item: Item, over: bool)

  /** The shared counter and channel, the two sides in the middle of a step, and
      the events emitted, accepted into the channel, delivered and dropped. */
  datatype State = State(counter: int, queue: seq<Item>, emitter: Emitter, taking: Option<Item>,
                         emitted: seq<Item>, accepted: seq<Item>, delivered: seq<Item>, dropped: seq<Item>)

  datatype Limits = Limits(capacity: nat, maxBytes: nat)

  datatype Step =
    | Count(item: Item)   // bytes.fetch_add
    | Send                // try_send succeeds
    | GiveUp              // bytes.fetch_sub, dropped += 1
    | Take                // rx.recv
    | Release             // bytes.fetch_sub by the receiver

  /** Over the bound it gives up; otherwise it sends if there is room, and gives
      up if the channel is full or closed. */
  predicate Enabled(l: Limits, s: State, e: Step)
  {
    match e
    case Count(_) => s.emitter.Idle?
    case Send => s.emitter.Counted? && !s.emitter.over && |s.queue| < l.capacity
    case GiveUp => s.emitter.Counted?
    case Take => s.taking.None? && s.queue != []
    case Release => s.taking.Some?
  }

  function After(l: Limits, s: State, e: Step): State
    requires Enabled(l, s, e)
  {
    match e
    case Count(item) =>
      s.(counter := s.counter + item.size, emitter := Counted(item, s.counter + item.size > l.maxBytes),
         emitted := s.emitted + [item])
    case Send =>
      s.(queue := s.queue + [s.emitter.item], accepted := s.accepted + [s.emitter.item], emitter := Idle)
    case GiveUp =>
      s.(counter := s.counter - s.emitter.item.size, dropped := s.dropped + [s.emitter.item], emitter := Idle)
    case Take => s.(queue := s.queue[1..], taking := Some(s.queue[0]), delivered := s.delivered + [s.queue[0]])
    case Release => s.(counter := s.counter - s.taking.value.size, taking := None)
  }

  // --------------------------------------------------------------- invariants

  function Sizes(v: seq<Item>): nat { if v == [] then 0 else v[0].size + Sizes(v[1..]) }

  lemma {:induction false} SizesAppend(v: seq<Item>, x: Item)
    ensures Sizes(v + [x]) == Sizes(v) + x.size
    decreases |v|
  {
    if v == [] {
      assert v + [x] == [x] && [x][1..] == [];
    } else {
      assert (v + [x])[1..] == v[1..] + [x];
      SizesAppend(v[1..], x);
    }
  }

  function Counting(s: State): seq<Item> { if s.emitter.Idle? then [] else [s.emitter.item] }

  function Taking(s: State): nat { if s.taking.None? then 0 else s.taking.value.size }

  /** The counter is what is queued plus what either side still holds. */
  predicate Exact(s: State)
  {
    s.counter == Sizes(s.queue) + (if s.emitter.Idle? then 0 else s.emitter.item.size) + Taking(s)
  }

  predicate Bounded(l: Limits, s: State)
  {
    && Sizes(s.queue) <= l.maxBytes && |s.queue| <= l.capacity
    && (s.emitter.Counted? && !s.emitter.over ==> Sizes(s.queue) + s.emitter.item.size <= l.maxBytes)
  }

  /** Nothing is lost, duplicated or reordered. */
  ghost predicate Conserved(s: State)
  {
    && s.accepted == s.delivered + s.queue
    && multiset(s.emitted) == multiset(s.accepted) + multiset(s.dropped) + multiset(Counting(s))
  }

  ghost predicate Inv(l: Limits, s: State) { Exact(s) && Bounded(l, s) && Conserved(s) }

  const START := State(0, [], Idle, None, [], [], [], [])

  lemma StepCounts(l: Limits, s: State, e: Step)
    requires Exact(s) && Bounded(l, s) && Enabled(l, s, e)
    ensures Exact(After(l, s, e)) && Bounded(l, After(l, s, e))
  {
    if e.Send? { SizesAppend(s.queue, s.emitter.item); }
    if e.Take? { FirstSize(s.queue); }
    hide Sizes;
  }

  lemma FirstSize(v: seq<Item>)
    requires v != []
    ensures Sizes(v) == v[0].size + Sizes(v[1..])
  {
  }

  lemma Appended(v: seq<Item>, x: Item)
    ensures multiset(v + [x]) == multiset(v) + multiset([x])
  {
  }

  lemma EmitterConserves(l: Limits, s: State, e: Step)
    requires Conserved(s) && Enabled(l, s, e) && (e.Count? || e.Send? || e.GiveUp?)
    ensures Conserved(After(l, s, e))
  {
    var x := if e.Count? then e.item else s.emitter.item;
    Appended(s.emitted, x);
    Appended(s.accepted, x);
    Appended(s.dropped, x);
    assert s.delivered + s.queue + [x] == s.delivered + (s.queue + [x]);
  }

  lemma ReceiverConserves(l: Limits, s: State, e: Step)
    requires Conserved(s) && Enabled(l, s, e) && (e.Take? || e.Release?)
    ensures Conserved(After(l, s, e))
  {
    if e.Take? { assert s.delivered + s.queue == s.delivered + [s.queue[0]] + s.queue[1..]; }
  }

  lemma StepConserves(l: Limits, s: State, e: Step)
    requires Conserved(s) && Enabled(l, s, e)
    ensures Conserved(After(l, s, e))
  {
    hide Conserved, After;
    if e.Take? || e.Release? { ReceiverConserves(l, s, e); } else { EmitterConserves(l, s, e); }
  }

  lemma StepKeeps(l: Limits, s: State, e: Step)
    requires Inv(l, s) && Enabled(l, s, e)
    ensures Inv(l, After(l, s, e))
  {
    hide Exact, Bounded, Conserved, After;
    StepCounts(l, s, e);
    StepConserves(l, s, e);
  }

  ghost predicate IsRun(l: Limits, trace: seq<State>, steps: seq<Step>)
  {
    && |trace| == |steps| + 1 && trace[0] == START
    && forall i :: 0 <= i < |steps| ==> Enabled(l, trace[i], steps[i]) && trace[i + 1] == After(l, trace[i], steps[i])
  }

  lemma {:induction false} RunInv(l: Limits, trace: seq<State>, steps: seq<Step>, i: nat)
    requires IsRun(l, trace, steps) && i < |trace|
    ensures Inv(l, trace[i])
    decreases i
  {
    hide Inv, Enabled, After;
    if i > 0 {
      RunInv(l, trace, steps, i - 1);
      StepKeeps(l, trace[i - 1], steps[i - 1]);
    } else {
      StartInv(l);
    }
  }

  lemma StartInv(l: Limits)
    ensures Inv(l, START)
  {
  }

  /** Under every interleaving: the counter never falls below the bytes queued,
      the queue never exceeds its bounds, events are delivered in the order they
      were accepted, and every event is delivered, queued, dropped or being
      handed over. */
  lemma QueuePromise(l: Limits, trace: seq<State>, steps: seq<Step>, i: nat)
    requires IsRun(l, trace, steps) && i < |trace|
    ensures var s := trace[i];
            && s.counter >= Sizes(s.queue) && Sizes(s.queue) <= l.maxBytes && |s.queue| <= l.capacity
            && s.delivered <= s.accepted
            && |s.emitted| == |s.delivered| + |s.queue| + |s.dropped| + |Counting(s)|
            && (s.emitter.Idle? ==>
                  multiset(s.emitted) == multiset(s.delivered) + multiset(s.queue) + multiset(s.dropped))
  {
    hide Enabled, After, Sizes;
    RunInv(l, trace, steps, i);
    var s := trace[i];
    assert |multiset(s.emitted)| == |s.emitted|;
    assert multiset(s.accepted) == multiset(s.delivered) + multiset(s.queue);
  }

  /** An event that is given up although the channel has room was over the bound
      together with what was queued or being handed over then. */
  lemma DroppedForCause(l: Limits, s: State, item: Item)
    requires Inv(l, s) && Enabled(l, s, Count(item))
    ensures After(l, s, Count(item)).emitter.over <==> Sizes(s.queue) + Taking(s) + item.size > l.maxBytes
  {
  }
}
