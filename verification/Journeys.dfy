/** Whole journeys of the packets of a connection: what the marking chains and
    the planned rules do together (FR-MARK-3, FR-MARK-5, FR-POL-1, INV-2,
    INV-5, INV-7). */
module Journeys {
  import opened Model
  import opened Marks
  import opened Configuration
  import opened Nft
  import opened Stickiness
  import opened Planner
  import opened Meaning
  import opened ClassTable
  import opened Observed
  import opened RunSafety

  // ------------------------------------------- connections without a path

  predicate PolicyMatches(q: Policy, p: NftPacket)
  {
    q.family == p.family && p.input in q.inputs && p.original && p.flow in q.flows
  }

  lemma PolicyHolds(s: Shift, q: Policy, p: NftPacket, x: MarkPair)
    ensures RuleHolds(s, PolicyRule(q), p, x) <==> PolicyMatches(q, p)
  {
    var m := PolicyRule(q).matches;
    if RuleHolds(s, PolicyRule(q), p, x) {
      assert MatchHolds(s, m[0], p, x) && MatchHolds(s, m[1], p, x)
          && MatchHolds(s, m[2], p, x) && MatchHolds(s, m[3], p, x);
    }
  }

  /** Policies, first match wins, write the packet mark only. */
  lemma PoliciesMean(s: Shift, ps: seq<Policy>, p: NftPacket, x: MarkPair)
    ensures forall i :: 0 <= i < |ps| && PolicyMatches(ps[i], p)
                        && (forall j :: 0 <= j < i ==> !PolicyMatches(ps[j], p)) ==>
              RunChain(s, PolicyRules(ps), p, x) == ApplyWrite(s, SetMeta(PolicyValue(ps[i])), x)
    ensures (forall i :: 0 <= i < |ps| ==> !PolicyMatches(ps[i], p)) ==> RunChain(s, PolicyRules(ps), p, x) == x
  {
    hide RuleHolds, RunChain, ApplyWrites, ApplyWrite, PolicyMatches, PolicyRule;
    var c := PolicyRules(ps);
    forall i | 0 <= i < |ps| ensures RuleHolds(s, c[i], p, x) <==> PolicyMatches(ps[i], p) {
      PolicyHolds(s, ps[i], p, x);
    }
    forall i | 0 <= i < |ps| && PolicyMatches(ps[i], p) && (forall j :: 0 <= j < i ==> !PolicyMatches(ps[j], p))
      ensures RunChain(s, c, p, x) == ApplyWrite(s, SetMeta(PolicyValue(ps[i])), x)
    {
      RunFrom(s, c, p, x, i);
      PolicyWrites(ps[i]);
      OneWrite(s, SetMeta(PolicyValue(ps[i])), x);
    }
    if forall i :: 0 <= i < |ps| ==> !PolicyMatches(ps[i], p) {
      RunNone(s, c, p, x);
    }
  }

  lemma PolicyWrites(q: Policy)
    ensures PolicyRule(q).writes == [SetMeta(PolicyValue(q))]
  {
  }

  /** Prerouting leaves these packets alone when the connection has no path. */
  predicate Unmarked(cfg: Config, p: NftPacket)
  {
    LeftAlone(cfg, p.family) || !p.tracked || !p.forHost || p.group || (p.family == V4 && p.broadcast)
  }

  lemma GroupSkipsMean(s: Shift, p: NftPacket, x: MarkPair)
    ensures var c := GroupSkips() + Skip(LocalBroadcast);
            && RunChain(s, c, p, x) == x
            && (Stops(s, c, p, x) <==> p.group || (p.family == V4 && p.broadcast))
  {
    hide RunChain, Stops, Skip;
    var g4 := Skip(GroupDestination(V4));
    SkipStops(s, GroupDestination(V4), p, x);
    TwoSkips(s, g4, GroupDestination(V6), p, x);
    TwoSkips(s, GroupSkips(), LocalBroadcast, p, x);
  }

  /** Prerouting of a connection without a path: the uplink it arrives on
      becomes its path (INV-5); otherwise the first matching policy marks the
      packet; otherwise nothing changes. */
  lemma FreshPrerouting(cfg: Config, p: NftPacket, x: MarkPair)
    requires ValidConfig(cfg) && !IsPath(Field(cfg.layout.shift, x.ct))
    ensures var s, y := cfg.layout.shift, RunChain(cfg.layout.shift, TableOf(cfg).prerouting, p, x);
            && (Unmarked(cfg, p) ==> y == x)
            && (forall u :: !Unmarked(cfg, p) && ArrivesOnPath(cfg, u, p) ==> y == Assign(s, u.id, x))
            && (!Unmarked(cfg, p) && (forall u :: !ArrivesOnPath(cfg, u, p)) ==>
                  y == RunChain(s, PolicyRules(cfg.policies), p, x))
  {
    hide RunChain, Stops, Restores, PreSkips, LeftAlone, GroupSkips, Skip, InboundRules, PolicyRules, Assign;
    hide ArrivesOnPath, ValidConfig, IsPath;
    var s := cfg.layout.shift;
    var skips, inbound := GroupSkips() + Skip(LocalBroadcast), InboundRules(cfg.uplinks);
    Restored(s, p, x);
    PreSkipsMean(cfg, p, x);
    GroupSkipsMean(s, p, x);
    InboundMeans(cfg, p, x);
    ChainConcat(s, PreSkips(cfg), Restores(), p, x);
    ChainConcat(s, skips, inbound, p, x);
    ChainConcat(s, skips + inbound, PolicyRules(cfg.policies), p, x);
    ChainConcat(s, PreSkips(cfg) + Restores(), skips + inbound + PolicyRules(cfg.policies), p, x);
  }

  /** Postrouting of a connection without a path: the uplink it leaves
      through becomes its path. */
  lemma FreshPostrouting(cfg: Config, p: NftPacket, x: MarkPair)
    requires ValidConfig(cfg)
    ensures var s, y := cfg.layout.shift, RunChain(cfg.layout.shift, TableOf(cfg).postrouting, p, x);
            var skipped := LeftAlone(cfg, p.family) || IsProbe(s, x.meta) || !p.tracked || !Unicast(p)
                           || Field(s, x.ct) != 0;
            && (skipped || (forall u :: !LeavesOnPath(cfg, u, p)) ==> y == x)
            && (forall u :: !skipped && LeavesOnPath(cfg, u, p) ==> y == Assign(s, u.id, x))
  {
    hide RunChain, Stops, PostSkips, LeftAlone, OutgoingRules, Assign, LeavesOnPath, ValidConfig, IsProbe, Unicast;
    var s := cfg.layout.shift;
    PostSkipsMean(cfg, p, x);
    OutgoingMeans(cfg, p, x);
    ChainConcat(s, PostSkips(cfg), OutgoingRules(cfg.uplinks), p, x);
  }

  // --------------------------------------------------------------- journeys

  datatype Journey = Forwarded | Delivered | Sent

  /** The mark a packet is finally routed with, and its marks at the end. */
  datatype Passage = Passage(routed: Mark, after: MarkPair)

  function Traverse(cfg: Config, j: Journey, p: NftPacket, x: MarkPair): Passage
  {
    var s, t := cfg.layout.shift, TableOf(cfg);
    match j
    case Forwarded => var y := RunChain(s, t.prerouting, p, x); Passage(y.meta, RunChain(s, t.postrouting, p, y))
    case Delivered => var y := RunChain(s, t.prerouting, p, x); Passage(y.meta, y)
    case Sent => var y := RunChain(s, t.output, p, x); Passage(y.meta, RunChain(s, t.postrouting, p, y))
  }

  /** Tracked traffic of a family PolyWAN does not leave alone, received for
      this host's link address or sent without a probe mark. */
  predicate Steered(cfg: Config, j: Journey, p: NftPacket, meta: Mark)
  {
    && !LeftAlone(cfg, p.family) && p.tracked
    && (if j == Sent then !IsProbe(cfg.layout.shift, meta) else p.forHost)
  }

  lemma RepinMeans(s: Shift, x: MarkPair)
    ensures Repin(s, x).ct == x.ct && Field(s, Repin(s, x).meta) == Field(s, x.ct)
  {
    hide SetField, Field;
    SetFieldMeaning(s, x.meta, Field(s, x.ct));
  }

  /** INV-2: no journey of any packet changes a path; the steered ones are
      routed with it. */
  lemma JourneyKeepsPath(cfg: Config, j: Journey, p: NftPacket, x: MarkPair)
    requires IsPath(Field(cfg.layout.shift, x.ct))
    ensures Traverse(cfg, j, p, x).after.ct == x.ct
    ensures Steered(cfg, j, p, x.meta) ==>
              Field(cfg.layout.shift, Traverse(cfg, j, p, x).routed) == Field(cfg.layout.shift, x.ct)
  {
    hide RunChain, TableOf, LeftAlone, IsProbe, Repin, Field;
    var s := cfg.layout.shift;
    PinnedChains(cfg, p, x);
    RepinMeans(s, x);
    PinnedChains(cfg, p, Repin(s, x));
  }

  /** INV-7: no journey changes a bit outside the field. */
  lemma JourneyKeepsForeign(cfg: Config, j: Journey, p: NftPacket, x: MarkPair)
    ensures SameForeign(cfg.layout.shift, x, Traverse(cfg, j, p, x).after)
    ensures Foreign(cfg.layout.shift, Traverse(cfg, j, p, x).routed) == Foreign(cfg.layout.shift, x.meta)
  {
    hide RunChain, TableOf, Foreign;
    var s, t := cfg.layout.shift, TableOf(cfg);
    var y := RunChain(s, if j == Sent then t.output else t.prerouting, p, x);
    ChainKeepsForeign(s, if j == Sent then t.output else t.prerouting, p, x);
    ChainKeepsForeign(s, t.postrouting, p, y);
  }

  /** A connection without a path gets none, or that of the uplink its packet
      arrived on or left through, in the original direction. */
  lemma JourneyAssigns(cfg: Config, j: Journey, p: NftPacket, x: MarkPair)
    requires ValidConfig(cfg) && Field(cfg.layout.shift, x.ct) == 0
    ensures var y := Traverse(cfg, j, p, x).after;
            || y.ct == x.ct
            || exists u :: (ArrivesOnPath(cfg, u, p) || LeavesOnPath(cfg, u, p)) && Field(cfg.layout.shift, y.ct) == u.id
  {
    hide RunChain, TableOf, LeftAlone, IsProbe, Field, Unmarked, ValidConfig, Unicast, ArrivesOnPath, LeavesOnPath;
    var s, t := cfg.layout.shift, TableOf(cfg);
    var y: MarkPair;
    if j == Sent {
      y := RunChain(s, t.output, p, x);
      FreshOutput(cfg, p, x);
    } else {
      y := RunChain(s, t.prerouting, p, x);
      FirstAssignment(cfg, p, x);
    }
    if y.ct != x.ct {
      var u :| ArrivesOnPath(cfg, u, p) && Field(s, y.ct) == u.id;
      JourneyEnds(cfg, p, y);
    } else if j != Delivered {
      FreshPostrouting(cfg, p, y);
      if u :| LeavesOnPath(cfg, u, p) { BothWrites(s, u.id, y); }
    }
  }

  lemma JourneyEnds(cfg: Config, p: NftPacket, y: MarkPair)
    requires IsPath(Field(cfg.layout.shift, y.ct))
    ensures RunChain(cfg.layout.shift, TableOf(cfg).postrouting, p, y) == y
  {
    hide RunChain, TableOf, LeftAlone, IsProbe, Repin, Field;
    PinnedChains(cfg, p, y);
  }

  lemma FreshOutput(cfg: Config, p: NftPacket, x: MarkPair)
    requires !IsPath(Field(cfg.layout.shift, x.ct))
    ensures RunChain(cfg.layout.shift, TableOf(cfg).output, p, x) == x
  {
    hide RunChain, Stops, Restores, OutSkips, LeftAlone, IsPath;
    var s := cfg.layout.shift;
    Restored(s, p, x);
    OutSkipsMean(cfg, p, x);
    ChainConcat(s, OutSkips(cfg), Restores(), p, x);
  }

  lemma FirstAssignment(cfg: Config, p: NftPacket, x: MarkPair)
    requires ValidConfig(cfg) && Field(cfg.layout.shift, x.ct) == 0
    ensures var y := RunChain(cfg.layout.shift, TableOf(cfg).prerouting, p, x);
            y.ct == x.ct || exists u :: ArrivesOnPath(cfg, u, p) && Field(cfg.layout.shift, y.ct) == u.id
  {
    hide RunChain, TableOf, Field, Unmarked, ValidConfig, ArrivesOnPath, Assign;
    var s := cfg.layout.shift;
    FreshPrerouting(cfg, p, x);
    if u :| ArrivesOnPath(cfg, u, p) {
      BothWrites(s, u.id, x);
    } else {
      PoliciesKeepCt(s, cfg.policies, p, x);
    }
  }

  lemma {:induction false} PoliciesKeepCt(s: Shift, ps: seq<Policy>, p: NftPacket, x: MarkPair)
    ensures RunChain(s, PolicyRules(ps), p, x).ct == x.ct
  {
    hide RunChain, RuleHolds, ApplyWrites;
    var c := PolicyRules(ps);
    if Stops(s, c, p, x) {
      var r := Writer(s, c, p, x);
      var i :| 0 <= i < |c| && c[i] == r;
      PolicyWrites(ps[i]);
      OneWrite(s, SetMeta(PolicyValue(ps[i])), x);
    } else {
      RunNone(s, c, p, x);
    }
  }

  /** A packet that a policy selects first, end to end: main's other routes, the
      policy's own table, and then its fallback: balancing or nothing. */
  lemma PolicySteers(cfg: Config, p: NftPacket, x: MarkPair, i: nat, input: Input, v: seq<Rule>, a: Ip, t: Tables)
    requires ValidConfig(cfg) && !IsPath(Field(cfg.layout.shift, x.ct)) && !Unmarked(cfg, p)
    requires (forall u :: !ArrivesOnPath(cfg, u, p)) && Manages(cfg, p.family) && Lists(v, Plan(cfg, input).rules)
    requires i < |cfg.policies| && PolicyMatches(cfg.policies[i], p)
    requires forall j :: 0 <= j < i ==> !PolicyMatches(cfg.policies[j], p)
    ensures var l, q, y := cfg.layout, cfg.policies[i], RunChain(cfg.layout.shift, TableOf(cfg).prerouting, p, x);
            var local := LocalsOf(cfg, input, p.family);
            && y.ct == x.ct
            && Evaluate(v, Packet(p.family, y.meta, a), t)
               == if t.mainCovers then ViaMain
                  else if q.fallback == Balance
                  then Own(local, q.uplink, PolicyBalanceTable(l, q.uplink), t, Balancing(l, t))
                  else Own(local, q.uplink, PolicyBlockTable(l, q.uplink), t, Rejected)
  {
    hide RunChain, TableOf, Field, Unmarked, ArrivesOnPath, Manages, Lists, Plan, PolicyMatches, Evaluate, LocalsOf;
    hide PolicyValue, ClassVerdict, ValidConfig, IsPath, Own, Balancing;
    PolicyMarks(cfg, p, x, i);
    PolicyVerdict(cfg.layout, LocalsOf(cfg, input, p.family), cfg.policies[i], a, t);
    PlannedRulesMean(cfg, input, v,
                     Packet(p.family, RunChain(cfg.layout.shift, TableOf(cfg).prerouting, p, x).meta, a), t);
  }

  lemma PolicyMarks(cfg: Config, p: NftPacket, x: MarkPair, i: nat)
    requires ValidConfig(cfg) && !IsPath(Field(cfg.layout.shift, x.ct)) && !Unmarked(cfg, p)
    requires forall u :: !ArrivesOnPath(cfg, u, p)
    requires i < |cfg.policies| && PolicyMatches(cfg.policies[i], p)
    requires forall j :: 0 <= j < i ==> !PolicyMatches(cfg.policies[j], p)
    ensures var y := RunChain(cfg.layout.shift, TableOf(cfg).prerouting, p, x);
            y.ct == x.ct && Field(cfg.layout.shift, y.meta) == PolicyValue(cfg.policies[i])
  {
    hide RunChain, TableOf, Field, Unmarked, ArrivesOnPath, PolicyMatches, PolicyRules, SetField, PolicyValue;
    hide ValidConfig, IsPath;
    var s := cfg.layout.shift;
    FreshPrerouting(cfg, p, x);
    PoliciesMean(s, cfg.policies, p, x);
    SetFieldMeaning(s, x.meta, PolicyValue(cfg.policies[i]));
  }

  lemma PolicyVerdict(l: Layout, local: Locals, q: Policy, a: Ip, t: Tables)
    ensures ClassVerdict(l, local, PolicyValue(q), a, t)
         == if t.mainCovers then ViaMain
            else if q.fallback == Balance
            then Own(local, q.uplink, PolicyBalanceTable(l, q.uplink), t, Balancing(l, t))
            else Own(local, q.uplink, PolicyBlockTable(l, q.uplink), t, Rejected)
  {
    hide Own, Balancing;
  }

  // -------------------------------------------------------- whole histories

  /** One packet of the connection under the ruleset of that moment. */
  datatype Event = Event(cfg: Config, journey: Journey, packet: NftPacket, meta: Mark)

  /** The conntrack mark after the packets of a history. */
  function CtAfter(h: seq<Event>, ct: Mark): Mark
  {
    if h == [] then ct
    else
      var e, before := h[|h| - 1], CtAfter(h[..|h| - 1], ct);
      Traverse(e.cfg, e.journey, e.packet, MarkPair(e.meta, before)).after.ct
  }

  /** The mark the last packet of a history is routed with. */
  function LastRouted(h: seq<Event>, ct: Mark): Mark
    requires h != []
  {
    var e := h[|h| - 1];
    Traverse(e.cfg, e.journey, e.packet, MarkPair(e.meta, CtAfter(h[..|h| - 1], ct))).routed
  }

  ghost predicate OneMask(h: seq<Event>, s: Shift) { forall e :: e in h ==> e.cfg.layout.shift == s }

  /** Whatever rulesets with this mask are loaded meanwhile, a path stays. */
  lemma {:induction false} PathIsForever(h: seq<Event>, s: Shift, ct: Mark)
    requires OneMask(h, s) && IsPath(Field(s, ct))
    ensures CtAfter(h, ct) == ct
    decreases |h|
  {
    hide Traverse, Field;
    if h != [] {
      var e := h[|h| - 1];
      PathIsForever(h[..|h| - 1], s, ct);
      JourneyKeepsPath(e.cfg, e.journey, e.packet, MarkPair(e.meta, ct));
    }
  }

  /** The foreign bits of the conntrack mark are those it started with. */
  lemma {:induction false} ForeignIsForever(h: seq<Event>, s: Shift, ct: Mark)
    requires OneMask(h, s)
    ensures Foreign(s, CtAfter(h, ct)) == Foreign(s, ct)
    decreases |h|
  {
    hide Traverse, Foreign;
    if h != [] {
      var e := h[|h| - 1];
      ForeignIsForever(h[..|h| - 1], s, ct);
      JourneyKeepsForeign(e.cfg, e.journey, e.packet, MarkPair(e.meta, CtAfter(h[..|h| - 1], ct)));
    }
  }

  /** What a connection with path `id` may meet once the plan is installed. */
  function PinnedVerdict(l: Layout, local: Locals, id: UplinkId, t: Tables): Verdict
  {
    if t.mainCovers then ViaMain
    else if id in local && PathTable(l, id) in t.filled then ViaTable(PathTable(l, id))
    else Rejected
  }

  /** End to end: every later steered packet of the connection is answered by
      a non-default main route, by its own path table, or not at all. */
  lemma ConnectionSticks(h: seq<Event>, ct: Mark, input: Input, v: seq<Rule>, a: Ip, t: Tables)
    requires h != [] && OneMask(h, h[|h| - 1].cfg.layout.shift) && IsPath(Field(h[|h| - 1].cfg.layout.shift, ct))
    requires var e := h[|h| - 1];
             && Steered(e.cfg, e.journey, e.packet, e.meta) && Manages(e.cfg, e.packet.family)
             && Lists(v, Plan(e.cfg, input).rules)
    ensures var e := h[|h| - 1];
            && CtAfter(h, ct) == ct
            && Evaluate(v, Packet(e.packet.family, LastRouted(h, ct), a), t)
               == PinnedVerdict(e.cfg.layout, LocalsOf(e.cfg, input, e.packet.family), Field(e.cfg.layout.shift, ct), t)
  {
    hide Traverse, Field, Evaluate, Lists, Plan, LocalsOf, Manages, Steered;
    var e := h[|h| - 1];
    var s := e.cfg.layout.shift;
    PathIsForever(h, s, ct);
    PathIsForever(h[..|h| - 1], s, ct);
    JourneyKeepsPath(e.cfg, e.journey, e.packet, MarkPair(e.meta, ct));
    PlannedRulesMean(e.cfg, input, v, Packet(e.packet.family, LastRouted(h, ct), a), t);
  }

  /** The same while reconciliation is under way: in every state of every run
      of passes, the packet meets nothing else of PolyWAN's rules. */
  lemma ConnectionConfined(h: seq<Event>, ct: Mark, scope: Scope, l: Layout, protocol: nat, trace: seq<System>,
                           passes: seq<Pass>, i: nat)
    returns (k: set<Rule>)
    requires h != [] && OneMask(h, l.shift) && IsPath(Field(l.shift, ct))
    requires var e := h[|h| - 1]; Steered(e.cfg, e.journey, e.packet, e.meta)
    requires IsRun(scope, l, protocol, trace, passes) && i < |trace|
    ensures Represents(trace[i], l, protocol, k)
    ensures forall v, pkt: Packet, t ::
              Lists(v, k) && pkt.family == h[|h| - 1].packet.family && pkt.mark == LastRouted(h, ct) ==>
              && Evaluate(v, pkt, t) in {ViaMain, ViaTable(PathTable(l, Field(l.shift, ct))), Rejected, PassedOn}
              && (Evaluate(v, pkt, t) == PassedOn ==> !AnyLookup(k, pkt.family))
  {
    hide Traverse, Field, Evaluate, Lists, IsRun, Represents, AnyLookup, Steered;
    var e := h[|h| - 1];
    PathIsForever(h[..|h| - 1], l.shift, ct);
    JourneyKeepsPath(e.cfg, e.journey, e.packet, MarkPair(e.meta, ct));
    k := RunConfines(scope, l, protocol, trace, passes, i);
  }
}
