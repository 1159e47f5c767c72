/** The mark lifecycle (FR-MARK-3, FR-MARK-5, INV-2, INV-5, INV-7): a
    connection that has a path keeps it, whatever the rulesets become, and its
    packets are looked up with it. */
module Stickiness {
  import opened Model
  import opened Marks
  import opened Configuration
  import opened Nft
  import opened Planner
  import opened Meaning
  import opened ClassTable

  predicate IsPath(field: FieldValue) { 1 <= field <= 63 }

  // ------------------------------------------------------------ restoration

  lemma {:induction false} RunFrom(s: Shift, c: Chain, p: NftPacket, x: MarkPair, i: nat)
    requires i < |c| && RuleHolds(s, c[i], p, x) && forall j :: 0 <= j < i ==> !RuleHolds(s, c[j], p, x)
    ensures RunChain(s, c, p, x) == ApplyWrites(s, c[i].writes, x)
    decreases i
  {
    hide RuleHolds, ApplyWrites;
    if i > 0 {
      assert c[1..][i - 1] == c[i];
      assert forall j :: 0 <= j < i - 1 ==> c[1..][j] == c[j + 1];
      RunFrom(s, c[1..], p, x, i - 1);
    }
  }

  lemma {:induction false} RunNone(s: Shift, c: Chain, p: NftPacket, x: MarkPair)
    requires !Stops(s, c, p, x)
    ensures RunChain(s, c, p, x) == x
    decreases |c|
  {
    hide RuleHolds, ApplyWrites;
    if c != [] {
      assert forall j :: 0 <= j < |c| - 1 ==> c[1..][j] == c[j + 1];
      RunNone(s, c[1..], p, x);
    }
  }

  lemma RestoreHolds(s: Shift, i: nat, p: NftPacket, x: MarkPair)
    requires i < 63
    ensures RuleHolds(s, Restores()[i], p, x) <==> Field(s, x.ct) == i + 1
  {
    var r := Restores()[i];
    assert r == NftRule([CtHolds(i + 1)], [SetMeta(i + 1)]);
    ValueSelector(s, i + 1, x.ct);
    assert MatchHolds(s, r.matches[0], p, x) <==> Field(s, x.ct) == i + 1;
  }

  lemma OneWrite(s: Shift, w: Write, x: MarkPair)
    ensures ApplyWrites(s, [w], x) == ApplyWrite(s, w, x)
  {
    assert [w][1..] == [];
    assert ApplyWrites(s, [], ApplyWrite(s, w, x)) == ApplyWrite(s, w, x);
  }

  /** Restoration copies exactly the 63 path values. */
  lemma Restored(s: Shift, p: NftPacket, x: MarkPair)
    ensures Stops(s, Restores(), p, x) <==> IsPath(Field(s, x.ct))
    ensures RunChain(s, Restores(), p, x)
         == if IsPath(Field(s, x.ct)) then ApplyWrite(s, SetMeta(Field(s, x.ct)), x) else x
  {
    hide RuleHolds, ApplyWrite, ApplyWrites, Field;
    var v := Field(s, x.ct);
    forall i | 0 <= i < 63 ensures RuleHolds(s, Restores()[i], p, x) <==> v == i + 1 {
      RestoreHolds(s, i, p, x);
    }
    if IsPath(v) {
      assert RuleHolds(s, Restores()[v - 1], p, x);
      RunFrom(s, Restores(), p, x, v - 1);
      OneWrite(s, SetMeta(v), x);
    } else {
      RunNone(s, Restores(), p, x);
    }
  }

  // ------------------------------------------------------------------ skips

  lemma TwoSkips(s: Shift, a: Chain, m: Match, p: NftPacket, x: MarkPair)
    requires RunChain(s, a, p, x) == x
    ensures RunChain(s, a + Skip(m), p, x) == x
    ensures Stops(s, a + Skip(m), p, x) <==> Stops(s, a, p, x) || MatchHolds(s, m, p, x)
  {
    hide RunChain, Stops, MatchHolds;
    ChainConcat(s, a, Skip(m), p, x);
    SkipStops(s, m, p, x);
  }

  /** The family is left alone: another one is the only managed family. */
  predicate LeftAlone(cfg: Config, f: Family)
  {
    !Manages(cfg, f) && Manages(cfg, if f == V4 then V6 else V4)
  }

  lemma FamilySkip(cfg: Config, p: NftPacket, x: MarkPair)
    ensures RunChain(cfg.layout.shift, OtherFamilySkip(cfg), p, x) == x
    ensures Stops(cfg.layout.shift, OtherFamilySkip(cfg), p, x) <==> LeftAlone(cfg, p.family)
  {
    hide Manages;
    SkipStops(cfg.layout.shift, OtherThan(V4), p, x);
    SkipStops(cfg.layout.shift, OtherThan(V6), p, x);
  }

  lemma PreSkipsMean(cfg: Config, p: NftPacket, x: MarkPair)
    ensures RunChain(cfg.layout.shift, PreSkips(cfg), p, x) == x
    ensures Stops(cfg.layout.shift, PreSkips(cfg), p, x)
       <==> LeftAlone(cfg, p.family) || !p.tracked || !p.forHost
  {
    hide RunChain, Stops, OtherFamilySkip, Skip, LeftAlone;
    var s := cfg.layout.shift;
    FamilySkip(cfg, p, x);
    TwoSkips(s, OtherFamilySkip(cfg), Untracked, p, x);
    TwoSkips(s, OtherFamilySkip(cfg) + Skip(Untracked), NotForHost, p, x);
  }

  predicate IsProbe(s: Shift, meta: Mark) { Field(s, meta) / 64 == CLASS_PROBE }

  lemma OutSkipsMean(cfg: Config, p: NftPacket, x: MarkPair)
    ensures RunChain(cfg.layout.shift, OutSkips(cfg), p, x) == x
    ensures Stops(cfg.layout.shift, OutSkips(cfg), p, x)
       <==> LeftAlone(cfg, p.family) || IsProbe(cfg.layout.shift, x.meta) || !p.tracked
  {
    hide RunChain, Stops, OtherFamilySkip, Skip, LeftAlone;
    var s := cfg.layout.shift;
    FamilySkip(cfg, p, x);
    ClassSelector(s, CLASS_PROBE, x.meta);
    TwoSkips(s, OtherFamilySkip(cfg), ProbeMark, p, x);
    TwoSkips(s, OtherFamilySkip(cfg) + Skip(ProbeMark), Untracked, p, x);
  }

  predicate Unicast(p: NftPacket) { !p.group && !(p.family == V4 && p.egressBroadcast) }

  lemma AssignedMeans(s: Shift, p: NftPacket, x: MarkPair)
    ensures MatchHolds(s, CtAssigned, p, x) <==> Field(s, x.ct) != 0
  {
    ValueSelector(s, 0, x.ct);
    ShlZero(s);
  }

  lemma PostSkipsMean(cfg: Config, p: NftPacket, x: MarkPair)
    ensures RunChain(cfg.layout.shift, PostSkips(cfg), p, x) == x
    ensures Stops(cfg.layout.shift, PostSkips(cfg), p, x)
       <==> || LeftAlone(cfg, p.family) || IsProbe(cfg.layout.shift, x.meta) || !p.tracked
            || !Unicast(p) || Field(cfg.layout.shift, x.ct) != 0
  {
    hide RunChain, Stops, Skip, LeftAlone, OutSkips;
    var s := cfg.layout.shift;
    var g4, g6 := Skip(GroupDestination(V4)), Skip(GroupDestination(V6));
    OutSkipsMean(cfg, p, x);
    SkipStops(s, GroupDestination(V4), p, x);
    TwoSkips(s, g4, GroupDestination(V6), p, x);
    TwoSkips(s, g4 + g6, EgressBroadcast, p, x);
    TwoSkips(s, g4 + g6 + Skip(EgressBroadcast), CtAssigned, p, x);
    AssignedMeans(s, p, x);
    ChainConcat(s, OutSkips(cfg), GroupSkips() + Skip(EgressBroadcast) + Skip(CtAssigned), p, x);
  }

  // ----------------------------------------------------- pinned connections

  function Repin(s: Shift, x: MarkPair): MarkPair { ApplyWrite(s, SetMeta(Field(s, x.ct)), x) }

  /** What the chains do to a packet whose connection has a path. */
  lemma PinnedChains(cfg: Config, p: NftPacket, x: MarkPair)
    requires IsPath(Field(cfg.layout.shift, x.ct))
    ensures var s, t := cfg.layout.shift, TableOf(cfg);
            && RunChain(s, t.prerouting, p, x)
               == (if LeftAlone(cfg, p.family) || !p.tracked || !p.forHost then x else Repin(s, x))
            && RunChain(s, t.output, p, x)
               == (if LeftAlone(cfg, p.family) || IsProbe(s, x.meta) || !p.tracked then x else Repin(s, x))
            && RunChain(s, t.postrouting, p, x) == x
  {
    hide RunChain, Stops, Restores, PreSkips, OutSkips, PostSkips, LeftAlone, ApplyWrite, OutgoingRules;
    var s := cfg.layout.shift;
    var rest := GroupSkips() + Skip(LocalBroadcast) + InboundRules(cfg.uplinks) + PolicyRules(cfg.policies);
    Restored(s, p, x);
    PreSkipsMean(cfg, p, x);
    ChainConcat(s, PreSkips(cfg), Restores(), p, x);
    ChainConcat(s, PreSkips(cfg) + Restores(), rest, p, x);
    OutSkipsMean(cfg, p, x);
    ChainConcat(s, OutSkips(cfg), Restores(), p, x);
    PostSkipsMean(cfg, p, x);
    ChainConcat(s, PostSkips(cfg), OutgoingRules(cfg.uplinks), p, x);
  }

  // ------------------------------------------------------------ foreign bits

  /** The bits of a mark outside the field. */
  function Foreign(s: Shift, m: Mark): nat { And(m, Not(Mask(s), BITS)) }

  predicate SameForeign(s: Shift, x: MarkPair, y: MarkPair)
  {
    Foreign(s, x.meta) == Foreign(s, y.meta) && Foreign(s, x.ct) == Foreign(s, y.ct)
  }

  lemma {:induction false} WritesKeepForeign(s: Shift, ws: seq<Write>, x: MarkPair)
    ensures SameForeign(s, x, ApplyWrites(s, ws, x))
    decreases |ws|
  {
    hide SetField, And, Not;
    if ws != [] {
      SetFieldMeaning(s, x.ct, ws[0].value);
      SetFieldMeaning(s, x.meta, ws[0].value);
      WritesKeepForeign(s, ws[1..], ApplyWrite(s, ws[0], x));
    }
  }

  /** No chain changes a bit outside the field (FR-MARK-1, INV-7). */
  lemma {:induction false} ChainKeepsForeign(s: Shift, c: Chain, p: NftPacket, x: MarkPair)
    ensures SameForeign(s, x, RunChain(s, c, p, x))
    decreases |c|
  {
    hide RuleHolds, ApplyWrites, Foreign;
    if c != [] {
      WritesKeepForeign(s, c[0].writes, x);
      ChainKeepsForeign(s, c[1..], p, x);
    }
  }

  // ------------------------------------------------------------- assignment

  /** The rule that decided, if any. */
  lemma {:induction false} Writer(s: Shift, c: Chain, p: NftPacket, x: MarkPair) returns (r: NftRule)
    requires Stops(s, c, p, x)
    ensures r in c && RuleHolds(s, r, p, x) && RunChain(s, c, p, x) == ApplyWrites(s, r.writes, x)
    decreases |c|
  {
    hide RuleHolds, ApplyWrites;
    if RuleHolds(s, c[0], p, x) {
      r := c[0];
    } else {
      var i :| 0 <= i < |c| && RuleHolds(s, c[i], p, x);
      assert c[1..][i - 1] == c[i];
      r := Writer(s, c[1..], p, x);
    }
  }

  lemma FamiliesAre(u: Uplink)
    ensures forall f :: f in Families(u) <==> f in u.families
  {
    forall f ensures f in Families(u) <==> f in u.families {
      var a, b := if V4 in u.families then [V4] else [], if V6 in u.families then [V6] else [];
      assert f in a + b <==> f in a || f in b;
      match f { case V4 => case V6 => }
    }
  }

  lemma {:induction false} PathRuleIn(us: seq<Uplink>, u: Uplink, f: Family)
    requires u in us && f in u.families
    ensures Inbound(u, f) in InboundRules(us) && Outgoing(u, f) in OutgoingRules(us)
    decreases |us|
  {
    hide Inbound, Outgoing, Families;
    if u == us[|us| - 1] {
      FamiliesAre(u);
      var i :| 0 <= i < |Families(u)| && Families(u)[i] == f;
      assert UplinkInbound(u)[i] == Inbound(u, f) && UplinkOutgoing(u)[i] == Outgoing(u, f);
    } else {
      PathRuleIn(us[..|us| - 1], u, f);
    }
  }

  lemma {:induction false} PathRuleFrom(us: seq<Uplink>, r: NftRule, inbound: bool) returns (u: Uplink, f: Family)
    requires r in if inbound then InboundRules(us) else OutgoingRules(us)
    ensures u in us && f in u.families && r == if inbound then Inbound(u, f) else Outgoing(u, f)
    decreases |us|
  {
    hide Inbound, Outgoing, Families;
    var n := |us| - 1;
    var mine := if inbound then UplinkInbound(us[n]) else UplinkOutgoing(us[n]);
    if r in mine {
      u := us[n];
      var i :| 0 <= i < |mine| && mine[i] == r;
      f := Families(u)[i];
      FamiliesAre(u);
    } else {
      u, f := PathRuleFrom(us[..n], r, inbound);
    }
  }

  lemma ThreeMatches(s: Shift, a: Match, b: Match, c: Match, ws: seq<Write>, p: NftPacket, x: MarkPair)
    ensures RuleHolds(s, NftRule([a, b, c], ws), p, x)
       <==> MatchHolds(s, a, p, x) && MatchHolds(s, b, p, x) && MatchHolds(s, c, p, x)
  {
    hide MatchHolds;
    var r := NftRule([a, b, c], ws);
    if RuleHolds(s, r, p, x) {
      assert MatchHolds(s, r.matches[0], p, x) && MatchHolds(s, r.matches[1], p, x)
          && MatchHolds(s, r.matches[2], p, x);
    }
  }

  /** Both marks get the path. */
  function Assign(s: Shift, id: UplinkId, x: MarkPair): MarkPair
  {
    ApplyWrite(s, SetMeta(id), ApplyWrite(s, SetCt(id), x))
  }

  lemma BothWrites(s: Shift, id: UplinkId, x: MarkPair)
    ensures ApplyWrites(s, [SetCt(id), SetMeta(id)], x) == Assign(s, id, x)
    ensures Field(s, Assign(s, id, x).ct) == id && Field(s, Assign(s, id, x).meta) == id
  {
    hide SetField, Field;
    var ws := [SetCt(id), SetMeta(id)];
    assert ws[1..] == [SetMeta(id)];
    OneWrite(s, SetMeta(id), ApplyWrite(s, SetCt(id), x));
    SetFieldMeaning(s, x.ct, id);
    SetFieldMeaning(s, x.meta, id);
  }

  predicate ArrivesOnPath(cfg: Config, u: Uplink, p: NftPacket)
  {
    u in cfg.uplinks && p.family in u.families && u.interface == p.input && p.original
  }

  predicate LeavesOnPath(cfg: Config, u: Uplink, p: NftPacket)
  {
    u in cfg.uplinks && p.family in u.families && u.interface == p.output && p.original
  }

  lemma UniqueUplink(cfg: Config, u: Uplink, w: Uplink)
    requires ValidConfig(cfg) && u in cfg.uplinks && w in cfg.uplinks && u.interface == w.interface
    ensures u == w
  {
    var i :| 0 <= i < |cfg.uplinks| && cfg.uplinks[i] == u;
    var j :| 0 <= j < |cfg.uplinks| && cfg.uplinks[j] == w;
  }

  /** The assignment rules of the postrouting chain. */
  lemma OutgoingMeans(cfg: Config, p: NftPacket, x: MarkPair)
    requires ValidConfig(cfg)
    ensures var s, c := cfg.layout.shift, OutgoingRules(cfg.uplinks);
            && (forall u :: LeavesOnPath(cfg, u, p) ==> RunChain(s, c, p, x) == Assign(s, u.id, x))
            && ((forall u :: !LeavesOnPath(cfg, u, p)) ==> RunChain(s, c, p, x) == x)
  {
    hide RuleHolds, RunChain, ApplyWrites, Assign, OutgoingRules, ValidConfig;
    var s, c := cfg.layout.shift, OutgoingRules(cfg.uplinks);
    forall u: Uplink, f ensures RuleHolds(s, Outgoing(u, f), p, x) <==> f == p.family && u.interface == p.output && p.original
    {
      ThreeMatches(s, OfFamily(f), Leaves(u.interface), Original, [SetCt(u.id), SetMeta(u.id)], p, x);
    }
    forall u | LeavesOnPath(cfg, u, p) ensures Stops(s, c, p, x) {
      PathRuleIn(cfg.uplinks, u, p.family);
      var i :| 0 <= i < |c| && c[i] == Outgoing(u, p.family);
    }
    if Stops(s, c, p, x) {
      var r := Writer(s, c, p, x);
      var w, f := PathRuleFrom(cfg.uplinks, r, false);
      BothWrites(s, w.id, x);
      assert LeavesOnPath(cfg, w, p);
      forall u | LeavesOnPath(cfg, u, p) ensures u == w { UniqueUplink(cfg, u, w); }
    } else {
      RunNone(s, c, p, x);
    }
  }

  /** The assignment rules of the prerouting chain. */
  lemma InboundMeans(cfg: Config, p: NftPacket, x: MarkPair)
    requires ValidConfig(cfg)
    ensures var s, c := cfg.layout.shift, InboundRules(cfg.uplinks);
            && (forall u :: ArrivesOnPath(cfg, u, p) ==>
                  Stops(s, c, p, x) && RunChain(s, c, p, x) == Assign(s, u.id, x))
            && ((forall u :: !ArrivesOnPath(cfg, u, p)) ==> !Stops(s, c, p, x))
  {
    hide RuleHolds, RunChain, ApplyWrites, Assign, InboundRules, ValidConfig;
    var s, c := cfg.layout.shift, InboundRules(cfg.uplinks);
    forall u: Uplink, f ensures RuleHolds(s, Inbound(u, f), p, x) <==> f == p.family && u.interface == p.input && p.original
    {
      ThreeMatches(s, OfFamily(f), Arrives({u.interface}), Original, [SetCt(u.id), SetMeta(u.id)], p, x);
    }
    forall u | ArrivesOnPath(cfg, u, p) ensures Stops(s, c, p, x) {
      PathRuleIn(cfg.uplinks, u, p.family);
      var i :| 0 <= i < |c| && c[i] == Inbound(u, p.family);
    }
    if Stops(s, c, p, x) {
      var r := Writer(s, c, p, x);
      var w, f := PathRuleFrom(cfg.uplinks, r, true);
      BothWrites(s, w.id, x);
      assert ArrivesOnPath(cfg, w, p);
      forall u | ArrivesOnPath(cfg, u, p) ensures u == w { UniqueUplink(cfg, u, w); }
    }
  }
}
