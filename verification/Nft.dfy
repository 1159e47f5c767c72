/** The nftables marking program (crates/polywan/src/nft.rs) as chains of
    rules over the packet mark and the conntrack mark. Every rule ends with
    `return`; the NAT chain is not part of this model. */
module Nft {
  import opened Model
  import opened Marks
  import opened Configuration

  /** What a rule matches on. */
  datatype Match =
    | OtherThan(only: Family)
    | OfFamily(family: Family)
    | Untracked
    | NotForHost
    | CtHolds(value: FieldValue)
    | CtAssigned
    | ProbeMark
    | GroupDestination(groupOf: Family)
    | LocalBroadcast
    | EgressBroadcast
    | Arrives(inputs: set<Interface>)
    | Leaves(output: Interface)
    | Original
    | Flow(flows: set<nat>)

  /** A constant-only write of the field. */
  datatype Write = SetCt(value: FieldValue) | SetMeta(value: FieldValue)

  datatype NftRule = NftRule(matches: seq<Match>, writes: seq<Write>)

  type Chain = seq<NftRule>

  datatype Table = Table(shift: Shift, prerouting: Chain, output: Chain, postrouting: Chain)

  // ------------------------------------------------------------- generator

  function Restores(): Chain
  {
    seq(63, i requires 0 <= i < 63 => NftRule([CtHolds(i + 1)], [SetMeta(i + 1)]))
  }

  function Skip(m: Match): Chain { [NftRule([m], [])] }

  /** With a single managed family, the other family is left alone. */
  function OtherFamilySkip(cfg: Config): Chain
  {
    if Manages(cfg, V4) && !Manages(cfg, V6) then Skip(OtherThan(V4))
    else if Manages(cfg, V6) && !Manages(cfg, V4) then Skip(OtherThan(V6))
    else []
  }

  function Inbound(u: Uplink, f: Family): NftRule
  {
    NftRule([OfFamily(f), Arrives({u.interface}), Original], [SetCt(u.id), SetMeta(u.id)])
  }

  function Outgoing(u: Uplink, f: Family): NftRule
  {
    NftRule([OfFamily(f), Leaves(u.interface), Original], [SetCt(u.id), SetMeta(u.id)])
  }

  function PolicyValue(p: Policy): FieldValue
  {
    ValueOf(if p.fallback == Balance then CLASS_POLICY_BALANCE else CLASS_POLICY_BLOCK, p.uplink)
  }

  function PolicyRule(p: Policy): NftRule
  {
    NftRule([OfFamily(p.family), Arrives(p.inputs), Original, Flow(p.flows)], [SetMeta(PolicyValue(p))])
  }

  function Families(u: Uplink): seq<Family>
  {
    (if V4 in u.families then [V4] else []) + (if V6 in u.families then [V6] else [])
  }

  function UplinkInbound(u: Uplink): Chain
  {
    seq(|Families(u)|, i requires 0 <= i < |Families(u)| => Inbound(u, Families(u)[i]))
  }

  function InboundRules(us: seq<Uplink>): Chain
  {
    if us == [] then []
    else
      InboundRules(us[..|us| - 1]) + UplinkInbound(us[|us| - 1])
  }

  function UplinkOutgoing(u: Uplink): Chain
  {
    seq(|Families(u)|, i requires 0 <= i < |Families(u)| => Outgoing(u, Families(u)[i]))
  }

  function OutgoingRules(us: seq<Uplink>): Chain
  {
    if us == [] then []
    else
      OutgoingRules(us[..|us| - 1]) + UplinkOutgoing(us[|us| - 1])
  }

  function PolicyRules(ps: seq<Policy>): Chain { seq(|ps|, i requires 0 <= i < |ps| => PolicyRule(ps[i])) }

  /** Before restoration in prerouting. */
  function PreSkips(cfg: Config): Chain { OtherFamilySkip(cfg) + Skip(Untracked) + Skip(NotForHost) }

  function GroupSkips(): Chain { Skip(GroupDestination(V4)) + Skip(GroupDestination(V6)) }

  function PreroutingChain(cfg: Config): Chain
  {
    PreSkips(cfg) + Restores()
    + (GroupSkips() + Skip(LocalBroadcast) + InboundRules(cfg.uplinks) + PolicyRules(cfg.policies))
  }

  function OutSkips(cfg: Config): Chain { OtherFamilySkip(cfg) + Skip(ProbeMark) + Skip(Untracked) }

  function OutputChain(cfg: Config): Chain { OutSkips(cfg) + Restores() }

  /** Before assignment in postrouting. */
  function PostSkips(cfg: Config): Chain
  {
    OutSkips(cfg) + (GroupSkips() + Skip(EgressBroadcast) + Skip(CtAssigned))
  }

  function PostroutingChain(cfg: Config): Chain { PostSkips(cfg) + OutgoingRules(cfg.uplinks) }

  function TableOf(cfg: Config): Table
  {
    Table(cfg.layout.shift, PreroutingChain(cfg), OutputChain(cfg), PostroutingChain(cfg))
  }

  /** `restore_all`: one rule for each of the 63 path values. */
  method GenerateRestores() returns (c: Chain)
    ensures c == Restores()
  {
    c := [];
    for i := 0 to 63
      invariant |c| == i
      invariant forall j :: 0 <= j < i ==> c[j] == NftRule([CtHolds(j + 1)], [SetMeta(j + 1)])
    {
      c := c + [NftRule([CtHolds(i + 1)], [SetMeta(i + 1)])];
    }
  }

  /** The rules of one uplink, family by family. */
  method GenerateUplink(u: Uplink) returns (inbound: Chain, outgoing: Chain)
    ensures inbound == UplinkInbound(u)
    ensures outgoing == UplinkOutgoing(u)
  {
    inbound, outgoing := [], [];
    for j := 0 to |Families(u)|
      invariant |inbound| == |outgoing| == j
      invariant forall k :: 0 <= k < j ==>
        inbound[k] == Inbound(u, Families(u)[k]) && outgoing[k] == Outgoing(u, Families(u)[k])
    {
      inbound := inbound + [Inbound(u, Families(u)[j])];
      outgoing := outgoing + [Outgoing(u, Families(u)[j])];
    }
  }

  method GeneratePaths(us: seq<Uplink>) returns (inbound: Chain, outgoing: Chain)
    ensures inbound == InboundRules(us) && outgoing == OutgoingRules(us)
  {
    inbound, outgoing := [], [];
    for i := 0 to |us|
      invariant inbound == InboundRules(us[..i]) && outgoing == OutgoingRules(us[..i])
    {
      assert us[..i + 1][..i] == us[..i];
      var moreIn, moreOut := GenerateUplink(us[i]);
      inbound, outgoing := inbound + moreIn, outgoing + moreOut;
    }
    assert us[..|us|] == us;
  }

  method GeneratePolicies(ps: seq<Policy>) returns (c: Chain)
    ensures c == PolicyRules(ps)
  {
    c := [];
    for i := 0 to |ps|
      invariant |c| == i
      invariant forall j :: 0 <= j < i ==> c[j] == PolicyRule(ps[j])
    {
      c := c + [PolicyRule(ps[i])];
    }
  }

  /** The generator: rules appended to the chains one by one. */
  method Generate(cfg: Config) returns (t: Table)
    ensures t == TableOf(cfg)
  {
    hide Restores, InboundRules, OutgoingRules, PolicyRules, Manages, Skip;
    var restores := GenerateRestores();
    var inbound, outgoing := GeneratePaths(cfg.uplinks);
    var policies := GeneratePolicies(cfg.policies);
    t := Table(cfg.layout.shift,
               PreSkips(cfg) + restores + (GroupSkips() + Skip(LocalBroadcast) + inbound + policies),
               OutSkips(cfg) + restores,
               PostSkips(cfg) + outgoing);
  }

  // ------------------------------------------------------------- evaluation

  /** A packet: `group` for multicast and limited broadcast destinations,
      `broadcast` and `egressBroadcast` for IPv4 broadcast addresses. */
  datatype NftPacket = NftPacket(family: Family, tracked: bool, forHost: bool, group: bool, broadcast: bool,
                                 egressBroadcast: bool, input: Interface, output: Interface, original: bool,
                                 flow: nat)

  /** The packet mark and the mark of its connection. */
  datatype MarkPair = MarkPair(meta: Mark, ct: Mark)

  predicate MatchHolds(s: Shift, m: Match, p: NftPacket, x: MarkPair)
  {
    match m
    case OtherThan(f) => p.family != f
    case OfFamily(f) => p.family == f
    case Untracked => !p.tracked
    case NotForHost => !p.forHost
    case CtHolds(v) => Selects(Encode(s, v), Mask(s), x.ct)
    case CtAssigned => And(x.ct, Mask(s)) != 0
    case ProbeMark => Selects(Encode(s, ValueOf(CLASS_PROBE, 0)), ClassMask(s), x.meta)
    case GroupDestination(f) => p.family == f && p.group
    case LocalBroadcast => p.family == V4 && p.broadcast
    case EgressBroadcast => p.family == V4 && p.egressBroadcast
    case Arrives(i) => p.input in i
    case Leaves(i) => p.output == i
    case Original => p.original
    case Flow(fs) => p.flow in fs
  }

  predicate RuleHolds(s: Shift, r: NftRule, p: NftPacket, x: MarkPair)
  {
    forall i :: 0 <= i < |r.matches| ==> MatchHolds(s, r.matches[i], p, x)
  }

  function ApplyWrite(s: Shift, w: Write, x: MarkPair): MarkPair
  {
    match w
    case SetCt(v) => SetFieldMeaning(s, x.ct, v); x.(ct := SetField(s, x.ct, v))
    case SetMeta(v) => SetFieldMeaning(s, x.meta, v); x.(meta := SetField(s, x.meta, v))
  }

  function ApplyWrites(s: Shift, ws: seq<Write>, x: MarkPair): MarkPair
  {
    if ws == [] then x else ApplyWrites(s, ws[1..], ApplyWrite(s, ws[0], x))
  }

  /** The first rule that matches writes its values and returns. */
  function RunChain(s: Shift, c: Chain, p: NftPacket, x: MarkPair): MarkPair
  {
    if c == [] then x
    else if RuleHolds(s, c[0], p, x) then ApplyWrites(s, c[0].writes, x)
    else RunChain(s, c[1..], p, x)
  }

  // ---------------------------------------------------------- chain algebra

  ghost predicate Stops(s: Shift, c: Chain, p: NftPacket, x: MarkPair)
  {
    exists i :: 0 <= i < |c| && RuleHolds(s, c[i], p, x)
  }

  lemma {:induction false} ChainConcat(s: Shift, a: Chain, b: Chain, p: NftPacket, x: MarkPair)
    ensures RunChain(s, a + b, p, x) == if Stops(s, a, p, x) then RunChain(s, a, p, x) else RunChain(s, b, p, x)
    ensures Stops(s, a + b, p, x) <==> Stops(s, a, p, x) || Stops(s, b, p, x)
    decreases |a|
  {
    hide RuleHolds, ApplyWrites;
    if a == [] {
      assert a + b == b;
    } else {
      assert (a + b)[1..] == a[1..] + b;
      ChainConcat(s, a[1..], b, p, x);
      forall i | 0 <= i < |a| - 1 ensures a[1..][i] == a[i + 1] {}
      if Stops(s, a, p, x) && !RuleHolds(s, a[0], p, x) {
        var i :| 0 <= i < |a| && RuleHolds(s, a[i], p, x);
        assert a[1..][i - 1] == a[i];
      }
      StopsMember(s, a, b, p, x);
    }
  }

  lemma StopsMember(s: Shift, a: Chain, b: Chain, p: NftPacket, x: MarkPair)
    ensures Stops(s, a + b, p, x) <==> Stops(s, a, p, x) || Stops(s, b, p, x)
  {
    hide RuleHolds;
    if Stops(s, a, p, x) {
      var i :| 0 <= i < |a| && RuleHolds(s, a[i], p, x);
      assert (a + b)[i] == a[i];
    }
    if Stops(s, b, p, x) {
      var i :| 0 <= i < |b| && RuleHolds(s, b[i], p, x);
      assert (a + b)[|a| + i] == b[i];
    }
  }

  /** A skip leaves the marks alone. */
  lemma SkipStops(s: Shift, m: Match, p: NftPacket, x: MarkPair)
    ensures Stops(s, Skip(m), p, x) <==> MatchHolds(s, m, p, x)
    ensures RunChain(s, Skip(m), p, x) == x
  {
    var r := NftRule([m], []);
    assert RuleHolds(s, r, p, x) <==> MatchHolds(s, m, p, x) by {
      if MatchHolds(s, m, p, x) {
        forall i | 0 <= i < |r.matches| ensures MatchHolds(s, r.matches[i], p, x) {}
      } else {
        assert !MatchHolds(s, r.matches[0], p, x);
      }
    }
    assert Skip(m)[0] == r;
    assert Skip(m)[1..] == [];
  }
}
