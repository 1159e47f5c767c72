/** The planned rules mean exactly the class table of FR-ROUTE-3, for every
    32-bit mark, mask position, uplink set and source address. */
module ClassTable {
  import opened Model
  import opened Marks
  import opened Configuration
  import opened Planner
  import opened Meaning

  /** The configured uplinks of a family, each with its local addresses. */
  type Locals = map<UplinkId, set<Ip>>

  function LocalsOf(cfg: Config, input: Input, f: Family): Locals
  {
    map id | id in IdsOf(cfg, f) :: LocalAddresses(input, f, id)
  }

  predicate IsLocal(local: Locals, a: Ip)
  {
    exists id :: id in local && a in local[id]
  }

  // -------------------------------------------------------- the class table

  /** The table of an uplink, when the uplink is configured and the table
      holds a route; otherwise what its class says. */
  function Own(local: Locals, id: nat, table: nat, t: Tables, otherwise: Verdict): Verdict
  {
    if 1 <= id <= 63 && id in local && table in t.filled then ViaTable(table) else otherwise
  }

  function Balancing(l: Layout, t: Tables): Verdict
  {
    if BalancingTable(l) in t.filled then ViaTable(BalancingTable(l)) else Rejected
  }

  /** The uplink serves a source address: configured, with the address, and
      with a route in its path table. */
  predicate Serves(l: Layout, local: Locals, a: Ip, t: Tables, id: UplinkId)
  {
    id in local && a in local[id] && PathTable(l, id) in t.filled
  }

  /** The lowest serving id that is at least `from`. */
  function LowestServing(l: Layout, local: Locals, a: Ip, t: Tables, from: nat): (r: Option<UplinkId>)
    requires 1 <= from <= 64
    ensures r.Some? ==> Serves(l, local, a, t, r.value)
    ensures forall id: UplinkId :: from <= id && Serves(l, local, a, t, id) ==> r.Some? && r.value <= id
    decreases 64 - from
  {
    if from == 64 then None
    else if Serves(l, local, a, t, from) then Some(from)
    else LowestServing(l, local, a, t, from + 1)
  }

  /** A packet without an assignment: the path of its source address, or the
      balancing table when the source is not an uplink's. */
  function UnassignedVerdict(l: Layout, local: Locals, a: Ip, t: Tables): Verdict
  {
    if IsLocal(local, a) then
      match LowestServing(l, local, a, t, 1)
      case Some(id) => ViaTable(PathTable(l, id))
      case None => Rejected
    else Balancing(l, t)
  }

  /** FR-ROUTE-3 by class of the field. */
  function ClassVerdict(l: Layout, local: Locals, field: FieldValue, a: Ip, t: Tables): Verdict
  {
    var id := field % 64;
    if field / 64 == CLASS_PROBE then Own(local, id, l.tableBase + id, t, Rejected)
    else if t.mainCovers then ViaMain
    else if field == 0 then UnassignedVerdict(l, local, a, t)
    else if field / 64 == CLASS_PATH then Own(local, id, l.tableBase + id, t, Rejected)
    else if field / 64 == CLASS_POLICY_BALANCE then Own(local, id, l.tableBase + 64 + id, t, Balancing(l, t))
    else Own(local, id, l.tableBase + 128 + id, t, Rejected)
  }

  // ------------------------------------------------- what a kind can decide

  /** The offset of a kind's priority. */
  function Offset(k: RuleKind): nat
  {
    match k
    case ProbeLookup(id) => id
    case ProbeGuard => 64
    case MainBypass => 100
    case PathLookup(id) => 200 + id
    case PathGuard => 264
    case PolicyBalanceLookup(id) => 300 + id
    case PolicyBlockLookup(id) => 400 + id
    case PolicyBlockGuard => 464
    case SourceLookup(id) => 500 + id
    case SourceGuard => 564
    case BalanceLookup => 600
    case FinalGuard => 699
  }

  /** A planned rule of kind `k` decides `o` for a packet from `a`. */
  predicate Can(l: Layout, local: Locals, k: RuleKind, field: FieldValue, a: Ip, t: Tables, o: Verdict)
  {
    match k
    case ProbeLookup(id) =>
      id in local && field == ValueOf(CLASS_PROBE, id) && PathTable(l, id) in t.filled && o == ViaTable(PathTable(l, id))
    case ProbeGuard => field / 64 == CLASS_PROBE && o == Rejected
    case MainBypass => t.mainCovers && o == ViaMain
    case PathLookup(id) =>
      id in local && field == ValueOf(CLASS_PATH, id) && PathTable(l, id) in t.filled && o == ViaTable(PathTable(l, id))
    case PathGuard => field / 64 == CLASS_PATH && field != 0 && o == Rejected
    case PolicyBalanceLookup(id) =>
      && id in local && field == ValueOf(CLASS_POLICY_BALANCE, id)
      && PolicyBalanceTable(l, id) in t.filled && o == ViaTable(PolicyBalanceTable(l, id))
    case PolicyBlockLookup(id) =>
      && id in local && field == ValueOf(CLASS_POLICY_BLOCK, id)
      && PolicyBlockTable(l, id) in t.filled && o == ViaTable(PolicyBlockTable(l, id))
    case PolicyBlockGuard => field / 64 == CLASS_POLICY_BLOCK && o == Rejected
    case SourceLookup(id) => field == 0 && Serves(l, local, a, t, id) && o == ViaTable(PathTable(l, id))
    case SourceGuard => field == 0 && IsLocal(local, a) && o == Rejected
    case BalanceLookup => BalancingTable(l) in t.filled && o == ViaTable(BalancingTable(l))
    case FinalGuard => o == Rejected
  }

  /** `n` is not above the offset of any rule that decides. */
  predicate Leads(l: Layout, local: Locals, field: FieldValue, a: Ip, t: Tables, n: nat)
  {
    var id, class_ := field % 64, field / 64;
    && n <= 699
    && (BalancingTable(l) in t.filled ==> n <= 600)
    && (t.mainCovers ==> n <= 100)
    && (class_ == CLASS_PROBE ==> n <= 64)
    && (class_ == CLASS_PATH && field != 0 ==> n <= 264)
    && (class_ == CLASS_POLICY_BLOCK ==> n <= 464)
    && (1 <= id <= 63 && id in local ==>
          && (class_ == CLASS_PROBE && l.tableBase + id in t.filled ==> n <= id)
          && (class_ == CLASS_PATH && l.tableBase + id in t.filled ==> n <= 200 + id)
          && (class_ == CLASS_POLICY_BALANCE && l.tableBase + 64 + id in t.filled ==> n <= 300 + id)
          && (class_ == CLASS_POLICY_BLOCK && l.tableBase + 128 + id in t.filled ==> n <= 400 + id))
    && (field == 0 && IsLocal(local, a) ==> n <= 564)
    && (field == 0 ==> match LowestServing(l, local, a, t, 1) case None => true case Some(u) => n <= 500 + u)
  }

  predicate NamesUplink(k: RuleKind)
  {
    k.ProbeLookup? || k.PathLookup? || k.PolicyBalanceLookup? || k.PolicyBlockLookup? || k.SourceLookup?
  }

  /** The class table is what the first deciding kind says. */
  lemma FirstKindDecides(l: Layout, local: Locals, k: RuleKind, field: FieldValue, a: Ip, t: Tables, o: Verdict)
    requires Can(l, local, k, field, a, t, o) && Leads(l, local, field, a, t, Offset(k))
    ensures o == ClassVerdict(l, local, field, a, t)
  {
  }

  // ------------------------------------------------------ the planned rules

  /** A rule of the family with its kind's shape, for a configured uplink and
      a local address. */
  predicate Described(l: Layout, f: Family, local: Locals, r: Rule)
  {
    && r.family == f && Shaped(l, r)
    && (NamesUplink(r.kind) ==> r.kind.id in local)
    && (r.kind.SourceLookup? ==> r.source.Some? && r.source.value in local[r.kind.id])
    && (r.kind.SourceGuard? ==> r.source.Some? && IsLocal(local, r.source.value))
  }

  lemma ShapeOffset(l: Layout, r: Rule)
    requires Shaped(l, r)
    ensures r.priority == l.priorityBase + Offset(r.kind)
  {
    if r.kind.PathGuard? { PathGuardMember(l, r.family, r); }
  }

  lemma UplinkShape(l: Layout, f: Family, local: Locals, id: UplinkId, r: Rule)
    requires id in local && r in UplinkRules(l, f, id)
    ensures Described(l, f, local, r)
  {
  }

  lemma CommonShape(l: Layout, f: Family, local: Locals, r: Rule)
    requires r in CommonRules(l, f)
    ensures Described(l, f, local, r)
  {
    if r in PathGuards(l, f) { PathGuardMember(l, f, r); }
  }

  lemma AddressShape(l: Layout, f: Family, local: Locals, id: UplinkId, r: Rule)
    requires id in local && r in AddressRules(l, f, id, local[id])
    ensures Described(l, f, local, r)
  {
  }

  /** Every planned rule is described by the configuration and the addresses. */
  lemma PlannedRule(cfg: Config, input: Input, f: Family, r: Rule)
    requires r in FamilyRules(cfg, f, input)
    ensures Manages(cfg, f) && Described(cfg.layout, f, LocalsOf(cfg, input, f), r)
  {
    hide Described, CommonRules, UplinkRules, AddressRules, IdsOf;
    var l, ids, local := cfg.layout, IdsOf(cfg, f), LocalsOf(cfg, input, f);
    if r in CommonRules(l, f) {
      CommonShape(l, f, local, r);
    } else if r in StaticRules(l, f, ids) {
      var id :| id in ids && r in UplinkRules(l, f, id);
      UplinkShape(l, f, local, id, r);
    } else {
      var id :| id in ids && r in AddressRules(l, f, id, LocalAddresses(input, f, id));
      AddressShape(l, f, local, id, r);
    }
  }

  /** The rule set holds the rules of every configured uplink and address. */
  ghost predicate Complete(l: Layout, f: Family, local: Locals, s: set<Rule>)
  {
    && CommonRules(l, f) <= s
    && (forall id :: id in local ==> UplinkRules(l, f, id) <= s)
    && (forall id :: id in local ==> AddressRules(l, f, id, local[id]) <= s)
  }

  lemma PlannedComplete(cfg: Config, input: Input, f: Family)
    requires Manages(cfg, f)
    ensures Complete(cfg.layout, f, LocalsOf(cfg, input, f), FamilyRules(cfg, f, input))
  {
    hide CommonRules, UplinkRules, AddressRules, IdsOf;
    var l, ids, local := cfg.layout, IdsOf(cfg, f), LocalsOf(cfg, input, f);
    forall id | id in local ensures UplinkRules(l, f, id) <= FamilyRules(cfg, f, input) {
      assert UplinkRules(l, f, id) <= StaticRules(l, f, ids);
    }
    forall id | id in local ensures AddressRules(l, f, id, local[id]) <= FamilyRules(cfg, f, input) {
      assert AddressRules(l, f, id, local[id]) <= SourceRules(l, f, ids, input);
    }
  }

  /** A described rule that decides is a kind that can. */
  lemma DecidesAsKind(l: Layout, local: Locals, r: Rule, p: Packet, t: Tables, o: Verdict)
    requires Described(l, p.family, local, r) && Decision(r, p, t) == Some(o)
    ensures Can(l, local, r.kind, Field(l.shift, p.mark), p.source, t, o)
  {
    DecisionByField(l, r, p, t);
    if r.kind.PathGuard? {
      var k :| 0 <= k < 6 && HasBit(Field(l.shift, p.mark) % 64, k);
      ShrZero(k);
    }
  }

  /** `q` precedes every rule of `s` that decides. */
  ghost predicate Precedes(q: Rule, s: set<Rule>, p: Packet, t: Tables)
  {
    forall r :: r in s && Decision(r, p, t).Some? ==> q.priority <= r.priority
  }

  lemma NotAfter(l: Layout, s: set<Rule>, q: Rule, r: Rule, p: Packet, t: Tables)
    requires Precedes(q, s, p, t) && Shaped(l, q) && Shaped(l, r) && r in s && r.family == p.family
    requires KindDecision(l, r, Field(l.shift, p.mark), p, t).Some?
    ensures Offset(q.kind) <= Offset(r.kind)
  {
    DecisionByField(l, r, p, t);
    ShapeOffset(l, q);
    ShapeOffset(l, r);
  }

  ghost predicate Context(l: Layout, local: Locals, s: set<Rule>, q: Rule, p: Packet, t: Tables)
  {
    Complete(l, p.family, local, s) && Precedes(q, s, p, t) && Shaped(l, q)
  }

  lemma NotAfterCommon(l: Layout, local: Locals, s: set<Rule>, q: Rule, p: Packet, t: Tables)
    requires Context(l, local, s, q, p, t)
    ensures var n, field := Offset(q.kind), Field(l.shift, p.mark);
            && n <= 699
            && (BalancingTable(l) in t.filled ==> n <= 600)
            && (t.mainCovers ==> n <= 100)
            && (field / 64 == CLASS_PROBE ==> n <= 64)
            && (field / 64 == CLASS_POLICY_BLOCK ==> n <= 464)
  {
    hide Precedes, AddressRules, UplinkRules, ClassGuard, ClassGuards, PathGuards;
    var f := p.family;
    assert ProbeGuardRule(l, f) in ClassGuards(l, f) && PolicyBlockGuardRule(l, f) in ClassGuards(l, f) by {
      GuardMembers(l, f);
    }
    NotAfter(l, s, q, FinalGuardRule(l, f), p, t);
    if BalancingTable(l) in t.filled { NotAfter(l, s, q, BalanceRule(l, f), p, t); }
    if t.mainCovers { NotAfter(l, s, q, MainBypassRule(l, f), p, t); }
    GuardKinds(l, f);
    if Field(l.shift, p.mark) / 64 == CLASS_PROBE { NotAfter(l, s, q, ProbeGuardRule(l, f), p, t); }
    if Field(l.shift, p.mark) / 64 == CLASS_POLICY_BLOCK { NotAfter(l, s, q, PolicyBlockGuardRule(l, f), p, t); }
  }

  lemma GuardMembers(l: Layout, f: Family)
    ensures ProbeGuardRule(l, f) in ClassGuards(l, f) && PolicyBlockGuardRule(l, f) in ClassGuards(l, f)
    ensures PathGuards(l, f) <= ClassGuards(l, f)
  {
  }

  lemma GuardKinds(l: Layout, f: Family)
    ensures ProbeGuardRule(l, f).kind == ProbeGuard && ProbeGuardRule(l, f).family == f
    ensures PolicyBlockGuardRule(l, f).kind == PolicyBlockGuard && PolicyBlockGuardRule(l, f).family == f
    ensures Shaped(l, ProbeGuardRule(l, f)) && Shaped(l, PolicyBlockGuardRule(l, f))
  {
  }

  lemma NotAfterPathGuard(l: Layout, local: Locals, s: set<Rule>, q: Rule, p: Packet, t: Tables)
    requires Context(l, local, s, q, p, t)
    requires Field(l.shift, p.mark) / 64 == CLASS_PATH && Field(l.shift, p.mark) != 0
    ensures Offset(q.kind) <= 264
  {
    GuardMembers(l, p.family);
    var g := SomePathGuardRejects(l, s, p, t);
    PathGuardMember(l, p.family, g);
    ShapeOffset(l, q);
  }

  lemma NotAfterOwn(l: Layout, local: Locals, s: set<Rule>, q: Rule, p: Packet, t: Tables, id: UplinkId)
    requires Context(l, local, s, q, p, t) && id in local && Field(l.shift, p.mark) % 64 == id
    ensures var n, class_ := Offset(q.kind), Field(l.shift, p.mark) / 64;
            && (class_ == CLASS_PROBE && PathTable(l, id) in t.filled ==> n <= id)
            && (class_ == CLASS_PATH && PathTable(l, id) in t.filled ==> n <= 200 + id)
            && (class_ == CLASS_POLICY_BALANCE && PolicyBalanceTable(l, id) in t.filled ==> n <= 300 + id)
            && (class_ == CLASS_POLICY_BLOCK && PolicyBlockTable(l, id) in t.filled ==> n <= 400 + id)
  {
    hide Precedes, CommonRules, AddressRules;
    var f, class_ := p.family, Field(l.shift, p.mark) / 64;
    if class_ == CLASS_PROBE && PathTable(l, id) in t.filled {
      NotAfter(l, s, q, ProbeRule(l, f, id), p, t);
    } else if class_ == CLASS_PATH && PathTable(l, id) in t.filled {
      NotAfter(l, s, q, PathRule(l, f, id), p, t);
    } else if class_ == CLASS_POLICY_BALANCE && PolicyBalanceTable(l, id) in t.filled {
      NotAfter(l, s, q, PolicyBalanceRule(l, f, id), p, t);
    } else if class_ == CLASS_POLICY_BLOCK && PolicyBlockTable(l, id) in t.filled {
      NotAfter(l, s, q, PolicyBlockRule(l, f, id), p, t);
    }
  }

  lemma NotAfterSource(l: Layout, local: Locals, s: set<Rule>, q: Rule, p: Packet, t: Tables, id: UplinkId)
    requires Context(l, local, s, q, p, t) && Field(l.shift, p.mark) == 0
    requires id in local && p.source in local[id]
    ensures Offset(q.kind) <= 564
    ensures PathTable(l, id) in t.filled ==> Offset(q.kind) <= 500 + id
  {
    hide Precedes, CommonRules, UplinkRules;
    var f, a := p.family, p.source;
    assert SourceRule(l, f, id, a) in AddressRules(l, f, id, local[id]);
    assert SourceGuardRule(l, f, a) in AddressRules(l, f, id, local[id]);
    NotAfter(l, s, q, SourceGuardRule(l, f, a), p, t);
    if PathTable(l, id) in t.filled { NotAfter(l, s, q, SourceRule(l, f, id, a), p, t); }
  }

  lemma FirstLeads(l: Layout, local: Locals, s: set<Rule>, q: Rule, p: Packet, t: Tables)
    requires Context(l, local, s, q, p, t)
    ensures Leads(l, local, Field(l.shift, p.mark), p.source, t, Offset(q.kind))
  {
    hide Context;
    var field := Field(l.shift, p.mark);
    var id := field % 64;
    NotAfterCommon(l, local, s, q, p, t);
    if field / 64 == CLASS_PATH && field != 0 { NotAfterPathGuard(l, local, s, q, p, t); }
    if 1 <= id <= 63 && id in local { NotAfterOwn(l, local, s, q, p, t, id); }
    if field == 0 {
      if IsLocal(local, p.source) {
        var u :| u in local && p.source in local[u];
        NotAfterSource(l, local, s, q, p, t, u);
      }
      var lowest := LowestServing(l, local, p.source, t, 1);
      if lowest.Some? { NotAfterSource(l, local, s, q, p, t, lowest.value); }
    }
  }

  /** The planned rules, walked by priority, give the class table: nothing
      passes the final guard, and each class has its own fallthrough. */
  lemma PlannedRulesMean(cfg: Config, input: Input, v: seq<Rule>, p: Packet, t: Tables)
    requires Manages(cfg, p.family) && Lists(v, Plan(cfg, input).rules)
    ensures Evaluate(v, p, t)
         == ClassVerdict(cfg.layout, LocalsOf(cfg, input, p.family), Field(cfg.layout.shift, p.mark), p.source, t)
  {
    hide FamilyRules, LocalsOf, Described, Complete;
    var l, local, s := cfg.layout, LocalsOf(cfg, input, p.family), Plan(cfg, input).rules;
    var d := Decider(v, s, p, t);
    PlannedComplete(cfg, input, p.family);
    assert FamilyRules(cfg, p.family, input) <= s by {
      match p.family case V4 => case V6 =>
    }
    CompleteMonotone(l, p.family, local, FamilyRules(cfg, p.family, input), s);
    FinalGuardDecides(l, local, s, p, t);
    var q := d.value;
    OwnFamily(cfg, input, q, p, t);
    PlannedRule(cfg, input, p.family, q);
    DescribedShaped(l, p.family, local, q);
    FirstLeads(l, local, s, q, p, t);
    DecidesAsKind(l, local, q, p, t, Evaluate(v, p, t));
    FirstKindDecides(l, local, q.kind, Field(l.shift, p.mark), p.source, t, Evaluate(v, p, t));
  }

  lemma CompleteMonotone(l: Layout, f: Family, local: Locals, s: set<Rule>, s': set<Rule>)
    requires Complete(l, f, local, s) && s <= s'
    ensures Complete(l, f, local, s')
  {
  }

  lemma DescribedShaped(l: Layout, f: Family, local: Locals, r: Rule)
    requires Described(l, f, local, r)
    ensures Shaped(l, r)
  {
  }

  lemma FinalGuardDecides(l: Layout, local: Locals, s: set<Rule>, p: Packet, t: Tables)
    requires Complete(l, p.family, local, s)
    ensures FinalGuardRule(l, p.family) in s && Decision(FinalGuardRule(l, p.family), p, t) == Some(Rejected)
  {
  }

  lemma OwnFamily(cfg: Config, input: Input, q: Rule, p: Packet, t: Tables)
    requires q in Plan(cfg, input).rules && Decision(q, p, t).Some?
    ensures q in FamilyRules(cfg, p.family, input)
  {
    hide FamilyRules, Described;
    var f := if q in FamilyRules(cfg, V4, input) then V4 else V6;
    PlannedRule(cfg, input, f, q);
    assert q.family == f by { DescribedFamily(cfg.layout, f, LocalsOf(cfg, input, f), q); }
  }

  lemma DescribedFamily(l: Layout, f: Family, local: Locals, r: Rule)
    requires Described(l, f, local, r)
    ensures r.family == f
  {
  }

  /** A family that is not managed is left to the operating system. */
  lemma UnmanagedPassesOn(cfg: Config, input: Input, v: seq<Rule>, p: Packet, t: Tables)
    requires !Manages(cfg, p.family) && Lists(v, Plan(cfg, input).rules)
    ensures Evaluate(v, p, t) == PassedOn
  {
    hide StaticRules, SourceRules;
    var d := Decider(v, Plan(cfg, input).rules, p, t);
    if d.Some? {
      OwnFamily(cfg, input, d.value, p, t);
      assert false;
    }
  }
}
