/** What a prioritised rule list means for a packet: the kernel walks the
    rules by priority, a lookup in a table without a usable route falls
    through, and `unreachable` stops (FR-ROUTE-1,
    FR-ROUTE-3). The statements hold for every order of rules of equal
    priority. */
module Meaning {
  import opened Model
  import opened Marks
  import opened Configuration
  import opened Planner

  /** A packet of family `family` looking for a route. */
  datatype Packet = Packet(family: Family, mark: nat, source: Ip)

  /** The routes of the packet's family: whether a non-default route of the
      main table covers its destination, and the tables that hold a route. */
  datatype Tables = Tables(mainCovers: bool, filled: set<nat>)

  datatype Verdict = ViaMain | ViaTable(table: nat) | Rejected | PassedOn

  predicate Matches(r: Rule, p: Packet)
  {
    && r.family == p.family
    && (r.fwmark.None? || Selects(r.fwmark.value.value, r.fwmark.value.mask, p.mark))
    && (r.source.None? || r.source.value == p.source)
  }

  function Outcome(a: Action, t: Tables): (o: Option<Verdict>)
  {
    match a
    case Lookup(n) => if n in t.filled then Some(ViaTable(n)) else None
    case LookupMainSuppressDefault => if t.mainCovers then Some(ViaMain) else None
    case Unreachable => Some(Rejected)
  }

  function Decision(r: Rule, p: Packet, t: Tables): (o: Option<Verdict>)
  {
    if Matches(r, p) then Outcome(r.action, t) else None
  }

  /** Walking the rules in order. */
  function Evaluate(v: seq<Rule>, p: Packet, t: Tables): (o: Verdict)
  {
    if v == [] then PassedOn
    else match Decision(v[0], p, t)
      case Some(o) => o
      case None => Evaluate(v[1..], p, t)
  }

  /** `v` lists the rules `s` by priority. */
  ghost predicate Lists(v: seq<Rule>, s: set<Rule>)
  {
    && (forall r :: r in v <==> r in s)
    && (forall i, j :: 0 <= i < j < |v| ==> v[i].priority <= v[j].priority)
  }

  // ------------------------------------------------------------ first decision

  /** The verdict is the one of the first rule that decides. */
  lemma {:induction false} FirstDecider(v: seq<Rule>, p: Packet, t: Tables) returns (i: nat)
    ensures i <= |v|
    ensures forall j :: 0 <= j < i ==> Decision(v[j], p, t).None?
    ensures i < |v| ==> Decision(v[i], p, t) == Some(Evaluate(v, p, t))
    ensures i == |v| ==> Evaluate(v, p, t) == PassedOn
    decreases |v|
  {
    if v == [] {
      i := 0;
    } else if Decision(v[0], p, t).Some? {
      i := 0;
    } else {
      i := FirstDecider(v[1..], p, t);
      assert forall j :: 0 <= j < i ==> v[j + 1] == v[1..][j];
      i := i + 1;
    }
  }

  /** The rule that gives the verdict, and nothing that decides precedes it. */
  lemma {:induction false} Decider(v: seq<Rule>, s: set<Rule>, p: Packet, t: Tables) returns (q: Option<Rule>)
    requires Lists(v, s)
    ensures q.None? ==> Evaluate(v, p, t) == PassedOn && forall r :: r in s ==> Decision(r, p, t).None?
    ensures q.Some? ==> q.value in s && Decision(q.value, p, t) == Some(Evaluate(v, p, t))
    ensures q.Some? ==> forall r :: r in s && Decision(r, p, t).Some? ==> q.value.priority <= r.priority
  {
    var i := FirstDecider(v, p, t);
    if i == |v| {
      q := None;
      forall r | r in s ensures Decision(r, p, t).None? {
        assert r in v;
      }
    } else {
      q := Some(v[i]);
      assert v[i] in v;
      forall r | r in s && Decision(r, p, t).Some? ensures v[i].priority <= r.priority {
        assert r in v;
        var j :| 0 <= j < |v| && v[j] == r;
      }
    }
  }

  // --------------------------------------------------------- shapes of rules

  /** Whether `r` is the rule that its kind stands for in the layout. */
  predicate Shaped(l: Layout, r: Rule)
  {
    match r.kind
    case ProbeLookup(id) => r == ProbeRule(l, r.family, id)
    case ProbeGuard => r == ProbeGuardRule(l, r.family)
    case MainBypass => r == MainBypassRule(l, r.family)
    case PathLookup(id) => r == PathRule(l, r.family, id)
    case PathGuard => r in PathGuards(l, r.family)
    case PolicyBalanceLookup(id) => r == PolicyBalanceRule(l, r.family, id)
    case PolicyBlockLookup(id) => r == PolicyBlockRule(l, r.family, id)
    case PolicyBlockGuard => r == PolicyBlockGuardRule(l, r.family)
    case SourceLookup(id) => r.source.Some? && r == SourceRule(l, r.family, id, r.source.value)
    case SourceGuard => r.source.Some? && r == SourceGuardRule(l, r.family, r.source.value)
    case BalanceLookup => r == BalanceRule(l, r.family)
    case FinalGuard => r == FinalGuardRule(l, r.family)
  }

  predicate IsClassGuard(k: RuleKind) { k.ProbeGuard? || k.PathGuard? || k.PolicyBlockGuard? }

  /** A rule that sends packets to a table. */
  predicate IsLookup(k: RuleKind)
  {
    k.ProbeLookup? || k.MainBypass? || k.PathLookup? || k.PolicyBalanceLookup? || k.PolicyBlockLookup?
    || k.SourceLookup? || k.BalanceLookup?
  }

  /** What a shaped rule decides, in terms of the field of the mark. */
  function KindDecision(l: Layout, r: Rule, field: FieldValue, p: Packet, t: Tables): (o: Option<Verdict>)
  {
    var via := (n: nat) => if n in t.filled then Some(ViaTable(n)) else None;
    var bound := field == 0 && r.source == Some(p.source);
    match r.kind
    case ProbeLookup(id) => if field == ValueOf(CLASS_PROBE, id) then via(PathTable(l, id)) else None
    case ProbeGuard => if field / 64 == CLASS_PROBE then Some(Rejected) else None
    case MainBypass => if t.mainCovers then Some(ViaMain) else None
    case PathLookup(id) => if field == ValueOf(CLASS_PATH, id) then via(PathTable(l, id)) else None
    case PathGuard =>
      if (exists k :: 0 <= k < 6 && r == PathGuardRule(l, p.family, k) && HasBit(field % 64, k))
         && field / 64 == CLASS_PATH
      then Some(Rejected) else None
    case PolicyBalanceLookup(id) =>
      if field == ValueOf(CLASS_POLICY_BALANCE, id) then via(PolicyBalanceTable(l, id)) else None
    case PolicyBlockLookup(id) =>
      if field == ValueOf(CLASS_POLICY_BLOCK, id) then via(PolicyBlockTable(l, id)) else None
    case PolicyBlockGuard => if field / 64 == CLASS_POLICY_BLOCK then Some(Rejected) else None
    case SourceLookup(id) => if bound then via(PathTable(l, id)) else None
    case SourceGuard => if bound then Some(Rejected) else None
    case BalanceLookup => via(BalancingTable(l))
    case FinalGuard => Some(Rejected)
  }

  /** The fwmark selector of every shaped rule selects by the field. */
  lemma DecisionByField(l: Layout, r: Rule, p: Packet, t: Tables)
    requires Shaped(l, r) && r.family == p.family
    ensures Decision(r, p, t) == KindDecision(l, r, Field(l.shift, p.mark), p, t)
  {
    match r.kind
    case ProbeLookup(id) => ValueSelector(l.shift, ValueOf(CLASS_PROBE, id), p.mark);
    case ProbeGuard => ClassSelector(l.shift, CLASS_PROBE, p.mark);
    case MainBypass =>
    case PathLookup(id) => ValueSelector(l.shift, ValueOf(CLASS_PATH, id), p.mark);
    case PathGuard => PathGuardDecision(l, r, p, t);
    case PolicyBalanceLookup(id) => ValueSelector(l.shift, ValueOf(CLASS_POLICY_BALANCE, id), p.mark);
    case PolicyBlockLookup(id) => ValueSelector(l.shift, ValueOf(CLASS_POLICY_BLOCK, id), p.mark);
    case PolicyBlockGuard => ClassSelector(l.shift, CLASS_POLICY_BLOCK, p.mark);
    case SourceLookup(id) =>
      ValueSelector(l.shift, 0, p.mark);
      ShlZero(l.shift);
    case SourceGuard =>
      ValueSelector(l.shift, 0, p.mark);
      ShlZero(l.shift);
    case BalanceLookup =>
    case FinalGuard =>
  }

  lemma PathGuardDecision(l: Layout, r: Rule, p: Packet, t: Tables)
    requires r in PathGuards(l, p.family)
    ensures Decision(r, p, t) == KindDecision(l, r, Field(l.shift, p.mark), p, t)
  {
    PathGuardMember(l, p.family, r);
    forall k | 0 <= k < 6 && r == PathGuardRule(l, p.family, k)
      ensures Decision(r, p, t)
           == if Field(l.shift, p.mark) / 64 == CLASS_PATH && HasBit(Field(l.shift, p.mark) % 64, k)
              then Some(Rejected) else None
    {
      GuardSelector(l.shift, k, p.mark);
    }
  }

  /** With the six path guards, some guard rejects every path value. */
  lemma SomePathGuardRejects(l: Layout, s: set<Rule>, p: Packet, t: Tables) returns (g: Rule)
    requires PathGuards(l, p.family) <= s
    requires Field(l.shift, p.mark) / 64 == CLASS_PATH && Field(l.shift, p.mark) != 0
    ensures g in PathGuards(l, p.family) && Decision(g, p, t) == Some(Rejected)
  {
    GuardsCoverPathValues(l.shift, p.mark);
    var k :| 0 <= k < 6 && Selects(Encode(l.shift, Bit(k)), Encode(l.shift, 192 + Bit(k)), p.mark);
    g := PathGuardRule(l, p.family, k);
    PathGuardMember(l, p.family, g);
  }
}
