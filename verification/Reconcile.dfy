/** The reconciler (crates/polywan/src/reconcile.rs): the difference between
    the desired artifacts and the observed ones, ordered, and its execution. */
module Reconcile {
  import opened Model
  import opened Configuration
  import opened Planner
  import opened Observed
  import Order

  datatype Op =
    | ReplaceRoute(route: Route)
    | AddRule(rule: Rule)
    | ApplyNft
    | DeleteRule(observed: ObservedRule)
    | DeleteRoute(key: TableKey, protocol: nat)

  /** The role of a rule found in the priority range, from its offset. */
  function Classify(l: Layout, priority: nat): (k: Option<RuleKind>)
  {
    if priority < l.priorityBase then None
    else
      var off := priority - l.priorityBase;
      if 1 <= off <= 63 then Some(ProbeLookup(off))
      else if off == 64 then Some(ProbeGuard)
      else if off == 100 then Some(MainBypass)
      else if 201 <= off <= 263 then Some(PathLookup(off - 200))
      else if off == 264 then Some(PathGuard)
      else if 301 <= off <= 363 then Some(PolicyBalanceLookup(off - 300))
      else if 401 <= off <= 463 then Some(PolicyBlockLookup(off - 400))
      else if off == 464 then Some(PolicyBlockGuard)
      else if 501 <= off <= 563 then Some(SourceLookup(off - 500))
      else if off == 564 then Some(SourceGuard)
      else if off == 600 then Some(BalanceLookup)
      else if off == 699 then Some(FinalGuard)
      else None
  }

  /** Installation order: a source guard sorts right after its source rule. */
  function InstallRank(k: RuleKind): int
  {
    match k
    case ProbeGuard => 0
    case PathGuard => 0
    case PolicyBlockGuard => 0
    case ProbeLookup(_) => 1
    case MainBypass => 2
    case PathLookup(_) => 3
    case PolicyBalanceLookup(_) => 4
    case PolicyBlockLookup(_) => 4
    case SourceLookup(_) => 5
    case SourceGuard => 5
    case BalanceLookup => 6
    case FinalGuard => 7
  }

  /** Removal order: the reverse, with each source guard before its source
      rule; rules of unknown role go with the path lookups. */
  function RemovalRank(k: Option<RuleKind>): int
  {
    match k
    case Some(FinalGuard) => 0
    case Some(BalanceLookup) => 1
    case Some(SourceLookup(_)) => 2
    case Some(SourceGuard) => 2
    case Some(PolicyBalanceLookup(_)) => 3
    case Some(PolicyBlockLookup(_)) => 3
    case Some(PathLookup(_)) => 4
    case None => 4
    case Some(MainBypass) => 5
    case Some(ProbeLookup(_)) => 6
    case Some(ProbeGuard) => 7
    case Some(PathGuard) => 7
    case Some(PolicyBlockGuard) => 7
  }

  function FamilyIndex(f: Family): int { if f == V4 then 0 else 1 }

  function InstallKey(r: Rule): seq<int>
  {
    [InstallRank(r.kind), Tag(r.source), Bits(r.source), if r.kind == SourceGuard then 1 else 0,
     FamilyIndex(r.family), r.priority]
  }

  function PrefixTag(s: Option<Prefix>): int { match s case None => 0 case Some(p) => if p.address.Ip4? then 1 else 2 }

  function PrefixBits(s: Option<Prefix>): int { match s case None => 0 case Some(p) => p.address.bits }

  function PrefixLength(s: Option<Prefix>): int { match s case None => 0 case Some(p) => p.length }

  function RemovalKey(l: Layout, o: ObservedRule): seq<int>
  {
    var kind, priority: int := Classify(l, o.priority), o.priority;
    [RemovalRank(kind), PrefixTag(o.source), PrefixBits(o.source), PrefixLength(o.source),
     if kind == Some(SourceGuard) then 0 else 1, FamilyIndex(o.family), -priority]
  }

  // ----------------------------------------------------------------- diff

  datatype DiffInput = DiffInput(layout: Layout, protocol: nat, families: set<Family>, beforeNft: Desired,
                                 desired: Desired, nftPending: bool)

  /** Routes to install before the nftables step. */
  function EarlyReplacements(sys: System, d: DiffInput): set<Route>
  {
    set k | k in d.beforeNft.routes && !RoutePresent(sys, d.protocol, d.beforeNft.routes[k]) :: d.beforeNft.routes[k]
  }

  /** Balancing and policy tables to empty before the nftables step. */
  function EarlyTables(sys: System, d: DiffInput): set<TableKey>
  {
    set k | k in ObservedTables(sys, d.layout, d.protocol)
            && !IsPathTable(d.layout, k.table) && k !in d.beforeNft.routes
  }

  predicate LookedUp(d: Desired, k: TableKey)
  {
    exists r :: r in d.rules && r.family == k.family && r.action == Lookup(k.table)
  }

  function StalePathTables(sys: System, d: DiffInput): set<TableKey>
  {
    set k | k in ObservedTables(sys, d.layout, d.protocol) && IsPathTable(d.layout, k.table) && k !in d.desired.routes
  }

  /** Path tables that a desired rule still looks up lose their route at once. */
  function WithdrawnTables(sys: System, d: DiffInput): set<TableKey>
  {
    set k | k in StalePathTables(sys, d) && LookedUp(d.desired, k)
  }

  function LateTables(sys: System, d: DiffInput): set<TableKey>
  {
    set k | k in StalePathTables(sys, d) && !LookedUp(d.desired, k)
  }

  function Additions(sys: System, d: DiffInput): set<Rule>
  {
    set r | r in d.desired.rules && RuleForm(r, d.protocol) !in OwnRules(sys, d.layout, d.protocol)
  }

  /** Routes to install after the nftables step. */
  function LateReplacements(sys: System, d: DiffInput): set<Route>
  {
    set k | k in d.desired.routes
            && !(k in d.beforeNft.routes && d.beforeNft.routes[k] == d.desired.routes[k])
            && (k in EarlyTables(sys, d) || !RoutePresent(sys, d.protocol, d.desired.routes[k]))
          :: d.desired.routes[k]
  }

  predicate HasFamily(rules: set<Rule>, f: Family) { exists r :: r in rules && r.family == f }

  function Deletions(sys: System, d: DiffInput): set<ObservedRule>
  {
    set o | o in OwnRules(sys, d.layout, d.protocol)
            && (o.family in d.families || !HasFamily(d.desired.rules, o.family))
            && !exists r :: r in d.desired.rules && Is(o, r, d.protocol)
  }

  /** The seven parts of the operation list, in order. */
  datatype Segments = Segments(early: seq<Route>, withdrawals: seq<TableKey>, adds: seq<Rule>, nft: bool,
                               late: seq<Route>, deletes: seq<ObservedRule>, lateTables: seq<TableKey>)

  /** `g` is a difference: each part holds exactly its set, each element once,
      and rules are added and deleted in their order. */
  ghost predicate IsDiff(sys: System, d: DiffInput, g: Segments)
  {
    && Order.Enumerates(g.early, EarlyReplacements(sys, d))
    && Order.Enumerates(g.withdrawals, EarlyTables(sys, d) + WithdrawnTables(sys, d))
    && Order.Enumerates(g.adds, Additions(sys, d)) && Order.SortedBy(g.adds, InstallKey)
    && g.nft == d.nftPending
    && Order.Enumerates(g.late, LateReplacements(sys, d))
    && Order.Enumerates(g.deletes, Deletions(sys, d))
    && Order.SortedBy(g.deletes, o => RemovalKey(d.layout, o))
    && Order.Enumerates(g.lateTables, LateTables(sys, d))
  }

  function Replacements(v: seq<Route>): seq<Op> { seq(|v|, i requires 0 <= i < |v| => ReplaceRoute(v[i])) }

  function RouteDeletions(v: seq<TableKey>, p: nat): seq<Op>
  {
    seq(|v|, i requires 0 <= i < |v| => DeleteRoute(v[i], p))
  }

  function RuleAdditions(v: seq<Rule>): seq<Op> { seq(|v|, i requires 0 <= i < |v| => AddRule(v[i])) }

  function RuleDeletions(v: seq<ObservedRule>): seq<Op> { seq(|v|, i requires 0 <= i < |v| => DeleteRule(v[i])) }

  /** The operations before the nftables step. */
  function BeforeNft(g: Segments, p: nat): seq<Op>
  {
    Replacements(g.early) + RouteDeletions(g.withdrawals, p) + RuleAdditions(g.adds)
  }

  function AfterNft(g: Segments, p: nat): seq<Op>
  {
    Replacements(g.late) + RuleDeletions(g.deletes) + RouteDeletions(g.lateTables, p)
  }

  function OpsOf(g: Segments, p: nat): seq<Op>
  {
    BeforeNft(g, p) + (if g.nft then [ApplyNft] else []) + AfterNft(g, p)
  }

  /** Sorting keeps the elements, each once. */
  lemma SortEnumerates<T(!new)>(v: seq<T>, s: set<T>, key: T -> seq<int>)
    requires Order.Enumerates(v, s)
    ensures Order.Enumerates(Order.Sort(v, key), s) && Order.SortedBy(Order.Sort(v, key), key)
  {
    var r := Order.Sort(v, key);
    Order.SortSorts(v, key);
    forall x ensures x in r <==> x in s {
      assert x in multiset(r) <==> x in multiset(v);
      assert x in v <==> x in multiset(v);
      assert x in r <==> x in multiset(r);
    }
    Order.DistinctByMultiset(v, r);
  }

  /** Computes the ordered operations. */
  method Diff(sys: System, d: DiffInput) returns (g: Segments)
    ensures IsDiff(sys, d, g)
  {
    hide EarlyReplacements, EarlyTables, WithdrawnTables, Additions, LateReplacements, Deletions, LateTables;
    hide InstallKey, RemovalKey, Order.Enumerates, Order.SortedBy;
    var early := Order.Enumerate(EarlyReplacements(sys, d));
    var withdrawals := Order.Enumerate(EarlyTables(sys, d) + WithdrawnTables(sys, d));
    var adds := Order.Enumerate(Additions(sys, d));
    SortEnumerates(adds, Additions(sys, d), InstallKey);
    var late := Order.Enumerate(LateReplacements(sys, d));
    var deletes := Order.Enumerate(Deletions(sys, d));
    var key := o => RemovalKey(d.layout, o);
    SortEnumerates(deletes, Deletions(sys, d), key);
    var lateTables := Order.Enumerate(LateTables(sys, d));
    g := Segments(early, withdrawals, Order.Sort(adds, InstallKey), d.nftPending, late,
                  Order.Sort(deletes, key), lateTables);
  }

  /** There always is a difference. */
  lemma SomeDiff(sys: System, d: DiffInput) returns (g: Segments)
    ensures IsDiff(sys, d, g)
  {
    hide EarlyReplacements, EarlyTables, WithdrawnTables, Additions, LateReplacements, Deletions, LateTables;
    hide InstallKey, RemovalKey, Order.Enumerates, Order.SortedBy;
    var early := Order.Listing(EarlyReplacements(sys, d));
    var withdrawals := Order.Listing(EarlyTables(sys, d) + WithdrawnTables(sys, d));
    var adds := Order.Listing(Additions(sys, d));
    SortEnumerates(adds, Additions(sys, d), InstallKey);
    var late := Order.Listing(LateReplacements(sys, d));
    var deletes := Order.Listing(Deletions(sys, d));
    var key := o => RemovalKey(d.layout, o);
    SortEnumerates(deletes, Deletions(sys, d), key);
    var lateTables := Order.Listing(LateTables(sys, d));
    g := Segments(early, withdrawals, Order.Sort(adds, InstallKey), d.nftPending, late,
                  Order.Sort(deletes, key), lateTables);
  }

  // ------------------------------------------------------------- execution

  function RuleStep(rules: set<ObservedRule>, op: Op, protocol: nat): set<ObservedRule>
  {
    match op
    case AddRule(r) => rules + {RuleForm(r, protocol)}
    case DeleteRule(o) => rules - {o}
    case _ => rules
  }

  /** The deletion key of the route of a table. */
  function DeleteForm(k: TableKey, protocol: nat): ObservedRoute
  {
    ObservedRoute(k.family, k.table, protocol, ROUTE_METRIC, None, true, None, [], None)
  }

  function RouteStep(s: Scope, routes: map<RouteKey, ObservedRoute>, op: Op, protocol: nat)
    : map<RouteKey, ObservedRoute>
  {
    match op
    case ReplaceRoute(r) =>
      var o := RouteForm(r, protocol);
      if Keeps(s, o) then routes[KeyOf(s, o) := o] else routes
    case DeleteRoute(k, p) =>
      var o := DeleteForm(k, p);
      if Keeps(s, o) then routes - {KeyOf(s, o)} else routes
    case _ => routes
  }

  /** A successful kernel operation, applied to the view at once. */
  function Step(s: Scope, protocol: nat, sys: System, op: Op): System
  {
    System(RuleStep(sys.rules, op, protocol), RouteStep(s, sys.routes, op, protocol))
  }

  function Run(s: Scope, protocol: nat, sys: System, ops: seq<Op>): System
  {
    if ops == [] then sys
    else Step(s, protocol, Run(s, protocol, sys, ops[..|ops| - 1]), ops[|ops| - 1])
  }

  datatype Outcome = Finished | StoppedAtNft | Failed

  /** Executes in order, stopping at the first failure (after `failAfter`
      operations) and at the nftables step. */
  method Execute(s: Scope, protocol: nat, sys: System, ops: seq<Op>, failAfter: nat)
    returns (result: System, done: nat, outcome: Outcome)
    ensures done <= |ops| && result == Run(s, protocol, sys, ops[..done])
    ensures ApplyNft !in ops[..done]
    ensures outcome == Finished ==> done == |ops|
    ensures outcome == StoppedAtNft ==> done < |ops| && ops[done] == ApplyNft
    ensures outcome == Failed ==> done == failAfter < |ops|
    ensures failAfter >= |ops| ==> outcome != Failed
  {
    result, done := sys, 0;
    while done < |ops|
      invariant done <= |ops| && result == Run(s, protocol, sys, ops[..done])
      invariant ApplyNft !in ops[..done] && done <= failAfter
    {
      if done == failAfter {
        return result, done, Failed;
      }
      if ops[done].ApplyNft? {
        return result, done, StoppedAtNft;
      }
      assert ops[..done + 1] == ops[..done] + [ops[done]];
      assert ops[..done + 1][..done] == ops[..done];
      result := Step(s, protocol, result, ops[done]);
      done := done + 1;
    }
    outcome := Finished;
  }

  lemma {:induction false} RunConcat(s: Scope, protocol: nat, sys: System, a: seq<Op>, b: seq<Op>)
    ensures Run(s, protocol, sys, a + b) == Run(s, protocol, Run(s, protocol, sys, a), b)
    decreases |b|
  {
    if b == [] {
      assert a + b == a;
    } else {
      RunConcat(s, protocol, sys, a, b[..|b| - 1]);
      assert (a + b)[..|a + b| - 1] == a + b[..|b| - 1];
    }
  }
}
