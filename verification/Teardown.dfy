/** Cleanup over a union of layouts (crates/polywan/src/reconcile.rs,
    FR-REC-4, FR-ROUTE-6). */
module Teardown {
  import opened Model
  import opened Configuration
  import opened Planner
  import opened Observed
  import opened Reconcile
  import opened Meaning
  import opened ClassTable
  import opened Runs
  import opened RunSafety
  import Order

  /** A layout to clean up, with its route protocol. */
  datatype Listed = Listed(layout: Layout, protocol: nat)

  predicate OwnsRule(e: Listed, o: ObservedRule)
  {
    o.protocol == e.protocol && OwnsPriority(e.layout, o.priority)
  }

  function IdsUpTo(n: nat): (r: set<UplinkId>)
    requires n <= 63
    ensures forall id: UplinkId :: id in r <==> id <= n
  {
    if n == 0 then {} else IdsUpTo(n - 1) + {n}
  }

  /** The rules that a priority's role can install. */
  function RoleRules(l: Layout, o: ObservedRule): set<Rule>
  {
    match (Classify(l, o.priority), o.source)
    case (Some(SourceLookup(id)), Some(p)) => AddressRules(l, o.family, id, {p.address})
    case (Some(SourceGuard), Some(p)) => AddressRules(l, o.family, 1, {p.address})
    case _ => StaticRules(l, o.family, IdsUpTo(63))
  }

  /** Whether a rule is the one that its priority's role installs. */
  predicate HasRole(l: Layout, o: ObservedRule)
  {
    exists r :: r in RoleRules(l, o) && Some(r.kind) == Classify(l, o.priority) && Is(o, r, o.protocol)
  }

  /** The listed layouts that own a rule, in order. */
  function Owners(ls: seq<Listed>, o: ObservedRule): seq<Layout>
  {
    if ls == [] then []
    else (if OwnsRule(ls[0], o) then [ls[0].layout] else []) + Owners(ls[1..], o)
  }

  function FirstWithRole(owners: seq<Layout>, o: ObservedRule): Option<Layout>
  {
    if owners == [] then None
    else if HasRole(owners[0], o) then Some(owners[0])
    else FirstWithRole(owners[1..], o)
  }

  /** The layout a rule is ordered by: the first whose rule it is by its shape,
      otherwise the first that owns it. */
  function OrderingLayout(ls: seq<Listed>, o: ObservedRule): Option<Layout>
  {
    var owners := Owners(ls, o);
    if owners == [] then None
    else match FirstWithRole(owners, o) case Some(l) => Some(l) case None => Some(owners[0])
  }

  function OrderKey(ls: seq<Listed>, o: ObservedRule): seq<int>
  {
    match OrderingLayout(ls, o) case None => [] case Some(l) => RemovalKey(l, o)
  }

  /** A PolyWAN table of a listed protocol. */
  datatype TaggedTable = TaggedTable(protocol: nat, key: TableKey)

  predicate RuleDoomed(ls: seq<Listed>, o: ObservedRule) { exists i :: 0 <= i < |ls| && OwnsRule(ls[i], o) }

  function DoomedRules(sys: System, ls: seq<Listed>): set<ObservedRule>
  {
    set o | o in sys.rules && RuleDoomed(ls, o)
  }

  function Tagged(protocol: nat, keys: set<TableKey>): set<TaggedTable>
  {
    set k | k in keys :: TaggedTable(protocol, k)
  }

  function DoomedTables(sys: System, ls: seq<Listed>): set<TaggedTable>
  {
    if ls == [] then {}
    else DoomedTables(sys, ls[..|ls| - 1])
         + Tagged(ls[|ls| - 1].protocol, ObservedTables(sys, ls[|ls| - 1].layout, ls[|ls| - 1].protocol))
  }

  ghost predicate IsTeardown(sys: System, ls: seq<Listed>, rules: seq<ObservedRule>, tables: seq<TaggedTable>)
  {
    && Order.Enumerates(rules, DoomedRules(sys, ls)) && Order.SortedBy(rules, o => OrderKey(ls, o))
    && Order.Enumerates(tables, DoomedTables(sys, ls))
  }

  function TableDeletions(v: seq<TaggedTable>): seq<Op>
  {
    seq(|v|, i requires 0 <= i < |v| => DeleteRoute(v[i].key, v[i].protocol))
  }

  function OpsOfTeardown(rules: seq<ObservedRule>, tables: seq<TaggedTable>): seq<Op>
  {
    RuleDeletions(rules) + TableDeletions(tables)
  }

  lemma {:induction false} OwnersAre(ls: seq<Listed>, o: ObservedRule)
    ensures forall l :: l in Owners(ls, o) <==> exists i :: 0 <= i < |ls| && OwnsRule(ls[i], o) && ls[i].layout == l
    decreases |ls|
  {
    hide OwnsRule;
    if ls != [] {
      var rest := Owners(ls[1..], o);
      OwnersAre(ls[1..], o);
      forall l ensures l in Owners(ls, o) <==> exists i :: 0 <= i < |ls| && OwnsRule(ls[i], o) && ls[i].layout == l {
        if l in rest {
          var i :| 0 <= i < |ls[1..]| && OwnsRule(ls[1..][i], o) && ls[1..][i].layout == l;
          assert ls[i + 1] == ls[1..][i];
        }
        if exists i :: 0 < i < |ls| && OwnsRule(ls[i], o) && ls[i].layout == l {
          var i :| 0 < i < |ls| && OwnsRule(ls[i], o) && ls[i].layout == l;
          assert ls[1..][i - 1] == ls[i];
        }
      }
    }
  }

  /** Cleanup's operations: the rules of every layout in removal order, then
      the routes, each once. */
  method MakeTeardown(sys: System, ls: seq<Listed>) returns (rules: seq<ObservedRule>, tables: seq<TaggedTable>)
    ensures IsTeardown(sys, ls, rules, tables)
  {
    hide OrderKey, ObservedTables, OwnsRule;
    var all := Order.Enumerate(sys.rules);
    var found: seq<ObservedRule> := [];
    for i := 0 to |all|
      invariant forall o :: o in found <==> o in all[..i] && RuleDoomed(ls, o)
      invariant forall a, b :: 0 <= a < b < |found| ==> found[a] != found[b]
    {
      var o := all[i];
      OwnersAre(ls, o);
      OwnersEmpty(ls, o);
      if Owners(ls, o) != [] {
        assert o !in all[..i];
        found := found + [o];
      }
    }
    assert all[..|all|] == all;
    var doomed: set<TaggedTable> := {};
    for i := 0 to |ls|
      invariant doomed == DoomedTables(sys, ls[..i])
    {
      assert ls[..i + 1][..i] == ls[..i];
      doomed := doomed + Tagged(ls[i].protocol, ObservedTables(sys, ls[i].layout, ls[i].protocol));
    }
    assert ls[..|ls|] == ls;
    var key := o => OrderKey(ls, o);
    SortEnumerates(found, DoomedRules(sys, ls), key);
    rules := Order.Sort(found, key);
    tables := Order.Enumerate(doomed);
  }

  lemma OwnersEmpty(ls: seq<Listed>, o: ObservedRule)
    ensures Owners(ls, o) != [] <==> RuleDoomed(ls, o)
  {
    hide OwnsRule;
    OwnersAre(ls, o);
    if Owners(ls, o) != [] { assert Owners(ls, o)[0] in Owners(ls, o); }
    if RuleDoomed(ls, o) {
      var i :| 0 <= i < |ls| && OwnsRule(ls[i], o);
      assert ls[i].layout in Owners(ls, o);
    }
  }

  // ------------------------------------------------------------------ roles

  lemma RoleShaped(l: Layout, o: ObservedRule, r: Rule)
    requires r in RoleRules(l, o)
    ensures Shaped(l, r)
  {
    hide Classify, StaticRules, AddressRules, Shaped, IdsUpTo;
    if r in StaticRules(l, o.family, IdsUpTo(63)) {
      StaticShaped(l, o.family, IdsUpTo(63), r);
    } else if Classify(l, o.priority) == Some(SourceGuard) {
      AddressShaped(l, o.family, 1, {o.source.value.address}, r);
    } else {
      AddressShaped(l, o.family, Classify(l, o.priority).value.id, {o.source.value.address}, r);
    }
  }

  lemma AddressShaped(l: Layout, f: Family, id: UplinkId, addresses: set<Ip>, r: Rule)
    requires r in AddressRules(l, f, id, addresses)
    ensures Shaped(l, r)
  {
  }

  lemma StaticShaped(l: Layout, f: Family, ids: set<UplinkId>, r: Rule)
    requires r in StaticRules(l, f, ids)
    ensures Shaped(l, r)
  {
    hide CommonRules, UplinkRules, PathGuards;
    if r in CommonRules(l, f) {
      CommonShaped(l, f, r);
    } else {
      var id :| id in ids && r in UplinkRules(l, f, id);
      UplinkShaped(l, f, id, r);
    }
  }

  lemma CommonShaped(l: Layout, f: Family, r: Rule)
    requires r in CommonRules(l, f)
    ensures Shaped(l, r)
  {
    if r in PathGuards(l, f) { PathGuardMember(l, f, r); }
  }

  lemma UplinkShaped(l: Layout, f: Family, id: UplinkId, r: Rule)
    requires r in UplinkRules(l, f, id)
    ensures Shaped(l, r)
  {
  }

  /** A rule has a role exactly when it is a rule the planner can write. */
  lemma RoleIff(l: Layout, o: ObservedRule)
    ensures HasRole(l, o) <==> exists r :: Shaped(l, r) && Is(o, r, o.protocol)
  {
    if HasRole(l, o) {
      var r :| r in RoleRules(l, o) && Some(r.kind) == Classify(l, o.priority) && Is(o, r, o.protocol);
      RoleShaped(l, o, r);
    }
    if r :| Shaped(l, r) && Is(o, r, o.protocol) {
      ShapedClassified(l, r);
      ShapedInRole(l, o, r);
    }
  }

  lemma ShapedInRole(l: Layout, o: ObservedRule, r: Rule)
    requires Shaped(l, r) && Is(o, r, o.protocol) && Classify(l, o.priority) == Some(r.kind)
    ensures r in RoleRules(l, o)
  {
    hide Classify, PathGuards;
    match r.kind
    case ProbeLookup(id) => assert id in IdsUpTo(63) && r in UplinkRules(l, o.family, id);
    case PathLookup(id) => assert id in IdsUpTo(63) && r in UplinkRules(l, o.family, id);
    case PolicyBalanceLookup(id) => assert id in IdsUpTo(63) && r in UplinkRules(l, o.family, id);
    case PolicyBlockLookup(id) => assert id in IdsUpTo(63) && r in UplinkRules(l, o.family, id);
    case _ =>
  }

  // ------------------------------------------------------------------ order

  lemma {:induction false} FirstRole(owners: seq<Layout>, o: ObservedRule, l: Layout)
    requires l in owners && HasRole(l, o)
    ensures FirstWithRole(owners, o).Some? && HasRole(FirstWithRole(owners, o).value, o)
    decreases |owners|
  {
    hide HasRole;
    if !HasRole(owners[0], o) {
      FirstRole(owners[1..], o, l);
    }
  }

  /** A rule with a role in a listed layout is ordered by a role. */
  lemma OrderedByRole(ls: seq<Listed>, o: ObservedRule, i: nat) returns (l: Layout, r: Rule)
    requires i < |ls| && OwnsRule(ls[i], o) && HasRole(ls[i].layout, o)
    ensures Shaped(l, r) && Is(o, r, o.protocol) && OrderKey(ls, o) == RemovalKey(l, o)
    ensures Classify(l, o.priority) == Some(r.kind)
  {
    hide HasRole, OwnsRule, RemovalKey, Shaped, Classify;
    OwnersAre(ls, o);
    FirstRole(Owners(ls, o), o, ls[i].layout);
    l := OrderingLayout(ls, o).value;
    RoleIff(l, o);
    r :| Shaped(l, r) && Is(o, r, o.protocol);
    ShapedClassified(l, r);
  }

  /** The sort of a rule, which its shape decides whatever the layout. */
  datatype Sort = GuardSort | LookupSort | MainSort | BalanceSort | FinalSort | SourceGuardSort | SourceSort

  function SortOf(k: RuleKind): Sort
  {
    match k
    case ProbeGuard => GuardSort
    case PathGuard => GuardSort
    case PolicyBlockGuard => GuardSort
    case MainBypass => MainSort
    case BalanceLookup => BalanceSort
    case FinalGuard => FinalSort
    case SourceGuard => SourceGuardSort
    case SourceLookup(_) => SourceSort
    case _ => LookupSort
  }

  lemma ShapeSort(l: Layout, r: Rule)
    requires Shaped(l, r)
    ensures SortOf(r.kind)
         == match r.action
            case LookupMainSuppressDefault => MainSort
            case Lookup(_) => if r.source.Some? then SourceSort else if r.fwmark.Some? then LookupSort else BalanceSort
            case Unreachable =>
              if r.source.Some? then SourceGuardSort else if r.fwmark.Some? then GuardSort else FinalSort
  {
    if r.kind.PathGuard? { PathGuardMember(l, r.family, r); }
  }

  lemma SameSort(l: Layout, r: Rule, l': Layout, r': Rule, o: ObservedRule)
    requires Shaped(l, r) && Is(o, r, o.protocol) && Shaped(l', r') && Is(o, r', o.protocol)
    ensures SortOf(r.kind) == SortOf(r'.kind)
  {
    hide Shaped;
    ShapeSort(l, r);
    ShapeSort(l', r');
  }

  /** What must be removed before what: every lookup before every class guard,
      a final guard before everything else, a source guard before the source
      rules of its address. */
  predicate Before(a: Rule, b: Rule)
  {
    || (IsLookup(a.kind) && IsClassGuard(b.kind))
    || (a.kind == FinalGuard && b.kind != FinalGuard)
    || (a.kind == SourceGuard && b.kind.SourceLookup? && a.source == b.source)
  }

  lemma KeyRank(l: Layout, o: ObservedRule)
    ensures |RemovalKey(l, o)| == 7 && RemovalKey(l, o)[0] == RemovalRank(Classify(l, o.priority))
    ensures RemovalKey(l, o)[1..4] == [PrefixTag(o.source), PrefixBits(o.source), PrefixLength(o.source)]
    ensures RemovalKey(l, o)[4] == if Classify(l, o.priority) == Some(SourceGuard) then 0 else 1
  {
  }

  lemma KeyOrder(l: Layout, o: ObservedRule, ko: RuleKind, l': Layout, q: ObservedRule, kq: RuleKind)
    requires Classify(l, o.priority) == Some(ko) && Classify(l', q.priority) == Some(kq)
    requires || RemovalRank(Some(ko)) < RemovalRank(Some(kq))
             || (RemovalRank(Some(ko)) == RemovalRank(Some(kq)) && ko == SourceGuard && kq != SourceGuard
                 && o.source == q.source)
    ensures !Order.LexLe(RemovalKey(l', q), RemovalKey(l, o))
  {
    hide RemovalKey, Classify;
    KeyRank(l, o);
    KeyRank(l', q);
    var a, b := RemovalKey(l, o), RemovalKey(l', q);
    if a[0] < b[0] {
      DifferAt(a, b, 0);
    } else {
      assert a[..4] == [a[0]] + a[1..4] && b[..4] == [b[0]] + b[1..4];
      DifferAt(a, b, 4);
    }
  }

  lemma RoleSort(ls: seq<Listed>, i: nat, a: Rule) returns (l: Layout, k: RuleKind)
    requires i < |ls| && Shaped(ls[i].layout, a)
    ensures var o := RuleForm(a, ls[i].protocol);
            && OrderKey(ls, o) == RemovalKey(l, o) && Classify(l, o.priority) == Some(k)
            && SortOf(k) == SortOf(a.kind)
  {
    var o := RuleForm(a, ls[i].protocol);
    hide Shaped, OrderKey, RemovalKey, Classify, SortOf;
    ShapedOwned(ls[i].layout, a);
    RoleIff(ls[i].layout, o);
    hide HasRole;
    var r: Rule;
    l, r := OrderedByRole(ls, o, i);
    SameSort(l, r, ls[i].layout, a, o);
    k := r.kind;
  }

  lemma BeforeRanks(a: Rule, b: Rule, ka: RuleKind, kb: RuleKind)
    requires Before(a, b) && SortOf(ka) == SortOf(a.kind) && SortOf(kb) == SortOf(b.kind)
    ensures || RemovalRank(Some(ka)) < RemovalRank(Some(kb))
            || (RemovalRank(Some(ka)) == RemovalRank(Some(kb)) && ka == SourceGuard && kb != SourceGuard
                && a.source == b.source)
  {
  }

  /** Rules of listed layouts, ordered by their roles, whatever the layouts. */
  lemma RolesOrdered(ls: seq<Listed>, i: nat, a: Rule, j: nat, b: Rule)
    requires i < |ls| && j < |ls| && Shaped(ls[i].layout, a) && Shaped(ls[j].layout, b) && Before(a, b)
    ensures !Order.LexLe(OrderKey(ls, RuleForm(b, ls[j].protocol)), OrderKey(ls, RuleForm(a, ls[i].protocol)))
  {
    hide Shaped, OrderKey, RemovalKey, Classify, Before, RemovalRank, SortOf;
    var o, q := RuleForm(a, ls[i].protocol), RuleForm(b, ls[j].protocol);
    var l, ka := RoleSort(ls, i, a);
    var l', kb := RoleSort(ls, j, b);
    BeforeRanks(a, b, ka, kb);
    KeyOrder(l, o, ka, l', q, kb);
  }

  // -------------------------------------------------------------- execution

  lemma {:induction false} RulesDeleted(s: Scope, p: nat, sys: System, rules: seq<ObservedRule>, n: nat)
    requires n <= |rules|
    ensures Run(s, p, sys, RuleDeletions(rules)[..n]) == sys.(rules := sys.rules - Taken(rules, n))
    decreases n
  {
    var ops := RuleDeletions(rules)[..n];
    if n == 0 {
      assert Taken(rules, 0) == {};
      assert sys.rules - {} == sys.rules;
    } else {
      RulesDeleted(s, p, sys, rules, n - 1);
      assert ops[..n - 1] == RuleDeletions(rules)[..n - 1] && ops[n - 1] == DeleteRule(rules[n - 1]);
      assert Taken(rules, n) == Taken(rules, n - 1) + {rules[n - 1]};
      assert sys.rules - Taken(rules, n) == sys.rules - Taken(rules, n - 1) - {rules[n - 1]};
    }
  }

  ghost predicate Covered(s: Scope, ls: seq<Listed>) { forall e :: e in ls ==> CoversLayout(s, e.layout) }

  function TakenKeys(tables: seq<TaggedTable>, n: nat): set<RouteKey>
    requires n <= |tables|
  {
    set i | 0 <= i < n :: OwnKey(tables[i].key)
  }

  lemma {:induction false} TablesDeleted(s: Scope, p: nat, sys: System, tables: seq<TaggedTable>, n: nat)
    requires n <= |tables| && forall t :: t in tables ==> IsPolywan(s, t.key.table)
    ensures Run(s, p, sys, TableDeletions(tables)[..n]) == sys.(routes := sys.routes - TakenKeys(tables, n))
    decreases n
  {
    hide IsPolywan;
    var ops := TableDeletions(tables)[..n];
    if n == 0 {
      assert TakenKeys(tables, 0) == {};
      assert sys.routes - {} == sys.routes;
    } else {
      var t := tables[n - 1];
      assert t in tables;
      TablesDeleted(s, p, sys, tables, n - 1);
      assert ops[..n - 1] == TableDeletions(tables)[..n - 1] && ops[n - 1] == DeleteRoute(t.key, t.protocol);
      assert KeyOf(s, DeleteForm(t.key, t.protocol)) == OwnKey(t.key);
      assert TakenKeys(tables, n) == TakenKeys(tables, n - 1) + {OwnKey(t.key)};
      assert sys.routes - TakenKeys(tables, n) == sys.routes - TakenKeys(tables, n - 1) - {OwnKey(t.key)};
    }
  }

  /** A PolyWAN-shaped route of a listed protocol in the tables of its layout. */
  predicate RouteDoomed(ls: seq<Listed>, r: ObservedRoute)
  {
    exists i :: 0 <= i < |ls| && r.protocol == ls[i].protocol && OwnsTable(ls[i].layout, r.table) && AsPlanned(r).Some?
  }

  lemma {:induction false} DoomedTablesAre(sys: System, ls: seq<Listed>, t: TaggedTable)
    ensures t in DoomedTables(sys, ls)
       <==> exists i :: 0 <= i < |ls| && ls[i].protocol == t.protocol
                        && t.key in ObservedTables(sys, ls[i].layout, ls[i].protocol)
    decreases |ls|
  {
    hide ObservedTables;
    if ls != [] {
      DoomedTablesAre(sys, ls[..|ls| - 1], t);
    }
  }

  lemma DoomedKeys(s: Scope, sys: System, ls: seq<Listed>, tables: seq<TaggedTable>, x: RouteKey)
    requires Covered(s, ls) && WellKeyed(s, sys) && Order.Enumerates(tables, DoomedTables(sys, ls))
    ensures x in TakenKeys(tables, |tables|) <==> x in sys.routes && RouteDoomed(ls, sys.routes[x])
  {
    hide AsPlanned, IsPolywan, DoomedTables;
    if x in TakenKeys(tables, |tables|) {
      var n :| 0 <= n < |tables| && OwnKey(tables[n].key) == x;
      var t := tables[n];
      assert t in tables;
      DoomedTablesAre(sys, ls, t);
      var i :| 0 <= i < |ls| && ls[i].protocol == t.protocol
               && t.key in ObservedTables(sys, ls[i].layout, ls[i].protocol);
      ObservedIsOwn(s, sys, ls[i].layout, ls[i].protocol, t.key);
    }
    if x in sys.routes && RouteDoomed(ls, sys.routes[x]) {
      var r := sys.routes[x];
      var i :| 0 <= i < |ls| && r.protocol == ls[i].protocol && OwnsTable(ls[i].layout, r.table) && AsPlanned(r).Some?;
      var t := TaggedTable(r.protocol, TableKey(r.family, r.table));
      assert t.key in ObservedTables(sys, ls[i].layout, ls[i].protocol);
      DoomedTablesAre(sys, ls, t);
      assert t in tables;
      var n :| 0 <= n < |tables| && tables[n] == t;
      PlannedKey(s, r);
      assert OwnKey(t.key) == x;
    }
  }

  lemma PlannedKey(s: Scope, r: ObservedRoute)
    requires AsPlanned(r).Some? && IsPolywan(s, r.table)
    ensures KeyOf(s, r) == OwnKey(TableKey(r.family, r.table))
  {
    hide IsPolywan;
  }

  function Least(a: nat, b: nat): nat { if a < b then a else b }

  ghost predicate Tearing(s: Scope, sys: System, ls: seq<Listed>, rules: seq<ObservedRule>, tables: seq<TaggedTable>)
  {
    Covered(s, ls) && WellKeyed(s, sys) && IsTeardown(sys, ls, rules, tables)
  }

  /** After any number of operations: rules go first, then routes. */
  lemma TeardownState(s: Scope, p: nat, sys: System, ls: seq<Listed>, rules: seq<ObservedRule>,
                      tables: seq<TaggedTable>, n: nat)
    requires Tearing(s, sys, ls, rules, tables) && n <= |rules| + |tables|
    ensures Run(s, p, sys, OpsOfTeardown(rules, tables)[..n])
         == System(sys.rules - Taken(rules, Least(n, |rules|)),
                   sys.routes - TakenKeys(tables, if n < |rules| then 0 else n - |rules|))
  {
    hide WellKeyed, Run, Order.SortedBy;
    var ops, a, b := OpsOfTeardown(rules, tables), RuleDeletions(rules), TableDeletions(tables);
    forall t | t in tables ensures IsPolywan(s, t.key.table) { DoomedOwned(s, sys, ls, t); }
    RulesDeleted(s, p, sys, rules, Least(n, |rules|));
    hide IsPolywan, DoomedTables;
    if n <= |rules| {
      assert ops[..n] == a[..n];
      assert TakenKeys(tables, 0) == {};
      assert sys.routes - {} == sys.routes;
    } else {
      assert ops[..n] == a[..|rules|] + b[..n - |rules|];
      RunConcat(s, p, sys, a[..|rules|], b[..n - |rules|]);
      TablesDeleted(s, p, Run(s, p, sys, a[..|rules|]), tables, n - |rules|);
    }
  }

  lemma DoomedOwned(s: Scope, sys: System, ls: seq<Listed>, t: TaggedTable)
    requires Covered(s, ls) && t in DoomedTables(sys, ls)
    ensures IsPolywan(s, t.key.table)
  {
    hide IsPolywan;
    DoomedTablesAre(sys, ls, t);
    var i :| 0 <= i < |ls| && ls[i].protocol == t.protocol
             && t.key in ObservedTables(sys, ls[i].layout, ls[i].protocol);
    assert ls[i] in ls;
  }

  /** Cleanup removes exactly the rules and the PolyWAN-shaped routes that
      carry a listed protocol within its layout, and keeps everything else. */
  lemma TeardownExact(s: Scope, p: nat, sys: System, ls: seq<Listed>, rules: seq<ObservedRule>, tables: seq<TaggedTable>)
    requires Tearing(s, sys, ls, rules, tables)
    ensures var sys' := Run(s, p, sys, OpsOfTeardown(rules, tables));
            && (forall o :: o in sys'.rules <==> o in sys.rules && !RuleDoomed(ls, o))
            && (forall x :: x in sys'.routes <==> x in sys.routes && !RouteDoomed(ls, sys.routes[x]))
            && (forall x :: x in sys'.routes ==> sys'.routes[x] == sys.routes[x])
  {
    hide WellKeyed, Run, Order.SortedBy, RouteDoomed, DoomedTables, Covered, RuleDoomed;
    var n := |rules| + |tables|;
    assert OpsOfTeardown(rules, tables)[..n] == OpsOfTeardown(rules, tables);
    TeardownState(s, p, sys, ls, rules, tables, n);
    TakenAll(rules, DoomedRules(sys, ls));
    forall x ensures x in TakenKeys(tables, |tables|) <==> x in sys.routes && RouteDoomed(ls, sys.routes[x]) {
      DoomedKeys(s, sys, ls, tables, x);
    }
  }

  /** At every point, what must go before a removed rule is gone. */
  lemma TeardownOrdered(s: Scope, p: nat, sys: System, ls: seq<Listed>, rules: seq<ObservedRule>,
                        tables: seq<TaggedTable>, n: nat, i: nat, a: Rule, j: nat, b: Rule)
    requires Tearing(s, sys, ls, rules, tables) && n <= |rules| + |tables|
    requires i < |ls| && j < |ls| && Shaped(ls[i].layout, a) && Shaped(ls[j].layout, b) && Before(a, b)
    requires Held(sys, b, ls[j].protocol)
    ensures var sys' := Run(s, p, sys, OpsOfTeardown(rules, tables)[..n]);
            Held(sys', a, ls[i].protocol) ==> Held(sys', b, ls[j].protocol)
  {
    var o, q, m := RuleForm(a, ls[i].protocol), RuleForm(b, ls[j].protocol), Least(n, |rules|);
    hide Shaped, OrderKey, Run, Before, WellKeyed, Covered, DoomedTables, OpsOfTeardown;
    TeardownState(s, p, sys, ls, rules, tables, n);
    if o in sys.rules && q in Taken(rules, m) {
      ShapedOwned(ls[i].layout, a);
      assert OwnsRule(ls[i], o);
      RolesOrdered(ls, i, a, j, b);
      TakenBefore(rules, DoomedRules(sys, ls), o => OrderKey(ls, o), m, o, q);
    }
  }

  /** A rule of a listed layout outlives every rule that goes before it. */
  lemma Outlives(s: Scope, p: nat, sys: System, ls: seq<Listed>, rules: seq<ObservedRule>,
                 tables: seq<TaggedTable>, n: nat, e: nat, a: Rule, b: Rule)
    requires Tearing(s, sys, ls, rules, tables) && n <= |rules| + |tables| && e < |ls|
    requires Shaped(ls[e].layout, a) && Shaped(ls[e].layout, b) && Before(a, b)
    requires Held(sys, a, ls[e].protocol) ==> Held(sys, b, ls[e].protocol)
    requires Held(Run(s, p, sys, OpsOfTeardown(rules, tables)[..n]), a, ls[e].protocol)
    ensures Held(Run(s, p, sys, OpsOfTeardown(rules, tables)[..n]), b, ls[e].protocol)
  {
    Shrinks(s, p, sys, ls, rules, tables, n);
    hide Run, OpsOfTeardown, Tearing, RuleForm, Shaped, Before;
    TeardownOrdered(s, p, sys, ls, rules, tables, n, e, a, e, b);
  }

  lemma FixedShapes(l: Layout, f: Family, a: Ip, id: UplinkId)
    ensures Shaped(l, FinalGuardRule(l, f)) && Shaped(l, MainBypassRule(l, f)) && Shaped(l, BalanceRule(l, f))
    ensures Shaped(l, SourceGuardRule(l, f, a)) && Shaped(l, SourceRule(l, f, id, a))
    ensures Before(FinalGuardRule(l, f), MainBypassRule(l, f)) && Before(FinalGuardRule(l, f), BalanceRule(l, f))
    ensures Before(SourceGuardRule(l, f, a), SourceRule(l, f, id, a))
  {
  }

  /** Cleanup keeps the guards of every listed layout at every point: class
      guards outlive every lookup, and a final or source guard never stands
      without what it completes. */
  lemma TeardownKeepsGuards(s: Scope, p: nat, sys: System, ls: seq<Listed>, rules: seq<ObservedRule>,
                            tables: seq<TaggedTable>, n: nat, e: nat)
    requires Tearing(s, sys, ls, rules, tables) && n <= |rules| + |tables| && e < |ls|
    requires GuardsHold(sys, ls[e].layout, ls[e].protocol)
    ensures GuardsHold(Run(s, p, sys, OpsOfTeardown(rules, tables)[..n]), ls[e].layout, ls[e].protocol)
  {
    var l, q := ls[e].layout, ls[e].protocol;
    var sys' := Run(s, p, sys, OpsOfTeardown(rules, tables)[..n]);
    HeldShrinks(s, p, sys, ls, rules, tables, n, q);
    hide Run, OpsOfTeardown, Tearing, Held, Shaped, ClassGuards, Before;
    hide FinalGuardRule, MainBypassRule, BalanceRule, SourceGuardRule, SourceRule;
    forall r, g | Shaped(l, r) && IsLookup(r.kind) && Held(sys', r, q) && g in ClassGuards(l, r.family)
      ensures Held(sys', g, q)
    {
      GuardShaped(l, r.family, g);
      GuardKind(l, r.family, g, r);
      Outlives(s, p, sys, ls, rules, tables, n, e, r, g);
    }
    forall f | Held(sys', FinalGuardRule(l, f), q)
      ensures Held(sys', MainBypassRule(l, f), q) && Held(sys', BalanceRule(l, f), q)
    {
      FixedShapes(l, f, Ip4(0), 1);
      Outlives(s, p, sys, ls, rules, tables, n, e, FinalGuardRule(l, f), MainBypassRule(l, f));
      Outlives(s, p, sys, ls, rules, tables, n, e, FinalGuardRule(l, f), BalanceRule(l, f));
    }
    forall f, a | Held(sys', SourceGuardRule(l, f, a), q) ensures exists id :: Held(sys', SourceRule(l, f, id, a), q) {
      var id :| Held(sys, SourceRule(l, f, id, a), q);
      FixedShapes(l, f, a, id);
      Outlives(s, p, sys, ls, rules, tables, n, e, SourceGuardRule(l, f, a), SourceRule(l, f, id, a));
    }
  }

  lemma HeldShrinks(s: Scope, p: nat, sys: System, ls: seq<Listed>, rules: seq<ObservedRule>, tables: seq<TaggedTable>,
                    n: nat, q: nat)
    requires Tearing(s, sys, ls, rules, tables) && n <= |rules| + |tables|
    ensures forall r :: Held(Run(s, p, sys, OpsOfTeardown(rules, tables)[..n]), r, q) ==> Held(sys, r, q)
  {
    Shrinks(s, p, sys, ls, rules, tables, n);
    hide Run, OpsOfTeardown, Tearing, RuleForm;
  }

  lemma Shrinks(s: Scope, p: nat, sys: System, ls: seq<Listed>, rules: seq<ObservedRule>, tables: seq<TaggedTable>,
                n: nat)
    requires Tearing(s, sys, ls, rules, tables) && n <= |rules| + |tables|
    ensures Run(s, p, sys, OpsOfTeardown(rules, tables)[..n]).rules <= sys.rules
  {
    hide Run, OpsOfTeardown, Tearing;
    TeardownState(s, p, sys, ls, rules, tables, n);
  }

  lemma GuardKind(l: Layout, f: Family, g: Rule, r: Rule)
    requires g in ClassGuards(l, f) && IsLookup(r.kind)
    ensures Before(r, g)
  {
    if g in PathGuards(l, f) { PathGuardMember(l, f, g); }
  }
}
