/** Convergence of the reconciler (FR-REC-2, FR-REC-3): what executing a
    difference does to each table, when it reaches the desired state, and that
    nothing is left to do there. */
module Convergence {
  import opened Model
  import opened Configuration
  import opened Planner
  import opened Observed
  import opened Reconcile
  import opened Runs
  import opened RunSafety
  import Order

  // -------------------------------------------------- one table, step by step

  function KeyOfRoute(r: Route): TableKey { TableKey(r.family, r.table) }

  /** What an operation leaves in the table `k` that held `cur`. */
  function RouteEffect(k: TableKey, cur: Option<Route>, op: Op): Option<Route>
  {
    match op
    case ReplaceRoute(r) => if KeyOfRoute(r) == k then Some(r) else cur
    case DeleteRoute(x, _) => if x == k then None else cur
    case _ => cur
  }

  function RouteAfter(k: TableKey, cur: Option<Route>, ops: seq<Op>): Option<Route>
  {
    if ops == [] then cur else RouteEffect(k, RouteAfter(k, cur, ops[..|ops| - 1]), ops[|ops| - 1])
  }

  /** An operation on PolyWAN's own tables. */
  ghost predicate OwnOp(l: Layout, p: nat, op: Op)
  {
    match op
    case ReplaceRoute(r) => OwnsTable(l, r.table) && WellFormedRoute(r)
    case DeleteRoute(k, q) => OwnsTable(l, k.table) && q == p
    case _ => true
  }

  ghost predicate OwnOps(l: Layout, p: nat, ops: seq<Op>) { forall i :: 0 <= i < |ops| ==> OwnOp(l, p, ops[i]) }

  lemma StepRoute(s: Scope, l: Layout, p: nat, sys: System, op: Op, k: TableKey)
    requires CoversLayout(s, l) && WellKeyed(s, sys) && OwnOp(l, p, op)
    ensures WellKeyed(s, Step(s, p, sys, op))
    ensures OwnsTable(l, k.table) ==>
              OwnRoute(Step(s, p, sys, op), p, k) == RouteEffect(k, OwnRoute(sys, p, k), op)
  {
    hide IsPolywan, WellFormedRoute, AsPlanned;
    if op.ReplaceRoute? {
      var o := RouteForm(op.route, p);
      RouteRoundTrip(op.route, p);
      assert KeyOf(s, o) == OwnKey(KeyOfRoute(op.route));
    } else if op.DeleteRoute? {
      assert KeyOf(s, DeleteForm(op.key, p)) == OwnKey(op.key);
    }
  }

  /** Each table evolves on its own. */
  lemma {:induction false} RunRoute(s: Scope, l: Layout, p: nat, sys: System, ops: seq<Op>, k: TableKey)
    requires CoversLayout(s, l) && WellKeyed(s, sys) && OwnOps(l, p, ops)
    ensures WellKeyed(s, Run(s, p, sys, ops))
    ensures OwnsTable(l, k.table) ==>
              OwnRoute(Run(s, p, sys, ops), p, k) == RouteAfter(k, OwnRoute(sys, p, k), ops)
    decreases |ops|
  {
    hide OwnOp, OwnRoute, WellKeyed, Step, CoversLayout, RouteEffect;
    if ops != [] {
      var init := ops[..|ops| - 1];
      RunRoute(s, l, p, sys, init, k);
      StepRoute(s, l, p, Run(s, p, sys, init), ops[|ops| - 1], k);
    }
  }

  lemma {:induction false} RouteAfterConcat(k: TableKey, cur: Option<Route>, a: seq<Op>, b: seq<Op>)
    ensures RouteAfter(k, cur, a + b) == RouteAfter(k, RouteAfter(k, cur, a), b)
    decreases |b|
  {
    if b == [] {
      assert a + b == a;
    } else {
      RouteAfterConcat(k, cur, a, b[..|b| - 1]);
      assert (a + b)[..|a + b| - 1] == a + b[..|b| - 1];
    }
  }

  lemma {:induction false} AfterNone(k: TableKey, cur: Option<Route>, ops: seq<Op>)
    requires forall i :: 0 <= i < |ops| ==> RouteEffect(k, cur, ops[i]) == cur
    ensures RouteAfter(k, cur, ops) == cur
    decreases |ops|
  {
    if ops != [] { AfterNone(k, cur, ops[..|ops| - 1]); }
  }

  /** Replacing the routes `v`, at most one for each table. */
  lemma {:induction false} AfterReplacements(k: TableKey, cur: Option<Route>, v: seq<Route>)
    requires forall x, y :: x in v && y in v && KeyOfRoute(x) == KeyOfRoute(y) ==> x == y
    ensures forall r :: r in v && KeyOfRoute(r) == k ==> RouteAfter(k, cur, Replacements(v)) == Some(r)
    ensures (forall r :: r in v ==> KeyOfRoute(r) != k) ==> RouteAfter(k, cur, Replacements(v)) == cur
    decreases |v|
  {
    if v != [] {
      var init, last := v[..|v| - 1], v[|v| - 1];
      assert v == init + [last];
      assert Replacements(v)[..|v| - 1] == Replacements(init);
      AfterReplacements(k, cur, init);
      assert last in v;
      assert forall r :: r in v <==> r in init || r == last;
    }
  }

  lemma {:induction false} AfterDeletions(k: TableKey, cur: Option<Route>, v: seq<TableKey>, p: nat)
    ensures RouteAfter(k, cur, RouteDeletions(v, p)) == if k in v then None else cur
    decreases |v|
  {
    if v != [] {
      var init, last := v[..|v| - 1], v[|v| - 1];
      assert v == init + [last];
      assert RouteDeletions(v, p)[..|v| - 1] == RouteDeletions(init, p);
      AfterDeletions(k, cur, init, p);
    }
  }

  // ------------------------------------------------------ a whole difference

  /** Routes of owned tables, each under its own key. */
  ghost predicate WellFormedRoutes(l: Layout, routes: map<TableKey, Route>)
  {
    forall k :: k in routes ==>
      OwnsTable(l, k.table) && KeyOfRoute(routes[k]) == k && WellFormedRoute(routes[k])
  }

  /** What the theorems assume of a pass. */
  ghost predicate Passing(s: Scope, sys: System, d: DiffInput, g: Segments)
  {
    && CoversLayout(s, d.layout) && WellKeyed(s, sys) && IsDiff(sys, d, g)
    && WellFormedRoutes(d.layout, d.beforeNft.routes) && WellFormedRoutes(d.layout, d.desired.routes)
  }

  function Wanted(routes: map<TableKey, Route>, k: TableKey): Option<Route>
  {
    if k in routes then Some(routes[k]) else None
  }

  lemma PresentMeans(s: Scope, l: Layout, sys: System, p: nat, routes: map<TableKey, Route>, k: TableKey)
    requires CoversLayout(s, l) && WellKeyed(s, sys) && WellFormedRoutes(l, routes) && k in routes
    ensures RoutePresent(sys, p, routes[k]) <==> OwnRoute(sys, p, k) == Some(routes[k])
  {
    hide IsPolywan, RoutePresent, WellKeyed, OwnRoute, WellFormedRoute;
    PresentIsOwn(s, sys, p, routes[k]);
  }

  /** The tables of each part, in terms of what they hold. */
  lemma EarlyMeans(s: Scope, sys: System, d: DiffInput, g: Segments, k: TableKey)
    requires Passing(s, sys, d, g)
    ensures k in EarlyTables(sys, d)
       <==> && OwnsTable(d.layout, k.table) && OwnRoute(sys, d.protocol, k).Some?
            && !IsPathTable(d.layout, k.table) && k !in d.beforeNft.routes
    ensures k in StalePathTables(sys, d)
       <==> && OwnsTable(d.layout, k.table) && OwnRoute(sys, d.protocol, k).Some?
            && IsPathTable(d.layout, k.table) && k !in d.desired.routes
  {
    hide ObservedTables, IsDiff, CoversLayout, WellKeyed, OwnRoute, WellFormedRoutes;
    ObservedIsOwn(s, sys, d.layout, d.protocol, k);
  }

  lemma EarlyReplacementMeans(s: Scope, sys: System, d: DiffInput, g: Segments, k: TableKey, cur: Option<Route>)
    requires Passing(s, sys, d, g)
    ensures RouteAfter(k, cur, Replacements(g.early))
         == if k in d.beforeNft.routes && OwnRoute(sys, d.protocol, k) != Some(d.beforeNft.routes[k])
            then Some(d.beforeNft.routes[k]) else cur
  {
    hide EarlyTables, WithdrawnTables, LateReplacements, LateTables, Additions, Deletions, WellFormedRoute;
    hide InstallKey, RemovalKey, Order.SortedBy, OwnRoute, RoutePresent, WellKeyed, CoversLayout;
    var routes := d.beforeNft.routes;
    forall x | x in routes
      ensures RoutePresent(sys, d.protocol, routes[x]) <==> OwnRoute(sys, d.protocol, x) == Some(routes[x])
    {
      PresentMeans(s, d.layout, sys, d.protocol, routes, x);
    }
    forall r | r in g.early
      ensures KeyOfRoute(r) in routes && routes[KeyOfRoute(r)] == r
              && OwnRoute(sys, d.protocol, KeyOfRoute(r)) != Some(r)
    {
      assert r in EarlyReplacements(sys, d);
    }
    AfterReplacements(k, cur, g.early);
    if k in routes && OwnRoute(sys, d.protocol, k) != Some(routes[k]) {
      assert routes[k] in EarlyReplacements(sys, d);
      assert routes[k] in g.early && KeyOfRoute(routes[k]) == k;
    } else {
      assert forall r :: r in g.early ==> KeyOfRoute(r) != k;
    }
  }

  ghost predicate ReplacedLate(sys: System, d: DiffInput, k: TableKey)
  {
    && k in d.desired.routes
    && Wanted(d.beforeNft.routes, k) != Some(d.desired.routes[k])
    && (k in EarlyTables(sys, d) || OwnRoute(sys, d.protocol, k) != Some(d.desired.routes[k]))
  }

  lemma LateReplacementMeans(s: Scope, sys: System, d: DiffInput, g: Segments, k: TableKey, cur: Option<Route>)
    requires Passing(s, sys, d, g)
    ensures ReplacedLate(sys, d, k) ==> RouteAfter(k, cur, Replacements(g.late)) == Some(d.desired.routes[k])
    ensures !ReplacedLate(sys, d, k) ==> RouteAfter(k, cur, Replacements(g.late)) == cur
  {
    hide EarlyTables, WithdrawnTables, EarlyReplacements, LateTables, Additions, Deletions, WellFormedRoute;
    hide InstallKey, RemovalKey, Order.SortedBy, OwnRoute, RoutePresent, WellKeyed, CoversLayout;
    var routes := d.desired.routes;
    forall x | x in routes
      ensures RoutePresent(sys, d.protocol, routes[x]) <==> OwnRoute(sys, d.protocol, x) == Some(routes[x])
    {
      PresentMeans(s, d.layout, sys, d.protocol, routes, x);
    }
    forall r | r in g.late
      ensures KeyOfRoute(r) in routes && routes[KeyOfRoute(r)] == r && ReplacedLate(sys, d, KeyOfRoute(r))
    {
      assert r in LateReplacements(sys, d);
    }
    AfterReplacements(k, cur, g.late);
    if ReplacedLate(sys, d, k) {
      assert routes[k] in LateReplacements(sys, d);
      assert routes[k] in g.late && KeyOfRoute(routes[k]) == k;
    } else {
      assert forall r :: r in g.late ==> KeyOfRoute(r) != k;
    }
  }

  lemma NoRouteEffect(k: TableKey, cur: Option<Route>, adds: seq<Rule>, dels: seq<ObservedRule>)
    ensures RouteAfter(k, cur, RuleAdditions(adds)) == cur && RouteAfter(k, cur, RuleDeletions(dels)) == cur
    ensures RouteAfter(k, cur, [ApplyNft]) == cur && RouteAfter(k, cur, []) == cur
  {
    AfterNone(k, cur, RuleAdditions(adds));
    AfterNone(k, cur, RuleDeletions(dels));
    AfterNone(k, cur, [ApplyNft]);
  }

  /** The table after the operations before the nftables step. */
  function Withdrawn(sys: System, d: DiffInput, k: TableKey): bool
  {
    k in EarlyTables(sys, d) || k in WithdrawnTables(sys, d)
  }

  lemma BeforeNftRoute(s: Scope, sys: System, d: DiffInput, g: Segments, k: TableKey)
    requires Passing(s, sys, d, g)
    ensures RouteAfter(k, OwnRoute(sys, d.protocol, k), BeforeNft(g, d.protocol))
         == if Withdrawn(sys, d, k) then None
            else if k in d.beforeNft.routes then Some(d.beforeNft.routes[k])
            else OwnRoute(sys, d.protocol, k)
  {
    hide EarlyTables, WithdrawnTables, EarlyReplacements, LateReplacements, LateTables, Additions, Deletions;
    hide InstallKey, RemovalKey, Order.SortedBy, OwnRoute, WellKeyed, CoversLayout, WellFormedRoutes;
    hide Replacements, RouteDeletions, RuleAdditions, RouteAfter;
    var p, c0 := d.protocol, OwnRoute(sys, d.protocol, k);
    var a, b, c := Replacements(g.early), RouteDeletions(g.withdrawals, p), RuleAdditions(g.adds);
    EarlyReplacementMeans(s, sys, d, g, k, c0);
    var c1 := RouteAfter(k, c0, a);
    AfterDeletions(k, c1, g.withdrawals, p);
    var c2 := RouteAfter(k, c1, b);
    NoRouteEffect(k, c2, g.adds, g.deletes);
    RouteAfterConcat(k, c0, a, b);
    RouteAfterConcat(k, c0, a + b, c);
    assert k in g.withdrawals <==> k in EarlyTables(sys, d) + WithdrawnTables(sys, d);
  }

  lemma AfterNftRoute(s: Scope, sys: System, d: DiffInput, g: Segments, k: TableKey, cur: Option<Route>)
    requires Passing(s, sys, d, g)
    ensures RouteAfter(k, cur, AfterNft(g, d.protocol))
         == if k in LateTables(sys, d) then None
            else if ReplacedLate(sys, d, k) then Some(d.desired.routes[k])
            else cur
  {
    hide EarlyTables, WithdrawnTables, EarlyReplacements, LateReplacements, LateTables, Additions, Deletions;
    hide InstallKey, RemovalKey, Order.SortedBy, OwnRoute, WellKeyed, CoversLayout, WellFormedRoutes;
    hide Replacements, RouteDeletions, RuleDeletions, RouteAfter;
    var p := d.protocol;
    var a, b, c := Replacements(g.late), RuleDeletions(g.deletes), RouteDeletions(g.lateTables, p);
    LateReplacementMeans(s, sys, d, g, k, cur);
    var c1 := RouteAfter(k, cur, a);
    NoRouteEffect(k, c1, g.adds, g.deletes);
    AfterDeletions(k, c1, g.lateTables, p);
    RouteAfterConcat(k, cur, a, b);
    RouteAfterConcat(k, cur, a + b, c);
    assert k in g.lateTables <==> k in LateTables(sys, d);
  }

  /** The table after the whole difference, as a function of the state. */
  ghost function WholeOutcome(sys: System, d: DiffInput, k: TableKey): Option<Route>
  {
    if k in LateTables(sys, d) then None
    else if ReplacedLate(sys, d, k) then Some(d.desired.routes[k])
    else if Withdrawn(sys, d, k) then None
    else if k in d.beforeNft.routes then Some(d.beforeNft.routes[k])
    else OwnRoute(sys, d.protocol, k)
  }

  lemma WholeRoute(s: Scope, sys: System, d: DiffInput, g: Segments, k: TableKey)
    requires Passing(s, sys, d, g)
    ensures RouteAfter(k, OwnRoute(sys, d.protocol, k), OpsOf(g, d.protocol)) == WholeOutcome(sys, d, k)
  {
    hide Passing, BeforeNft, AfterNft, Withdrawn, LateTables, ReplacedLate, OwnRoute, RouteAfter;
    var p, c0 := d.protocol, OwnRoute(sys, d.protocol, k);
    var a, c := BeforeNft(g, p), AfterNft(g, p);
    var b := if g.nft then [ApplyNft] else [];
    BeforeNftRoute(s, sys, d, g, k);
    var c1 := RouteAfter(k, c0, a);
    NoRouteEffect(k, c1, g.adds, g.deletes);
    AfterNftRoute(s, sys, d, g, k, c1);
    RouteAfterConcat(k, c0, a, b);
    RouteAfterConcat(k, c0, a + b, c);
  }

  // --------------------------------------------------------------- own ops

  lemma DiffOwnOps(s: Scope, sys: System, d: DiffInput, g: Segments)
    requires Passing(s, sys, d, g)
    ensures OwnOps(d.layout, d.protocol, OpsOf(g, d.protocol))
    ensures OwnOps(d.layout, d.protocol, BeforeNft(g, d.protocol))
  {
    hide Additions, Deletions, WellFormedRoute, RoutePresent, WellKeyed, CoversLayout, LookedUp;
    hide InstallKey, RemovalKey, Order.SortedBy, OwnRoute;
    var l, p := d.layout, d.protocol;
    forall r | r in g.early || r in g.late ensures OwnsTable(l, r.table) && WellFormedRoute(r) {
      assert r in EarlyReplacements(sys, d) + LateReplacements(sys, d);
    }
    forall k | k in g.withdrawals || k in g.lateTables ensures OwnsTable(l, k.table) {
      assert k in ObservedTables(sys, l, p);
    }
    SegmentOps(l, p, g);
  }

  lemma SegmentOps(l: Layout, p: nat, g: Segments)
    requires forall r :: r in g.early || r in g.late ==> OwnsTable(l, r.table) && WellFormedRoute(r)
    requires forall k :: k in g.withdrawals || k in g.lateTables ==> OwnsTable(l, k.table)
    ensures OwnOps(l, p, OpsOf(g, p)) && OwnOps(l, p, BeforeNft(g, p))
  {
    hide OwnsTable, WellFormedRoute;
    var a, b, c := Replacements(g.early), RouteDeletions(g.withdrawals, p), RuleAdditions(g.adds);
    var e, f, h := Replacements(g.late), RuleDeletions(g.deletes), RouteDeletions(g.lateTables, p);
    assert OwnOps(l, p, a) && OwnOps(l, p, b) && OwnOps(l, p, c) && OwnOps(l, p, e) && OwnOps(l, p, f);
    assert OwnOps(l, p, h);
    hide OwnOp, Replacements, RouteDeletions, RuleAdditions, RuleDeletions;
    assert OwnOps(l, p, a + b + c);
    assert OwnOps(l, p, e + f + h);
    assert OwnOp(l, p, ApplyNft) by { NftOwn(l, p); }
  }

  lemma NftOwn(l: Layout, p: nat)
    ensures OwnOp(l, p, ApplyNft)
  {
  }

  // ---------------------------------------------------------- the rule part

  /** All operations of a difference leave exactly the wanted rules. */
  lemma WholeRules(s: Scope, sys: System, d: DiffInput, g: Segments)
    requires IsDiff(sys, d, g) && ManagedOnly(d)
    requires forall r :: r in d.desired.rules ==> OwnsPriority(d.layout, r.priority)
    ensures var sys' := Run(s, d.protocol, sys, OpsOf(g, d.protocol));
            && OwnRules(sys', d.layout, d.protocol) == Forms(d.desired.rules, d.protocol)
            && sys'.rules - OwnRules(sys', d.layout, d.protocol) == sys.rules - OwnRules(sys, d.layout, d.protocol)
  {
    hide EarlyReplacements, EarlyTables, WithdrawnTables, LateReplacements, LateTables, InstallKey, RemovalKey;
    hide OpsOf, Order.SortedBy;
    var l, p, ops := d.layout, d.protocol, OpsOf(g, d.protocol);
    var sys' := Run(s, p, sys, ops);
    assert ops[..|ops|] == ops;
    RunRules(s, p, sys, ops);
    PrefixRules(g, p, sys.rules, |ops|);
    OpsLength(g, p);
    TakenAll(g.adds, Additions(sys, d));
    TakenAll(g.deletes, Deletions(sys, d));
    assert sys'.rules == sys.rules + Forms(Additions(sys, d), p) - Deletions(sys, d);
    forall o | o in OwnRules(sys, l, p) ensures o in Deletions(sys, d) <==> o !in Forms(d.desired.rules, p) {
      assert o in Forms(d.desired.rules, p) <==> exists r :: r in d.desired.rules && Is(o, r, p);
    }
    RulesSettle(sys, sys', d);
  }

  lemma OpsLength(g: Segments, p: nat)
    ensures |OpsOf(g, p)| == DeleteStart(g) + |g.deletes| + |g.lateTables|
  {
  }

  lemma RulesSettle(sys: System, sys': System, d: DiffInput)
    requires sys'.rules == sys.rules + Forms(Additions(sys, d), d.protocol) - Deletions(sys, d)
    requires forall r :: r in d.desired.rules ==> OwnsPriority(d.layout, r.priority)
    requires forall o :: o in OwnRules(sys, d.layout, d.protocol) ==>
               (o in Deletions(sys, d) <==> o !in Forms(d.desired.rules, d.protocol))
    ensures OwnRules(sys', d.layout, d.protocol) == Forms(d.desired.rules, d.protocol)
    ensures sys'.rules - OwnRules(sys', d.layout, d.protocol) == sys.rules - OwnRules(sys, d.layout, d.protocol)
  {
    var l, p, w := d.layout, d.protocol, d.desired.rules;
    forall o ensures o in OwnRules(sys', l, p) <==> o in Forms(w, p) {
      if o in Forms(w, p) {
        var r :| r in w && o == RuleForm(r, p);
        assert o in OwnRules(sys, l, p) || r in Additions(sys, d);
      }
    }
  }

  // -------------------------------------------------------------- theorems

  /** The system holds exactly the desired artifacts. */
  ghost predicate InState(sys: System, l: Layout, p: nat, w: Desired)
  {
    && OwnRules(sys, l, p) == Forms(w.rules, p)
    && forall k: TableKey :: OwnsTable(l, k.table) ==> OwnRoute(sys, p, k) == Wanted(w.routes, k)
  }

  /** Objects that are not PolyWAN's are as before. */
  ghost predicate ForeignKept(sys: System, sys': System, l: Layout, p: nat)
  {
    && sys'.rules - OwnRules(sys', l, p) == sys.rules - OwnRules(sys, l, p)
    && forall x :: (forall k: TableKey :: OwnsTable(l, k.table) ==> OwnKey(k) != x) ==>
                     (x in sys'.routes <==> x in sys.routes) && (x in sys.routes ==> sys'.routes[x] == sys.routes[x])
  }

  ghost predicate WellFormedDesired(d: DiffInput)
  {
    && ManagedOnly(d) && (forall r :: r in d.desired.rules ==> OwnsPriority(d.layout, r.priority))
    && WellFormedRoutes(d.layout, d.desired.routes) && WellFormedRoutes(d.layout, d.beforeNft.routes)
  }

  lemma {:induction false} RunForeignRoutes(s: Scope, l: Layout, p: nat, sys: System, ops: seq<Op>, x: RouteKey)
    requires CoversLayout(s, l) && OwnOps(l, p, ops)
    requires forall k: TableKey :: OwnsTable(l, k.table) ==> OwnKey(k) != x
    ensures var sys' := Run(s, p, sys, ops);
            (x in sys'.routes <==> x in sys.routes) && (x in sys.routes ==> sys'.routes[x] == sys.routes[x])
    decreases |ops|
  {
    hide IsPolywan, WellFormedRoute;
    if ops != [] {
      var op := ops[|ops| - 1];
      RunForeignRoutes(s, l, p, sys, ops[..|ops| - 1], x);
      if op.ReplaceRoute? {
        assert KeyOf(s, RouteForm(op.route, p)) == OwnKey(KeyOfRoute(op.route));
      } else if op.DeleteRoute? {
        assert KeyOf(s, DeleteForm(op.key, op.protocol)) == OwnKey(op.key);
      }
    }
  }

  /** From any state, executing the whole difference reaches the desired state
      and touches nothing else. */
  lemma FullPassConverges(s: Scope, sys: System, d: DiffInput, g: Segments)
    requires Passing(s, sys, d, g) && WellFormedDesired(d) && d.beforeNft == d.desired
    ensures var sys' := Run(s, d.protocol, sys, OpsOf(g, d.protocol));
            && InState(sys', d.layout, d.protocol, d.desired)
            && WellKeyed(s, sys') && ForeignKept(sys, sys', d.layout, d.protocol)
  {
    WholePass(s, sys, d, g);
    var sys' := Run(s, d.protocol, sys, OpsOf(g, d.protocol));
    hide Passing, OpsOf, OwnRules, OwnRoute, WellKeyed;
    forall k: TableKey | OwnsTable(d.layout, k.table) ensures OwnRoute(sys', d.protocol, k) == Wanted(d.desired.routes, k) {
      EarlyMeans(s, sys, d, g, k);
      assert OwnRoute(sys', d.protocol, k) == WholeOutcome(sys, d, k);
    }
  }

  lemma WholePass(s: Scope, sys: System, d: DiffInput, g: Segments)
    requires Passing(s, sys, d, g) && WellFormedDesired(d)
    ensures var sys' := Run(s, d.protocol, sys, OpsOf(g, d.protocol));
            && OwnRules(sys', d.layout, d.protocol) == Forms(d.desired.rules, d.protocol)
            && WellKeyed(s, sys') && ForeignKept(sys, sys', d.layout, d.protocol)
            && forall k: TableKey :: OwnsTable(d.layout, k.table) ==> OwnRoute(sys', d.protocol, k) == WholeOutcome(sys, d, k)
  {
    hide IsDiff, OwnOps, OwnRules, OwnRoute, OpsOf, WellKeyed, CoversLayout, WellFormedRoutes, WholeOutcome, RouteAfter;
    var l, p, ops := d.layout, d.protocol, OpsOf(g, d.protocol);
    DiffOwnOps(s, sys, d, g);
    WholeRules(s, sys, d, g);
    forall k: TableKey | OwnsTable(l, k.table)
      ensures OwnRoute(Run(s, p, sys, ops), p, k) == WholeOutcome(sys, d, k)
    {
      RunRoute(s, l, p, sys, ops, k);
      WholeRoute(s, sys, d, g, k);
    }
    RunRoute(s, l, p, sys, ops, TableKey(V4, 0));
    forall x | forall k: TableKey :: OwnsTable(l, k.table) ==> OwnKey(k) != x
      ensures var sys' := Run(s, p, sys, ops);
              (x in sys'.routes <==> x in sys.routes) && (x in sys.routes ==> sys'.routes[x] == sys.routes[x])
    {
      RunForeignRoutes(s, l, p, sys, ops, x);
    }
  }

  /** Nothing is left to do if and only if the system is in the desired state. */
  lemma EmptyDiffIff(s: Scope, sys: System, d: DiffInput, g: Segments)
    requires Passing(s, sys, d, g) && WellFormedDesired(d) && d.beforeNft == d.desired && !d.nftPending
    ensures OpsOf(g, d.protocol) == [] <==> InState(sys, d.layout, d.protocol, d.desired)
  {
    var l, p := d.layout, d.protocol;
    if OpsOf(g, p) == [] {
      FullPassConverges(s, sys, d, g);
    }
    if InState(sys, l, p, d.desired) {
      hide WellKeyed, CoversLayout, OwnRoute, Order.SortedBy, WellFormedRoute, RoutePresent, InstallKey, RemovalKey;
      SettledRoutes(s, sys, d, g);
      SettledRules(s, sys, d, g);
    }
  }

  lemma SettledRules(s: Scope, sys: System, d: DiffInput, g: Segments)
    requires Passing(s, sys, d, g) && InState(sys, d.layout, d.protocol, d.desired)
    ensures g.adds == [] && g.deletes == []
  {
    hide WellKeyed, CoversLayout, OwnRoute, Order.SortedBy, WellFormedRoutes, InstallKey, RemovalKey;
    hide EarlyReplacements, EarlyTables, WithdrawnTables, LateReplacements, LateTables;
    var w, p := d.desired.rules, d.protocol;
    assert Additions(sys, d) == {};
    forall o | o in Forms(w, p) ensures exists r :: r in w && Is(o, r, p) {
      var r :| r in w && RuleForm(r, p) == o;
      assert Is(o, r, p);
    }
    assert Deletions(sys, d) == {};
    EmptyOf(g.adds, Additions(sys, d));
    EmptyOf(g.deletes, Deletions(sys, d));
  }

  lemma EmptyOf<T(!new)>(v: seq<T>, s: set<T>)
    requires Order.Enumerates(v, s)
    ensures v == [] <==> s == {}
  {
    if v != [] { assert v[0] in v; }
    if s != {} {
      var x :| x in s;
      assert x in v;
    }
  }

  lemma SettledRoutes(s: Scope, sys: System, d: DiffInput, g: Segments)
    requires Passing(s, sys, d, g) && InState(sys, d.layout, d.protocol, d.desired) && d.beforeNft == d.desired
    ensures g.early == [] && g.late == [] && g.withdrawals == [] && g.lateTables == []
  {
    hide WellKeyed, CoversLayout, OwnRoute, Order.SortedBy, WellFormedRoute, RoutePresent, InstallKey, RemovalKey;
    hide ObservedTables, LookedUp, Additions, Deletions;
    var routes := d.desired.routes;
    forall k | k in routes ensures RoutePresent(sys, d.protocol, routes[k]) {
      PresentMeans(s, d.layout, sys, d.protocol, routes, k);
    }
    forall k ensures k !in EarlyTables(sys, d) && k !in StalePathTables(sys, d) {
      EarlyMeans(s, sys, d, g, k);
    }
    assert EarlyReplacements(sys, d) == {} && LateReplacements(sys, d) == {};
    assert EarlyTables(sys, d) + WithdrawnTables(sys, d) == {} && LateTables(sys, d) == {};
    EmptyOf(g.early, EarlyReplacements(sys, d));
    EmptyOf(g.late, LateReplacements(sys, d));
    EmptyOf(g.withdrawals, EarlyTables(sys, d) + WithdrawnTables(sys, d));
    EmptyOf(g.lateTables, LateTables(sys, d));
  }

  // ----------------------------------------------------- paths held back

  /** A state before the nftables step that only lacks routes of balancing and
      policy tables, or has other members in them. */
  ghost predicate HeldBack(l: Layout, before: map<TableKey, Route>, routes: map<TableKey, Route>)
  {
    && before.Keys <= routes.Keys
    && forall k :: k in routes && IsPathTable(l, k.table) ==> k in before && before[k] == routes[k]
  }

  /** A table whose desired route is already there while the state before the
      nftables step wants another one. */
  ghost predicate Displaced(sys: System, d: DiffInput, k: TableKey)
  {
    && k in d.beforeNft.routes && k in d.desired.routes
    && d.beforeNft.routes[k] != d.desired.routes[k]
    && OwnRoute(sys, d.protocol, k) == Some(d.desired.routes[k])
  }

  /** With paths held back, one execution of the whole difference reaches the
      desired state exactly when no desired route is displaced. */
  lemma OneShotConvergesIff(s: Scope, sys: System, d: DiffInput, g: Segments)
    requires Passing(s, sys, d, g) && WellFormedDesired(d)
    requires HeldBack(d.layout, d.beforeNft.routes, d.desired.routes)
    ensures InState(Run(s, d.protocol, sys, OpsOf(g, d.protocol)), d.layout, d.protocol, d.desired)
       <==> forall k :: !Displaced(sys, d, k)
  {
    WholePass(s, sys, d, g);
    var l, p, sys' := d.layout, d.protocol, Run(s, d.protocol, sys, OpsOf(g, d.protocol));
    hide OpsOf, OwnRules, OwnRoute, WellKeyed, IsDiff, CoversLayout, WellFormedRoute;
    forall k: TableKey | OwnsTable(l, k.table)
      ensures OwnRoute(sys', p, k) == Wanted(d.desired.routes, k) <==> !Displaced(sys, d, k)
    {
      EarlyMeans(s, sys, d, g, k);
      assert OwnRoute(sys', p, k) == WholeOutcome(sys, d, k);
    }
    forall k | Displaced(sys, d, k) ensures OwnsTable(l, k.table) {}
  }

  /** The daemon's two passes: the operations before the nftables step, then a
      recomputed difference; a third difference is empty. */
  lemma TwoPassesConverge(s: Scope, sys: System, d: DiffInput, g: Segments, d2: DiffInput, g2: Segments, g3: Segments)
    requires Passing(s, sys, d, g) && WellFormedDesired(d2)
    requires d2.layout == d.layout && d2.protocol == d.protocol && d2.beforeNft == d2.desired && !d2.nftPending
    requires var mid := Run(s, d.protocol, sys, BeforeNft(g, d.protocol));
             IsDiff(mid, d2, g2) && IsDiff(Run(s, d.protocol, mid, OpsOf(g2, d.protocol)), d2, g3)
    ensures var last := Run(s, d.protocol, Run(s, d.protocol, sys, BeforeNft(g, d.protocol)), OpsOf(g2, d.protocol));
            InState(last, d.layout, d.protocol, d2.desired) && OpsOf(g3, d.protocol) == []
  {
    hide IsDiff, OpsOf, BeforeNft, InState, WellKeyed, WellFormedRoutes, OwnOps, ManagedOnly;
    var mid := Run(s, d.protocol, sys, BeforeNft(g, d.protocol));
    DiffOwnOps(s, sys, d, g);
    RunRoute(s, d.layout, d.protocol, sys, BeforeNft(g, d.protocol), TableKey(V4, 0));
    FullPassConverges(s, mid, d2, g2);
    EmptyDiffIff(s, Run(s, d.protocol, mid, OpsOf(g2, d.protocol)), d2, g3);
  }

  /** A concrete displaced route: the balancing route has both members, the
      state before the nftables step only one of them. */
  lemma DisplacedExample(l: Layout, p: nat)
    ensures var one, two := NextHop(5, None, false, 1), NextHop(6, None, false, 1);
            var k := TableKey(V4, BalancingTable(l));
            var both := Route(V4, BalancingTable(l), None, [one, two]);
            var only := Route(V4, BalancingTable(l), None, [one]);
            var sys := System({}, map[OwnKey(k) := RouteForm(both, p)]);
            Displaced(sys, DiffInput(l, p, {V4}, Desired({}, map[k := only]), Desired({}, map[k := both]), true), k)
  {
    var one, two := NextHop(5, None, false, 1), NextHop(6, None, false, 1);
    var both := Route(V4, BalancingTable(l), None, [one, two]);
    assert Order.LexLe(HopKey(one), HopKey(two));
    assert WellFormedRoute(both);
    hide AsPlanned, WellFormedRoute;
    RouteRoundTrip(both, p);
  }
}
