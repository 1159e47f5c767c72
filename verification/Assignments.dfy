/** Mark assignments (FR-REC-3): which paths a table marks, and which paths the
    planned balancing and policy routes use (crates/polywan/src/daemon.rs,
    crates/polywan/src/plan.rs, crates/polywan/src/nft.rs). */
module Assignments {
  import opened Model
  import opened Marks
  import opened Configuration
  import opened Nft
  import opened Stickiness
  import opened Journeys
  import opened Planner
  import opened Observed
  import opened PlannedRoutes
  import Order

  /** A path's mark assignment: the path and the interface its rules match. */
  datatype Assignment = Assignment(path: PathKey, interface: Interface)

  /** The assignments of a configuration. */
  function Configured(cfg: Config): set<Assignment>
  {
    set u, f | u in cfg.uplinks && f in u.families :: Assignment(PathKey(u.id, f), u.interface)
  }

  predicate IsAssignment(r: NftRule)
  {
    && |r.matches| == 3 && r.matches[0].OfFamily? && r.matches[1].Leaves? && r.matches[2].Original?
    && |r.writes| == 2 && r.writes[0].SetCt? && 1 <= r.writes[0].value <= 63
  }

  function AssignmentOf(r: NftRule): Assignment
    requires IsAssignment(r)
  {
    Assignment(PathKey(r.writes[0].value, r.matches[0].family), r.matches[1].output)
  }

  /** The assignments recognised in a table by their interface and mark. */
  function AssignmentsIn(t: Table): set<Assignment>
  {
    set r | r in t.postrouting && IsAssignment(r) :: AssignmentOf(r)
  }

  lemma SkipsAssignNothing(c: Chain)
    requires forall i :: 0 <= i < |c| ==> |c[i].matches| == 1
    ensures forall r :: r in c ==> !IsAssignment(r)
  {
  }

  lemma PostSkipsShape(cfg: Config)
    ensures forall i :: 0 <= i < |PostSkips(cfg)| ==> |PostSkips(cfg)[i].matches| == 1
  {
    hide Manages;
  }

  /** The generator writes exactly the configured assignments; tables that are
      equal have equal assignments. */
  lemma GeneratedAssignments(cfg: Config)
    ensures AssignmentsIn(TableOf(cfg)) == Configured(cfg)
  {
    hide PostSkips, OutgoingRules;
    var c := PostroutingChain(cfg);
    PostSkipsShape(cfg);
    SkipsAssignNothing(PostSkips(cfg));
    forall a ensures a in AssignmentsIn(TableOf(cfg)) <==> a in Configured(cfg) {
      if a in AssignmentsIn(TableOf(cfg)) {
        var r :| r in c && IsAssignment(r) && AssignmentOf(r) == a;
        var u, f := PathRuleFrom(cfg.uplinks, r, false);
        assert a == Assignment(PathKey(u.id, f), u.interface);
      }
      if a in Configured(cfg) {
        var u, f :| u in cfg.uplinks && f in u.families && a == Assignment(PathKey(u.id, f), u.interface);
        PathRuleIn(cfg.uplinks, u, f);
        assert Outgoing(u, f) in c && IsAssignment(Outgoing(u, f)) && AssignmentOf(Outgoing(u, f)) == a;
      }
    }
  }

  /** What an assignment is for: an original packet of a connection without a
      path, leaving through the interface, pins the connection to the path. */
  lemma AssignmentPins(cfg: Config, a: Assignment, p: NftPacket, x: MarkPair)
    requires ValidConfig(cfg) && a in Configured(cfg)
    requires p.family == a.path.family && p.output == a.interface && p.original && p.tracked && Unicast(p)
    requires Field(cfg.layout.shift, x.ct) == 0 && !IsProbe(cfg.layout.shift, x.meta)
    ensures Field(cfg.layout.shift, RunChain(cfg.layout.shift, TableOf(cfg).postrouting, p, x).ct) == a.path.uplink
  {
    hide RunChain, TableOf, Field, IsProbe, Unicast, ValidConfig;
    var u, f :| u in cfg.uplinks && f in u.families && a == Assignment(PathKey(u.id, f), u.interface);
    assert LeavesOnPath(cfg, u, p);
    var i :| 0 <= i < |cfg.uplinks| && cfg.uplinks[i] == u;
    assert Manages(cfg, p.family);
    FreshPostrouting(cfg, p, x);
    BothWrites(cfg.layout.shift, u.id, x);
  }

  // ------------------------------------------------- routes and their paths

  /** Whether a table carries traffic of the uplink that is not pinned yet. */
  predicate Carries(l: Layout, table: nat, id: UplinkId)
  {
    table == BalancingTable(l) || table == PolicyBalanceTable(l, id) || table == PolicyBlockTable(l, id)
  }

  /** The uplink that a next hop of a table was planned for by a configuration;
      interfaces being unique, there is only one. */
  predicate PlannedFor(l: Layout, k: TableKey, h: NextHop, cfg: Config, u: Uplink)
  {
    u in cfg.uplinks && k.family in u.families && u.interface == h.ifindex && Carries(l, k.table, u.id)
  }

  /** Every next hop of the route, planned by `cfg`, has the assignment of the path
      it was planned for. */
  ghost predicate RouteMarked(l: Layout, k: TableKey, r: Route, cfg: Config, marks: set<Assignment>)
  {
    && ValidConfig(cfg)
    && forall h :: h in r.nexthops ==>
         exists u :: PlannedFor(l, k, h, cfg, u) && Assignment(PathKey(u.id, k.family), u.interface) in marks
  }

  lemma OnePlannedFor(l: Layout, k: TableKey, h: NextHop, cfg: Config, u: Uplink, w: Uplink)
    requires ValidConfig(cfg) && PlannedFor(l, k, h, cfg, u) && PlannedFor(l, k, h, cfg, w)
    ensures u == w
  {
    hide Carries, ValidConfig;
    UniqueUplink(cfg, u, w);
  }

  /** A ready path uses the interface configured for its uplink. */
  ghost predicate InputMatches(cfg: Config, input: Input)
  {
    forall u, f :: u in cfg.uplinks && f in u.families && Ready(input, f, u.id).Some? ==>
      Ready(input, f, u.id).value.ifindex == u.interface
  }

  function Kept(cfg: Config, held: set<PathKey>): set<Assignment>
  {
    set a | a in Configured(cfg) && a.path !in held
  }

  lemma KeptOf(cfg: Config, held: set<PathKey>, f: Family, u: Uplink)
    requires u in EnabledUplinks(cfg.uplinks, f) && PathKey(u.id, f) !in held
    ensures Assignment(PathKey(u.id, f), u.interface) in Kept(cfg, held)
  {
  }

  lemma BalancingHops(f: Family, us: seq<Uplink>, input: Input, h: NextHop)
    requires h in Normalised(Order.Sort(Members(f, us, input), HopKey))
    ensures exists u :: u in us && Member(f, input, u) && h.ifindex == Ready(input, f, u.id).value.ifindex
  {
    hide Members, Ready, IsActive;
    var members := Members(f, us, input);
    var v := Order.Sort(members, HopKey);
    Order.SortSorts(members, HopKey);
    MembersAre(f, us, input);
    var m :| m in v && m.ifindex == h.ifindex;
    assert m in multiset(v);
    assert m in members;
  }

  /** The planned balancing and policy routes use configured paths that are
      not held back, over their configured interfaces. */
  lemma PlannedMarked(cfg: Config, input: Input, held: set<PathKey>, k: TableKey)
    requires InputMatches(cfg, input) && ValidConfig(cfg)
    requires k in Plan(cfg, Without(input, held)).routes && !IsPathTable(cfg.layout, k.table)
    ensures RouteMarked(cfg.layout, k, Plan(cfg, Without(input, held)).routes[k], cfg, Kept(cfg, held))
  {
    hide Plan, FamilyRoutes, Ready, TakesPolicies, IsActive, Without, Members, Kept, Manages, Normalised;
    var l, f, input' := cfg.layout, k.family, Without(input, held);
    var us := EnabledUplinks(cfg.uplinks, f);
    InFamily(cfg, input', k);
    FamilyTables(cfg, f, input', k);
    var r := Plan(cfg, input').routes[k];
    forall h | h in r.nexthops
      ensures exists u :: PlannedFor(l, k, h, cfg, u) && Assignment(PathKey(u.id, f), u.interface) in Kept(cfg, held)
    {
      var u: Uplink;
      if k.table == BalancingTable(l) {
        BalancingHops(f, us, input', h);
        u :| u in us && Member(f, input', u) && h.ifindex == Ready(input', f, u.id).value.ifindex;
      } else {
        u :| u in us && Fills(l, f, u.id, input', k.table) && r == PathRoute(f, k.table, Ready(input', f, u.id).value);
      }
      WithoutFacts(input, held, f, u.id);
      KeptOf(cfg, held, f, u);
      assert PlannedFor(l, k, h, cfg, u);
    }
  }

  /** The table of a path leads out of its uplink, and the balancing table holds
      every active ready path once, with its weight. */
  lemma TablesLeadOut(cfg: Config, input: Input, k: TableKey)
    requires InputMatches(cfg, input) && k in Plan(cfg, input).routes
    ensures var l, r := cfg.layout, Plan(cfg, input).routes[k];
            && r.family == k.family && r.table == k.table
            && (k.table != BalancingTable(l) ==>
                  exists u :: u in EnabledUplinks(cfg.uplinks, k.family) && UplinkTable(l, k.table, u.id)
                              && |r.nexthops| == 1 && r.nexthops[0].ifindex == u.interface)
            && (k.table == BalancingTable(l) ==>
                  var members := Members(k.family, EnabledUplinks(cfg.uplinks, k.family), input);
                  && |r.nexthops| == |members|
                  && (|members| > 1 ==> multiset(r.nexthops) == multiset(members)))
  {
    hide Plan, FamilyRoutes, Ready, TakesPolicies, Members, Manages;
    var l, f := cfg.layout, k.family;
    InFamily(cfg, input, k);
    FamilyTables(cfg, f, input, k);
    if k.table == BalancingTable(l) {
      Order.SortSorts(Members(f, EnabledUplinks(cfg.uplinks, f), input), HopKey);
      SortedLength(Members(f, EnabledUplinks(cfg.uplinks, f), input));
    } else {
      var u :| u in EnabledUplinks(cfg.uplinks, f) && Fills(l, f, u.id, input, k.table)
               && Plan(cfg, input).routes[k] == PathRoute(f, k.table, Ready(input, f, u.id).value);
    }
  }

  lemma SortedLength(v: seq<NextHop>)
    ensures |Order.Sort(v, HopKey)| == |v|
  {
    Order.SortSorts(v, HopKey);
    assert |multiset(v)| == |v| && |multiset(Order.Sort(v, HopKey))| == |Order.Sort(v, HopKey)|;
  }

  lemma MarkedMore(l: Layout, k: TableKey, r: Route, cfg: Config, a: set<Assignment>, b: set<Assignment>)
    requires RouteMarked(l, k, r, cfg, a) && a <= b
    ensures RouteMarked(l, k, r, cfg, b)
  {
    hide PlannedFor, ValidConfig;
    forall h | h in r.nexthops
      ensures exists u :: PlannedFor(l, k, h, cfg, u) && Assignment(PathKey(u.id, k.family), u.interface) in b
    {
      var u :| PlannedFor(l, k, h, cfg, u) && Assignment(PathKey(u.id, k.family), u.interface) in a;
    }
  }
}
