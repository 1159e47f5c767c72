/** The routes the planner wants, table by table, and what holding paths back
    removes from them (crates/polywan/src/plan.rs). */
module PlannedRoutes {
  import opened Model
  import opened Configuration
  import opened Planner
  import opened Observed
  import opened ClassTable
  import opened Convergence
  import Order

  // ------------------------------------------------------- uplink by uplink

  /** Whether a table is one of an uplink's own. */
  predicate UplinkTable(l: Layout, table: nat, id: UplinkId)
  {
    table == PathTable(l, id) || table == PolicyBalanceTable(l, id) || table == PolicyBlockTable(l, id)
  }

  /** Whether the planner fills an uplink's table. */
  predicate Fills(l: Layout, f: Family, id: UplinkId, input: Input, table: nat)
  {
    && UplinkTable(l, table, id) && Ready(input, f, id).Some?
    && (table == PathTable(l, id) || TakesPolicies(input, f, id))
  }

  lemma UplinkTables(l: Layout, f: Family, id: UplinkId, input: Input, k: TableKey)
    ensures k in UplinkRoutes(l, f, id, input) <==> k.family == f && Fills(l, f, id, input, k.table)
    ensures k in UplinkRoutes(l, f, id, input) ==>
              UplinkRoutes(l, f, id, input)[k] == PathRoute(f, k.table, Ready(input, f, id).value)
  {
  }

  lemma {:induction false} RoutesOfTables(l: Layout, f: Family, us: seq<Uplink>, input: Input, k: TableKey)
    ensures k in RoutesOf(l, f, us, input)
       <==> k.family == f && exists u :: u in us && Fills(l, f, u.id, input, k.table)
    ensures forall u :: u in us && k.family == f && Fills(l, f, u.id, input, k.table) ==>
              RoutesOf(l, f, us, input)[k] == PathRoute(f, k.table, Ready(input, f, u.id).value)
    decreases |us|
  {
    hide UplinkRoutes, Ready, TakesPolicies;
    if us != [] {
      var init, last := us[..|us| - 1], us[|us| - 1];
      RoutesOfTables(l, f, init, input, k);
      UplinkTables(l, f, last.id, input, k);
      assert forall u :: u in us <==> u in init || u == last;
      forall u | u in us && k.family == f && Fills(l, f, u.id, input, k.table) && Fills(l, f, last.id, input, k.table)
        ensures u.id == last.id
      {
      }
    }
  }

  /** The active ready paths. */
  predicate Member(f: Family, input: Input, u: Uplink)
  {
    Ready(input, f, u.id).Some? && IsActive(input, f, u.id)
  }

  lemma {:induction false} MembersAre(f: Family, us: seq<Uplink>, input: Input)
    ensures forall h :: h in Members(f, us, input) ==>
              exists u :: u in us && Member(f, input, u) && h == HopOf(Ready(input, f, u.id).value, u.weight)
    ensures forall u :: u in us && Member(f, input, u) ==>
              HopOf(Ready(input, f, u.id).value, u.weight) in Members(f, us, input)
    decreases |us|
  {
    hide Ready, IsActive;
    if us != [] {
      var init, last := us[..|us| - 1], us[|us| - 1];
      MembersAre(f, init, input);
      assert forall u :: u in us <==> u in init || u == last;
    }
  }

  // ------------------------------------------------------------ well-formed

  lemma SingleHop(f: Family, table: nat, r: ReadyPath)
    ensures WellFormedRoute(PathRoute(f, table, r))
  {
  }

  lemma BalancingWellFormed(l: Layout, f: Family, members: seq<NextHop>)
    requires members != [] && forall h :: h in members ==> 1 <= h.weight <= 256
    ensures WellFormedRoute(Route(f, BalancingTable(l), None, Normalised(Order.Sort(members, HopKey))))
  {
    var v := Order.Sort(members, HopKey);
    Order.SortSorts(members, HopKey);
    forall i | 0 <= i < |v| ensures 1 <= v[i].weight <= 256 {
      assert v[i] in multiset(v);
      assert v[i] in members;
    }
  }

  /** The routes of a family, table by table. */
  lemma FamilyTables(cfg: Config, f: Family, input: Input, k: TableKey)
    requires k in FamilyRoutes(cfg, f, input)
    ensures k.family == f && Manages(cfg, f) && OwnsTable(cfg.layout, k.table)
    ensures k.table != BalancingTable(cfg.layout) ==>
              exists u :: u in EnabledUplinks(cfg.uplinks, f) && Fills(cfg.layout, f, u.id, input, k.table)
                          && FamilyRoutes(cfg, f, input)[k] == PathRoute(f, k.table, Ready(input, f, u.id).value)
    ensures k.table == BalancingTable(cfg.layout) ==>
              var members := Members(f, EnabledUplinks(cfg.uplinks, f), input);
              && members != []
              && FamilyRoutes(cfg, f, input)[k]
                 == Route(f, k.table, None, Normalised(Order.Sort(members, HopKey)))
  {
    hide RoutesOf, Members, Ready, TakesPolicies, EnabledUplinks, Manages, Normalised;
    RoutesOfTables(cfg.layout, f, EnabledUplinks(cfg.uplinks, f), input, k);
  }

  lemma InFamily(cfg: Config, input: Input, k: TableKey)
    ensures k in Plan(cfg, input).routes <==> k in FamilyRoutes(cfg, k.family, input)
    ensures k in Plan(cfg, input).routes ==> Plan(cfg, input).routes[k] == FamilyRoutes(cfg, k.family, input)[k]
  {
    hide FamilyRoutes, FamilyRules;
    if k in FamilyRoutes(cfg, V4, input) { FamilyTables(cfg, V4, input, k); }
    if k in FamilyRoutes(cfg, V6, input) { FamilyTables(cfg, V6, input, k); }
    match k.family case V4 => case V6 =>
  }

  /** Every planned route is well formed, in a table of the layout. */
  lemma PlannedWellFormed(cfg: Config, input: Input)
    requires ValidConfig(cfg)
    ensures WellFormedRoutes(cfg.layout, Plan(cfg, input).routes)
  {
    hide Plan, FamilyRoutes, WellFormedRoute, Members, Ready, Manages;
    forall k | k in Plan(cfg, input).routes
      ensures OwnsTable(cfg.layout, k.table) && KeyOfRoute(Plan(cfg, input).routes[k]) == k
      ensures WellFormedRoute(Plan(cfg, input).routes[k])
    {
      InFamily(cfg, input, k);
      FamilyTables(cfg, k.family, input, k);
      if k.table == BalancingTable(cfg.layout) {
        WeightsInRange(cfg, k.family, input);
        BalancingWellFormed(cfg.layout, k.family, Members(k.family, EnabledUplinks(cfg.uplinks, k.family), input));
      } else {
        var u :| u in EnabledUplinks(cfg.uplinks, k.family) && Fills(cfg.layout, k.family, u.id, input, k.table)
                 && FamilyRoutes(cfg, k.family, input)[k]
                    == PathRoute(k.family, k.table, Ready(input, k.family, u.id).value);
        SingleHop(k.family, k.table, Ready(input, k.family, u.id).value);
      }
    }
  }

  lemma WeightsInRange(cfg: Config, f: Family, input: Input)
    requires ValidConfig(cfg)
    ensures forall h :: h in Members(f, EnabledUplinks(cfg.uplinks, f), input) ==> 1 <= h.weight <= 256
  {
    hide Members, Ready, IsActive;
    var us := EnabledUplinks(cfg.uplinks, f);
    MembersAre(f, us, input);
  }

  // ---------------------------------------------------------- held-back paths

  lemma WithoutFacts(input: Input, held: set<PathKey>, f: Family, id: UplinkId)
    ensures Ready(Without(input, held), f, id) == Ready(input, f, id)
    ensures LocalAddresses(Without(input, held), f, id) == LocalAddresses(input, f, id)
    ensures TakesPolicies(Without(input, held), f, id) <==> TakesPolicies(input, f, id) && PathKey(id, f) !in held
    ensures IsActive(Without(input, held), f, id) <==> IsActive(input, f, id) && PathKey(id, f) !in held
  {
  }

  /** The tables of the uplinks: the policy tables of held paths go. */
  lemma WithoutTables(l: Layout, us: seq<Uplink>, input: Input, held: set<PathKey>, f: Family, k: TableKey)
    ensures k in RoutesOf(l, f, us, Without(input, held)) ==> k in RoutesOf(l, f, us, input)
    ensures IsPathTable(l, k.table) && k in RoutesOf(l, f, us, input) ==>
              && k in RoutesOf(l, f, us, Without(input, held))
              && RoutesOf(l, f, us, Without(input, held))[k] == RoutesOf(l, f, us, input)[k]
  {
    hide RoutesOf, Ready, TakesPolicies, IsActive, Without, PathRoute;
    var input' := Without(input, held);
    RoutesOfTables(l, f, us, input, k);
    RoutesOfTables(l, f, us, input', k);
    if k in RoutesOf(l, f, us, input') {
      var u :| u in us && Fills(l, f, u.id, input', k.table);
      WithoutFacts(input, held, f, u.id);
    }
    if k in RoutesOf(l, f, us, input) && IsPathTable(l, k.table) {
      var u :| u in us && Fills(l, f, u.id, input, k.table);
      WithoutFacts(input, held, f, u.id);
    }
  }

  lemma WithoutMembers(us: seq<Uplink>, input: Input, held: set<PathKey>, f: Family)
    ensures Members(f, us, Without(input, held)) != [] ==> Members(f, us, input) != []
  {
    hide Members, Ready, IsActive, Without;
    var input' := Without(input, held);
    MembersAre(f, us, input);
    MembersAre(f, us, input');
    if Members(f, us, input') != [] {
      var h := Members(f, us, input')[0];
      assert h in Members(f, us, input');
      var u :| u in us && Member(f, input', u) && h == HopOf(Ready(input', f, u.id).value, u.weight);
      WithoutFacts(input, held, f, u.id);
    }
  }

  lemma WithoutFamily(cfg: Config, input: Input, held: set<PathKey>, f: Family, k: TableKey)
    ensures k in FamilyRoutes(cfg, f, Without(input, held)) ==> k in FamilyRoutes(cfg, f, input)
    ensures IsPathTable(cfg.layout, k.table) && k in FamilyRoutes(cfg, f, input) ==>
              && k in FamilyRoutes(cfg, f, Without(input, held))
              && FamilyRoutes(cfg, f, Without(input, held))[k] == FamilyRoutes(cfg, f, input)[k]
  {
    hide RoutesOf, Members, EnabledUplinks, Manages, Without, Normalised;
    WithoutTables(cfg.layout, EnabledUplinks(cfg.uplinks, f), input, held, f, k);
    WithoutMembers(EnabledUplinks(cfg.uplinks, f), input, held, f);
  }

  lemma WithoutKey(cfg: Config, input: Input, held: set<PathKey>, k: TableKey)
    ensures k in Plan(cfg, Without(input, held)).routes ==> k in Plan(cfg, input).routes
    ensures IsPathTable(cfg.layout, k.table) && k in Plan(cfg, input).routes ==>
              && k in Plan(cfg, Without(input, held)).routes
              && Plan(cfg, Without(input, held)).routes[k] == Plan(cfg, input).routes[k]
  {
    hide Plan, FamilyRoutes, Without;
    InFamily(cfg, input, k);
    InFamily(cfg, Without(input, held), k);
    WithoutFamily(cfg, input, held, k.family, k);
  }

  /** Holding paths back changes no rule, adds no table, and leaves the path
      tables as they are. */
  lemma WithoutHeldBack(cfg: Config, input: Input, held: set<PathKey>)
    ensures HeldBack(cfg.layout, Plan(cfg, Without(input, held)).routes, Plan(cfg, input).routes)
    ensures Plan(cfg, Without(input, held)).rules == Plan(cfg, input).rules
  {
    hide FamilyRoutes, FamilyRules, Without;
    WithoutRules(cfg, input, held, V4);
    WithoutRules(cfg, input, held, V6);
    assert Plan(cfg, Without(input, held)).rules == Plan(cfg, input).rules;
    hide Plan;
    forall k
      ensures k in Plan(cfg, Without(input, held)).routes ==> k in Plan(cfg, input).routes
      ensures k in Plan(cfg, input).routes && IsPathTable(cfg.layout, k.table) ==>
                && k in Plan(cfg, Without(input, held)).routes
                && Plan(cfg, Without(input, held)).routes[k] == Plan(cfg, input).routes[k]
    {
      WithoutKey(cfg, input, held, k);
    }
  }

  lemma WithoutRules(cfg: Config, input: Input, held: set<PathKey>, f: Family)
    ensures FamilyRules(cfg, f, Without(input, held)) == FamilyRules(cfg, f, input)
  {
    hide StaticRules, AddressRules, IdsOf, Manages, Without, LocalAddresses;
    forall id ensures LocalAddresses(Without(input, held), f, id) == LocalAddresses(input, f, id) {
      WithoutFacts(input, held, f, id);
    }
    SourceRulesByAddresses(cfg.layout, f, IdsOf(cfg, f), input, Without(input, held));
  }

  lemma SourceRulesByAddresses(l: Layout, f: Family, ids: set<UplinkId>, input: Input, input': Input)
    requires forall id :: LocalAddresses(input', f, id) == LocalAddresses(input, f, id)
    ensures SourceRules(l, f, ids, input') == SourceRules(l, f, ids, input)
  {
    hide AddressRules, LocalAddresses;
  }
}
