/** The planner (crates/polywan/src/plan.rs): from the configuration and the
    observed state of the paths to the wanted rules and routes. */
module Planner {
  import opened Model
  import opened Marks
  import opened Configuration
  import Order

  datatype Action = Lookup(table: nat) | LookupMainSuppressDefault | Unreachable

  datatype RuleKind =
    | ProbeLookup(id: UplinkId)
    | ProbeGuard
    | MainBypass
    | PathLookup(id: UplinkId)
    | PathGuard
    | PolicyBalanceLookup(id: UplinkId)
    | PolicyBlockLookup(id: UplinkId)
    | PolicyBlockGuard
    | SourceLookup(id: UplinkId)
    | SourceGuard
    | BalanceLookup
    | FinalGuard

  /** `fwmark value/mask`. */
  datatype Selector = Selector(value: nat, mask: nat)

  datatype Rule = Rule(family: Family, priority: nat, fwmark: Option<Selector>, source: Option<Ip>,
                       action: Action, kind: RuleKind)

  datatype NextHop = NextHop(ifindex: nat, gateway: Option<Ip>, onlink: bool, weight: nat)

  /** The only route a PolyWAN table holds: `default` with metric 100. */
  datatype Route = Route(family: Family, table: nat, source: Option<Ip>, nexthops: seq<NextHop>)

  datatype TableKey = TableKey(family: Family, table: nat)

  datatype ReadyPath = ReadyPath(ifindex: nat, gateway: Option<Ip>, onlink: bool, source: Ip)

  datatype PathInput = PathInput(ready: Option<ReadyPath>, localAddresses: set<Ip>, healthy: bool, drained: bool)

  datatype Input = Input(paths: map<PathKey, PathInput>, active: map<Family, set<UplinkId>>)

  datatype Desired = Desired(rules: set<Rule>, routes: map<TableKey, Route>)

  // ---------------------------------------------------------------- rules

  function ValueRule(l: Layout, f: Family, offset: nat, class_: nat, id: UplinkId, table: nat, kind: RuleKind): Rule
    requires class_ < 4
  {
    Rule(f, l.priorityBase + offset + id, Some(Selector(Encode(l.shift, ValueOf(class_, id)), Mask(l.shift))), None,
         Lookup(table), kind)
  }

  function ProbeRule(l: Layout, f: Family, id: UplinkId): Rule
  {
    ValueRule(l, f, 0, CLASS_PROBE, id, PathTable(l, id), ProbeLookup(id))
  }

  function PathRule(l: Layout, f: Family, id: UplinkId): Rule
  {
    ValueRule(l, f, 200, CLASS_PATH, id, PathTable(l, id), PathLookup(id))
  }

  function PolicyBalanceRule(l: Layout, f: Family, id: UplinkId): Rule
  {
    ValueRule(l, f, 300, CLASS_POLICY_BALANCE, id, PolicyBalanceTable(l, id), PolicyBalanceLookup(id))
  }

  function PolicyBlockRule(l: Layout, f: Family, id: UplinkId): Rule
  {
    ValueRule(l, f, 400, CLASS_POLICY_BLOCK, id, PolicyBlockTable(l, id), PolicyBlockLookup(id))
  }

  function ClassGuard(l: Layout, f: Family, offset: nat, class_: nat, kind: RuleKind): Rule
    requires class_ < 4
  {
    Rule(f, l.priorityBase + offset, Some(Selector(Encode(l.shift, ValueOf(class_, 0)), ClassMask(l.shift))), None,
         Unreachable, kind)
  }

  function ProbeGuardRule(l: Layout, f: Family): Rule { ClassGuard(l, f, 64, CLASS_PROBE, ProbeGuard) }

  function PolicyBlockGuardRule(l: Layout, f: Family): Rule
  {
    ClassGuard(l, f, 464, CLASS_POLICY_BLOCK, PolicyBlockGuard)
  }

  /** One of the six rules `fwmark 2^k / (0xc0 + 2^k)`. */
  function PathGuardRule(l: Layout, f: Family, k: nat): Rule
    requires k < 6
  {
    Rule(f, l.priorityBase + 264, Some(Selector(Encode(l.shift, Bit(k)), Encode(l.shift, 192 + Bit(k)))), None,
         Unreachable, PathGuard)
  }

  function MainBypassRule(l: Layout, f: Family): Rule
  {
    Rule(f, l.priorityBase + 100, None, None, LookupMainSuppressDefault, MainBypass)
  }

  function BalanceRule(l: Layout, f: Family): Rule
  {
    Rule(f, l.priorityBase + 600, None, None, Lookup(BalancingTable(l)), BalanceLookup)
  }

  function FinalGuardRule(l: Layout, f: Family): Rule
  {
    Rule(f, l.priorityBase + 699, None, None, Unreachable, FinalGuard)
  }

  function SourceRule(l: Layout, f: Family, id: UplinkId, a: Ip): Rule
  {
    Rule(f, l.priorityBase + 500 + id, Some(Selector(0, Mask(l.shift))), Some(a), Lookup(PathTable(l, id)),
         SourceLookup(id))
  }

  function SourceGuardRule(l: Layout, f: Family, a: Ip): Rule
  {
    Rule(f, l.priorityBase + 564, Some(Selector(0, Mask(l.shift))), Some(a), Unreachable, SourceGuard)
  }

  function PathGuards(l: Layout, f: Family): set<Rule>
  {
    {PathGuardRule(l, f, 0), PathGuardRule(l, f, 1), PathGuardRule(l, f, 2),
     PathGuardRule(l, f, 3), PathGuardRule(l, f, 4), PathGuardRule(l, f, 5)}
  }

  /** The eight guards installed before every lookup rule. */
  function ClassGuards(l: Layout, f: Family): set<Rule>
  {
    PathGuards(l, f) + {ProbeGuardRule(l, f), PolicyBlockGuardRule(l, f)}
  }

  /** The lookup rules of one uplink. */
  function UplinkRules(l: Layout, f: Family, id: UplinkId): set<Rule>
  {
    {ProbeRule(l, f, id), PathRule(l, f, id), PolicyBalanceRule(l, f, id), PolicyBlockRule(l, f, id)}
  }

  function CommonRules(l: Layout, f: Family): set<Rule>
  {
    ClassGuards(l, f) + {MainBypassRule(l, f), BalanceRule(l, f), FinalGuardRule(l, f)}
  }

  /** The rules that do not depend on addresses. */
  function StaticRules(l: Layout, f: Family, ids: set<UplinkId>): set<Rule>
  {
    (set id, r | id in ids && r in UplinkRules(l, f, id) :: r) + CommonRules(l, f)
  }

  /** The local addresses of a path, empty when the path is unknown. */
  function LocalAddresses(input: Input, f: Family, id: UplinkId): set<Ip>
  {
    if PathKey(id, f) in input.paths then input.paths[PathKey(id, f)].localAddresses else {}
  }

  /** Source rules and source guards of an uplink's local addresses. */
  function AddressRules(l: Layout, f: Family, id: UplinkId, addresses: set<Ip>): set<Rule>
  {
    (set a | a in addresses :: SourceRule(l, f, id, a)) + (set a | a in addresses :: SourceGuardRule(l, f, a))
  }

  function SourceRules(l: Layout, f: Family, ids: set<UplinkId>, input: Input): set<Rule>
  {
    set id, r | id in ids && r in AddressRules(l, f, id, LocalAddresses(input, f, id)) :: r
  }

  // --------------------------------------------------------------- routes

  function Tag(g: Option<Ip>): int { match g case None => 0 case Some(Ip4(_)) => 1 case Some(Ip6(_)) => 2 }

  function Bits(g: Option<Ip>): int { match g case None => 0 case Some(a) => a.bits }

  /** The derived order of next hops. */
  function HopKey(h: NextHop): seq<int>
  {
    [h.ifindex, Tag(h.gateway), Bits(h.gateway), if h.onlink then 1 else 0, h.weight]
  }

  function HopOf(r: ReadyPath, weight: nat): NextHop { NextHop(r.ifindex, r.gateway, r.onlink, weight) }

  function PathRoute(f: Family, table: nat, r: ReadyPath): Route
  {
    Route(f, table, Some(r.source), [HopOf(r, 1)])
  }

  function Ready(input: Input, f: Family, id: UplinkId): Option<ReadyPath>
  {
    if PathKey(id, f) in input.paths then input.paths[PathKey(id, f)].ready else None
  }

  /** Whether a path's policy tables hold its route. */
  predicate TakesPolicies(input: Input, f: Family, id: UplinkId)
  {
    PathKey(id, f) in input.paths && input.paths[PathKey(id, f)].healthy && !input.paths[PathKey(id, f)].drained
  }

  predicate IsActive(input: Input, f: Family, id: UplinkId)
  {
    f in input.active && id in input.active[f]
  }

  /** The routes of one uplink's own tables. */
  function UplinkRoutes(l: Layout, f: Family, id: UplinkId, input: Input): map<TableKey, Route>
  {
    match Ready(input, f, id)
    case None => map[]
    case Some(r) =>
      var own := map[TableKey(f, PathTable(l, id)) := PathRoute(f, PathTable(l, id), r)];
      if TakesPolicies(input, f, id) then
        own[TableKey(f, PolicyBalanceTable(l, id)) := PathRoute(f, PolicyBalanceTable(l, id), r)]
           [TableKey(f, PolicyBlockTable(l, id)) := PathRoute(f, PolicyBlockTable(l, id), r)]
      else own
  }

  function RoutesOf(l: Layout, f: Family, us: seq<Uplink>, input: Input): map<TableKey, Route>
  {
    if us == [] then map[]
    else RoutesOf(l, f, us[..|us| - 1], input) + UplinkRoutes(l, f, us[|us| - 1].id, input)
  }

  /** The active ready paths of a family, in configuration order. */
  function Members(f: Family, us: seq<Uplink>, input: Input): seq<NextHop>
  {
    if us == [] then []
    else
      var u := us[|us| - 1];
      var rest := Members(f, us[..|us| - 1], input);
      if Ready(input, f, u.id).Some? && IsActive(input, f, u.id)
      then rest + [HopOf(Ready(input, f, u.id).value, u.weight)]
      else rest
  }

  /** A single next hop has weight 1. */
  function Normalised(hops: seq<NextHop>): seq<NextHop>
  {
    if |hops| == 1 then [hops[0].(weight := 1)] else hops
  }

  function BalancingRoute(l: Layout, f: Family, members: seq<NextHop>): map<TableKey, Route>
  {
    if members == [] then map[]
    else map[TableKey(f, BalancingTable(l)) :=
               Route(f, BalancingTable(l), None, Normalised(Order.Sort(members, HopKey)))]
  }

  function FamilyRules(cfg: Config, f: Family, input: Input): set<Rule>
  {
    if Manages(cfg, f)
    then StaticRules(cfg.layout, f, IdsOf(cfg, f)) + SourceRules(cfg.layout, f, IdsOf(cfg, f), input)
    else {}
  }

  function FamilyRoutes(cfg: Config, f: Family, input: Input): map<TableKey, Route>
  {
    if Manages(cfg, f)
    then
      var us := EnabledUplinks(cfg.uplinks, f);
      RoutesOf(cfg.layout, f, us, input) + BalancingRoute(cfg.layout, f, Members(f, us, input))
    else map[]
  }

  /** The desired artifacts. */
  function Plan(cfg: Config, input: Input): Desired
  {
    Desired(FamilyRules(cfg, V4, input) + FamilyRules(cfg, V6, input),
            FamilyRoutes(cfg, V4, input) + FamilyRoutes(cfg, V6, input))
  }

  /** `input` with the held paths out of the active sets and the policy tables. */
  function Without(input: Input, held: set<PathKey>): Input
  {
    Input(map k | k in input.paths ::
            if k in held then input.paths[k].(healthy := false) else input.paths[k],
          map f | f in input.active ::
            set u | u in input.active[f] && PathKey(u, f) !in held)
  }

  // ------------------------------------------------------ the planner's loops

  method StaticRuleList(l: Layout, f: Family, uplinks: seq<UplinkId>) returns (v: seq<Rule>)
    ensures forall r :: r in v <==> r in StaticRules(l, f, set id | id in uplinks)
  {
    v := [];
    for i := 0 to |uplinks|
      invariant forall r :: r in v <==> exists j :: 0 <= j < i && r in UplinkRules(l, f, uplinks[j])
    {
      var id := uplinks[i];
      ghost var before := v;
      v := v + [ProbeRule(l, f, id), PathRule(l, f, id), PolicyBalanceRule(l, f, id), PolicyBlockRule(l, f, id)];
      assert forall r :: r in v <==> r in before || r in UplinkRules(l, f, id);
    }
    ghost var lookups := v;
    v := v + [ProbeGuardRule(l, f), MainBypassRule(l, f)];
    for k := 0 to 6
      invariant forall r :: r in v <==>
        r in lookups || r in {ProbeGuardRule(l, f), MainBypassRule(l, f)}
        || exists j :: 0 <= j < k && r == PathGuardRule(l, f, j)
    {
      v := v + [PathGuardRule(l, f, k)];
    }
    v := v + [PolicyBlockGuardRule(l, f), BalanceRule(l, f), FinalGuardRule(l, f)];
    forall r ensures r in PathGuards(l, f) <==> exists j :: 0 <= j < 6 && r == PathGuardRule(l, f, j) {
      PathGuardMember(l, f, r);
    }
  }

  lemma PathGuardMember(l: Layout, f: Family, r: Rule)
    ensures r in PathGuards(l, f) <==> exists k :: 0 <= k < 6 && r == PathGuardRule(l, f, k)
  {
    if r in PathGuards(l, f) {
      var k := if r == PathGuardRule(l, f, 0) then 0 else if r == PathGuardRule(l, f, 1) then 1
               else if r == PathGuardRule(l, f, 2) then 2 else if r == PathGuardRule(l, f, 3) then 3
               else if r == PathGuardRule(l, f, 4) then 4 else 5;
      assert r == PathGuardRule(l, f, k);
    }
  }

  /** The source rules of one path, address by address. */
  method SourceRuleList(l: Layout, f: Family, id: UplinkId, addresses: set<Ip>) returns (rules: set<Rule>)
    ensures rules == AddressRules(l, f, id, addresses)
  {
    rules := {};
    var rest := addresses;
    while rest != {}
      invariant rest <= addresses
      invariant rules == AddressRules(l, f, id, addresses - rest)
      decreases rest
    {
      var a :| a in rest;
      var done := addresses - rest;
      rest := rest - {a};
      rules := rules + {SourceRule(l, f, id, a), SourceGuardRule(l, f, a)};
      assert addresses - rest == done + {a};
    }
    assert addresses - rest == addresses;
  }

  /** One more uplink. */
  lemma PrefixStep(l: Layout, f: Family, us: seq<Uplink>, i: nat, input: Input)
    requires i < |us|
    ensures us[..i + 1][..i] == us[..i]
    ensures SourceRules(l, f, UplinkIds(us[..i + 1]), input)
         == SourceRules(l, f, UplinkIds(us[..i]), input)
            + AddressRules(l, f, us[i].id, LocalAddresses(input, f, us[i].id))
  {
    assert us[..i + 1] == us[..i] + [us[i]];
    assert UplinkIds(us[..i + 1]) == UplinkIds(us[..i]) + {us[i].id};
  }

  /** The planner's loop over the uplinks of a managed family. */
  method PlanFamily(cfg: Config, f: Family, input: Input) returns (rules: set<Rule>, routes: map<TableKey, Route>)
    ensures rules == FamilyRules(cfg, f, input) && routes == FamilyRoutes(cfg, f, input)
  {
    rules, routes := {}, map[];
    if !Manages(cfg, f) {
      return;
    }
    var l, us := cfg.layout, EnabledUplinks(cfg.uplinks, f);
    var members := [];
    for i := 0 to |us|
      invariant rules == SourceRules(l, f, UplinkIds(us[..i]), input)
      invariant routes == RoutesOf(l, f, us[..i], input)
      invariant members == Members(f, us[..i], input)
    {
      var u := us[i];
      PrefixStep(l, f, us, i, input);
      var own := SourceRuleList(l, f, u.id, LocalAddresses(input, f, u.id));
      rules := rules + own;
      routes := routes + UplinkRoutes(l, f, u.id, input);
      if Ready(input, f, u.id).Some? && IsActive(input, f, u.id) {
        members := members + [HopOf(Ready(input, f, u.id).value, u.weight)];
      }
    }
    assert us[..|us|] == us;
    rules := StaticRules(l, f, UplinkIds(us)) + rules;
    routes := routes + BalancingRoute(l, f, members);
  }

  /** The planner. */
  method MakePlan(cfg: Config, input: Input) returns (d: Desired)
    ensures d == Plan(cfg, input)
  {
    var rules4, routes4 := PlanFamily(cfg, V4, input);
    var rules6, routes6 := PlanFamily(cfg, V6, input);
    d := Desired(rules4 + rules6, routes4 + routes6);
  }
}
