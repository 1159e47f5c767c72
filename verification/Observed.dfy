/** Rules and routes as the kernel reports them (crates/polywan/src/netlink/msg.rs)
    and the view that is kept of them (crates/polywan/src/system.rs). */
module Observed {
  import opened Model
  import opened Configuration
  import opened Planner
  import Order

  const TABLE_MAIN: nat := 254
  const ROUTE_METRIC: nat := 100

  datatype Prefix = Prefix(address: Ip, length: nat)

  function HostLength(a: Ip): nat { if a.Ip4? then 32 else 128 }

  // ---------------------------------------------------------------- rules

  datatype ObservedAction = LookupIn(table: nat, suppress: Option<nat>) | UnreachableAction | OtherAction

  /** A dumped rule; `foreign` is 0 when it has no selector that PolyWAN
      never uses, and otherwise stands for those selectors. */
  datatype ObservedRule = ObservedRule(family: Family, priority: nat, protocol: nat, fwmark: Option<Selector>,
                                       source: Option<Prefix>, action: ObservedAction, foreign: nat)

  function ActionForm(a: Action): ObservedAction
  {
    match a
    case Lookup(t) => LookupIn(t, None)
    case LookupMainSuppressDefault => LookupIn(TABLE_MAIN, Some(0))
    case Unreachable => UnreachableAction
  }

  function SourceForm(a: Option<Ip>): Option<Prefix>
  {
    match a case None => None case Some(x) => Some(Prefix(x, HostLength(x)))
  }

  /** Whether a dumped rule is the planned rule, protocol included. */
  predicate Is(o: ObservedRule, r: Rule, protocol: nat)
  {
    && o.family == r.family
    && o.priority == r.priority
    && o.protocol == protocol
    && o.foreign == 0
    && o.fwmark == r.fwmark
    && o.source == SourceForm(r.source)
    && o.action == ActionForm(r.action)
  }

  /** How the kernel reports a planned rule. */
  function RuleForm(r: Rule, protocol: nat): (o: ObservedRule)
    ensures forall x :: Is(x, r, protocol) <==> x == o
  {
    ObservedRule(r.family, r.priority, protocol, r.fwmark, SourceForm(r.source), ActionForm(r.action), 0)
  }

  // --------------------------------------------------------------- routes

  datatype ObservedHop = ObservedHop(ifindex: nat, gateway: Option<Ip>, weight: nat, onlink: bool)

  /** A dumped or notified route; no destination is a default route. */
  datatype ObservedRoute = ObservedRoute(family: Family, table: nat, protocol: nat, metric: nat,
                                         destination: Option<Prefix>, unicast: bool, source: Option<Ip>,
                                         nexthops: seq<ObservedHop>, nexthopId: Option<nat>)

  /** The hop as planned: the weight of a single hop is 1. */
  function PlannedHop(h: ObservedHop, single: bool): NextHop
  {
    NextHop(h.ifindex, h.gateway, h.onlink, if single then 1 else h.weight)
  }

  function PlannedHops(hops: seq<ObservedHop>): seq<NextHop>
  {
    seq(|hops|, i requires 0 <= i < |hops| => PlannedHop(hops[i], |hops| == 1))
  }

  /** The planned form of a usable PolyWAN-shaped default route. */
  function AsPlanned(o: ObservedRoute): (r: Option<Route>)
  {
    if o.destination.Some? || !o.unicast || o.metric != ROUTE_METRIC || o.nexthops == [] then None
    else
      Some(Route(o.family, o.table, o.source, Order.Sort(PlannedHops(o.nexthops), HopKey)))
  }

  function Clamp(w: nat): nat { if w < 1 then 1 else if w > 256 then 256 else w }

  /** A planned hop as the kernel reports it: a multipath member carries its
      weight in eight bits, a single hop none. */
  function HopForm(h: NextHop, single: bool): ObservedHop
  {
    ObservedHop(h.ifindex, h.gateway, if single then 1 else Clamp(h.weight), h.onlink)
  }

  function HopForms(hops: seq<NextHop>): seq<ObservedHop>
  {
    seq(|hops|, i requires 0 <= i < |hops| => HopForm(hops[i], |hops| == 1))
  }

  /** How the kernel reports a planned route. */
  function RouteForm(r: Route, protocol: nat): (o: ObservedRoute)
  {
    ObservedRoute(r.family, r.table, protocol, ROUTE_METRIC, None, true, r.source, HopForms(r.nexthops), None)
  }

  /** Sorted hops of weight 1 to 256, a single one of weight 1. */
  ghost predicate WellFormedRoute(r: Route)
  {
    && r.nexthops != []
    && Order.SortedBy(r.nexthops, HopKey)
    && Weighted(r.nexthops)
  }

  predicate Weighted(hops: seq<NextHop>)
  {
    && (|hops| == 1 ==> hops[0].weight == 1)
    && (forall i :: 0 <= i < |hops| ==> 1 <= hops[i].weight <= 256)
  }

  lemma HopsReported(hops: seq<NextHop>)
    ensures Weighted(PlannedHops(HopForms(hops)))
    ensures Weighted(hops) ==> PlannedHops(HopForms(hops)) == hops
  {
  }

  lemma SortKeepsWeights(hops: seq<NextHop>)
    requires Weighted(hops)
    ensures Weighted(Order.Sort(hops, HopKey))
  {
    var r := Order.Sort(hops, HopKey);
    forall i | 0 <= i < |r| ensures 1 <= r[i].weight <= 256 {
      assert r[i] in multiset(r);
      assert r[i] in hops;
    }
    if |r| == 1 {
      assert r[0] in multiset(r);
      assert r[0] in hops;
    }
  }

  /** A planned route survives the trip through the kernel if and only if it
      is well formed. */
  lemma RouteRoundTrip(r: Route, protocol: nat)
    ensures AsPlanned(RouteForm(r, protocol)) == Some(r) <==> WellFormedRoute(r)
  {
    hide Weighted, PlannedHops, HopKey, HopForms;
    var hops := PlannedHops(HopForms(r.nexthops));
    HopsReported(r.nexthops);
    FormLength(r.nexthops);
    if r.nexthops != [] {
      if WellFormedRoute(r) {
        Order.SortOfSorted(hops, HopKey);
      }
      if Order.Sort(hops, HopKey) == r.nexthops {
        Order.SortSorts(hops, HopKey);
        SortKeepsWeights(hops);
      }
    }
  }

  lemma FormLength(hops: seq<NextHop>)
    ensures |HopForms(hops)| == |hops|
  {
  }

  // ----------------------------------------------------------------- view

  /** The next-hop part of a route's identity. */
  datatype Via = ByTable | ByObject(id: nat) | ByHop(ifindex: nat, gateway: Option<Ip>) | ByOther

  datatype RouteKey = RouteKey(family: Family, table: nat, destination: Option<Prefix>, metric: nat, via: Via)

  datatype Range = Range(low: nat, high: nat)

  /** Which routes the view keeps. */
  datatype Scope = Scope(polywan: seq<Range>, discovery: set<nat>)

  predicate IsPolywan(s: Scope, table: nat)
  {
    exists i :: 0 <= i < |s.polywan| && s.polywan[i].low <= table <= s.polywan[i].high
  }

  predicate Keeps(s: Scope, r: ObservedRoute)
  {
    || IsPolywan(s, r.table)
    || (r.destination.None? && r.table in s.discovery)
    || (r.table == TABLE_MAIN && r.destination.Some?
        && forall i :: 0 <= i < |r.nexthops| ==> r.nexthops[i].gateway.None?)
  }

  function KeyOf(s: Scope, r: ObservedRoute): RouteKey
  {
    var via := if IsPolywan(s, r.table) then ByTable
               else if r.nexthopId.Some? then ByObject(r.nexthopId.value)
               else if |r.nexthops| == 1 then ByHop(r.nexthops[0].ifindex, r.nexthops[0].gateway)
               else ByOther;
    RouteKey(r.family, r.table, r.destination, r.metric, via)
  }

  /** The observed system: rules and routes. */
  datatype System = System(rules: set<ObservedRule>, routes: map<RouteKey, ObservedRoute>)

  /** Every route is stored under its own key. */
  ghost predicate WellKeyed(s: Scope, sys: System)
  {
    forall k :: k in sys.routes ==> KeyOf(s, sys.routes[k]) == k
  }

  // ---------------------------------------------- PolyWAN's part of the view

  /** The key of the only route of a PolyWAN table. */
  function OwnKey(k: TableKey): RouteKey { RouteKey(k.family, k.table, None, ROUTE_METRIC, ByTable) }

  /** The planned form of PolyWAN's route in a table. */
  function OwnRoute(sys: System, protocol: nat, k: TableKey): Option<Route>
  {
    if OwnKey(k) in sys.routes && sys.routes[OwnKey(k)].protocol == protocol
    then AsPlanned(sys.routes[OwnKey(k)])
    else None
  }

  /** PolyWAN's rules: tagged with its protocol, in its priority range. */
  function OwnRules(sys: System, l: Layout, protocol: nat): set<ObservedRule>
  {
    set o | o in sys.rules && o.protocol == protocol && OwnsPriority(l, o.priority)
  }

  predicate RoutePresent(sys: System, protocol: nat, r: Route)
  {
    exists k :: k in sys.routes && sys.routes[k].family == r.family && sys.routes[k].table == r.table
                && sys.routes[k].protocol == protocol && AsPlanned(sys.routes[k]) == Some(r)
  }

  /** The tables holding a PolyWAN route of the layout. */
  function ObservedTables(sys: System, l: Layout, protocol: nat): set<TableKey>
  {
    set k | k in sys.routes && sys.routes[k].protocol == protocol && OwnsTable(l, sys.routes[k].table)
            && AsPlanned(sys.routes[k]).Some?
          :: TableKey(sys.routes[k].family, sys.routes[k].table)
  }

  ghost predicate CoversLayout(s: Scope, l: Layout)
  {
    forall t :: OwnsTable(l, t) ==> IsPolywan(s, t)
  }

  lemma PresentIsOwn(s: Scope, sys: System, protocol: nat, r: Route)
    requires WellKeyed(s, sys) && IsPolywan(s, r.table)
    ensures RoutePresent(sys, protocol, r) <==> OwnRoute(sys, protocol, TableKey(r.family, r.table)) == Some(r)
  {
    hide IsPolywan;
    var own := OwnKey(TableKey(r.family, r.table));
    if RoutePresent(sys, protocol, r) {
      var k :| k in sys.routes && sys.routes[k].family == r.family && sys.routes[k].table == r.table
               && sys.routes[k].protocol == protocol && AsPlanned(sys.routes[k]) == Some(r);
      assert k == own;
    }
    if OwnRoute(sys, protocol, TableKey(r.family, r.table)) == Some(r) {
      assert KeyOf(s, sys.routes[own]) == own;
    }
  }

  lemma ObservedIsOwn(s: Scope, sys: System, l: Layout, protocol: nat, k: TableKey)
    requires WellKeyed(s, sys) && CoversLayout(s, l)
    ensures k in ObservedTables(sys, l, protocol)
       <==> OwnsTable(l, k.table) && OwnRoute(sys, protocol, k).Some?
  {
    hide IsPolywan;
    if k in ObservedTables(sys, l, protocol) {
      var x :| x in sys.routes && sys.routes[x].protocol == protocol && OwnsTable(l, sys.routes[x].table)
               && AsPlanned(sys.routes[x]).Some? && k == TableKey(sys.routes[x].family, sys.routes[x].table);
      assert KeyOf(s, sys.routes[x]) == x;
      assert x == OwnKey(k);
    }
    if OwnsTable(l, k.table) && OwnRoute(sys, protocol, k).Some? {
      assert KeyOf(s, sys.routes[OwnKey(k)]) == OwnKey(k);
    }
  }
}
