/** The parts of the validated configuration that planning and marking use
    (crates/polywan/src/config/mod.rs), and the table and priority arithmetic
    of `Layout` (crates/polywan/src/plan.rs). */
module Configuration {
  import opened Model
  import opened Marks

  /** `table_base`, `rule_priority_base` and the position of the mark field. */
  datatype Layout = Layout(tableBase: nat, priorityBase: nat, shift: Shift)

  function BalancingTable(l: Layout): nat { l.tableBase }

  function PathTable(l: Layout, id: UplinkId): nat { l.tableBase + id }

  function PolicyBalanceTable(l: Layout, id: UplinkId): nat { l.tableBase + 64 + id }

  function PolicyBlockTable(l: Layout, id: UplinkId): nat { l.tableBase + 128 + id }

  predicate IsPathTable(l: Layout, table: nat) { l.tableBase + 1 <= table < l.tableBase + 64 }

  /** The tables and priorities PolyWAN owns. */
  predicate OwnsTable(l: Layout, table: nat) { l.tableBase <= table <= l.tableBase + 191 }

  predicate OwnsPriority(l: Layout, p: nat) { l.priorityBase <= p <= l.priorityBase + 699 }

  /** Interfaces are identified by number; a name and its index are in
      bijection while PolyWAN runs. */
  type Interface = nat

  datatype Uplink = Uplink(id: UplinkId, interface: Interface, weight: nat, families: set<Family>)

  datatype Fallback = Balance | Block

  /** A policy: the original-direction packets of a family that arrive on one
      of `inputs` and match the address, protocol and port selectors, here
      the set of `flows` they accept. */
  datatype Policy = Policy(family: Family, inputs: set<Interface>, flows: set<nat>,
                           uplink: UplinkId, fallback: Fallback)

  datatype Config = Config(layout: Layout, uplinks: seq<Uplink>, policies: seq<Policy>)

  /** Whether at least one uplink enables the family. */
  predicate Manages(cfg: Config, f: Family)
  {
    exists i :: 0 <= i < |cfg.uplinks| && f in cfg.uplinks[i].families
  }

  /** What validation guarantees: unique ids and interfaces, weights 1 to 256. */
  ghost predicate ValidConfig(cfg: Config)
  {
    && (forall i, j :: 0 <= i < j < |cfg.uplinks| ==>
          cfg.uplinks[i].id != cfg.uplinks[j].id && cfg.uplinks[i].interface != cfg.uplinks[j].interface)
    && (forall i :: 0 <= i < |cfg.uplinks| ==> 1 <= cfg.uplinks[i].weight <= 256)
  }

  /** The uplinks that enable a family, in configuration order. */
  function EnabledUplinks(us: seq<Uplink>, f: Family): (r: seq<Uplink>)
    ensures forall u :: u in r <==> u in us && f in u.families
  {
    if us == [] then []
    else
      var rest := EnabledUplinks(us[..|us| - 1], f);
      var last := us[|us| - 1];
      if f in last.families then rest + [last] else rest
  }

  function UplinkIds(us: seq<Uplink>): (ids: set<UplinkId>)
  {
    set u | u in us :: u.id
  }

  /** The ids of the uplinks with a path of the family. */
  function IdsOf(cfg: Config, f: Family): (ids: set<UplinkId>)
  {
    UplinkIds(EnabledUplinks(cfg.uplinks, f))
  }
}
