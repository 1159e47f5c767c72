/** The nftables step as a barrier (crates/polywan/src/daemon.rs, FR-REC-3,
    FR-REC-9): a path joins the balancing and policy routes only once the
    kernel's table marks its connections, and never while a transaction in
    flight would drop that marking. */
module Barrier {
  import opened Model
  import opened Configuration
  import opened Nft
  import opened Planner
  import opened Observed
  import opened Reconcile
  import opened Convergence
  import opened PlannedRoutes
  import opened Assignments

  // ------------------------------------------------------------------ state

  /** The text of a transaction: its marking chains and the rest of it. */
  datatype Transaction = Transaction(table: Table, rest: nat)

  /** A loaded configuration and the transaction rendered from it. */
  datatype Setup = Setup(cfg: Config, transaction: Transaction)

  datatype Applied = Applied(transaction: Transaction, assignments: set<Assignment>)

  datatype Flight = Flight(transaction: Transaction, configured: set<Assignment>)

  /** What does not change while the daemon runs. */
  datatype Fixed = Fixed(scope: Scope, layout: Layout, protocol: nat)

  /** The configuration whose plan last had the route of a table. */
  type Origins = map<TableKey, Config>

  /** The daemon's part, then the kernel's: its routing objects (which the view
      equals), its table, and whether the transaction in flight reached it; and,
      to state what is promised, where the installed routes come from. */
  datatype State = State(setup: Setup, applied: Option<Applied>, adopted: Option<set<Assignment>>,
                         flight: Option<Flight>, missing: bool,
                         system: System, kernel: Option<Transaction>, landed: bool, origin: Origins)

  /** The assignments last applied, or adopted at startup. */
  function Installed(st: State): Option<set<Assignment>>
  {
    if st.applied.Some? then Some(st.applied.value.assignments) else st.adopted
  }

  predicate Known(st: State) { Installed(st).Some? }

  /** Only the assignments that the transaction in flight keeps count. */
  function Surviving(st: State): Option<set<Assignment>>
  {
    match (Installed(st), st.flight)
    case (Some(i), Some(f)) => Some(i * f.configured)
    case (i, _) => i
  }

  function Unassigned(configured: set<Assignment>, known: Option<set<Assignment>>): set<PathKey>
  {
    if known.None? then {} else set a | a in configured && a !in known.value :: a.path
  }

  function HeldPaths(st: State): set<PathKey> { Unassigned(Configured(st.setup.cfg), Surviving(st)) }

  predicate NftPending(st: State)
  {
    st.missing || st.flight.Some? || st.applied.None? || st.applied.value.transaction != st.setup.transaction
  }

  function PassInput(x: Fixed, st: State, input: Input): DiffInput
  {
    var cfg, held := st.setup.cfg, HeldPaths(st);
    var desired := Plan(cfg, input);
    DiffInput(x.layout, x.protocol, (set f | f in FAMILIES && Manages(cfg, f)),
              if held == {} then desired else Plan(cfg, Without(input, held)), desired, NftPending(st))
  }

  // ------------------------------------------------------------------ steps

  datatype Event =
    | Reload(setup: Setup)
    | Pass(input: Input, diff: Segments, done: nat, launched: bool)
    | Land
    | Success
    | Failure
    | Listing(missing: bool)
    | Restart(setup: Setup, missing: bool)

  ghost predicate Rendered(x: Fixed, s: Setup)
  {
    ValidConfig(s.cfg) && s.cfg.layout == x.layout && s.transaction.table == TableOf(s.cfg)
  }

  function KernelMarks(st: State): set<Assignment>
  {
    if st.kernel.None? then {} else AssignmentsIn(st.kernel.value.table)
  }

  /** The tables that hold the planned routes are of the pass's configuration. */
  function Stamped(x: Fixed, st: State, input: Input, sys: System): Origins
  {
    var routes := PassInput(x, st, input).beforeNft.routes;
    st.origin + map k | k in routes && OwnRoute(sys, x.protocol, k) == Some(routes[k]) :: st.setup.cfg
  }

  /** The operations of a pass that were executed: none is the nftables step;
      reaching it launches the transaction unless the lane refuses it. */
  ghost predicate Passes(x: Fixed, st: State, input: Input, g: Segments, done: nat, launched: bool, st': State)
  {
    var ops := OpsOf(g, x.protocol);
    && IsDiff(st.system, PassInput(x, st, input), g)
    && done <= |ops| && ApplyNft !in ops[..done]
    && (launched ==> st.flight.None? && done < |ops| && ops[done] == ApplyNft)
    && st' == st.(system := Run(x.scope, x.protocol, st.system, ops[..done]),
                  origin := Stamped(x, st, input, Run(x.scope, x.protocol, st.system, ops[..done])),
                  flight := if launched then Some(Flight(st.setup.transaction, Configured(st.setup.cfg)))
                            else st.flight)
  }

  ghost predicate Takes(x: Fixed, st: State, e: Event, st': State)
  {
    match e
    case Reload(s) => Rendered(x, s) && st' == st.(setup := s)
    case Pass(input, g, done, launched) => Passes(x, st, input, g, done, launched, st')
    case Land =>
      st.flight.Some? && !st.landed && st' == st.(kernel := Some(st.flight.value.transaction), landed := true)
    case Success =>
      st.flight.Some? && st.landed
      && st' == st.(applied := Some(Applied(st.flight.value.transaction, st.flight.value.configured)),
                    flight := None, missing := false, landed := false)
    case Failure => st.flight.Some? && !st.landed && st' == st.(flight := None)
    case Listing(m) => st' == st.(missing := m)
    case Restart(s, m) =>
      Rendered(x, s)
      && st' == State(s, None, if st.kernel.None? then None else Some(Configured(s.cfg) * KernelMarks(st)),
                      None, m, st.system, st.kernel, false, st.origin)
  }

  // -------------------------------------------------------------- invariant

  /** Every next hop of every installed balancing or policy route has the
      assignment of the path it was planned for. */
  ghost predicate Marked(x: Fixed, sys: System, origin: Origins, marks: set<Assignment>)
  {
    forall k: TableKey ::
      OwnsTable(x.layout, k.table) && !IsPathTable(x.layout, k.table) && OwnRoute(sys, x.protocol, k).Some? ==>
        k in origin && RouteMarked(x.layout, k, OwnRoute(sys, x.protocol, k).value, origin[k], marks)
  }

  /** The kernel's assignments that the transaction in flight keeps. */
  function Lasting(st: State): set<Assignment>
  {
    if st.flight.Some? then KernelMarks(st) * st.flight.value.configured else KernelMarks(st)
  }

  ghost predicate Bookkeeping(x: Fixed, st: State)
  {
    && Rendered(x, st.setup) && CoversLayout(x.scope, x.layout) && WellKeyed(x.scope, st.system)
    && (st.applied.Some? ==> st.applied.value.assignments == AssignmentsIn(st.applied.value.transaction.table))
    && (st.flight.Some? ==> st.flight.value.configured == AssignmentsIn(st.flight.value.transaction.table))
    && (st.landed ==> st.flight.Some? && st.kernel == Some(st.flight.value.transaction))
    && (!st.landed && Known(st) ==> st.kernel.Some? && Installed(st).value <= KernelMarks(st))
    && (!st.landed && !Known(st) ==> st.kernel.None?)
  }

  ghost predicate Inv(x: Fixed, st: State)
  {
    && Bookkeeping(x, st)
    && (Known(st) ==> Marked(x, st.system, st.origin, Lasting(st)))
    && (!Known(st) && st.flight.Some? ==> Marked(x, st.system, st.origin, st.flight.value.configured))
  }

  /** The barrier: the kernel's table and the one a transaction in flight would
      install both mark every installed balancing and policy route. */
  ghost predicate BarrierHolds(x: Fixed, st: State)
  {
    && Marked(x, st.system, st.origin, KernelMarks(st))
    && (st.flight.Some? ==> Marked(x, st.system, st.origin, AssignmentsIn(st.flight.value.transaction.table)))
  }

  /** A pass that cannot install a path the first transaction leaves out. */
  predicate Fitting(st: State)
  {
    Known(st) || st.flight.None? || Configured(st.setup.cfg) <= st.flight.value.configured
  }

  lemma MarkedMonotone(x: Fixed, sys: System, origin: Origins, a: set<Assignment>, b: set<Assignment>)
    requires Marked(x, sys, origin, a) && a <= b
    ensures Marked(x, sys, origin, b)
  {
    hide OwnRoute, RouteMarked;
    forall k: TableKey | OwnsTable(x.layout, k.table) && !IsPathTable(x.layout, k.table)
                         && OwnRoute(sys, x.protocol, k).Some?
      ensures k in origin && RouteMarked(x.layout, k, OwnRoute(sys, x.protocol, k).value, origin[k], b)
    {
      MarkedMore(x.layout, k, OwnRoute(sys, x.protocol, k).value, origin[k], a, b);
    }
  }

  lemma InvIsBarrier(x: Fixed, st: State)
    requires Inv(x, st) && Known(st)
    ensures BarrierHolds(x, st)
  {
    hide Marked, Rendered, AssignmentsIn;
    MarkedMonotone(x, st.system, st.origin, Lasting(st), KernelMarks(st));
    if st.flight.Some? {
      MarkedMonotone(x, st.system, st.origin, Lasting(st), st.flight.value.configured);
    }
  }

  // ------------------------------------------------------------ one pass

  /** Operations leave a table as it was, empty it, or install a route. */
  lemma {:induction false} PrefixValue(k: TableKey, cur: Option<Route>, ops: seq<Op>)
    ensures var v := RouteAfter(k, cur, ops);
            v == cur || v == None || (ReplaceRoute(v.value) in ops && KeyOfRoute(v.value) == k)
    decreases |ops|
  {
    if ops != [] {
      var init := ops[..|ops| - 1];
      PrefixValue(k, cur, init);
      assert forall op :: op in init ==> op in ops;
    }
  }

  lemma BeforeFirst(ops: seq<Op>, n: nat, i: nat)
    requires n <= |ops| && i < |ops| && ops[i] == ApplyNft && ApplyNft !in ops[..n]
    ensures n <= i
  {
    assert forall j :: 0 <= j < n ==> ops[..n][j] == ops[j];
  }

  lemma ExecutedRoutes(g: Segments, p: nat, n: nat)
    requires n <= |OpsOf(g, p)| && ApplyNft !in OpsOf(g, p)[..n]
    ensures g.nft ==> n <= |BeforeNft(g, p)| && OpsOf(g, p)[..n] == BeforeNft(g, p)[..n]
    ensures forall r :: ReplaceRoute(r) in OpsOf(g, p)[..n] ==> r in g.early || (!g.nft && r in g.late)
  {
    var ops, b := OpsOf(g, p), BeforeNft(g, p);
    if g.nft {
      hide BeforeNft, AfterNft;
      assert ops[|b|] == ApplyNft;
      BeforeFirst(ops, n, |b|);
      assert ops[..n] == b[..n];
    }
    forall r | ReplaceRoute(r) in ops[..n] ensures r in g.early || (!g.nft && r in g.late) {
      if g.nft {
        assert ReplaceRoute(r) in b;
      }
      InOps(g, p, r);
    }
  }

  lemma InOps(g: Segments, p: nat, r: Route)
    ensures ReplaceRoute(r) in BeforeNft(g, p) ==> r in g.early
    ensures ReplaceRoute(r) in OpsOf(g, p) ==> r in g.early || r in g.late
  {
    hide Replacements, RouteDeletions, RuleAdditions, RuleDeletions;
    InReplacements(g.early, r);
    InReplacements(g.late, r);
    NotInOthers(g, p, r);
    var op := ReplaceRoute(r);
    assert op in BeforeNft(g, p) ==> op in Replacements(g.early);
    assert op in AfterNft(g, p) ==> op in Replacements(g.late);
  }

  lemma InReplacements(v: seq<Route>, r: Route)
    ensures ReplaceRoute(r) in Replacements(v) ==> r in v
  {
  }

  lemma NotInOthers(g: Segments, p: nat, r: Route)
    ensures ReplaceRoute(r) !in RouteDeletions(g.withdrawals, p) && ReplaceRoute(r) !in RuleAdditions(g.adds)
    ensures ReplaceRoute(r) !in RuleDeletions(g.deletes) && ReplaceRoute(r) !in RouteDeletions(g.lateTables, p)
  {
  }

  /** Routes in the two replacement parts are those of the plans. */
  lemma ReplacementSource(sys: System, d: DiffInput, g: Segments, r: Route)
    requires IsDiff(sys, d, g)
    requires forall k :: k in d.beforeNft.routes ==> KeyOfRoute(d.beforeNft.routes[k]) == k
    requires forall k :: k in d.desired.routes ==> KeyOfRoute(d.desired.routes[k]) == k
    ensures r in g.early ==> Wanted(d.beforeNft.routes, KeyOfRoute(r)) == Some(r)
    ensures r in g.late ==> Wanted(d.desired.routes, KeyOfRoute(r)) == Some(r)
  {
    hide EarlyTables, WithdrawnTables, LateTables, Additions, Deletions, InstallKey, RemovalKey, RoutePresent;
    if r in g.early { assert r in EarlyReplacements(sys, d); }
    if r in g.late { assert r in LateReplacements(sys, d); }
  }

  /** Without a pending nftables step nothing is held back. */
  lemma SettledHoldsNothing(x: Fixed, st: State)
    requires Bookkeeping(x, st) && !NftPending(st)
    ensures HeldPaths(st) == {}
  {
    hide AssignmentsIn, TableOf;
    GeneratedAssignments(st.setup.cfg);
  }

  lemma PassWellFormed(x: Fixed, st: State, input: Input)
    requires Bookkeeping(x, st)
    ensures var d := PassInput(x, st, input);
            WellFormedRoutes(d.layout, d.beforeNft.routes) && WellFormedRoutes(d.layout, d.desired.routes)
  {
    hide Plan, Without, HeldPaths, NftPending, AssignmentsIn;
    PlannedWellFormed(st.setup.cfg, input);
    PlannedWellFormed(st.setup.cfg, Without(input, HeldPaths(st)));
  }

  /** The routes planned before the nftables step are marked by assignments
      that are installed and last, or at least configured. */
  lemma BeforeMarked(x: Fixed, st: State, input: Input, k: TableKey)
    requires Rendered(x, st.setup) && InputMatches(st.setup.cfg, input)
    requires var d := PassInput(x, st, input); k in d.beforeNft.routes && !IsPathTable(x.layout, k.table)
    ensures RouteMarked(x.layout, k, PassInput(x, st, input).beforeNft.routes[k], st.setup.cfg,
                        Kept(st.setup.cfg, HeldPaths(st)))
  {
    hide Plan, Without, HeldPaths, NftPending, InputMatches, RouteMarked, Kept;
    var held := HeldPaths(st);
    if held == {} {
      NothingHeld(input);
      PlannedMarked(st.setup.cfg, input, {}, k);
    } else {
      PlannedMarked(st.setup.cfg, input, held, k);
    }
  }

  lemma NothingHeld(input: Input)
    ensures Without(input, {}) == input
  {
    var w := Without(input, {});
    assert w.paths == input.paths;
    forall f | f in input.active ensures w.active[f] == input.active[f] {}
    assert w.active == input.active;
  }

  lemma KeptLasts(x: Fixed, st: State)
    requires Bookkeeping(x, st)
    ensures Kept(st.setup.cfg, HeldPaths(st)) <= Configured(st.setup.cfg)
    ensures Known(st) ==> Kept(st.setup.cfg, HeldPaths(st)) <= Lasting(st)
  {
    hide AssignmentsIn, Configured, Rendered;
    var cfg := st.setup.cfg;
    if Known(st) {
      forall a | a in Kept(cfg, HeldPaths(st)) ensures a in Surviving(st).value {
        assert a in Configured(cfg) && a.path !in HeldPaths(st);
      }
    }
  }

  /** Each balancing or policy table after the executed operations. */
  lemma PassValue(x: Fixed, st: State, input: Input, g: Segments, n: nat, k: TableKey)
    requires Bookkeeping(x, st) && IsDiff(st.system, PassInput(x, st, input), g)
    requires n <= |OpsOf(g, x.protocol)| && ApplyNft !in OpsOf(g, x.protocol)[..n]
    requires OwnsTable(x.layout, k.table)
    ensures var sys' := Run(x.scope, x.protocol, st.system, OpsOf(g, x.protocol)[..n]);
            var v := OwnRoute(sys', x.protocol, k);
            && WellKeyed(x.scope, sys')
            && (v == OwnRoute(st.system, x.protocol, k) || v == None
                || v == Wanted(PassInput(x, st, input).beforeNft.routes, k))
  {
    hide OpsOf, IsDiff, HeldPaths, OwnRoute, RouteAfter, WellKeyed, CoversLayout, Plan, Rendered, NftPending;
    hide BeforeNft, WellFormedRoute, AssignmentsIn, OwnOp;
    var p, d := x.protocol, PassInput(x, st, input);
    var ops := OpsOf(g, p)[..n];
    PassWellFormed(x, st, input);
    DiffOwnOps(x.scope, st.system, d, g);
    RunRoute(x.scope, x.layout, p, st.system, ops, k);
    PrefixValue(k, OwnRoute(st.system, p, k), ops);
    ExecutedRoutes(g, p, n);
    var v := RouteAfter(k, OwnRoute(st.system, p, k), ops);
    if v != OwnRoute(st.system, p, k) && v != None {
      ReplacementSource(st.system, d, g, v.value);
      NftFlag(st.system, d, g);
      if !g.nft { SettledHoldsNothing(x, st); }
    }
  }

  lemma NftFlag(sys: System, d: DiffInput, g: Segments)
    requires IsDiff(sys, d, g)
    ensures g.nft == d.nftPending
  {
  }

  /** A pass keeps what was marked if what it may install is marked too. */
  lemma PassKeepsMarks(x: Fixed, st: State, input: Input, g: Segments, n: nat, marks: set<Assignment>)
    requires Bookkeeping(x, st) && IsDiff(st.system, PassInput(x, st, input), g) && InputMatches(st.setup.cfg, input)
    requires n <= |OpsOf(g, x.protocol)| && ApplyNft !in OpsOf(g, x.protocol)[..n]
    requires Marked(x, st.system, st.origin, marks) && Kept(st.setup.cfg, HeldPaths(st)) <= marks
    ensures var sys' := Run(x.scope, x.protocol, st.system, OpsOf(g, x.protocol)[..n]);
            Marked(x, sys', Stamped(x, st, input, sys'), marks)
  {
    hide OpsOf, IsDiff, HeldPaths, OwnRoute, PassInput, RouteMarked, Kept, Bookkeeping, InputMatches, Run;
    var sys' := Run(x.scope, x.protocol, st.system, OpsOf(g, x.protocol)[..n]);
    var origin := Stamped(x, st, input, sys');
    forall k: TableKey | OwnsTable(x.layout, k.table) && !IsPathTable(x.layout, k.table)
                         && OwnRoute(sys', x.protocol, k).Some?
      ensures k in origin && RouteMarked(x.layout, k, OwnRoute(sys', x.protocol, k).value, origin[k], marks)
    {
      PassValue(x, st, input, g, n, k);
      var d := PassInput(x, st, input);
      if k in d.beforeNft.routes && OwnRoute(sys', x.protocol, k) == Some(d.beforeNft.routes[k]) {
        IsRendered(x, st);
        BeforeMarked(x, st, input, k);
        MarkedMore(x.layout, k, d.beforeNft.routes[k], st.setup.cfg, Kept(st.setup.cfg, HeldPaths(st)), marks);
      }
    }
  }

  /** With exactly the routes planned before the nftables step, the balancing and
      policy routes use paths that are configured and not held back. */
  lemma PlannedMarks(x: Fixed, st: State, input: Input, sys: System)
    requires Bookkeeping(x, st) && InputMatches(st.setup.cfg, input)
    requires forall k: TableKey :: OwnsTable(x.layout, k.table) && !IsPathTable(x.layout, k.table) ==>
               OwnRoute(sys, x.protocol, k) == Wanted(PassInput(x, st, input).beforeNft.routes, k)
    ensures Marked(x, sys, Stamped(x, st, input, sys), Kept(st.setup.cfg, HeldPaths(st)))
  {
    hide HeldPaths, OwnRoute, PassInput, RouteMarked, Kept, Bookkeeping, InputMatches;
    var origin := Stamped(x, st, input, sys);
    forall k: TableKey | OwnsTable(x.layout, k.table) && !IsPathTable(x.layout, k.table)
                         && OwnRoute(sys, x.protocol, k).Some?
      ensures k in origin
      ensures RouteMarked(x.layout, k, OwnRoute(sys, x.protocol, k).value, origin[k], Kept(st.setup.cfg, HeldPaths(st)))
    {
      IsRendered(x, st);
      BeforeMarked(x, st, input, k);
    }
  }

  lemma IsRendered(x: Fixed, st: State)
    requires Bookkeeping(x, st)
    ensures Rendered(x, st.setup)
  {
  }

  /** When the nftables step is reached, exactly the planned routes are there. */
  lemma LaunchMarks(x: Fixed, st: State, input: Input, g: Segments, n: nat)
    requires Bookkeeping(x, st) && IsDiff(st.system, PassInput(x, st, input), g) && InputMatches(st.setup.cfg, input)
    requires n < |OpsOf(g, x.protocol)| && ApplyNft !in OpsOf(g, x.protocol)[..n]
    requires OpsOf(g, x.protocol)[n] == ApplyNft
    ensures var sys' := Run(x.scope, x.protocol, st.system, OpsOf(g, x.protocol)[..n]);
            Marked(x, sys', Stamped(x, st, input, sys'), Kept(st.setup.cfg, HeldPaths(st)))
  {
    hide OpsOf, IsDiff, HeldPaths, OwnRoute, Marked, Kept, InputMatches, BeforeNft, RouteAfter, Run, Plan, Stamped;
    hide WellKeyed, CoversLayout, Rendered, NftPending, AssignmentsIn, WellFormedRoute, OwnOp;
    var p, d := x.protocol, PassInput(x, st, input);
    NftPosition(g, p, n);
    PassWellFormed(x, st, input);
    DiffOwnOps(x.scope, st.system, d, g);
    var sys' := Run(x.scope, p, st.system, BeforeNft(g, p));
    forall k: TableKey | OwnsTable(x.layout, k.table) && !IsPathTable(x.layout, k.table)
      ensures OwnRoute(sys', p, k) == Wanted(d.beforeNft.routes, k)
    {
      RunRoute(x.scope, x.layout, p, st.system, BeforeNft(g, p), k);
      BeforeNftRoute(x.scope, st.system, d, g, k);
      EarlyMeans(x.scope, st.system, d, g, k);
    }
    PlannedMarks(x, st, input, sys');
  }

  lemma NftPosition(g: Segments, p: nat, n: nat)
    requires n < |OpsOf(g, p)| && ApplyNft !in OpsOf(g, p)[..n] && OpsOf(g, p)[n] == ApplyNft
    ensures g.nft && OpsOf(g, p)[..n] == BeforeNft(g, p)
  {
    NoOtherNft(g, p);
    var b, c, ops := BeforeNft(g, p), AfterNft(g, p), OpsOf(g, p);
    hide BeforeNft, AfterNft;
    assert forall i :: 0 <= i < |b| ==> ops[i] in b;
    assert forall i :: (if g.nft then |b| < i else |b| <= i) && i < |ops| ==> ops[i] in c;
    if g.nft { BeforeFirst(ops, n, |b|); }
  }

  lemma NoOtherNft(g: Segments, p: nat)
    ensures ApplyNft !in BeforeNft(g, p) && ApplyNft !in AfterNft(g, p)
  {
    assert ApplyNft !in Replacements(g.early) && ApplyNft !in Replacements(g.late);
    assert ApplyNft !in RouteDeletions(g.withdrawals, p) && ApplyNft !in RouteDeletions(g.lateTables, p);
    assert ApplyNft !in RuleAdditions(g.adds) && ApplyNft !in RuleDeletions(g.deletes);
  }

  // --------------------------------------------------------------- every step

  lemma PassBookkeeping(x: Fixed, st: State, input: Input, g: Segments, done: nat, launched: bool, st': State)
    requires Bookkeeping(x, st) && Passes(x, st, input, g, done, launched, st')
    ensures Bookkeeping(x, st') && (Known(st) <==> Known(st')) && KernelMarks(st') == KernelMarks(st)
  {
    hide OpsOf, IsDiff, PassInput, Run, CoversLayout, WellKeyed, Configured, AssignmentsIn, ValidConfig, TableOf, Stamped;
    BalancingOwned(x.layout);
    PassValue(x, st, input, g, done, TableKey(V4, BalancingTable(x.layout)));
    GeneratedAssignments(st.setup.cfg);
  }

  lemma BalancingOwned(l: Layout)
    ensures OwnsTable(l, BalancingTable(l))
  {
  }

  lemma PassKeeps(x: Fixed, st: State, input: Input, g: Segments, done: nat, launched: bool, st': State)
    requires Inv(x, st) && Passes(x, st, input, g, done, launched, st')
    requires InputMatches(st.setup.cfg, input) && Fitting(st)
    ensures Inv(x, st')
  {
    hide OpsOf, IsDiff, PassInput, Run, Configured, Marked, InputMatches, Kept, HeldPaths, Bookkeeping, Stamped;
    hide KernelMarks;
    var cfg := st.setup.cfg;
    var kept := Kept(cfg, HeldPaths(st));
    PassBookkeeping(x, st, input, g, done, launched, st');
    KeptLasts(x, st);
    if launched {
      LaunchMarks(x, st, input, g, done);
      MarkedMonotone(x, st'.system, st'.origin, kept, st'.flight.value.configured);
      if Known(st) {
        MarkedMonotone(x, st'.system, st'.origin, kept, Lasting(st'));
      }
    } else if Known(st) {
      PassKeepsMarks(x, st, input, g, done, Lasting(st));
    } else if st.flight.Some? {
      PassKeepsMarks(x, st, input, g, done, st.flight.value.configured);
    }
  }

  lemma QuietKeeps(x: Fixed, st: State, e: Event, st': State)
    requires Inv(x, st) && Takes(x, st, e, st') && !e.Pass? && !e.Restart?
    ensures Inv(x, st') && (Known(st) ==> Known(st'))
  {
    hide Marked, CoversLayout, WellKeyed, AssignmentsIn, ValidConfig, TableOf;
    if e.Land? && Known(st) {
      MarkedMonotone(x, st.system, st.origin, Lasting(st), Lasting(st'));
    }
    if e.Success? && Known(st) {
      MarkedMonotone(x, st.system, st.origin, Lasting(st), Lasting(st'));
    }
    if e.Failure? && Known(st) {
      MarkedMonotone(x, st.system, st.origin, Lasting(st), Lasting(st'));
    }
  }

  lemma RestartKeeps(x: Fixed, st: State, e: Event, st': State)
    requires Inv(x, st) && Takes(x, st, e, st') && e.Restart?
    ensures Inv(x, st') && (Known(st) ==> Known(st'))
  {
    hide Marked, CoversLayout, WellKeyed, AssignmentsIn, ValidConfig, TableOf, Configured;
    if Known(st) {
      MarkedMonotone(x, st.system, st.origin, Lasting(st), KernelMarks(st));
    }
  }

  /** Every step keeps the invariant, and a known table stays known. */
  lemma StepKeeps(x: Fixed, st: State, e: Event, st': State)
    requires Inv(x, st) && Takes(x, st, e, st')
    requires e.Pass? ==> InputMatches(st.setup.cfg, e.input) && Fitting(st)
    ensures Inv(x, st') && (Known(st) ==> Known(st'))
  {
    hide Inv, Known, InputMatches, Fitting, Passes;
    if e.Pass? {
      PassKeeps(x, st, e.input, e.diff, e.done, e.launched, st');
      PassKnown(x, st, e.input, e.diff, e.done, e.launched, st');
    } else if e.Restart? {
      RestartKeeps(x, st, e, st');
    } else {
      QuietKeeps(x, st, e, st');
    }
  }

  lemma PassKnown(x: Fixed, st: State, input: Input, g: Segments, done: nat, launched: bool, st': State)
    requires Passes(x, st, input, g, done, launched, st')
    ensures Known(st') <==> Known(st)
  {
    hide OpsOf, IsDiff, PassInput, Run, Configured, Stamped;
  }

  // ---------------------------------------------------------------- all runs

  ghost predicate IsHistory(x: Fixed, trace: seq<State>, events: seq<Event>)
  {
    && |trace| == |events| + 1
    && forall i :: 0 <= i < |events| ==>
         && Takes(x, trace[i], events[i], trace[i + 1])
         && (events[i].Pass? ==> InputMatches(trace[i].setup.cfg, events[i].input))
  }

  /** No table and no transaction; routes of an earlier run may be there. */
  ghost predicate ColdStart(x: Fixed, st: State)
  {
    && Rendered(x, st.setup) && CoversLayout(x.scope, x.layout) && WellKeyed(x.scope, st.system)
    && st.applied.None? && st.adopted.None? && st.flight.None? && st.kernel.None? && !st.landed
  }

  /** A table found at startup that marks the routes found with it. */
  ghost predicate WarmStart(x: Fixed, st: State)
  {
    && Rendered(x, st.setup) && CoversLayout(x.scope, x.layout) && WellKeyed(x.scope, st.system)
    && st.applied.None? && st.flight.None? && st.kernel.Some? && !st.landed
    && st.adopted == Some(Configured(st.setup.cfg) * KernelMarks(st))
    && Marked(x, st.system, st.origin, KernelMarks(st))
  }

  lemma StartsInv(x: Fixed, st: State)
    requires ColdStart(x, st) || WarmStart(x, st)
    ensures Inv(x, st) && (WarmStart(x, st) ==> Known(st))
  {
    hide Rendered, CoversLayout, WellKeyed, Marked, Configured, KernelMarks;
    KernelIf(st);
  }

  lemma KernelIf(st: State)
    ensures st.kernel.None? ==> KernelMarks(st) == {}
  {
  }

  /** Once a table is known, the barrier holds in every later state. */
  lemma {:induction false} KnownForever(x: Fixed, trace: seq<State>, events: seq<Event>, i: nat)
    requires IsHistory(x, trace, events) && i < |trace| && Inv(x, trace[0]) && Known(trace[0])
    ensures Inv(x, trace[i]) && Known(trace[i]) && BarrierHolds(x, trace[i])
    decreases i
  {
    hide Inv, Known, Takes, InputMatches, BarrierHolds;
    if i > 0 {
      KnownForever(x, trace, events, i - 1);
      FittingKnown(trace[i - 1]);
      StepKeeps(x, trace[i - 1], events[i - 1], trace[i]);
    }
    InvIsBarrier(x, trace[i]);
  }

  lemma FittingKnown(st: State)
    requires Known(st)
    ensures Fitting(st)
  {
  }

  /** From any start: whenever a table is known, the barrier holds, provided no
      pass of a cold start ran, while its first transaction was in flight, with
      assignments that transaction leaves out. */
  lemma {:induction false} FromStart(x: Fixed, trace: seq<State>, events: seq<Event>, i: nat)
    requires IsHistory(x, trace, events) && i < |trace|
    requires ColdStart(x, trace[0]) || WarmStart(x, trace[0])
    requires forall j :: 0 <= j < i && events[j].Pass? ==> Fitting(trace[j])
    ensures Inv(x, trace[i]) && (Known(trace[i]) ==> BarrierHolds(x, trace[i]))
    decreases i
  {
    hide Inv, Known, Takes, InputMatches, Fitting, BarrierHolds, ColdStart, WarmStart;
    if i == 0 {
      StartsInv(x, trace[0]);
    } else {
      FromStart(x, trace, events, i - 1);
      StepKeeps(x, trace[i - 1], events[i - 1], trace[i]);
    }
    if Known(trace[i]) { InvIsBarrier(x, trace[i]); }
  }

  /** Recovery: with a known table, a pass that reaches the nftables step has the
      invariant again, whatever was installed before. */
  lemma LaunchRecovers(x: Fixed, st: State, input: Input, g: Segments, done: nat, st': State)
    requires Bookkeeping(x, st) && Known(st) && Passes(x, st, input, g, done, true, st')
    requires InputMatches(st.setup.cfg, input)
    ensures Inv(x, st') && Known(st') && BarrierHolds(x, st')
  {
    hide OpsOf, IsDiff, PassInput, Run, Configured, Marked, InputMatches, Kept, HeldPaths, Bookkeeping, Stamped;
    hide KernelMarks, BarrierHolds;
    PassBookkeeping(x, st, input, g, done, true, st');
    KeptLasts(x, st);
    LaunchMarks(x, st, input, g, done);
    MarkedMonotone(x, st'.system, st'.origin, Kept(st.setup.cfg, HeldPaths(st)), Lasting(st'));
    InvIsBarrier(x, st');
  }

  // ----------------------------------------------------- the cold-start gap

  /** One healthy path and nothing else. */
  function OnePath(u: Uplink, f: Family, source: Ip): Input
  {
    Input(map[PathKey(u.id, f) := PathInput(Some(ReadyPath(u.interface, None, false, source)), {}, true, false)],
          map[])
  }

  lemma OnePathMatches(cfg: Config, u: Uplink, f: Family, source: Ip)
    requires ValidConfig(cfg) && u in cfg.uplinks
    ensures InputMatches(cfg, OnePath(u, f, source))
  {
    forall w, h | w in cfg.uplinks && h in w.families && Ready(OnePath(u, f, source), h, w.id).Some?
      ensures Ready(OnePath(u, f, source), h, w.id).value.ifindex == w.interface
    {
      var i :| 0 <= i < |cfg.uplinks| && cfg.uplinks[i] == u;
      var j :| 0 <= j < |cfg.uplinks| && cfg.uplinks[j] == w;
    }
  }

  lemma OnePathPlan(cfg: Config, u: Uplink, f: Family, source: Ip)
    requires u in cfg.uplinks && f in u.families
    ensures var k, input := TableKey(f, PolicyBlockTable(cfg.layout, u.id)), OnePath(u, f, source);
            && k in Plan(cfg, input).routes
            && Plan(cfg, input).routes[k] == PathRoute(f, k.table, ReadyPath(u.interface, None, false, source))
  {
    hide RoutesOf, Members, Normalised;
    var k, input := TableKey(f, PolicyBlockTable(cfg.layout, u.id)), OnePath(u, f, source);
    var us := EnabledUplinks(cfg.uplinks, f);
    var i :| 0 <= i < |cfg.uplinks| && cfg.uplinks[i] == u;
    assert Manages(cfg, f);
    RoutesOfTables(cfg.layout, f, us, input, k);
    assert Fills(cfg.layout, f, u.id, input, k.table);
    InFamily(cfg, input, k);
  }

  lemma GapRoute(l: Layout, u: Uplink, f: Family, source: Ip, cfg: Config, marks: set<Assignment>)
    requires Assignment(PathKey(u.id, f), u.interface) !in marks
    ensures var k := TableKey(f, PolicyBlockTable(l, u.id));
            !RouteMarked(l, k, PathRoute(f, k.table, ReadyPath(u.interface, None, false, source)), cfg, marks)
  {
    var k := TableKey(f, PolicyBlockTable(l, u.id));
    var r := PathRoute(f, k.table, ReadyPath(u.interface, None, false, source));
    assert r.nexthops[0] in r.nexthops;
    forall id: UplinkId | Carries(l, k.table, id) ensures id == u.id {}
  }

  /** A pass that runs past the first transaction installs a path its table
      does not mark. */
  lemma ColdGap(x: Fixed, st: State, a: Assignment)
    returns (input: Input, g: Segments, done: nat, st': State)
    requires Inv(x, st) && !Known(st) && st.flight.Some?
    requires a in Configured(st.setup.cfg) && a !in st.flight.value.configured
    ensures InputMatches(st.setup.cfg, input) && Passes(x, st, input, g, done, false, st')
    ensures !Marked(x, st'.system, st'.origin, st.flight.value.configured)
  {
    hide InputMatches, Plan, OwnRoute, RouteMarked, PathRoute, Marked, Run, Passes, OnePath, Bookkeeping;
    var cfg, l := st.setup.cfg, x.layout;
    var u, f :| u in cfg.uplinks && f in u.families && a == Assignment(PathKey(u.id, f), u.interface);
    input := OnePath(u, f, Ip4(0));
    IsRendered(x, st);
    OnePathMatches(cfg, u, f, Ip4(0));
    OnePathPlan(cfg, u, f, Ip4(0));
    var k := TableKey(f, PolicyBlockTable(l, u.id));
    g, done, st' := UnknownPass(x, st, input, k);
    if k in st'.origin { GapRoute(l, u, f, Ip4(0), st'.origin[k], st.flight.value.configured); }
    MarkedAt(x, st'.system, st'.origin, st.flight.value.configured, k);
  }

  /** Without a known table, a pass may install any planned route. */
  lemma UnknownPass(x: Fixed, st: State, input: Input, k: TableKey) returns (g: Segments, done: nat, st': State)
    requires Bookkeeping(x, st) && !Known(st) && k in Plan(st.setup.cfg, input).routes
    requires OwnsTable(x.layout, k.table) && !IsPathTable(x.layout, k.table)
    ensures Passes(x, st, input, g, done, false, st')
    ensures OwnRoute(st'.system, x.protocol, k) == Some(Plan(st.setup.cfg, input).routes[k])
  {
    hide Plan, OwnRoute, BeforeNft, AfterNft, Run, Bookkeeping, IsDiff, Stamped;
    var p := x.protocol;
    g := SomeDiff(st.system, PassInput(x, st, input));
    done := |BeforeNft(g, p)|;
    assert OpsOf(g, p)[..done] == BeforeNft(g, p);
    NoOtherNft(g, p);
    var sys' := Run(x.scope, p, st.system, OpsOf(g, p)[..done]);
    st' := st.(system := sys', origin := Stamped(x, st, input, sys'));
    StepInstalls(x, st, input, g, k);
  }

  /** The operations before the nftables step install the routes planned for
      it. */
  lemma StepInstalls(x: Fixed, st: State, input: Input, g: Segments, k: TableKey)
    requires Bookkeeping(x, st) && IsDiff(st.system, PassInput(x, st, input), g)
    requires OwnsTable(x.layout, k.table) && !IsPathTable(x.layout, k.table)
    requires k in PassInput(x, st, input).beforeNft.routes
    ensures OwnRoute(Run(x.scope, x.protocol, st.system, BeforeNft(g, x.protocol)), x.protocol, k)
         == Some(PassInput(x, st, input).beforeNft.routes[k])
  {
    hide Plan, OwnRoute, BeforeNft, Run, HeldPaths, NftPending, OwnOps;
    hide WellKeyed, CoversLayout, ValidConfig, AssignmentsIn, WellFormedRoutes, RouteAfter, IsDiff;
    var p, d := x.protocol, PassInput(x, st, input);
    PassWellFormed(x, st, input);
    DiffOwnOps(x.scope, st.system, d, g);
    RunRoute(x.scope, x.layout, p, st.system, BeforeNft(g, p), k);
    BeforeNftRoute(x.scope, st.system, d, g, k);
    NotWithdrawn(st.system, d, k);
  }

  lemma NotWithdrawn(sys: System, d: DiffInput, k: TableKey)
    requires !IsPathTable(d.layout, k.table) && k in d.beforeNft.routes
    ensures !Withdrawn(sys, d, k)
  {
  }

  lemma MarkedAt(x: Fixed, sys: System, origin: Origins, marks: set<Assignment>, k: TableKey)
    ensures Marked(x, sys, origin, marks) && OwnsTable(x.layout, k.table) && !IsPathTable(x.layout, k.table)
            && OwnRoute(sys, x.protocol, k).Some? ==>
              k in origin && RouteMarked(x.layout, k, OwnRoute(sys, x.protocol, k).value, origin[k], marks)
  {
  }

  /** During the first transaction of a cold start, every pass keeps what that
      transaction will mark if and only if the configuration has no assignment
      it leaves out. */
  lemma ColdGapIff(x: Fixed, st: State)
    requires Inv(x, st) && !Known(st) && st.flight.Some?
    ensures (forall input, g, done, st' ::
               Passes(x, st, input, g, done, false, st') && InputMatches(st.setup.cfg, input) ==>
                 Marked(x, st'.system, st'.origin, st.flight.value.configured))
       <==> Configured(st.setup.cfg) <= st.flight.value.configured
  {
    hide Marked, InputMatches, Configured, IsDiff, OpsOf, PassInput, Run, Bookkeeping, Stamped;
    if Configured(st.setup.cfg) <= st.flight.value.configured {
      forall input, g, done, st' | Passes(x, st, input, g, done, false, st') && InputMatches(st.setup.cfg, input)
        ensures Marked(x, st'.system, st'.origin, st.flight.value.configured)
      {
        PassKeeps(x, st, input, g, done, false, st');
      }
    } else {
      var a :| a in Configured(st.setup.cfg) && a !in st.flight.value.configured;
      var input, g, done, st' := ColdGap(x, st, a);
    }
  }

  lemma LaunchingPass(x: Fixed, st: State) returns (g: Segments, done: nat, st': State)
    requires NftPending(st) && st.flight.None?
    ensures Passes(x, st, Input(map[], map[]), g, done, true, st')
  {
    hide Plan, BeforeNft, AfterNft, Run, IsDiff, Stamped;
    var p, input := x.protocol, Input(map[], map[]);
    g := SomeDiff(st.system, PassInput(x, st, input));
    NftFlag(st.system, PassInput(x, st, input), g);
    done := |BeforeNft(g, p)|;
    assert OpsOf(g, p)[..done] == BeforeNft(g, p);
    NoOtherNft(g, p);
    var sys' := Run(x.scope, p, st.system, OpsOf(g, p)[..done]);
    st' := st.(system := sys', origin := Stamped(x, st, input, sys'),
               flight := Some(Flight(st.setup.transaction, Configured(st.setup.cfg))));
  }

  lemma EmptyMatches(cfg: Config)
    ensures InputMatches(cfg, Input(map[], map[]))
  {
  }

  /** The gap is real: from any cold start, a reload that adds an assignment
      while the first transaction is in flight can end in a known table that
      does not mark an installed route. */
  lemma ColdGapReached(x: Fixed, st: State, next: Setup, a: Assignment)
    returns (trace: seq<State>, events: seq<Event>)
    requires ColdStart(x, st) && Rendered(x, next)
    requires a in Configured(next.cfg) && a !in Configured(st.setup.cfg)
    ensures IsHistory(x, trace, events) && trace[0] == st
    ensures Known(trace[|trace| - 1]) && !BarrierHolds(x, trace[|trace| - 1])
    ensures Bookkeeping(x, trace[|trace| - 1]) && NftPending(trace[|trace| - 1])
  {
    hide Passes, InputMatches, Marked, Configured, AssignmentsIn, TableOf, CoversLayout, WellKeyed, ValidConfig, Inv;
    hide Bookkeeping;
    var g1, n1, st1 := LaunchingPass(x, st);
    LaunchFrame(x, st, g1, n1, st1);
    EmptyMatches(st.setup.cfg);
    StartsInv(x, st);
    StepKeeps(x, st, Pass(Input(map[], map[]), g1, n1, true), st1);
    var st2 := st1.(setup := next);
    StepKeeps(x, st1, Reload(next), st2);
    var input, g3, n3, st3 := ColdGap(x, st2, a);
    PassFrame(x, st2, input, g3, n3, st3);
    var st4 := st3.(kernel := Some(st3.flight.value.transaction), landed := true);
    var st5 := st4.(applied := Some(Applied(st4.flight.value.transaction, st4.flight.value.configured)),
                    flight := None, missing := false, landed := false);
    trace := [st, st1, st2, st3, st4, st5];
    events := [Pass(Input(map[], map[]), g1, n1, true), Reload(next), Pass(input, g3, n3, false), Land, Success];
    GeneratedAssignments(st.setup.cfg);
    GeneratedAssignments(next.cfg);
    KeepsBooks(x, st2);
    PassBookkeeping(x, st2, input, g3, n3, false, st3);
    AppliedBooks(x, st3, st4, st5);
  }

  lemma KeepsBooks(x: Fixed, st: State)
    requires Inv(x, st)
    ensures Bookkeeping(x, st)
  {
  }

  lemma AppliedBooks(x: Fixed, st: State, mid: State, st': State)
    requires Bookkeeping(x, st) && Takes(x, st, Land, mid) && Takes(x, mid, Success, st')
    ensures Bookkeeping(x, st')
  {
    hide AssignmentsIn, CoversLayout, WellKeyed, Rendered;
  }

  lemma LaunchFrame(x: Fixed, st: State, g: Segments, done: nat, st': State)
    requires Passes(x, st, Input(map[], map[]), g, done, true, st')
    ensures st' == st.(system := st'.system, origin := st'.origin,
                       flight := Some(Flight(st.setup.transaction, Configured(st.setup.cfg))))
  {
    hide IsDiff, OpsOf, PassInput, Run, Configured;
  }

  lemma PassFrame(x: Fixed, st: State, input: Input, g: Segments, done: nat, st': State)
    requires Passes(x, st, input, g, done, false, st')
    ensures st' == st.(system := st'.system, origin := st'.origin)
  {
    hide IsDiff, OpsOf, PassInput, Run, Configured;
  }
}
