/** What the daemon's passes reach together: the operations before the
    nftables step, the table, then the rest (FR-REC-2, FR-REC-3). */
module Application {
  import opened Model
  import opened Configuration
  import opened Nft
  import opened Planner
  import opened Observed
  import opened Reconcile
  import opened Convergence
  import opened PlannedRoutes
  import opened Assignments
  import opened Barrier
  import RunSafety
  import Meaning

  lemma PlannedManaged(x: Fixed, st: State, input: Input, r: Rule)
    requires Rendered(x, st.setup) && r in Plan(st.setup.cfg, input).rules
    ensures r.family in PassInput(x, st, input).families && OwnsPriority(x.layout, r.priority)
  {
    hide FamilyRules, FamilyRoutes, Meaning.Shaped, HeldPaths, NftPending, Manages, Without;
    var cfg, f := st.setup.cfg, if r in FamilyRules(st.setup.cfg, V4, input) then V4 else V6;
    RunSafety.FamilyWhole(cfg, input, f, r);
    RunSafety.ShapedOwned(cfg.layout, r);
  }

  lemma PassDesired(x: Fixed, st: State, input: Input)
    requires Bookkeeping(x, st)
    ensures WellFormedDesired(PassInput(x, st, input))
  {
    hide Bookkeeping, Plan, HeldPaths, NftPending, Without, WellFormedRoutes, Manages;
    PassWellFormed(x, st, input);
    IsRendered(x, st);
    forall r | r in Plan(st.setup.cfg, input).rules
      ensures r.family in PassInput(x, st, input).families && OwnsPriority(x.layout, r.priority)
    {
      PlannedManaged(x, st, input, r);
    }
  }

  /** With the table applied, one complete pass reaches the planned state, keeps
      everything else, and leaves nothing to do. */
  lemma AppliedPassConverges(x: Fixed, st: State, input: Input, g: Segments, g': Segments)
    requires Bookkeeping(x, st) && !NftPending(st) && IsDiff(st.system, PassInput(x, st, input), g)
    requires var st' := st.(system := Run(x.scope, x.protocol, st.system, OpsOf(g, x.protocol)));
             IsDiff(st'.system, PassInput(x, st', input), g')
    ensures var sys' := Run(x.scope, x.protocol, st.system, OpsOf(g, x.protocol));
            && InState(sys', x.layout, x.protocol, Plan(st.setup.cfg, input))
            && ForeignKept(st.system, sys', x.layout, x.protocol)
            && OpsOf(g', x.protocol) == []
  {
    hide IsDiff, OpsOf, Run, InState, ForeignKept, Plan, WellFormedDesired, WellFormedRoutes, AssignmentsIn, WellKeyed;
    hide CoversLayout, Configured, Rendered;
    SettledHoldsNothing(x, st);
    PassDesired(x, st, input);
    PassWellFormed(x, st, input);
    var d := PassInput(x, st, input);
    FullPassConverges(x.scope, st.system, d, g);
    EmptyDiffIff(x.scope, Run(x.scope, x.protocol, st.system, OpsOf(g, x.protocol)), d, g');
  }

  /** The daemon's way with paths held back: a pass up to the nftables step, its
      success, and a recomputed pass; the next one finds nothing to do. */
  lemma DaemonConverges(x: Fixed, trace: seq<State>, events: seq<Event>, g: Segments)
    requires IsHistory(x, trace, events) && |events| == 4 && Inv(x, trace[0])
    requires events[0].Pass? && events[0].launched && events[1] == Land && events[2] == Success
    requires events[3].Pass? && events[3].done == |OpsOf(events[3].diff, x.protocol)|
    requires Fitting(trace[0]) && IsDiff(trace[4].system, PassInput(x, trace[4], events[3].input), g)
    ensures InState(trace[4].system, x.layout, x.protocol, Plan(trace[0].setup.cfg, events[3].input))
    ensures !NftPending(trace[4]) && OpsOf(g, x.protocol) == [] && BarrierHolds(x, trace[4])
  {
    hide Inv, Fitting, InputMatches, IsDiff, OpsOf, InState, Configured, Run, PassInput, BarrierHolds, Known, Plan;
    hide NftPending;
    StepKeeps(x, trace[0], events[0], trace[1]);
    StepKeeps(x, trace[1], Land, trace[2]);
    StepKeeps(x, trace[2], Success, trace[3]);
    SuccessKnown(x, trace[2], trace[3]);
    FittingKnown(trace[3]);
    StepKeeps(x, trace[3], events[3], trace[4]);
    InvIsBarrier(x, trace[4]);
    Settled(x, trace[0], events[0], trace[1], trace[3]);
    LastPass(x, trace[3], events[3], trace[4], g);
  }

  lemma SuccessKnown(x: Fixed, st: State, st': State)
    requires Takes(x, st, Success, st')
    ensures Known(st')
  {
  }

  /** The transaction launched by a pass is the one it was computed with. */
  lemma Settled(x: Fixed, st: State, e: Event, st': State, last: State)
    requires Takes(x, st, e, st') && e.Pass? && e.launched
    requires last.setup == st'.setup && st'.flight.Some? && !last.missing && last.flight.None?
    requires last.applied.Some? && last.applied.value.transaction == st'.flight.value.transaction
    ensures !NftPending(last)
  {
    hide IsDiff, OpsOf, Configured, Run, PassInput;
  }

  lemma LastPass(x: Fixed, st: State, e: Event, st': State, g: Segments)
    requires Inv(x, st) && !NftPending(st) && Takes(x, st, e, st')
    requires e.Pass? && e.done == |OpsOf(e.diff, x.protocol)|
    requires IsDiff(st'.system, PassInput(x, st', e.input), g)
    ensures InState(st'.system, x.layout, x.protocol, Plan(st.setup.cfg, e.input))
    ensures !NftPending(st') && OpsOf(g, x.protocol) == []
  {
    hide Bookkeeping, IsDiff, OpsOf, InState, Configured, Run, PassInput, Plan, Marked, ForeignKept, Stamped;
    assert !e.launched by { Unlaunched(x, st, e, st'); }
    assert OpsOf(e.diff, x.protocol)[..e.done] == OpsOf(e.diff, x.protocol);
    var moved := st.(system := Run(x.scope, x.protocol, st.system, OpsOf(e.diff, x.protocol)));
    SameInput(x, moved, st', e.input);
    AppliedPassConverges(x, st, e.input, e.diff, g);
  }

  lemma SameInput(x: Fixed, st: State, st': State, input: Input)
    requires st' == st.(origin := st'.origin)
    ensures PassInput(x, st', input) == PassInput(x, st, input)
  {
    hide Plan, Without, Configured, Manages;
  }

  /** Recovery without a table to replace: with a known table, one complete pass
      has the invariant again, whatever was installed before. */
  lemma SettledRecovers(x: Fixed, st: State, e: Event, st': State)
    requires Bookkeeping(x, st) && !NftPending(st) && Takes(x, st, e, st')
    requires e.Pass? && e.done == |OpsOf(e.diff, x.protocol)| && InputMatches(st.setup.cfg, e.input)
    ensures Inv(x, st') && BarrierHolds(x, st')
  {
    hide IsDiff, OpsOf, Configured, Run, Plan, Marked, ForeignKept, Stamped, InputMatches, BarrierHolds, Kept;
    hide WellKeyed, CoversLayout, Rendered, AssignmentsIn, OwnRoute, WellFormedDesired, WellFormedRoutes, OwnRules;
    assert !e.launched by { Unlaunched(x, st, e, st'); }
    assert OpsOf(e.diff, x.protocol)[..e.done] == OpsOf(e.diff, x.protocol);
    SettledHoldsNothing(x, st);
    PassDesired(x, st, e.input);
    PassWellFormed(x, st, e.input);
    FullPassConverges(x.scope, st.system, PassInput(x, st, e.input), e.diff);
    PlannedMarks(x, st, e.input, st'.system);
    KeptLasts(x, st);
    PassBookkeeping(x, st, e.input, e.diff, e.done, false, st');
    MarkedMonotone(x, st'.system, st'.origin, Kept(st.setup.cfg, HeldPaths(st)), Lasting(st'));
    InvIsBarrier(x, st');
  }

  lemma Unlaunched(x: Fixed, st: State, e: Event, st': State)
    requires Takes(x, st, e, st') && e.Pass? && e.done == |OpsOf(e.diff, x.protocol)|
    ensures !e.launched
  {
    hide IsDiff, OpsOf, Configured, Run, PassInput, Stamped;
  }
}
