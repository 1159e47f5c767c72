/** The daemon's fields that the nftables barrier depends on, updated in place
    (crates/polywan/src/daemon.rs). */
module Daemon {
  import opened Model
  import opened Configuration
  import opened Planner
  import opened Observed
  import opened Reconcile
  import opened Convergence
  import opened Assignments
  import opened Barrier

  /** The operations before the nftables step. */
  method UntilNft(ops: seq<Op>) returns (n: nat)
    ensures n <= |ops| && ApplyNft !in ops[..n] && (n < |ops| ==> ops[n] == ApplyNft)
  {
    n := 0;
    while n < |ops| && !ops[n].ApplyNft?
      invariant n <= |ops| && ApplyNft !in ops[..n]
    {
      n := n + 1;
    }
  }

  class Control {
    const fixed: Fixed
    var setup: Setup
    var applied: Option<Applied>
    var adopted: Option<set<Assignment>>
    var flight: Option<Flight>
    var missing: bool
    var system: System
    /** The kernel's table, and whether it is the one in flight. */
    var kernel: Option<Transaction>
    var landed: bool
    /** Where the installed routes come from. */
    ghost var origin: Origins

    ghost function Now(): State
      reads this
    {
      State(setup, applied, adopted, flight, missing, system, kernel, landed, origin)
    }

    /** Startup: the configured paths that the table found already assigns are
        adopted; without a table, none is known. */
    constructor (fixed: Fixed, setup: Setup, system: System, kernel: Option<Transaction>, missing: bool,
                 ghost origin: Origins)
      ensures this.fixed == fixed && applied == None && flight == None && !landed
      ensures this.setup == setup && this.system == system && this.kernel == kernel && this.missing == missing
      ensures this.origin == origin
      ensures adopted == if kernel.None? then None
                         else Some(Configured(setup.cfg) * AssignmentsIn(kernel.value.table))
    {
      this.fixed, this.setup, this.system, this.kernel, this.missing := fixed, setup, system, kernel, missing;
      applied, flight, landed := None, None, false;
      this.origin := origin;
      adopted := if kernel.None? then None else Some(Configured(setup.cfg) * AssignmentsIn(kernel.value.table));
    }

    method Replan(input: Input) returns (d: DiffInput)
      ensures d == PassInput(fixed, Now(), input)
    {
      hide Plan, Without, Configured, FamilyRules, FamilyRoutes;
      var st := State(setup, applied, adopted, flight, missing, system, kernel, landed, map[]);
      var held := Unassigned(Configured(setup.cfg), Surviving(st));
      var desired := MakePlan(setup.cfg, input);
      var before := desired;
      if held != {} {
        before := MakePlan(setup.cfg, Without(input, held));
      }
      d := DiffInput(fixed.layout, fixed.protocol, (set f | f in FAMILIES && Manages(setup.cfg, f)), before, desired,
                     NftPending(st));
    }

    /** One reconciliation pass: plan, compare, execute up to a failure (after
        `failAfter` operations) or to the nftables step, and hand the table to
        the nftables lane. While a transaction is in flight, only the
        operations before the step run. */
    method Pass(input: Input, failAfter: nat, laneAccepts: bool) returns (ghost e: Event)
      modifies this
      ensures e.Pass? && e.input == input && Takes(fixed, old(Now()), e, Now())
      ensures failAfter >= |OpsOf(e.diff, fixed.protocol)| ==>
                e.done == |OpsOf(e.diff, fixed.protocol)| || OpsOf(e.diff, fixed.protocol)[e.done] == ApplyNft
      ensures laneAccepts && old(flight.None? && NftPending(Now())) ==>
                failAfter >= |OpsOf(e.diff, fixed.protocol)| ==> e.launched
      ensures old(Inv(fixed, Now())) && InputMatches(old(setup).cfg, input) && old(Fitting(Now())) ==>
                Inv(fixed, Now())
    {
      hide IsDiff, Inv, Fitting, InputMatches, OpsOf, PassInput, Configured, Run, Stamped;
      ghost var before := Now();
      var d := Replan(input);
      var g := Diff(system, d);
      var ops := OpsOf(g, fixed.protocol);
      var n := |ops|;
      if flight.Some? {
        n := UntilNft(ops);
      }
      var result, done, outcome := Execute(fixed.scope, fixed.protocol, system, ops[..n], failAfter);
      assert ops[..n][..done] == ops[..done];
      system := result;
      origin := Stamped(fixed, before, input, system);
      ghost var launched := outcome == StoppedAtNft && laneAccepts;
      if outcome == StoppedAtNft && laneAccepts {
        flight := Some(Flight(setup.transaction, Configured(setup.cfg)));
      }
      e := Event.Pass(input, g, done, launched);
      assert Passes(fixed, before, input, g, done, launched, Now());
      Reaches(fixed, before, input, g, done);
      if Inv(fixed, before) && InputMatches(before.setup.cfg, input) && Fitting(before) {
        StepKeeps(fixed, before, e, Now());
      }
    }

    /** The kernel applies the transaction in flight, atomically. */
    method KernelApplies()
      requires flight.Some? && !landed
      modifies this
      ensures Takes(fixed, old(Now()), Land, Now())
      ensures old(Inv(fixed, Now())) ==> Inv(fixed, Now())
    {
      hide Inv;
      ghost var before := Now();
      kernel, landed := Some(flight.value.transaction), true;
      if Inv(fixed, before) { StepKeeps(fixed, before, Land, Now()); }
    }

    /** The nftables lane reports; the kernel holds that table, whatever the
        configuration became meanwhile. */
    method NftApplied(ok: bool)
      requires flight.Some? && ok == landed
      modifies this
      ensures Takes(fixed, old(Now()), if ok then Success else Failure, Now())
      ensures old(Inv(fixed, Now())) ==> Inv(fixed, Now())
    {
      hide Inv;
      ghost var before := Now();
      if ok {
        applied := Some(Applied(flight.value.transaction, flight.value.configured));
        missing, landed := false, false;
      }
      flight := None;
      if Inv(fixed, before) { StepKeeps(fixed, before, if ok then Success else Failure, Now()); }
    }

    /** The bound reload commits. */
    method Commit(next: Setup)
      requires Rendered(fixed, next)
      modifies this
      ensures Takes(fixed, old(Now()), Reload(next), Now())
      ensures old(Inv(fixed, Now())) ==> Inv(fixed, Now())
    {
      hide Inv, Rendered;
      ghost var before := Now();
      setup := next;
      if Inv(fixed, before) { StepKeeps(fixed, before, Reload(next), Now()); }
    }
  }

  /** With the nftables step pending, a pass that runs through reaches it. */
  lemma Reaches(x: Fixed, st: State, input: Input, g: Segments, n: nat)
    requires IsDiff(st.system, PassInput(x, st, input), g)
    requires n <= |OpsOf(g, x.protocol)| && ApplyNft !in OpsOf(g, x.protocol)[..n]
    ensures NftPending(st) ==> n < |OpsOf(g, x.protocol)|
  {
    ExecutedRoutes(g, x.protocol, n);
  }
}
