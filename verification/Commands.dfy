/** The command and reload protocol of the daemon (crates/polywan/src/daemon.rs,
    FR-API-3, FR-API-4, FR-CFG-3, FR-SEL-3): one command at a time, reloads in
    phases, and the drain intent that both may write. */
module Commands {
  import opened Model

  type Ticket = nat

  /** The command in progress. */
  datatype Active =
    | Persisting(seq_: nat, uplink: UplinkId, drain: bool, reply: Ticket)
    | Reloading(reply: Ticket)
    | Forgetting(seq_: nat, reply: Ticket)
    | Applying(target: Option<nat>, reply: Ticket)

  /** A reload in progress; `pruned` is the drain intent it binds. */
  datatype Phase = Validating(seq_: nat) | Preparing(seq_: nat) | Binding(seq_: nat, pruned: set<UplinkId>)

  datatype Answer = Applied(generation: nat) | Released | NotYet | Refused | StepFailed

  datatype Reply = Reply(ticket: Ticket, answer: Answer)

  /** The daemon's fields, the drain intent on disk, and what happened to the
      orders: taken from the queue, dropped, answered. */
  datatype Protocol = Protocol(command: Option<Active>, reload: Option<Phase>, again: bool, deferred: bool, seq_: nat,
                               desired: nat, applied: nat, drained: set<UplinkId>, disk: set<UplinkId>,
                               taken: seq<Ticket>, dropped: seq<Ticket>, answers: seq<Reply>, fatal: bool)

  datatype Action = Drain(uplink: UplinkId, drain: bool) | Reload | Forget

  /** What the lane does with a job, after the checks of a command. */
  datatype Lane = Rejected | Accepted | Full | Closed

  /** How a pass ended: nothing left to do, operations or flights under way, or
      a failed step. */
  datatype Ending = Settled | Underway | Broken

  // ------------------------------------------------------------------ steps

  predicate Writing(c: Option<Active>) { c.Some? && (c.value.Persisting? || c.value.Forgetting?) }

  function Changed(drained: set<UplinkId>, uplink: UplinkId, drain: bool): set<UplinkId>
  {
    if drain then drained + {uplink} else drained - {uplink}
  }

  function Answered(s: Protocol, a: Answer): Protocol
    requires s.command.Some?
  {
    s.(command := None, answers := s.answers + [Reply(s.command.value.reply, a)])
  }

  function StartReload(s: Protocol): Protocol
  {
    if s.reload.Some? then s.(again := true)
    else if Writing(s.command) then s.(deferred := true)
    else s.(seq_ := s.seq_ + 1, reload := Some(Validating(s.seq_ + 1)))
  }

  function EndReload(s: Protocol): Protocol
  {
    var t := s.(reload := None, again := false);
    if s.again then StartReload(t) else t
  }

  predicate AwaitsReload(s: Protocol) { !s.again && s.command.Some? && s.command.value.Reloading? }

  function ReloadFailed(s: Protocol): Protocol
  {
    EndReload(if AwaitsReload(s) then Answered(s, Refused) else s)
  }

  function IntentWritten(s: Protocol): Protocol
  {
    if s.reload.None? && s.deferred then StartReload(s.(deferred := false)) else s
  }

  function StartOrder(s: Protocol, ticket: Ticket, action: Action, closed: bool, lane: Lane): Protocol
  {
    var t := s.(taken := s.taken + [ticket]);
    var n := s.seq_ + 1;
    if closed then t.(dropped := s.dropped + [ticket])
    else if action.Reload? then StartReload(t.(command := Some(Reloading(ticket))))
    else
      match lane
      case Rejected => t.(answers := s.answers + [Reply(ticket, Refused)])
      case Full => t.(seq_ := n, answers := s.answers + [Reply(ticket, Refused)])
      case Closed => t.(seq_ := n, dropped := s.dropped + [ticket], fatal := true)
      case Accepted =>
        t.(seq_ := n, command := Some(if action.Drain? then Persisting(n, action.uplink, action.drain, ticket)
                                      else Forgetting(n, ticket)))
  }

  function DrainWritten(s: Protocol, n: nat, ok: bool): Protocol
  {
    if !(s.command.Some? && s.command.value.Persisting? && s.command.value.seq_ == n) then s
    else if !ok then IntentWritten(Answered(s, StepFailed))
    else
      var c := s.command.value;
      IntentWritten(s.(drained := Changed(s.drained, c.uplink, c.drain), command := Some(Applying(None, c.reply))))
  }

  function ForgetWritten(s: Protocol, n: nat, ok: bool): Protocol
  {
    if !(s.command.Some? && s.command.value.Forgetting? && s.command.value.seq_ == n) then s
    else IntentWritten(Answered(s, if ok then Released else Refused))
  }

  function ReloadValidated(s: Protocol, n: nat, ok: bool): Protocol
  {
    if s.reload != Some(Validating(n)) then s
    else if !ok then ReloadFailed(s)
    else s.(seq_ := s.seq_ + 1, reload := Some(Preparing(s.seq_ + 1)))
  }

  function ApiPrepared(s: Protocol, n: nat, ok: bool, configured: set<UplinkId>, lane: Lane): Protocol
  {
    if s.reload != Some(Preparing(n)) then s
    else if !ok then ReloadFailed(s.(reload := None))
    else
      var t := s.(reload := None, seq_ := s.seq_ + 1);
      match lane
      case Accepted => t.(reload := Some(Binding(s.seq_ + 1, s.drained * configured)))
      case Closed => t.(fatal := true)
      case _ => ReloadFailed(t)
  }

  function ReloadBound(s: Protocol, n: nat, ok: bool): Protocol
  {
    if !(s.reload.Some? && s.reload.value.Binding? && s.reload.value.seq_ == n) then s
    else if !ok then ReloadFailed(s.(reload := None))
    else
      var t := s.(reload := None, drained := s.reload.value.pruned);
      EndReload(if AwaitsReload(s) then t.(command := Some(Applying(None, s.command.value.reply))) else t)
  }

  /** A failed step answers a command that waits for its application. */
  function StepFails(s: Protocol): Protocol
  {
    if s.command.Some? && s.command.value.Applying? then Answered(s, StepFailed) else s
  }

  /** A planned pass: a new generation when the plan changed, then its ending;
      the generation that includes the command's change is its target. */
  function Passed(s: Protocol, changed: bool, end: Ending): Protocol
  {
    Targeted(Ended(Planned(s, changed), end))
  }

  function Planned(s: Protocol, changed: bool): Protocol { if changed then s.(desired := s.desired + 1) else s }

  function Ended(s: Protocol, end: Ending): Protocol
  {
    match end case Settled => s.(applied := s.desired) case Underway => s case Broken => StepFails(s)
  }

  function Targeted(s: Protocol): Protocol
  {
    if s.command.Some? && s.command.value.Applying? && s.command.value.target.None?
    then s.(command := Some(Applying(Some(s.desired), s.command.value.reply)))
    else s
  }

  function CheckCommand(s: Protocol, waited: bool): Protocol
  {
    if !(s.command.Some? && s.command.value.Applying?) then s
    else
      var target := s.command.value.target;
      if target.Some? && s.applied >= target.value then Answered(s, Applied(target.value))
      else if waited then Answered(s, NotYet)
      else s
  }

  /** The drain intent that a job is writing, if any. */
  function Intent(s: Protocol): Option<set<UplinkId>>
  {
    if s.command.Some? && s.command.value.Persisting?
    then Some(Changed(s.drained, s.command.value.uplink, s.command.value.drain))
    else if s.reload.Some? && s.reload.value.Binding? then Some(s.reload.value.pruned)
    else None
  }

  datatype Event =
    | Hangup
    | Order(ticket: Ticket, action: Action, closed: bool, lane: Lane)
    | IntentStored
    | DrainDone(n: nat, ok: bool)
    | ForgetDone(n: nat, ok: bool)
    | Validated(n: nat, ok: bool)
    | Prepared(n: nat, ok: bool, configured: set<UplinkId>, lane: Lane)
    | Bound(n: nat, ok: bool)
    | Failure
    | Pass(changed: bool, end: Ending)
    | Check(waited: bool)

  /** The loop takes an order only while nothing is in progress; a job reports
      success once its intent is stored, and failure only if it is not. */
  predicate Enabled(s: Protocol, e: Event)
  {
    && !s.fatal
    && match e
       case Order(t, _, _, _) => s.command.None? && s.reload.None? && t !in s.taken
       case IntentStored => Intent(s).Some?
       case DrainDone(n, ok) =>
         s.command.Some? && s.command.value.Persisting? && s.command.value.seq_ == n ==>
           s.disk == if ok then Changed(s.drained, s.command.value.uplink, s.command.value.drain) else s.drained
       case Bound(n, ok) =>
         s.reload.Some? && s.reload.value.Binding? && s.reload.value.seq_ == n ==>
           s.disk == if ok then s.reload.value.pruned else s.drained
       case _ => true
  }

  function After(s: Protocol, e: Event): Protocol
  {
    match e
    case Hangup => StartReload(s)
    case Order(t, a, closed, lane) => StartOrder(s, t, a, closed, lane)
    case IntentStored => if Intent(s).Some? then s.(disk := Intent(s).value) else s
    case DrainDone(n, ok) => DrainWritten(s, n, ok)
    case ForgetDone(n, ok) => ForgetWritten(s, n, ok)
    case Validated(n, ok) => ReloadValidated(s, n, ok)
    case Prepared(n, ok, configured, lane) => ApiPrepared(s, n, ok, configured, lane)
    case Bound(n, ok) => ReloadBound(s, n, ok)
    case Failure => StepFails(s)
    case Pass(changed, end) => Passed(s, changed, end)
    case Check(waited) => CheckCommand(s, waited)
  }

  // -------------------------------------------------------------- invariants

  /** Exclusion: a reload never runs beside an intent being written; a deferred
      reload waits for such an intent; a second one follows the first. */
  predicate Exclusive(s: Protocol)
  {
    && (s.reload.Some? ==> !Writing(s.command))
    && (s.deferred ==> Writing(s.command))
    && (s.again ==> s.reload.Some?)
    && (s.command.Some? && s.command.value.Reloading? ==> s.reload.Some?)
  }

  predicate Generations(s: Protocol)
  {
    && s.applied <= s.desired
    && (s.command.Some? && s.command.value.Applying? && s.command.value.target.Some? ==>
          s.command.value.target.value <= s.desired)
  }

  /** The intent on disk is the daemon's, or the one it is writing. */
  predicate Stored(s: Protocol) { s.disk == s.drained || Intent(s) == Some(s.disk) }

  function Tickets(v: seq<Reply>): seq<Ticket> { seq(|v|, i requires 0 <= i < |v| => v[i].ticket) }

  function Slot(s: Protocol): seq<Ticket> { if s.command.Some? then [s.command.value.reply] else [] }

  /** Every order taken is answered, dropped or in progress, exactly once. */
  ghost predicate Accounted(s: Protocol)
  {
    && multiset(s.taken) == multiset(Tickets(s.answers)) + multiset(s.dropped) + multiset(Slot(s))
    && forall t :: multiset(s.taken)[t] <= 1
  }

  ghost predicate Inv(s: Protocol)
  {
    (s.fatal || Exclusive(s)) && Generations(s) && Stored(s) && Accounted(s)
  }

  const START := Protocol(None, None, false, false, 0, 0, 0, {}, {}, [], [], [], false)

  lemma StartInv(drained: set<UplinkId>)
    ensures Inv(START.(drained := drained, disk := drained))
  {
  }

  // ------------------------------------------------------- every step keeps it

  ghost predicate Core(s: Protocol) { Generations(s) && Stored(s) && Accounted(s) }

  lemma TicketsGrow(v: seq<Reply>, r: Reply)
    ensures Tickets(v + [r]) == Tickets(v) + [r.ticket]
  {
  }

  lemma AnsweredKeeps(s: Protocol, a: Answer)
    requires s.command.Some? && Accounted(s)
    ensures Accounted(Answered(s, a))
  {
    TicketsGrow(s.answers, Reply(s.command.value.reply, a));
  }

  /** Exclusion, except that a reload requested by a command may yet start. */
  predicate Quiet(s: Protocol)
  {
    (s.reload.Some? ==> !Writing(s.command)) && (s.deferred ==> Writing(s.command)) && (s.again ==> s.reload.Some?)
  }

  lemma StartReloadExcludes(s: Protocol)
    requires Quiet(s)
    ensures Exclusive(StartReload(s))
  {
  }

  lemma StartReloadCore(s: Protocol)
    requires Core(s)
    ensures Core(StartReload(s))
  {
    hide Accounted, Changed;
    AccountedFrame(s, StartReload(s));
  }

  /** Starting a reload, letting it follow or deferring it. */
  lemma StartReloadKeeps(s: Protocol)
    ensures Quiet(s) ==> Exclusive(StartReload(s))
    ensures StartReload(s).fatal == s.fatal && (Core(s) ==> Core(StartReload(s)))
  {
    hide Quiet, Exclusive, Core;
    if Quiet(s) { StartReloadExcludes(s); }
    if Core(s) { StartReloadCore(s); }
  }

  /** A reload without an unfinished binding ends. */
  predicate Unbound(s: Protocol) { !Writing(s.command) && !s.deferred && s.disk == s.drained && Generations(s) }

  lemma EndReloadKeeps(s: Protocol)
    requires Unbound(s) && Accounted(s) && (!AwaitsReload(s))
    ensures Exclusive(EndReload(s)) && Core(EndReload(s)) && EndReload(s).fatal == s.fatal
  {
    hide Changed, Tickets, StartReload;
    StartReloadKeeps(s.(reload := None, again := false));
  }

  lemma ReloadFailedKeeps(s: Protocol)
    requires Unbound(s) && Accounted(s)
    ensures Exclusive(ReloadFailed(s)) && Core(ReloadFailed(s)) && ReloadFailed(s).fatal == s.fatal
  {
    hide Changed, Tickets, EndReload, Accounted;
    if AwaitsReload(s) {
      AnsweredKeeps(s, Refused);
      EndReloadKeeps(Answered(s, Refused));
    } else {
      EndReloadKeeps(s);
    }
  }

  /** No reload is in progress, and no intent is being written any more. */
  predicate Settling(s: Protocol)
  {
    && !Writing(s.command) && s.reload.None? && !s.again
    && (s.command.Some? ==> !s.command.value.Reloading?)
  }

  /** The deferred reload starts when the intent is written. */
  lemma IntentWrittenKeeps(s: Protocol)
    requires Core(s) && Settling(s)
    ensures Exclusive(IntentWritten(s)) && Core(IntentWritten(s)) && IntentWritten(s).fatal == s.fatal
    ensures s.deferred ==> IntentWritten(s).reload.Some? && IntentWritten(s).reload.value.Validating?
  {
    hide Changed, Tickets, Accounted;
    StartReloadKeeps(s.(deferred := false));
    AccountedFrame(s, s.(deferred := false));
  }

  lemma AccountedFrame(s: Protocol, t: Protocol)
    requires Accounted(s) && t.taken == s.taken && t.dropped == s.dropped && t.answers == s.answers && Slot(t) == Slot(s)
    ensures Accounted(t)
  {
  }

  /** A new order goes to exactly one place. */
  lemma OneMore(s: Protocol, ticket: Ticket, t: Protocol)
    requires Accounted(s) && ticket !in s.taken && s.command.None? && t.taken == s.taken + [ticket]
    requires || (t.answers == s.answers + [Reply(ticket, Refused)] && t.dropped == s.dropped && t.command.None?)
             || (t.answers == s.answers && t.dropped == s.dropped + [ticket] && t.command.None?)
             || (t.answers == s.answers && t.dropped == s.dropped && Slot(t) == [ticket])
    ensures Accounted(t)
  {
    TicketsGrow(s.answers, Reply(ticket, Refused));
    FreshTicket(s.taken, ticket);
    hide Tickets;
  }

  lemma OrderKeeps(s: Protocol, ticket: Ticket, action: Action, closed: bool, lane: Lane)
    requires Inv(s) && Enabled(s, Order(ticket, action, closed, lane))
    ensures Inv(StartOrder(s, ticket, action, closed, lane))
  {
    hide StartReload, Changed, Tickets, Accounted;
    var asked := s.(taken := s.taken + [ticket], command := Some(Reloading(ticket)));
    if !closed && action.Reload? {
      OneMore(s, ticket, asked);
      StartReloadKeeps(asked);
    } else {
      OneMore(s, ticket, StartOrder(s, ticket, action, closed, lane));
    }
  }

  lemma FreshTicket(taken: seq<Ticket>, ticket: Ticket)
    requires ticket !in taken && forall t :: multiset(taken)[t] <= 1
    ensures forall t :: multiset(taken + [ticket])[t] <= 1
  {
    assert multiset(taken + [ticket]) == multiset(taken) + multiset{ticket};
    assert multiset(taken)[ticket] == 0;
  }

  lemma DrainKeeps(s: Protocol, n: nat, ok: bool)
    requires Inv(s) && Enabled(s, DrainDone(n, ok))
    ensures Inv(DrainWritten(s, n, ok))
  {
    hide IntentWritten, Changed, Tickets, Accounted;
    if s.command.Some? && s.command.value.Persisting? && s.command.value.seq_ == n {
      if ok {
        var c := s.command.value;
        var t := s.(drained := Changed(s.drained, c.uplink, c.drain), command := Some(Applying(None, c.reply)));
        AccountedFrame(s, t);
        IntentWrittenKeeps(t);
      } else {
        AnsweredKeeps(s, StepFailed);
        IntentWrittenKeeps(Answered(s, StepFailed));
      }
    }
  }

  lemma ForgetKeeps(s: Protocol, n: nat, ok: bool)
    requires Inv(s) && Enabled(s, ForgetDone(n, ok))
    ensures Inv(ForgetWritten(s, n, ok))
  {
    hide IntentWritten, Changed, Tickets, Accounted;
    if s.command.Some? && s.command.value.Forgetting? && s.command.value.seq_ == n {
      var a := if ok then Released else Refused;
      AnsweredKeeps(s, a);
      IntentWrittenKeeps(Answered(s, a));
    }
  }

  lemma ValidatedKeeps(s: Protocol, n: nat, ok: bool)
    requires Inv(s) && Enabled(s, Validated(n, ok))
    ensures Inv(ReloadValidated(s, n, ok))
  {
    hide ReloadFailed, Changed, Tickets, Accounted;
    if s.reload == Some(Validating(n)) {
      if ok {
        AccountedFrame(s, ReloadValidated(s, n, ok));
      } else {
        ReloadFailedKeeps(s);
      }
    }
  }

  lemma PreparedKeeps(s: Protocol, n: nat, ok: bool, configured: set<UplinkId>, lane: Lane)
    requires Inv(s) && Enabled(s, Prepared(n, ok, configured, lane))
    ensures Inv(ApiPrepared(s, n, ok, configured, lane))
  {
    hide ReloadFailed, Changed, Tickets, Accounted;
    if s.reload == Some(Preparing(n)) {
      var t, u := s.(reload := None), s.(reload := None, seq_ := s.seq_ + 1);
      AccountedFrame(s, t);
      AccountedFrame(s, u);
      ReloadFailedKeeps(t);
      ReloadFailedKeeps(u);
      if ok && (lane.Accepted? || lane.Closed?) {
        AccountedFrame(s, ApiPrepared(s, n, ok, configured, lane));
      }
    }
  }

  lemma BoundKeeps(s: Protocol, n: nat, ok: bool)
    requires Inv(s) && Enabled(s, Bound(n, ok))
    ensures Inv(ReloadBound(s, n, ok))
  {
    hide ReloadFailed, EndReload, Changed, Tickets, Accounted;
    if s.reload.Some? && s.reload.value.Binding? && s.reload.value.seq_ == n {
      if ok {
        var t := s.(reload := None, drained := s.reload.value.pruned);
        var u := if AwaitsReload(s) then t.(command := Some(Applying(None, s.command.value.reply))) else t;
        AccountedFrame(s, u);
        EndReloadKeeps(u);
      } else {
        AccountedFrame(s, s.(reload := None));
        ReloadFailedKeeps(s.(reload := None));
      }
    }
  }

  lemma FailsKeeps(s: Protocol)
    requires Inv(s)
    ensures Inv(StepFails(s))
  {
    hide Changed, Tickets, Accounted;
    if s.command.Some? && s.command.value.Applying? { AnsweredKeeps(s, StepFailed); }
  }

  lemma TargetedKeeps(s: Protocol)
    requires Inv(s)
    ensures Inv(Targeted(s))
  {
    hide Changed, Tickets, Accounted;
    AccountedFrame(s, Targeted(s));
  }

  lemma PlannedKeeps(s: Protocol, changed: bool)
    requires Inv(s)
    ensures Inv(Planned(s, changed))
  {
    hide Changed, Tickets, Accounted;
    AccountedFrame(s, Planned(s, changed));
  }

  lemma EndedKeeps(s: Protocol, end: Ending)
    requires Inv(s)
    ensures Inv(Ended(s, end))
  {
    hide Changed, Tickets, Accounted, StepFails;
    if end.Broken? { FailsKeeps(s); } else { AccountedFrame(s, Ended(s, end)); }
  }

  lemma PassKeeps(s: Protocol, changed: bool, end: Ending)
    requires Inv(s)
    ensures Inv(Passed(s, changed, end))
  {
    hide Inv, Targeted, Planned, Ended;
    PlannedKeeps(s, changed);
    EndedKeeps(Planned(s, changed), end);
    TargetedKeeps(Ended(Planned(s, changed), end));
  }

  lemma CheckKeeps(s: Protocol, waited: bool)
    requires Inv(s)
    ensures Inv(CheckCommand(s, waited))
  {
    hide Changed, Tickets, Accounted;
    if s.command.Some? && s.command.value.Applying? {
      var target := s.command.value.target;
      AnsweredKeeps(s, NotYet);
      if target.Some? { AnsweredKeeps(s, Applied(target.value)); }
    }
  }

  /** Every step keeps the exclusion, the generations, the stored intent and
      the account of the orders. */
  lemma StepKeeps(s: Protocol, e: Event)
    requires Inv(s) && Enabled(s, e)
    ensures Inv(After(s, e))
  {
    match e
    case Hangup => QuietOf(s); StartReloadKeeps(s);
    case Order(t, a, closed, lane) => OrderKeeps(s, t, a, closed, lane);
    case IntentStored => AccountedFrame(s, After(s, e));
    case DrainDone(n, ok) => DrainKeeps(s, n, ok);
    case ForgetDone(n, ok) => ForgetKeeps(s, n, ok);
    case Validated(n, ok) => ValidatedKeeps(s, n, ok);
    case Prepared(n, ok, configured, lane) => PreparedKeeps(s, n, ok, configured, lane);
    case Bound(n, ok) => BoundKeeps(s, n, ok);
    case Failure => FailsKeeps(s);
    case Pass(changed, end) => PassKeeps(s, changed, end);
    case Check(waited) => CheckKeeps(s, waited);
  }

  lemma QuietOf(s: Protocol)
    requires Exclusive(s)
    ensures Quiet(s)
  {
  }

  // -------------------------------------------------------------------- runs

  ghost predicate IsRun(trace: seq<Protocol>, events: seq<Event>)
  {
    && |trace| == |events| + 1 && Inv(trace[0])
    && forall i :: 0 <= i < |events| ==> Enabled(trace[i], events[i]) && trace[i + 1] == After(trace[i], events[i])
  }

  /** The invariant holds in every state of every run. */
  lemma {:induction false} RunInv(trace: seq<Protocol>, events: seq<Event>, i: nat)
    requires IsRun(trace, events) && i < |trace|
    ensures Inv(trace[i])
    decreases i
  {
    hide Inv, Enabled, After;
    if i > 0 {
      RunInv(trace, events, i - 1);
      StepKeeps(trace[i - 1], events[i - 1]);
    }
  }

  /** How often an order was answered. */
  function Times(s: Protocol, t: Ticket): nat { multiset(Tickets(s.answers))[t] }

  /** Each order is answered at most once, and exactly once if it was taken and
      is neither dropped nor in progress. */
  lemma AnsweredOnce(s: Protocol, t: Ticket)
    requires Inv(s)
    ensures Times(s, t) <= 1
    ensures Times(s, t) == 1 <==> t in s.taken && t !in s.dropped && t !in Slot(s)
  {
    hide Tickets, Slot, Exclusive, Generations, Stored;
    assert multiset(s.taken)[t] == Times(s, t) + multiset(s.dropped)[t] + multiset(Slot(s))[t];
    assert (t in s.taken <==> multiset(s.taken)[t] > 0) && (t in s.dropped <==> multiset(s.dropped)[t] > 0)
        && (t in Slot(s) <==> multiset(Slot(s))[t] > 0);
  }

  /** Starting and ending reloads does not touch commands and generations. */
  predicate Same(s: Protocol, t: Protocol)
  {
    && t.command == s.command && t.taken == s.taken && t.dropped == s.dropped && t.answers == s.answers
    && t.desired == s.desired && t.applied == s.applied
  }

  lemma ReloadFrames(s: Protocol)
    ensures Same(s, StartReload(s)) && Same(s, EndReload(s)) && Same(s, IntentWritten(s))
    ensures Same(if AwaitsReload(s) then Answered(s, Refused) else s, ReloadFailed(s))
  {
  }

  /** The command `c` is answered; a success answer names its target. */
  predicate Closes(c: Active, s: Protocol, t: Protocol)
  {
    && t.command.None? && |t.answers| == |s.answers| + 1 && t.answers[..|s.answers|] == s.answers
    && var r := t.answers[|s.answers|];
       && r.ticket == c.reply
       && (r.answer.Applied? ==> c == Applying(Some(r.answer.generation), c.reply) && t.applied >= r.answer.generation)
  }

  /** What a step does to a command: it stays, moves on, or is answered. */
  predicate Moves(s: Protocol, t: Protocol)
    requires s.command.Some?
  {
    var c := s.command.value;
    && t.taken == s.taken && t.dropped == s.dropped
    && (if t.command.None? then Closes(c, s, t)
        else
          && t.answers == s.answers
          && (|| t.command == s.command
              || (t.command == Some(Applying(None, c.reply)) && !c.Applying?)
              || (c == Applying(None, c.reply) && t.command == Some(Applying(Some(t.desired), c.reply)))))
  }

  lemma WritesMove(s: Protocol, e: Event)
    requires s.command.Some? && (e.DrainDone? || e.ForgetDone?)
    ensures Moves(s, After(s, e))
  {
    hide IntentWritten, Changed;
    var c := s.command.value;
    ReloadFrames(Answered(s, StepFailed));
    ReloadFrames(Answered(s, Released));
    ReloadFrames(Answered(s, Refused));
    if c.Persisting? {
      ReloadFrames(s.(drained := Changed(s.drained, c.uplink, c.drain), command := Some(Applying(None, c.reply))));
    }
  }

  lemma ValidatedMoves(s: Protocol, n: nat, ok: bool)
    ensures var t := ReloadValidated(s, n, ok); if s.command.Some? then Moves(s, t) else Same(s, t)
  {
    hide ReloadFailed;
    ReloadFrames(s);
  }

  lemma PreparedMoves(s: Protocol, n: nat, ok: bool, configured: set<UplinkId>, lane: Lane)
    ensures var t := ApiPrepared(s, n, ok, configured, lane); if s.command.Some? then Moves(s, t) else Same(s, t)
  {
    hide ReloadFailed;
    ReloadFrames(s.(reload := None));
    ReloadFrames(s.(reload := None, seq_ := s.seq_ + 1));
  }

  lemma BoundMoves(s: Protocol, n: nat, ok: bool)
    ensures var t := ReloadBound(s, n, ok); if s.command.Some? then Moves(s, t) else Same(s, t)
  {
    hide ReloadFailed, EndReload;
    ReloadFrames(s.(reload := None));
    if s.reload.Some? && s.reload.value.Binding? {
      var u := s.(reload := None, drained := s.reload.value.pruned);
      ReloadFrames(if AwaitsReload(s) then u.(command := Some(Applying(None, s.command.value.reply))) else u);
    }
  }

  lemma OthersMove(s: Protocol, e: Event)
    requires s.command.Some? && (e.Hangup? || e.IntentStored? || e.Failure? || e.Check?)
    ensures Moves(s, After(s, e))
  {
    hide StartReload, Changed;
    ReloadFrames(s);
  }

  lemma PassMoves(s: Protocol, changed: bool, end: Ending)
    requires s.command.Some?
    ensures Moves(s, Passed(s, changed, end))
  {
  }

  lemma StepMoves(s: Protocol, e: Event)
    requires Enabled(s, e) && s.command.Some?
    ensures Moves(s, After(s, e))
  {
    hide Moves;
    match e
    case Order(_, _, _, _) =>
    case DrainDone(_, _) => WritesMove(s, e);
    case ForgetDone(_, _) => WritesMove(s, e);
    case Validated(n, ok) => ValidatedMoves(s, n, ok);
    case Prepared(n, ok, configured, lane) => PreparedMoves(s, n, ok, configured, lane);
    case Bound(n, ok) => BoundMoves(s, n, ok);
    case Pass(changed, end) => PassMoves(s, changed, end);
    case _ => OthersMove(s, e);
  }

  /** The command in progress leaves its slot only by being answered. */
  lemma LeavesAnswered(s: Protocol, e: Event)
    requires Inv(s) && Enabled(s, e) && s.command.Some?
    ensures var t := s.command.value.reply;
            && Times(s, t) == 0
            && (Slot(After(s, e)) == [t] ==> Times(After(s, e), t) == 0)
            && (Slot(After(s, e)) != [t] ==> Slot(After(s, e)) == [] && Times(After(s, e), t) == 1)
  {
    var t, s' := s.command.value.reply, After(s, e);
    StepKeeps(s, e);
    SlotAfter(s, e);
    hide Inv, Enabled, After, Times;
    AnsweredOnce(s, t);
    AnsweredOnce(s', t);
  }

  lemma SlotAfter(s: Protocol, e: Event)
    requires Inv(s) && Enabled(s, e) && s.command.Some?
    ensures var t, s' := s.command.value.reply, After(s, e);
            && (Slot(s') == [t] || Slot(s') == []) && s'.taken == s.taken && s'.dropped == s.dropped
            && t in s.taken && t !in s.dropped
  {
    StepMoves(s, e);
    hide After, Enabled, Tickets;
    var t := s.command.value.reply;
    assert multiset(s.taken)[t] == multiset(Tickets(s.answers))[t] + multiset(s.dropped)[t] + 1;
    assert t in s.taken && t !in s.dropped;
  }

  /** A deferred reload starts with the step that ends the intent it waited for. */
  lemma DeferredStarts(s: Protocol, e: Event)
    requires Inv(s) && Enabled(s, e) && s.deferred
    ensures After(s, e).deferred || After(s, e).reload.Some?
    ensures Writing(After(s, e).command) ==> After(s, e).deferred
  {
    hide Changed, Tickets, Accounted;
  }

  /** After any crash the stored intent is the last one answered for, or the
      one being written. */
  lemma IntentSurvives(trace: seq<Protocol>, events: seq<Event>, i: nat)
    requires IsRun(trace, events) && i < |trace|
    ensures trace[i].disk == trace[i].drained || Intent(trace[i]) == Some(trace[i].disk)
    ensures Intent(trace[i]).None? ==> trace[i].disk == trace[i].drained
  {
    hide Enabled, After, Accounted, Changed;
    RunInv(trace, events, i);
  }

  // ------------------------------------------------ what a success answer means

  /** The pass that made the plan a command waits for. */
  ghost predicate PlannedAt(trace: seq<Protocol>, events: seq<Event>, j: nat, t: Ticket, g: nat)
  {
    && j < |events| && j + 1 < |trace| && events[j].Pass?
    && trace[j].command == Some(Applying(None, t)) && trace[j + 1].desired == g
  }

  /** A command starts without a target, and only a pass sets one. */
  lemma TargetStep(s: Protocol, e: Event, t: Ticket, g: nat)
    requires Enabled(s, e) && After(s, e).command == Some(Applying(Some(g), t))
    ensures || s.command == Some(Applying(Some(g), t))
            || (e.Pass? && s.command == Some(Applying(None, t)) && After(s, e).desired == g)
  {
    if s.command.Some? && !e.Pass? {
      StepMoves(s, e);
      if s.command.value.Applying? && s.command.value.target.None? { OnlyPasses(s, e); }
    } else if s.command.Some? {
      PassMoves(s, e.changed, e.end);
    } else if e.Order? {
      OrderStarts(s, e);
    } else {
      IdleSteps(s, e);
    }
  }

  lemma OnlyPasses(s: Protocol, e: Event)
    requires Enabled(s, e) && s.command.Some? && !e.Pass? && s.command.value == Applying(None, s.command.value.reply)
    ensures After(s, e).command.None? || After(s, e).command == s.command
  {
    hide StartReload, EndReload, IntentWritten, ReloadFailed, Changed;
    match e
    case Order(_, _, _, _) =>
    case Validated(n, ok) => ReloadFrames(s);
    case Prepared(n, ok, configured, lane) =>
      ReloadFrames(s.(reload := None));
      ReloadFrames(s.(reload := None, seq_ := s.seq_ + 1));
    case Bound(n, ok) =>
      ReloadFrames(s.(reload := None));
      if s.reload.Some? && s.reload.value.Binding? {
        ReloadFrames(s.(reload := None, drained := s.reload.value.pruned));
      }
    case _ => ReloadFrames(s);
  }

  /** Without a command in progress, only an order can answer or start one. */
  lemma IdleSteps(s: Protocol, e: Event)
    requires s.command.None? && !e.Order?
    ensures After(s, e).command.None? && After(s, e).answers == s.answers
  {
    match e
    case Validated(n, ok) => ValidatedMoves(s, n, ok);
    case Prepared(n, ok, configured, lane) => PreparedMoves(s, n, ok, configured, lane);
    case Bound(n, ok) => BoundMoves(s, n, ok);
    case _ => ReloadFrames(s);
  }

  lemma OrderStarts(s: Protocol, e: Event)
    requires s.command.None? && e.Order?
    ensures var c, a, b := After(s, e).command, s.answers, After(s, e).answers;
            && (c.None? || !c.value.Applying?)
            && (b == a || b == a + [Reply(e.ticket, Refused)])
  {
    hide StartReload;
    ReloadFrames(s.(taken := s.taken + [e.ticket], command := Some(Reloading(e.ticket))));
  }

  /** The target of a command is the generation of the first plan made after
      its change. */
  lemma {:induction false} TargetPlanned(trace: seq<Protocol>, events: seq<Event>, i: nat, t: Ticket, g: nat)
    returns (j: nat)
    requires IsRun(trace, events) && i < |trace| && trace[0].command.None?
    requires trace[i].command == Some(Applying(Some(g), t))
    ensures j < i && PlannedAt(trace, events, j, t, g)
    decreases i
  {
    hide Inv, Enabled, After;
    TargetStep(trace[i - 1], events[i - 1], t, g);
    if trace[i - 1].command == Some(Applying(Some(g), t)) {
      j := TargetPlanned(trace, events, i - 1, t, g);
    } else {
      j := i - 1;
    }
  }

  /** A success answer: the plan that includes the change was applied. */
  lemma SuccessMeansApplied(trace: seq<Protocol>, events: seq<Event>, i: nat, t: Ticket, g: nat) returns (j: nat)
    requires IsRun(trace, events) && i < |events| && trace[0].command.None?
    requires trace[i + 1].answers == trace[i].answers + [Reply(t, Applied(g))]
    ensures j < i && PlannedAt(trace, events, j, t, g) && trace[i + 1].applied >= g
  {
    SuccessStep(trace[i], events[i], t, g);
    hide Inv, Enabled, After;
    j := TargetPlanned(trace, events, i, t, g);
  }

  lemma SuccessStep(s: Protocol, e: Event, t: Ticket, g: nat)
    requires Enabled(s, e) && After(s, e).answers == s.answers + [Reply(t, Applied(g))]
    ensures s.command == Some(Applying(Some(g), t)) && After(s, e).applied >= g
  {
    var a, b := s.answers, After(s, e).answers;
    assert |b| == |a| + 1 && b[|a|] == Reply(t, Applied(g));
    if s.command.Some? {
      StepMoves(s, e);
    } else if e.Order? {
      OrderStarts(s, e);
    } else {
      IdleSteps(s, e);
    }
  }

  /** What a handler owes its callers: an enabled event keeps the invariant, and a
      command in progress stays, moves on, or is answered, with success only once
      its target is applied. */
  ghost predicate Promised(s: Protocol, e: Event, t: Protocol)
  {
    Inv(s) && Enabled(s, e) ==> Inv(t) && (s.command.Some? ==> Moves(s, t))
  }

  lemma EventPromised(s: Protocol, e: Event)
    ensures Promised(s, e, After(s, e))
  {
    hide Inv, Enabled, After, Moves;
    if Inv(s) && Enabled(s, e) {
      StepKeeps(s, e);
      if s.command.Some? { StepMoves(s, e); }
    }
  }
}
