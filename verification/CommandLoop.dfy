/** The daemon's command and reload fields, updated in place by the methods of
    crates/polywan/src/daemon.rs. */
module CommandLoop {
  import opened Model
  import opened Commands

  class Orders {
    var command: Option<Active>
    var reload: Option<Phase>
    var again: bool
    var deferred: bool
    var lastSeq: nat
    var desired: nat
    var applied: nat
    var drained: set<UplinkId>
    var disk: set<UplinkId>
    var taken: seq<Ticket>
    var dropped: seq<Ticket>
    var answers: seq<Reply>
    var fatal: bool

    function Now(): Protocol
      reads this
    {
      Protocol(command, reload, again, deferred, lastSeq, desired, applied, drained, disk, taken, dropped, answers, fatal)
    }

    constructor (stored: set<UplinkId>)
      ensures Now() == START.(drained := stored, disk := stored) && Inv(Now())
    {
      command, reload, again, deferred, lastSeq, desired, applied := None, None, false, false, 0, 0, 0;
      drained, disk, taken, dropped, answers, fatal := stored, stored, [], [], [], false;
      new;
      StartInv(stored);
    }

    method Send(ticket: Ticket, a: Answer)
      modifies this
      ensures Now() == old(Now()).(answers := old(answers) + [Reply(ticket, a)])
    {
      answers := answers + [Reply(ticket, a)];
    }

    method BeginReload()
      modifies this
      ensures Now() == StartReload(old(Now()))
      ensures old(Quiet(Now())) ==> Exclusive(Now())
      ensures old(Core(Now())) ==> Core(Now())
      ensures Same(old(Now()), Now()) && (reload.Some? || deferred)
      ensures Promised(old(Now()), Hangup, Now())
    {
      hide Core, Promised;
      EventPromised(Now(), Hangup);
      StartReloadKeeps(Now());
      ReloadFrames(Now());
      if reload.Some? {
        again := true;
        return;
      }
      if Writing(command) {
        deferred := true;
        return;
      }
      lastSeq := lastSeq + 1;
      reload := Some(Validating(lastSeq));
    }

    method FinishReload()
      modifies this
      ensures Now() == EndReload(old(Now()))
      ensures old(Unbound(Now()) && Accounted(Now()) && !AwaitsReload(Now())) ==>
                Exclusive(Now()) && Core(Now()) && (reload.Some? <==> old(again))
      ensures Same(old(Now()), Now())
    {
      hide StartReload;
      if Unbound(Now()) && Accounted(Now()) && !AwaitsReload(Now()) { EndReloadKeeps(Now()); }
      ReloadFrames(Now());
      reload := None;
      var follow := again;
      again := false;
      if follow {
        BeginReload();
      }
    }

    method FailReload()
      modifies this
      ensures Now() == ReloadFailed(old(Now()))
      ensures old(Unbound(Now()) && Accounted(Now())) ==> Exclusive(Now()) && Core(Now())
      ensures old(AwaitsReload(Now())) ==>
                command.None? && answers == old(answers) + [Reply(old(command).value.reply, Refused)]
      ensures !old(AwaitsReload(Now())) ==> Same(old(Now()), Now())
    {
      hide EndReload;
      if Unbound(Now()) && Accounted(Now()) { ReloadFailedKeeps(Now()); }
      ReloadFrames(Now());
      if !again && command.Some? && command.value.Reloading? {
        var reply := command.value.reply;
        command := None;
        Send(reply, Refused);
      }
      FinishReload();
    }

    method IntentDone()
      modifies this
      ensures Now() == IntentWritten(old(Now()))
      ensures old(Core(Now()) && Settling(Now())) ==> Exclusive(Now()) && Core(Now()) && (reload.Some? <==> old(deferred))
      ensures Same(old(Now()), Now())
    {
      hide StartReload;
      if Core(Now()) && Settling(Now()) { IntentWrittenKeeps(Now()); }
      ReloadFrames(Now());
      if reload.None? && deferred {
        deferred := false;
        BeginReload();
      }
    }

    /** An order of the control socket. */
    method Take(ticket: Ticket, action: Action, closed: bool, lane: Lane)
      requires command.None? && reload.None?
      modifies this
      ensures Now() == StartOrder(old(Now()), ticket, action, closed, lane)
      ensures Promised(old(Now()), Order(ticket, action, closed, lane), Now())
    {
      hide StartReload, Promised;
      EventPromised(Now(), Order(ticket, action, closed, lane));
      taken := taken + [ticket];
      if closed {
        dropped := dropped + [ticket];
      } else if action.Reload? {
        command := Some(Reloading(ticket));
        BeginReload();
      } else if lane.Rejected? {
        Send(ticket, Refused);
      } else {
        lastSeq := lastSeq + 1;
        if lane.Full? {
          Send(ticket, Refused);
        } else if lane.Closed? {
          dropped := dropped + [ticket];
          fatal := true;
        } else {
          command := Some(if action.Drain? then Persisting(lastSeq, action.uplink, action.drain, ticket)
                          else Forgetting(lastSeq, ticket));
        }
      }
    }

    /** The drain intent was written, or not. */
    method Drained(n: nat, ok: bool)
      modifies this
      ensures Now() == DrainWritten(old(Now()), n, ok)
      ensures Promised(old(Now()), DrainDone(n, ok), Now())
    {
      hide IntentWritten, Promised;
      EventPromised(Now(), DrainDone(n, ok));
      if command.Some? && command.value.Persisting? && command.value.seq_ == n {
        var c := command.value;
        if ok {
          drained := if c.drain then drained + {c.uplink} else drained - {c.uplink};
          command := Some(Applying(None, c.reply));
        } else {
          command := None;
          Send(c.reply, StepFailed);
        }
        IntentDone();
      }
    }

    method Forgotten(n: nat, ok: bool)
      modifies this
      ensures Now() == ForgetWritten(old(Now()), n, ok)
      ensures Promised(old(Now()), ForgetDone(n, ok), Now())
    {
      hide IntentWritten, Promised;
      EventPromised(Now(), ForgetDone(n, ok));
      if command.Some? && command.value.Forgetting? && command.value.seq_ == n {
        var reply := command.value.reply;
        command := None;
        Send(reply, if ok then Released else Refused);
        IntentDone();
      }
    }

    method Validate(n: nat, ok: bool)
      modifies this
      ensures Now() == ReloadValidated(old(Now()), n, ok)
      ensures Promised(old(Now()), Validated(n, ok), Now())
    {
      hide ReloadFailed, Promised;
      EventPromised(Now(), Validated(n, ok));
      if reload != Some(Validating(n)) {
        return;
      }
      if !ok {
        FailReload();
        return;
      }
      lastSeq := lastSeq + 1;
      reload := Some(Preparing(lastSeq));
    }

    /** The listeners are prepared: the manifest binding follows, with the
        drain intent of removed uplinks pruned. */
    method Prepare(n: nat, ok: bool, configured: set<UplinkId>, lane: Lane)
      modifies this
      ensures Now() == ApiPrepared(old(Now()), n, ok, configured, lane)
      ensures Promised(old(Now()), Prepared(n, ok, configured, lane), Now())
    {
      hide ReloadFailed, Promised;
      EventPromised(Now(), Prepared(n, ok, configured, lane));
      if reload != Some(Preparing(n)) {
        return;
      }
      reload := None;
      if !ok {
        FailReload();
        return;
      }
      lastSeq := lastSeq + 1;
      match lane {
        case Accepted => reload := Some(Binding(lastSeq, drained * configured));
        case Closed => fatal := true;
        case _ => FailReload();
      }
    }

    /** The manifest and the drain intent are written: the reload commits. */
    method Bind(n: nat, ok: bool)
      modifies this
      ensures Now() == ReloadBound(old(Now()), n, ok)
      ensures Promised(old(Now()), Bound(n, ok), Now())
    {
      hide ReloadFailed, EndReload, Promised;
      EventPromised(Now(), Bound(n, ok));
      if reload.Some? && reload.value.Binding? && reload.value.seq_ == n {
        var pruned := reload.value.pruned;
        reload := None;
        if ok {
          drained := pruned;
          if !again && command.Some? && command.value.Reloading? {
            command := Some(Applying(None, command.value.reply));
          }
          FinishReload();
        } else {
          FailReload();
        }
      }
    }

    method Fail()
      modifies this
      ensures Now() == StepFails(old(Now()))
      ensures Promised(old(Now()), Failure, Now())
    {
      hide Promised;
      EventPromised(Now(), Failure);
      if command.Some? && command.value.Applying? {
        var reply := command.value.reply;
        command := None;
        Send(reply, StepFailed);
      }
    }

    /** A planned pass of the loop. */
    method PassDone(changed: bool, end: Ending)
      modifies this
      ensures Now() == Passed(old(Now()), changed, end)
      ensures Promised(old(Now()), Pass(changed, end), Now())
    {
      hide StepFails, Promised;
      EventPromised(Now(), Pass(changed, end));
      if changed {
        desired := desired + 1;
      }
      match end {
        case Settled => applied := desired;
        case Underway =>
        case Broken => Fail();
      }
      if command.Some? && command.value.Applying? && command.value.target.None? {
        command := Some(Applying(Some(desired), command.value.reply));
      }
    }

    /** Answers the command in progress once applied, or once it waited too
        long. */
    method CheckAnswer(waited: bool)
      modifies this
      ensures Now() == CheckCommand(old(Now()), waited)
      ensures Promised(old(Now()), Check(waited), Now())
    {
      hide Promised;
      EventPromised(Now(), Check(waited));
      if command.Some? && command.value.Applying? {
        var c := command.value;
        var done := c.target.Some? && applied >= c.target.value;
        if done || waited {
          command := None;
          Send(c.reply, if done then Applied(c.target.value) else NotYet);
        }
      }
    }
  }
}
