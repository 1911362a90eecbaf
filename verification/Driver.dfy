/**
 `FOSCliDriver` with its fields updated in place, around a terminal and a commander. Every
 method is proved equal to the function of the same name in DriverSpec or Login. `Consistent()` ties
 the commander object and the login fields to what their own event logs make of them; `Valid()`, which
 holds between turns, says as well that every byte is accounted for across the layers.
 */
module Driver {
  import opened Text
  import opened CliCommands
  import opened DriverSpec
  import opened TerminalSpec
  import CS = CommanderSpec
  import CL = CommanderLedger
  import I = CommanderInvariant
  import L = Login
  import D = DriverTheorems
  import Commander
  import Terminal

  class FOSCliDriver {
    const setup: Setup
    const terminal: Terminal.TerminalBuffer
    const commander: Commander.FOSCommander

    var progress: L.Progress
    var detour: L.Detour
    var active: L.Credentials
    var replies: seq<string>
    var failed: bool

    var current: CliState
    var lastKnown: CliState
    var unknown: bool
    var newlines: nat

    ghost var logins: seq<L.LoginEvent>
    ghost var events: seq<CS.Event>

    ghost function Login(): L.Login
      reads this
    {
      L.Login(progress, detour, active, replies, failed)
    }

    ghost function Model(): DriverSpec.Driver
      reads this, terminal
    {
      DriverSpec.Driver(terminal.Model(), current, lastKnown, unknown, newlines, logins, events)
    }

    ghost predicate Consistent()
      reads this, terminal, commander
    {
      && setup.Valid() && terminal.Valid() && commander.Valid()
      && commander.Model() == DriverSpec.Commander(setup, Model())
      && Login() == Conversation(setup, Model())
    }

    ghost predicate Valid()
      reads this, terminal, commander
    {
      Consistent() && D.Balanced(setup, Model()) && D.Alive(setup, Model())
    }

    constructor (setup: Setup, limit: nat)
      requires setup.Valid()
      ensures Valid() && this.setup == setup && Model() == Boot(limit)
      ensures fresh(terminal) && fresh(commander)
    {
      hide I.Inv, Conserves, CL.WrittenBy, D.Balanced, D.Alive;
      this.setup := setup;
      terminal := new Terminal.TerminalBuffer(limit);
      var c := new Commander.FOSCommander(setup.env, setup.continueOnError);
      c.Start(setup.features);
      commander := c;
      progress := L.Progress(true, false, false, false, false);
      detour := L.Detour(None, false, false, false, 0);
      active, replies, failed := setup.credentials, [], false;
      current, lastKnown, unknown, newlines := Unknown, Unknown, false, 0;
      logins, events := [], [];
      new;
      D.BootBalanced(setup, limit);
    }

    // ----- the login conversation

    method Respond(text: string)
      modifies this`replies
      ensures Login() == L.Respond(old(Login()), text)
    {
      replies := replies + [text + "\r"];
    }

    method ProvideUsername()
      modifies this`progress, this`replies
      ensures Login() == L.ProvideUsername(old(Login()))
    {
      var username := active.username;
      if detour.inUse && detour.previous.Some? {
        username := detour.previous.value.username;
      }
      progress := progress.(awaitingAcceptance := true);
      Respond(username);
    }

    method ProvidePassword()
      modifies this`progress, this`active, this`replies
      ensures Login() == L.ProvidePassword(old(Login()))
    {
      if progress.sendBlank {
        progress := progress.(sendBlank := false, blankAvailable := false);
        active := active.(password := "");
        Respond("");
        return;
      }
      if detour.inUse && detour.previous.Some? {
        Respond(detour.previous.value.password);
        return;
      }
      Respond(active.password);
    }

    method ConfirmNewPassword()
      modifies this`progress, this`replies
      ensures Login() == L.ConfirmNewPassword(setup.config, old(Login()))
    {
      Respond(setup.config.bootstrap.password);
      progress := progress.(pendingActivation := true);
    }

    method ActivatePending()
      modifies this`progress, this`active
      ensures Login() == L.ActivatePending(setup.config, old(Login()))
    {
      if progress.pendingActivation {
        active := setup.config.bootstrap;
        progress := progress.(pendingActivation := false);
      }
    }

    method AcceptLogin()
      modifies this`progress, this`detour, this`active
      ensures Login() == L.AcceptLogin(setup.config, old(Login()))
    {
      progress := progress.(loginComplete := true, awaitingAcceptance := false);
      if detour.inUse && detour.previous.Some? {
        detour := detour.(inUse := false, attempted := false);
        if !detour.pending {
          detour := detour.(errors := detour.errors + 1);
        }
        detour := detour.(pending := true);
      } else if detour.previous.Some? {
        detour := detour.(attempted := false);
        if detour.pending {
          detour := detour.(errors := 0, pending := false);
        }
      }
      ActivatePending();
    }

    method CommandPrompt()
      modifies this`progress, this`detour, this`active
      ensures Login() == L.CommandPrompt(setup.config, old(Login()))
    {
      if progress.awaitingAcceptance {
        AcceptLogin();
      } else {
        progress := progress.(loginComplete := true);
        ActivatePending();
      }
    }

    method Rejected()
      modifies this`progress, this`detour, this`failed
      ensures Login() == L.Rejected(setup.config, old(Login()))
    {
      progress := progress.(pendingActivation := false);
      if !progress.loginComplete && progress.blankAvailable {
        progress := progress.(sendBlank := true);
        return;
      }
      if setup.config.allowRecovery && detour.previous.Some? && !detour.attempted {
        detour := detour.(attempted := true, inUse := true);
        return;
      }
      if detour.inUse {
        detour := detour.(inUse := false);
        return;
      }
      failed := true;
    }

    method SwitchTo(desired: L.Credentials)
      modifies this`detour, this`active
      ensures Login() == L.SwitchTo(old(Login()), desired)
    {
      if detour.previous.None? && !detour.attempted {
        detour := detour.(previous := Some(active));
      }
      active := desired;
    }

    /** The conversation takes in one event; the rest of the driver is not touched. */
    method See(e: L.LoginEvent)
      requires Consistent()
      modifies this`progress, this`detour, this`active, this`replies, this`failed, this`logins
      ensures Consistent() && Model() == DriverSpec.See(old(Model()), e)
    {
      hide I.Inv, Conserves, CL.WrittenBy, CS.Run, L.LoginRun, L.ProvideUsername, L.ProvidePassword,
           L.ConfirmNewPassword, L.AcceptLogin,
           L.CommandPrompt,
           L.Rejected, L.SwitchTo;
      D.SeeStep(setup, Model(), e);
      logins := logins + [e];
      if failed {
        return;
      }
      match e {
        case Switched(desired) => SwitchTo(desired);
        case Prodded => Respond("");
        case Seen(state) =>
          match state {
            case ProvideUsername => ProvideUsername();
            case ProvidePassword => ProvidePassword();
            case CurrentPassword => Respond(active.password);
            case ChangePassword => Respond(setup.config.bootstrap.password);
            case ChangePasswordConfirm => ConfirmNewPassword();
            case MorePrompt => replies := replies + [" "];
            case CredentialAccepted => AcceptLogin();
            case CmdPrompt => CommandPrompt();
            case CredentialRejected => Rejected();
            case _ =>
          }
      }
    }

    // ----- one pass of the loop

    method Tell(e: CS.Event)
      requires Consistent()
      modifies this`events, commander
      ensures Consistent() && Model() == DriverSpec.Tell(old(Model()), e)
      ensures commander.written != old(commander.written) ==> CL.MayWrite(e)
    {
      hide I.Inv, Conserves, CL.WrittenBy, CS.Run, CS.Step, L.LoginRun;
      D.TellNext(setup, Model(), e);
      commander.Handle(e);
      events := events + [e];
    }

    method Switch(switch: Option<L.Credentials>)
      requires Consistent()
      modifies this`progress, this`detour, this`active, this`replies, this`failed, this`logins
      ensures Consistent() && Model() == DriverSpec.Switch(old(Model()), switch)
    {
      hide I.Inv, Conserves, CL.WrittenBy, CS.Run, L.LoginRun;
      if switch.Some? {
        See(L.Switched(switch.value));
      }
    }

    method RecoverUnknownStall(stalled: bool)
      requires Consistent()
      modifies this, commander
      ensures Consistent() && Model() == DriverSpec.RecoverUnknownStall(old(Model()), stalled)
    {
      hide I.Inv, Conserves, CL.WrittenBy, CS.Run, CS.Step, L.LoginRun, L.LoginStep;
      if unknown && stalled {
        if newlines >= UNKNOWN_STALL_NEWLINE_LIMIT {
          Tell(CS.Thrown);
        } else {
          newlines := newlines + 1;
          See(L.Prodded);
        }
      }
    }

    method RunHandler(state: CliState, stalled: bool)
      requires Consistent()
      modifies this, commander
      ensures Consistent() && Model() == DriverSpec.RunHandler(setup, old(Model()), state, stalled)
    {
      hide I.Inv, Conserves, CL.WrittenBy, CS.Run, CS.Step, L.LoginRun, L.LoginStep,
           DriverSpec.RecoverUnknownStall;
      match state {
        case TnTimeout => RecoverUnknownStall(stalled);
        case KernelPanic =>
          Tell(CS.Thrown);
        case _ =>
          See(L.Seen(state));
          if failed {
            Tell(CS.Thrown);
          }
      }
    }

    method ProcessState(state: CliState, data: seq<byte>, turn: Turn)
      requires Consistent()
      modifies this, commander
      ensures Consistent() && Model() == DriverSpec.ProcessState(setup, old(Model()), state, data, turn)
    {
      hide I.Inv, Conserves, CL.WrittenBy, CS.Run, CS.Step, L.LoginRun, L.LoginStep, DriverSpec.RunHandler,
           DriverSpec.Switch;
      if state == CmdPrompt {
        RunHandler(state, turn.stalled);
        Tell(CS.StateSeen(state, data));
        Switch(turn.switch);
        Tell(CS.Ticked);
        return;
      }
      if state == CmdPromptEcho {
        Tell(CS.EchoSeen(data));
      } else {
        Tell(CS.StateSeen(state, data));
      }
      Switch(turn.switch);
      if commander.status.raised {
        return;
      }
      RunHandler(state, turn.stalled);
      if state == TnTimeout && lastKnown == CmdPrompt {
        Idle();
      }
    }

    /** A read timed out at a known prompt. */
    method Idle()
      requires Consistent()
      modifies this`events, commander
      ensures Consistent()
      ensures Model() == DriverSpec.Tell(DriverSpec.Tell(old(Model()), CS.Ticked), CS.IdlePrompt)
    {
      hide I.Inv, Conserves, CL.WrittenBy, CS.Run, CS.Step, L.LoginRun;
      Tell(CS.Ticked);
      Tell(CS.IdlePrompt);
    }

    method Record(state: CliState)
      requires Consistent()
      modifies this`current, this`lastKnown, this`unknown, this`newlines
      ensures Consistent() && Model() == DriverSpec.Record(old(Model()), state)
    {
      hide I.Inv, Conserves, CL.WrittenBy, CS.Run, L.LoginRun;
      current := state;
      if state != Unknown && state != TnTimeout {
        lastKnown := state;
        unknown, newlines := false, 0;
      }
    }

    method OfferOutput(state: CliState, data: seq<byte>, retained: bool)
      requires Consistent() && !commander.status.raised
      modifies this`unknown, this`events, terminal, commander
      ensures Consistent() && Model() == DriverSpec.OfferOutput(setup, old(Model()), state, data, retained)
    {
      hide I.Inv, Conserves, CL.WrittenBy, CS.Run, L.LoginRun, CS.OnOutput, CS.Taken, D.T.ConsumedBytes;
      if data == [] {
        return;
      }
      D.TellNext(setup, Model(), CS.OutputArrived(data, retained));
      var taken := commander.OnOutput(data, retained);
      events := events + [CS.OutputArrived(data, retained)];
      if retained {
        terminal.DiscardPrefix(taken);
      }
      if state == Unknown && !commander.status.raised {
        unknown := true;
      }
    }

    method Unmatched(state: CliState, data: seq<byte>, retained: bool, turn: Turn)
      requires Consistent() && !commander.status.raised
      modifies this, terminal, commander
      ensures Consistent() && Model() == DriverSpec.Unmatched(setup, old(Model()), state, data, retained, turn)
    {
      hide I.Inv, Conserves, CL.WrittenBy, CS.Run, L.LoginRun, DriverSpec.ProcessState, DriverSpec.OfferOutput;
      current := state;
      OfferOutput(state, data, retained);
      if commander.status.raised {
        return;
      }
      Record(state);
      ProcessState(state, [], turn);
    }

    method Pass(turn: Turn)
      requires Consistent() && !commander.status.raised
      modifies this, terminal, commander
      ensures Consistent() && Model() == DriverSpec.Pass(setup, old(Model()), turn)
    {
      hide I.Inv, Conserves, CL.WrittenBy, CS.Run, L.LoginRun, DriverSpec.ProcessState, DriverSpec.Unmatched, Expect;
      ExpectIndex(terminal.Model(), setup.patterns, turn.arrivals);
      var outcome := terminal.Expect(setup.patterns, turn.arrivals);
      match outcome {
        case Overflow => Tell(CS.Thrown);
        case ReaderFailed => Tell(CS.Thrown);
        case TimedOut(data, news) =>
          Unmatched(if news then Unknown else TnTimeout, data, true, turn);
        case Matched(index, data, stable) =>
          if stable {
            Record(STATES[index]);
            ProcessState(STATES[index], data, turn);
          } else {
            Unmatched(if data != [] then Unknown else TnTimeout, data, false, turn);
          }
      }
    }

    /**
     One turn of the loop, and the launcher's reaction if an exception leaves it. What the terminal received
     only grows, and everything that left its buffer has reached the commander.
     */
    method TakeTurn(turn: Turn)
      requires Valid()
      modifies this, terminal, commander
      ensures Valid() && Model() == DriverSpec.TakeTurn(setup, old(Model()), turn)
      ensures old(terminal.received) <= terminal.received
      ensures Concat(terminal.consumed) == D.T.ConsumedBytes(commander.trace)
    {
      hide I.Inv, Conserves, CL.WrittenBy, CS.Run, L.LoginRun, DriverSpec.Pass, D.Balanced, D.Alive,
           DriverSpec.TakeTurn;
      D.HappenStep(setup, Model(), Spun(turn));
      D.ReceivedGrows(setup, Model(), turn);
      SpinOnce(turn);
      BalancedInput(setup, Model());
    }

    method SpinOnce(turn: Turn)
      requires Consistent()
      modifies this, terminal, commander
      ensures Consistent() && Model() == DriverSpec.TakeTurn(setup, old(Model()), turn)
    {
      hide I.Inv, Conserves, CL.WrittenBy, CS.Run, L.LoginRun, DriverSpec.Pass;
      if commander.status.raised || commander.queue.ready {
        return;
      }
      Pass(turn);
      if commander.queue.ready {
        terminal.Close();
      }
      if commander.status.raised {
        var atPrompt := current == CmdPrompt || (current == TnTimeout && lastKnown == CmdPrompt);
        Tell(CS.Escaped(atPrompt));
      }
    }

    /** A file watcher hands the commander more features. */
    method HandFeatures(features: seq<CS.Feature>)
      requires Valid()
      modifies this`events, commander
      ensures Valid() && Model() == Happen(setup, old(Model()), Watched(features))
      ensures commander.written == old(commander.written)
    {
      hide I.Inv, Conserves, CL.WrittenBy, CS.Run, L.LoginRun, D.Balanced, D.Alive, CS.Step;
      D.HappenStep(setup, Model(), Watched(features));
      Tell(CS.Enqueue(features));
    }
  }

  lemma BalancedInput(u: Setup, d: DriverSpec.Driver)
    requires D.Balanced(u, d)
    ensures Concat(d.stream.consumed) == D.T.ConsumedBytes(DriverSpec.Commander(u, d).trace)
  {
    hide I.Inv, Conserves, CL.WrittenBy, CS.Run, D.T.ConsumedBytes;
  }

  /** A whole run of the driver object: what it leaves behind is what `DriverRun` describes. */
  method Operate(setup: Setup, limit: nat, happenings: seq<Happening>) returns (driver: FOSCliDriver)
    requires setup.Valid()
    ensures driver.Valid() && driver.setup == setup && driver.Model() == DriverRun(setup, limit, happenings)
    ensures driver.terminal.received == Weave(driver.terminal.consumed, driver.terminal.lost) + driver.terminal.buffer
    ensures Concat(driver.terminal.consumed) == D.T.ConsumedBytes(driver.commander.trace)
  {
    hide I.Inv, CL.WrittenBy, CS.Run, L.LoginRun, TakeTurn, D.T.ConsumedBytes, D.Balanced, D.Alive, Weave;
    driver := new FOSCliDriver(setup, limit);
    for i := 0 to |happenings|
      invariant fresh(driver) && fresh(driver.terminal) && fresh(driver.commander)
      invariant driver.Valid() && driver.setup == setup
      invariant driver.Model() == DriverRun(setup, limit, happenings[..i])
    {
      assert happenings[..i + 1][..i] == happenings[..i];
      match happenings[i] {
        case Spun(turn) => driver.TakeTurn(turn);
        case Watched(features) => driver.HandFeatures(features);
      }
    }
    assert happenings[..|happenings|] == happenings;
    BalancedInput(setup, driver.Model());
  }
}
