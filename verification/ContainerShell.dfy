/**
 The shell of a container as the script drives it: fields that the functions of the script assign one
 after the other, proved against the transition function of ShutdownProtocol.
 */
module ContainerShell {
  import opened Wrappers
  import opened ShutdownProtocol

  class BashShell {
    const cfg: Config
    var pc: nat
    var busy: bool
    var status: Status
    var trapped: bool
    var termChildPid: PidVar
    var termKillNeeded: bool
    var errexit: bool
    var pending: bool
    var child: Child
    var marker: bool
    var log: History

    function View(): State
      reads this
    {
      State(pc, busy, status, trapped, termChildPid, termKillNeeded, errexit, pending, child, marker, log)
    }

    constructor (cfg: Config, envPid: PidVar, envKillNeeded: bool, marker: bool)
      ensures this.cfg == cfg && View() == Boot(envPid, envKillNeeded, marker)
    {
      this.cfg := cfg;
      pc, busy, status := 0, false, Running;
      trapped, pending, errexit := false, false, true;
      termChildPid, termKillNeeded := envPid, envKillNeeded;
      child, this.marker, log := NotStarted, marker, History(0, 0, 0, 0, 0);
    }

    /** Everything but the marker is lost. */
    method RestartContainer(envPid: PidVar, envKillNeeded: bool)
      modifies this
      ensures Next(cfg, old(View()), Restart(envPid, envKillNeeded)) == Some(View())
    {
      pc, busy, status := 0, false, Running;
      trapped, pending, errexit := false, false, true;
      termChildPid, termKillNeeded := envPid, envKillNeeded;
      child, log := NotStarted, History(0, 0, 0, 0, 0);
    }

    method DeliverTerm()
      requires status.Running?
      modifies this
      ensures Next(cfg, old(View()), Term) == Some(View())
    {
      if trapped {
        pending := true;
        log := log.(caught := log.caught + 1);
      } else if !cfg.pidOne {
        status := Ended(KilledByTerm);
      }
    }

    method KillChild()
      modifies this
      ensures View() == Kill(old(View()))
    {
      var reached := termChildPid.ChildPid? && child.Alive?;
      log := log.(kills := log.kills + 1);
      if reached {
        log := log.(reached := log.reached + 1);
      }
      if !reached && errexit {
        status := Ended(KillFailed);
      }
    }

    method HandleTermSignal()
      modifies this
      ensures View() == Handler(cfg, old(View()))
    {
      pending := false;
      if termChildPid.Unset? {
        log := log.(early := log.early + 1);
        if cfg.nounset {
          status := Ended(UnboundVariable);
        } else {
          termKillNeeded := true;
        }
      } else {
        log := log.(forwards := log.forwards + 1);
        KillChild();
      }
    }

    method Finish(ok: bool)
      modifies this
      ensures View() == Return(old(View()), ok)
    {
      busy := false;
      if !ok && errexit {
        status := Ended(CommandFailed);
      } else {
        pc := pc + 1;
      }
    }

    method RunCommand(c: Command, ok: bool)
      modifies this
      ensures View() == Complete(old(View()), c, ok)
    {
      match c {
        case Foreground(_) => Finish(ok);
        case RemoveMarker =>
          if ok { marker := false; }
          Finish(ok);
        case MakeWatcherDir =>
          if ok {
            Finish(true);
          } else {
            busy, status := false, Ended(CommandFailed);
          }
        case TouchMarker =>
          if ok { marker := true; }
          Finish(ok);
        case WaitChild => Finish(child.Exited? && ok);
        case TestKillNeeded => KillIfNeeded();
        case UnsetChildPid => RunAssignment(c, ok);
        case UnsetKillNeeded => RunAssignment(c, ok);
        case AssignChildPid => RunAssignment(c, ok);
        case Launch(_) => RunAssignment(c, ok);
        case _ => RunSetting(c, ok);
      }
    }

    method KillIfNeeded()
      modifies this
      ensures forall ok :: View() == Complete(old(View()), TestKillNeeded, ok)
    {
      if termKillNeeded {
        KillChild();
      }
      if status.Running? {
        Finish(true);
      }
    }

    method RunAssignment(c: Command, ghost ok: bool)
      requires c.UnsetChildPid? || c.UnsetKillNeeded? || c.AssignChildPid? || c.Launch?
      modifies this
      ensures View() == Complete(old(View()), c, ok)
    {
      match c {
        case UnsetChildPid => termChildPid := Unset;
        case UnsetKillNeeded => termKillNeeded := false;
        case AssignChildPid => termChildPid := ChildPid;
        case Launch(_) => child := Alive;
      }
      Finish(true);
    }

    method RunSetting(c: Command, ghost ok: bool)
      requires c.Xtrace? || c.TrapTerm? || c.UntrapTerm? || c.ErrexitOff? || c.ErrexitOn?
      modifies this
      ensures View() == Complete(old(View()), c, ok)
    {
      match c {
        case Xtrace(_) =>
        case TrapTerm => trapped := true;
        case UntrapTerm => trapped := false;
        case ErrexitOff => errexit := false;
        case ErrexitOn => errexit := true;
      }
      Finish(true);
    }

    /** One step of the shell; false when it blocks or has ended. */
    method Step(ok: bool) returns (moved: bool)
      modifies this
      ensures Next(cfg, old(View()), Shell(ok)) == if moved then Some(View()) else None
      ensures !moved ==> View() == old(View())
    {
      moved := true;
      if status.Ended? {
        moved := false;
      } else if trapped && pending && !busy {
        HandleTermSignal();
      } else if pc >= |cfg.script| {
        status := Ended(Completed);
      } else if Blocking(cfg.script[pc]) && !busy {
        busy := true;
      } else if cfg.script[pc].WaitChild? && !(child.Exited? || (trapped && pending)) {
        moved := false;
      } else {
        RunCommand(cfg.script[pc], ok);
      }
    }

    /** Lets the shell run until it has ended or blocks on its child; exits gives the status of each step. */
    method RunUntilBlocked(exits: nat -> bool) returns (ghost events: seq<Event>)
      requires InScript(cfg, View())
      modifies this
      ensures Run(cfg, old(View()), events) == Some(View())
      ensures forall i :: 0 <= i < |events| ==> events[i] == Shell(exits(i))
      ensures status.Ended? || (pc < |cfg.script| && cfg.script[pc] == WaitChild && !child.Exited?)
    {
      events := [];
      var n, moved := 0, true;
      while moved
        invariant InScript(cfg, View()) && |events| == n
        invariant Run(cfg, old(View()), events) == Some(View())
        invariant forall i :: 0 <= i < |events| ==> events[i] == Shell(exits(i))
        invariant !moved ==> Next(cfg, View(), Shell(exits(n))) == None
        decreases moved, Remaining(cfg, View()), View().pending
      {
        ghost var before := View();
        moved := Step(exits(n));
        if moved {
          StepProgresses(cfg, before, exits(n));
          RunExtends(cfg, old(View()), events, Shell(exits(n)));
          events := events + [Shell(exits(n))];
          n := n + 1;
        }
      }
    }
  }

  ghost predicate InScript(cfg: Config, s: State) {
    s.pc <= |cfg.script| && (s.busy ==> s.pc < |cfg.script|)
  }

  lemma StepProgresses(cfg: Config, s: State, ok: bool)
    requires InScript(cfg, s) && Next(cfg, s, Shell(ok)).Some?
    ensures
      var s' := Next(cfg, s, Shell(ok)).value;
      && InScript(cfg, s')
      && 0 <= Remaining(cfg, s) && Remaining(cfg, s') <= Remaining(cfg, s)
      && (Remaining(cfg, s') == Remaining(cfg, s) ==> s.pending && !s'.pending)
  {
    StepShrinks(cfg, s, Shell(ok));
    if HandlerDue(s) {
      HandlerStays(cfg, s);
    } else if s.pc < |cfg.script| && (s.busy || !Blocking(cfg.script[s.pc])) {
      CommandMovesOn(s, cfg.script[s.pc], ok);
    }
  }
}
