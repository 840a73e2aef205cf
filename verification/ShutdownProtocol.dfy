/**
 The container start script and its shutdown protocol (internal/controller/common/statefulset.go).

 The script is data: a sequence of commands, built per role as the operator builds its text.  A run is
 a sequence of events: a TERM delivered to the shell, the exit of the background child, one step of
 the shell, or a restart of the container.  Signals follow section 2.11 of POSIX.1-2017, Shell Command
 Language: a trapped TERM waits for the foreground command in progress, except that it ends a `wait`.
 */
module ShutdownProtocol {
  import opened Wrappers
  import opened RoleNames

  datatype Command =
    | Foreground(text: string)      // an external command; the shell blocks until it returns
    | Xtrace(on: bool)
    | UnsetChildPid
    | UnsetKillNeeded
    | TrapTerm
    | RemoveMarker                  // rm -rf of the shutdown file
    | Launch(text: string)          // a background command
    | ErrexitOff
    | AssignChildPid
    | TestKillNeeded                // if [[ -v term_kill_needed ]]; then kill ...; fi
    | WaitChild
    | UntrapTerm
    | ErrexitOn
    | MakeWatcherDir
    | TouchMarker

  const SETUP :=
    [Foreground("mkdir app config"), Foreground("mkdir home"), Foreground("cp app config"), Foreground("cp home")]

  const LEAVE_MARKER := [MakeWatcherDir, TouchMarker]

  const PREPARE_SIGNAL_HANDLERS := [UnsetChildPid, UnsetKillNeeded, TrapTerm]

  const WAIT_FOR_TERMINATION :=
    [ErrexitOff, AssignChildPid, TestKillNeeded, WaitChild, UntrapTerm, WaitChild, ErrexitOn]

  function MainCommand(roleName: string): Result<seq<Command>> {
    if roleName == WEBSERVERS then
      Success([Launch("airflow webserver")])
    else if roleName == SCHEDULERS then
      Success([Foreground("airflow db init"), Foreground("airflow db upgrade"), Xtrace(false),
               Foreground("airflow users create"), Xtrace(true), Launch("airflow scheduler")])
    else if roleName == CELERY_EXECUTORS then
      Success([Launch("airflow celery worker")])
    else
      Failure("unsupported role " + roleName)
  }

  function GetMainContainerArgs(roleName: string): Result<seq<Command>> {
    match MainCommand(roleName)
    case Failure(error) => Failure(error)
    case Success(mainCommand) =>
      Success(SETUP
              + PREPARE_SIGNAL_HANDLERS
              + [RemoveMarker]
              + mainCommand
              + WAIT_FOR_TERMINATION
              + LEAVE_MARKER)
  }

  const METRIC_CONTAINER_ARGS := PREPARE_SIGNAL_HANDLERS + [Launch("statsd-exporter")] + WAIT_FOR_TERMINATION

  // ---------- States and events ----------

  // The variable term_child_pid.  The container environment may define it, so it starts with any value.
  datatype PidVar = Unset | Foreign | ChildPid

  datatype Child = NotStarted | Alive | Exited

  datatype Cause = Completed | UnboundVariable | CommandFailed | KillFailed | KilledByTerm

  datatype Status = Running | Ended(cause: Cause)

  /** What has happened since the container started. */
  datatype History = History(
    caught: nat,       // TERMs that arrived while the trap was set
    early: nat,        // handler runs that found no child pid
    forwards: nat,     // handler runs that found the child pid
    kills: nat,        // kill commands run
    reached: nat)      // those of them that reached a living child

  datatype State = State(
    pc: nat,
    busy: bool,        // the shell is inside the blocking command at pc
    status: Status,
    trapped: bool,
    pid: PidVar,
    killNeeded: bool,
    errexit: bool,
    pending: bool,     // a trapped TERM waits for its handler; several coalesce
    child: Child,
    marker: bool,      // the shutdown file exists
    log: History)

  /** `nounset` is bash's -u; `pidOne` says that the shell is PID 1, for which an untrapped TERM is ignored. */
  datatype Config = Config(script: seq<Command>, nounset: bool, pidOne: bool)

  datatype Event =
    | Term
    | ChildExit
    | Shell(ok: bool)                               // one shell step; ok is the exit status of a command it ends
    | Restart(envPid: PidVar, envKillNeeded: bool)

  /** A container start: the child of the previous one is gone, its marker may remain. */
  function Boot(envPid: PidVar, envKillNeeded: bool, marker: bool): State {
    State(0, false, Running, false, envPid, envKillNeeded, true, false, NotStarted, marker, History(0, 0, 0, 0, 0))
  }

  predicate Blocking(c: Command) {
    c.Foreground? || c.RemoveMarker? || c.WaitChild? || c.MakeWatcherDir? || c.TouchMarker?
  }

  // `kill -TERM` fails for a child that is gone, and a failed command ends the shell under errexit.
  function Kill(s: State): State {
    var reached := s.pid.ChildPid? && s.child.Alive?;
    var log := s.log.(kills := s.log.kills + 1, reached := s.log.reached + if reached then 1 else 0);
    s.(log := log, status := if !reached && s.errexit then Ended(KillFailed) else s.status)
  }

  /** handle_term_signal */
  function Handler(cfg: Config, s: State): State {
    if s.pid.Unset? then
      s.(pending := false, log := s.log.(early := s.log.early + 1),
         status := if cfg.nounset then Ended(UnboundVariable) else s.status,
         killNeeded := s.killNeeded || !cfg.nounset)
    else
      Kill(s.(pending := false, log := s.log.(forwards := s.log.forwards + 1)))
  }

  // The command at pc returned with the given exit status.
  function Return(s: State, ok: bool): State {
    var fails := !ok && s.errexit;
    s.(busy := false, status := if fails then Ended(CommandFailed) else s.status, pc := s.pc + if fails then 0 else 1)
  }

  /** A `wait` goes on until the child has exited or a trapped TERM arrives. */
  predicate WaitEnds(s: State) {
    s.child.Exited? || (s.trapped && s.pending)
  }

  /** The effect of completing the command c at pc. */
  function Complete(s: State, c: Command, ok: bool): State {
    match c
    case Foreground(_) => Return(s, ok)
    case Xtrace(_) => Return(s, true)
    case UnsetChildPid => Return(s.(pid := Unset), true)
    case UnsetKillNeeded => Return(s.(killNeeded := false), true)
    case TrapTerm => Return(s.(trapped := true), true)
    case RemoveMarker => Return(s.(marker := s.marker && !ok), ok)
    case Launch(_) => Return(s.(child := Alive), true)
    case ErrexitOff => Return(s.(errexit := false), true)
    case AssignChildPid => Return(s.(pid := ChildPid), true)
    case TestKillNeeded =>
      var s := if s.killNeeded then Kill(s) else s;
      if s.status.Running? then Return(s, true) else s
    case WaitChild => Return(s, s.child.Exited? && ok)
    case UntrapTerm => Return(s.(trapped := false), true)
    case ErrexitOn => Return(s.(errexit := true), true)
    case MakeWatcherDir =>
      // the left side of the final `&&`: a failure skips the touch and ends the script
      if ok then Return(s, true) else s.(busy := false, status := Ended(CommandFailed))
    case TouchMarker => Return(s.(marker := s.marker || ok), ok)
  }

  predicate HandlerDue(s: State) {
    s.trapped && s.pending && !s.busy
  }

  function ShellStep(cfg: Config, s: State, ok: bool): Option<State> {
    if HandlerDue(s) then Some(Handler(cfg, s))
    else if s.pc >= |cfg.script| then Some(s.(status := Ended(Completed)))
    else if Blocking(cfg.script[s.pc]) && !s.busy then Some(s.(busy := true))
    else if cfg.script[s.pc].WaitChild? && !WaitEnds(s) then None
    else Some(Complete(s, cfg.script[s.pc], ok))
  }

  /** The state after an event, or None when the event cannot happen. */
  function Next(cfg: Config, s: State, e: Event): Option<State> {
    match e
    case Restart(envPid, envKillNeeded) => Some(Boot(envPid, envKillNeeded, s.marker))
    case ChildExit => if s.child.Alive? then Some(s.(child := Exited)) else None
    case Term =>
      if s.status.Ended? then None
      else if s.trapped then Some(s.(pending := true, log := s.log.(caught := s.log.caught + 1)))
      else if cfg.pidOne then Some(s)
      else Some(s.(status := Ended(KilledByTerm)))
    case Shell(ok) => if s.status.Ended? then None else ShellStep(cfg, s, ok)
  }

  function Run(cfg: Config, s: State, events: seq<Event>): Option<State>
    decreases |events|
  {
    if events == [] then Some(s)
    else match Next(cfg, s, events[0])
      case None => None
      case Some(s') => Run(cfg, s', events[1..])
  }

  lemma {:induction false} RunExtends(cfg: Config, s: State, events: seq<Event>, e: Event)
    requires Run(cfg, s, events).Some?
    ensures Run(cfg, s, events + [e]) == Next(cfg, Run(cfg, s, events).value, e)
    decreases |events|
  {
    if events == [] {
      assert [e][1..] == [];
      if Next(cfg, s, e).Some? {
        assert Run(cfg, Next(cfg, s, e).value, []) == Next(cfg, s, e);
      }
    } else {
      assert (events + [e])[1..] == events[1..] + [e];
      RunExtends(cfg, Next(cfg, s, events[0]).value, events[1..], e);
    }
  }

  lemma RunOne(cfg: Config, s: State, e: Event)
    ensures Run(cfg, s, [e]) == Next(cfg, s, e)
  {
    RunExtends(cfg, s, [], e);
  }

  lemma RunFrom(cfg: Config, s: State, e: Event, events: seq<Event>)
    requires Next(cfg, s, e).Some?
    ensures Run(cfg, s, [e] + events) == Run(cfg, Next(cfg, s, e).value, events)
  {
    assert ([e] + events)[1..] == events;
  }

  lemma RunTwo(cfg: Config, s: State, e: Event, e': Event)
    requires Next(cfg, s, e).Some?
    ensures Run(cfg, s, [e] + [e']) == Next(cfg, Next(cfg, s, e).value, e')
  {
    RunOne(cfg, s, e);
    RunExtends(cfg, s, [e], e');
  }

  /** No event restarts the container. */
  ghost predicate OneLife(events: seq<Event>) {
    forall i :: 0 <= i < |events| ==> !events[i].Restart?
  }

  // ---------- The shape shared by all start scripts ----------

  /** prepare_signal_handlers starts at t, the launch is at l and wait_for_termination follows it. */
  ghost predicate Fits(script: seq<Command>, t: nat, l: nat) {
    && t + 3 <= l
    && (|script| == l + 8 || (|script| == l + 10 && script[l + 8] == MakeWatcherDir && script[l + 9] == TouchMarker))
    && (forall i :: 0 <= i < t ==> script[i].Foreground?)
    && script[t] == UnsetChildPid && script[t + 1] == UnsetKillNeeded && script[t + 2] == TrapTerm
    && (forall i :: t + 3 <= i < l ==> script[i].Foreground? || script[i].Xtrace? || script[i].RemoveMarker?)
    && script[l].Launch?
    && script[l + 1] == ErrexitOff && script[l + 2] == AssignChildPid && script[l + 3] == TestKillNeeded
    && script[l + 4] == WaitChild && script[l + 5] == UntrapTerm && script[l + 6] == WaitChild
    && script[l + 7] == ErrexitOn
  }

  /** The script removes a left-over marker before the launch and makes a new one at its end. */
  ghost predicate Marks(script: seq<Command>, t: nat, l: nat) {
    Fits(script, t, l) && |script| == l + 10 && t + 3 < l && script[t + 3] == RemoveMarker
  }

  lemma Positions(script: seq<Command>, t: nat, l: nat, pc: nat)
    requires Fits(script, t, l) && pc < |script|
    ensures script[pc] == WaitChild <==> pc == l + 4 || pc == l + 6
    ensures script[pc] == TestKillNeeded <==> pc == l + 3
    ensures script[pc] == UnsetKillNeeded <==> pc == t + 1
    ensures script[pc].Launch? <==> pc == l
    ensures script[pc].Foreground? || script[pc].RemoveMarker? ==> pc < l
    ensures l <= pc <= l + 7 ==> (Blocking(script[pc]) <==> script[pc] == WaitChild)
  {
  }

  lemma AssembledFits(setup: seq<Command>, body: seq<Command>, tail: seq<Command>)
    requires forall i :: 0 <= i < |setup| ==> setup[i].Foreground?
    requires body != [] && body[|body| - 1].Launch?
    requires forall i :: 0 <= i < |body| - 1 ==> body[i].Foreground? || body[i].Xtrace? || body[i].RemoveMarker?
    requires tail == [] || tail == LEAVE_MARKER
    ensures Fits(setup + PREPARE_SIGNAL_HANDLERS + body + WAIT_FOR_TERMINATION + tail, |setup|, |setup| + 2 + |body|)
  {
  }

  ghost predicate LaunchesLast(mainCommand: seq<Command>) {
    && mainCommand != [] && mainCommand[|mainCommand| - 1].Launch?
    && (forall i :: 0 <= i < |mainCommand| - 1 ==> mainCommand[i].Foreground? || mainCommand[i].Xtrace?)
  }

  lemma MainCommandShape(roleName: string)
    requires MainCommand(roleName).Success?
    ensures LaunchesLast(MainCommand(roleName).value)
  {
  }

  lemma MarkedScriptFits(mainCommand: seq<Command>)
    requires LaunchesLast(mainCommand)
    ensures Marks(SETUP + PREPARE_SIGNAL_HANDLERS + [RemoveMarker] + mainCommand + WAIT_FOR_TERMINATION + LEAVE_MARKER,
                  4, 7 + |mainCommand|)
  {
    var body := [RemoveMarker] + mainCommand;
    AssembledFits(SETUP, body, LEAVE_MARKER);
    assert SETUP + PREPARE_SIGNAL_HANDLERS + body == SETUP + PREPARE_SIGNAL_HANDLERS + [RemoveMarker] + mainCommand;
  }

  lemma MainScriptFits(roleName: string) returns (t: nat, l: nat)
    requires GetMainContainerArgs(roleName).Success?
    ensures Marks(GetMainContainerArgs(roleName).value, t, l)
  {
    var mainCommand := MainCommand(roleName).value;
    t, l := 4, 7 + |mainCommand|;
    MainCommandShape(roleName);
    MarkedScriptFits(mainCommand);
  }

  /** The external commands of a script, in order, each with the tracing that is on when it starts. */
  ghost function External(script: seq<Command>, tracing: bool := true): seq<(string, bool)> {
    if script == [] then []
    else
      match script[0]
      case Foreground(text) => [(text, tracing)] + External(script[1..], tracing)
      case Launch(text) => [(text, tracing)] + External(script[1..], tracing)
      case Xtrace(on) => External(script[1..], on)
      case _ => External(script[1..], tracing)
  }

  /** Three roles have a main command.  Each has its own program in the background; the scheduler's comes last,
      after the database is there and its administrator, whose password no trace shows. */
  lemma MainCommandsAreTheRoles(roleName: string)
    ensures GetMainContainerArgs(roleName).Success? <==> roleName in ["webservers", "schedulers", "celeryexecutors"]
    ensures
      var main := MainCommand(roleName);
      && (roleName == "webservers" ==> main == Success([Launch("airflow webserver")]))
      && (roleName == "celeryexecutors" ==> main == Success([Launch("airflow celery worker")]))
      && (roleName == "schedulers" ==>
            && main.Success? && main.value[|main.value| - 1].Launch?
            && External(main.value) == [("airflow db init", true), ("airflow db upgrade", true),
                                        ("airflow users create", false), ("airflow scheduler", true)])
  {
    assert WEBSERVERS[0] == 'w' && SCHEDULERS[0] == 's';
    if roleName == SCHEDULERS {
      SchedulerCommands(MainCommand(roleName).value);
    }
  }

  lemma SchedulerCommands(c: seq<Command>)
    requires c == [Foreground("airflow db init"), Foreground("airflow db upgrade"), Xtrace(false),
                   Foreground("airflow users create"), Xtrace(true), Launch("airflow scheduler")]
    ensures External(c) == [("airflow db init", true), ("airflow db upgrade", true),
                            ("airflow users create", false), ("airflow scheduler", true)]
  {
    assert External(c[5..], true) == [("airflow scheduler", true)] + External(c[6..], true);
    assert External(c[4..], false) == External(c[5..], true);
    assert External(c[3..], false) == [("airflow users create", false)] + External(c[4..], false);
    assert External(c[2..], true) == External(c[3..], false);
    assert External(c[1..], true) == [("airflow db upgrade", true)] + External(c[2..], true);
  }

  lemma MetricScriptFits()
    ensures Fits(METRIC_CONTAINER_ARGS, 0, 3)
  {
  }

  // ---------- The invariant ----------

  ghost predicate ControlInv(s: State, t: nat, l: nat) {
    && (s.trapped <==> t + 3 <= s.pc <= l + 5)
    && (s.errexit <==> !(l + 2 <= s.pc <= l + 7))
    && (t < s.pc <= l + 2 ==> s.pid.Unset?)
    && (l + 3 <= s.pc ==> s.pid.ChildPid?)
    && (s.child.NotStarted? <==> s.pc <= l)
    && (l + 7 <= s.pc ==> s.child.Exited?)
    && (s.pending ==> s.trapped)
  }

  ghost predicate SignalInv(cfg: Config, s: State, t: nat, l: nat) {
    var log := s.log;
    && (s.pc <= t + 2 ==> log == History(0, 0, 0, 0, 0))
    && (t + 2 <= s.pc ==> (s.killNeeded <==> log.early > 0 && !cfg.nounset))
    && (s.pc <= l + 2 ==> log.forwards == 0)
    && log.kills == log.forwards + (if l + 4 <= s.pc && s.killNeeded then 1 else 0)
    && log.reached <= log.kills && (log.reached < log.kills ==> s.child.Exited?)
    && (log.caught > 0 ==> s.pending || log.early > 0 || log.forwards > 0)
    && (s.status == Ended(UnboundVariable) <==> cfg.nounset && log.early > 0)
    && (s.status == Ended(UnboundVariable) ==> s.pc <= l + 2)
    && s.status != Ended(KillFailed)
  }

  ghost predicate Inv(cfg: Config, s: State, t: nat, l: nat) {
    && s.pc <= |cfg.script|
    && (s.status == Ended(Completed) ==> s.pc == |cfg.script|)
    && (s.busy ==> s.pc < |cfg.script| && Blocking(cfg.script[s.pc]))
    && ControlInv(s, t, l)
    && SignalInv(cfg, s, t, l)
    && (Marks(cfg.script, t, l) && t + 3 < s.pc ==> (s.marker <==> s.pc == |cfg.script|))
  }

  lemma HandlerKeepsInv(cfg: Config, s: State, t: nat, l: nat)
    requires Fits(cfg.script, t, l) && Inv(cfg, s, t, l) && s.status.Running? && HandlerDue(s)
    ensures Inv(cfg, Handler(cfg, s), t, l)
  {
  }

  ghost predicate Completing(cfg: Config, s: State, t: nat, l: nat) {
    && Fits(cfg.script, t, l) && Inv(cfg, s, t, l)
    && s.status.Running? && !HandlerDue(s) && s.pc < |cfg.script|
    && (Blocking(cfg.script[s.pc]) ==> s.busy)
    && (cfg.script[s.pc].WaitChild? ==> WaitEnds(s))
  }

  lemma SetupKeepsInv(cfg: Config, s: State, ok: bool, t: nat, l: nat)
    requires Completing(cfg, s, t, l) && s.pc < l
    ensures Inv(cfg, Complete(s, cfg.script[s.pc], ok), t, l)
  {
    var c := cfg.script[s.pc];
    if s.pc < t {
      assert c.Foreground?;
    } else if s.pc == t {
      assert c == UnsetChildPid;
    } else if s.pc == t + 1 {
      assert c == UnsetKillNeeded;
    } else if s.pc == t + 2 {
      assert c == TrapTerm;
    } else {
      BodyKeepsInv(cfg, s, ok, t, l);
    }
  }

  lemma BodyKeepsInv(cfg: Config, s: State, ok: bool, t: nat, l: nat)
    requires Completing(cfg, s, t, l) && t + 3 <= s.pc < l
    ensures Inv(cfg, Complete(s, cfg.script[s.pc], ok), t, l)
  {
    var c := cfg.script[s.pc];
    if c.Foreground? {
    } else if c.Xtrace? {
    } else {
      assert c == RemoveMarker;
    }
  }

  lemma ForwardingKeepsInv(cfg: Config, s: State, ok: bool, t: nat, l: nat)
    requires Completing(cfg, s, t, l) && l <= s.pc <= l + 3
    ensures Inv(cfg, Complete(s, cfg.script[s.pc], ok), t, l)
  {
    var c := cfg.script[s.pc];
    if s.pc == l {
      assert c.Launch?;
    } else if s.pc == l + 1 {
      assert c == ErrexitOff;
    } else if s.pc == l + 2 {
      assert c == AssignChildPid;
    } else {
      assert c == TestKillNeeded;
    }
  }

  lemma WaitingKeepsInv(cfg: Config, s: State, ok: bool, t: nat, l: nat)
    requires Completing(cfg, s, t, l) && l + 4 <= s.pc
    ensures Inv(cfg, Complete(s, cfg.script[s.pc], ok), t, l)
  {
    var c := cfg.script[s.pc];
    if s.pc == l + 4 || s.pc == l + 6 {
      assert c == WaitChild;
    } else if s.pc == l + 5 {
      assert c == UntrapTerm;
    } else if s.pc == l + 7 {
      assert c == ErrexitOn;
    } else if s.pc == l + 8 {
      assert c == MakeWatcherDir;
    } else {
      assert c == TouchMarker;
    }
  }

  lemma StepKeepsInv(cfg: Config, s: State, e: Event, t: nat, l: nat)
    requires Fits(cfg.script, t, l) && Inv(cfg, s, t, l) && Next(cfg, s, e).Some?
    ensures Inv(cfg, Next(cfg, s, e).value, t, l)
  {
    match e {
      case Shell(ok) =>
        if HandlerDue(s) {
          HandlerKeepsInv(cfg, s, t, l);
        } else if s.pc < |cfg.script| && (s.busy || !Blocking(cfg.script[s.pc])) && Next(cfg, s, e).Some? {
          if s.pc < l {
            SetupKeepsInv(cfg, s, ok, t, l);
          } else if s.pc <= l + 3 {
            ForwardingKeepsInv(cfg, s, ok, t, l);
          } else {
            WaitingKeepsInv(cfg, s, ok, t, l);
          }
        }
      case _ =>
    }
  }

  lemma {:induction false} RunKeepsInv(cfg: Config, s: State, events: seq<Event>, t: nat, l: nat)
    requires Fits(cfg.script, t, l) && Inv(cfg, s, t, l) && Run(cfg, s, events).Some?
    ensures Inv(cfg, Run(cfg, s, events).value, t, l)
    decreases |events|
  {
    if events != [] {
      StepKeepsInv(cfg, s, events[0], t, l);
      RunKeepsInv(cfg, Next(cfg, s, events[0]).value, events[1..], t, l);
    }
  }

  // ---------- Safety over all runs ----------

  ghost predicate IsMainScript(script: seq<Command>) {
    exists roleName :: GetMainContainerArgs(roleName) == Success(script)
  }

  ghost predicate IsStartScript(script: seq<Command>) {
    script == METRIC_CONTAINER_ARGS || IsMainScript(script)
  }

  lemma StartScriptFits(script: seq<Command>) returns (t: nat, l: nat)
    requires IsStartScript(script)
    ensures Fits(script, t, l)
    ensures IsMainScript(script) ==> Marks(script, t, l)
  {
    if IsMainScript(script) {
      var roleName :| GetMainContainerArgs(roleName) == Success(script);
      t, l := MainScriptFits(roleName);
    } else {
      MetricScriptFits();
      t, l := 0, 3;
    }
  }

  /** s arises, through any events and any number of restarts, from a first container start. */
  ghost predicate Reachable(cfg: Config, s: State) {
    exists envPid, envKillNeeded, marker, events ::
      Run(cfg, Boot(envPid, envKillNeeded, marker), events) == Some(s)
  }

  lemma ReachableInv(cfg: Config, s: State) returns (t: nat, l: nat)
    requires IsStartScript(cfg.script) && Reachable(cfg, s)
    ensures Fits(cfg.script, t, l) && Inv(cfg, s, t, l)
    ensures IsMainScript(cfg.script) ==> Marks(cfg.script, t, l)
  {
    t, l := StartScriptFits(cfg.script);
    var envPid, envKillNeeded, marker, events :|
      Run(cfg, Boot(envPid, envKillNeeded, marker), events) == Some(s);
    RunKeepsInv(cfg, Boot(envPid, envKillNeeded, marker), events, t, l);
  }

  /** The shutdown file never exists beside a living child, and once a child has been launched it
      exists exactly when the script has run to its end. */
  lemma MarkerNeverLies(cfg: Config, s: State)
    requires IsMainScript(cfg.script) && Reachable(cfg, s)
    ensures !(s.marker && s.child.Alive?)
    ensures !s.child.NotStarted? ==> (s.marker <==> s.pc == |cfg.script|)
    ensures s.status == Ended(Completed) ==> s.marker && s.child.Exited?
  {
    var t, l := ReachableInv(cfg, s);
  }

  ghost predicate AtSecondWait(cfg: Config, s: State) {
    s.pc < |cfg.script| && cfg.script[s.pc] == WaitChild && !s.trapped
  }

  /** The shell is still to run a kill: a handler waits to run, or a TERM is deferred and the test for that
      lies ahead. */
  ghost predicate Owed(cfg: Config, s: State) {
    && s.status.Running?
    && (s.pending || (s.killNeeded && s.pc <= |cfg.script| && TestKillNeeded in cfg.script[s.pc..]))
  }

  // The same by positions, counting from a moment at which the shell had run the given number of kills.
  ghost predicate InDebt(s: State, kills: nat, t: nat, l: nat) {
    && t + 3 <= s.pc
    && (s.log.kills > kills
        || (s.log.kills == kills
            && match s.status
               case Running => s.pending || (s.killNeeded && s.pc <= l + 3)
               case Ended(cause) => cause == UnboundVariable || (cause == CommandFailed && s.pc <= l)))
  }

  lemma StepKeepsDebt(cfg: Config, s: State, e: Event, kills: nat, t: nat, l: nat)
    requires Fits(cfg.script, t, l) && Inv(cfg, s, t, l) && InDebt(s, kills, t, l)
    requires !e.Restart? && Next(cfg, s, e).Some?
    ensures InDebt(Next(cfg, s, e).value, kills, t, l)
  {
    if e.Shell? && !HandlerDue(s) && s.pc < |cfg.script| && (s.busy || !Blocking(cfg.script[s.pc])) {
      CommandKeepsDebt(cfg, s, e.ok, kills, t, l);
    }
  }

  lemma CommandKeepsDebt(cfg: Config, s: State, ok: bool, kills: nat, t: nat, l: nat)
    requires Fits(cfg.script, t, l) && Inv(cfg, s, t, l) && InDebt(s, kills, t, l)
    requires s.status.Running? && !HandlerDue(s) && s.pc < |cfg.script|
    ensures InDebt(Complete(s, cfg.script[s.pc], ok), kills, t, l)
  {
    Positions(cfg.script, t, l, s.pc);
    CommandSignals(s, cfg.script[s.pc], ok);
  }

  // What completing a command does to the signal state.
  lemma CommandSignals(s: State, c: Command, ok: bool)
    requires s.status.Running?
    ensures
      var s' := Complete(s, c, ok);
      && s'.pending == s.pending && s.pc <= s'.pc <= s.pc + 1
      && (c == UnsetKillNeeded || s'.killNeeded == s.killNeeded)
      && s'.log.kills == s.log.kills + if c == TestKillNeeded && s.killNeeded then 1 else 0
  {
    if c == TestKillNeeded {
    } else if Blocking(c) {
      ReturnKeepsSignals(s, c, ok);
    } else {
      BuiltinMovesOn(s, c, ok);
    }
  }

  lemma ReturnKeepsSignals(s: State, c: Command, ok: bool)
    requires Blocking(c)
    ensures
      var s' := Complete(s, c, ok);
      && s'.pending == s.pending && s'.killNeeded == s.killNeeded && s'.child == s.child && s'.log == s.log
      && s.pc <= s'.pc <= s.pc + 1
      && (s'.status == s.status || (s'.status == Ended(CommandFailed) && s'.pc == s.pc))
      && (c == WaitChild && !s.errexit ==> s'.status == s.status)
  {
    match c {
      case Foreground(_) =>
      case RemoveMarker =>
      case WaitChild =>
      case MakeWatcherDir =>
      case TouchMarker =>
    }
  }

  lemma BuiltinMovesOn(s: State, c: Command, ok: bool)
    requires !Blocking(c) && c != TestKillNeeded
    ensures
      var s' := Complete(s, c, ok);
      && s'.pending == s.pending && s'.log == s.log && s'.status == s.status && s'.pc == s.pc + 1 && !s'.busy
      && (c == UnsetKillNeeded || s'.killNeeded == s.killNeeded)
      && (c.Launch? || s'.child == s.child)
  {
    match c {
      case Xtrace(_) =>
      case UnsetChildPid =>
      case UnsetKillNeeded =>
      case TrapTerm =>
      case Launch(_) =>
      case ErrexitOff =>
      case AssignChildPid =>
      case UntrapTerm =>
      case ErrexitOn =>
    }
  }

  lemma CommandKeepsChild(s: State, c: Command, ok: bool)
    requires s.status.Running? && !c.Launch?
    ensures Complete(s, c, ok).child == s.child
  {
    if c == TestKillNeeded {
    } else if Blocking(c) {
      ReturnKeepsSignals(s, c, ok);
    } else {
      BuiltinMovesOn(s, c, ok);
    }
  }

  lemma CommandKeepsLog(s: State, c: Command, ok: bool)
    requires !(c == TestKillNeeded && s.killNeeded)
    ensures Complete(s, c, ok).log == s.log
  {
    if c == TestKillNeeded {
    } else if Blocking(c) {
      ReturnKeepsSignals(s, c, ok);
    } else {
      BuiltinMovesOn(s, c, ok);
    }
  }

  lemma {:induction false} RunKeepsDebt(cfg: Config, s: State, events: seq<Event>, kills: nat, t: nat, l: nat)
    requires Fits(cfg.script, t, l) && Inv(cfg, s, t, l) && InDebt(s, kills, t, l)
    requires OneLife(events) && Run(cfg, s, events).Some?
    ensures InDebt(Run(cfg, s, events).value, kills, t, l)
    decreases |events|
  {
    if events != [] {
      StepKeepsInv(cfg, s, events[0], t, l);
      StepKeepsDebt(cfg, s, events[0], kills, t, l);
      RunKeepsDebt(cfg, Next(cfg, s, events[0]).value, events[1..], kills, t, l);
    }
  }

  /** Take any TERM that arrives while the trap is set, and any moment after it in the life of the
      container.  Since then the shell has run a kill, which reached the living child or found it gone; or it
      goes on and still owes one; or nounset has ended it, or errexit before there was a child.  Once the trap
      is reset, so at the wait that no handler can end and on completion, only the first is left. */
  lemma NoTrappedTermIsLost(cfg: Config, s: State, events: seq<Event>)
    requires IsStartScript(cfg.script) && Reachable(cfg, s) && s.status.Running? && s.trapped
    requires OneLife(events) && Run(cfg, s, [Term] + events).Some?
    ensures
      var r := Run(cfg, s, [Term] + events).value;
      && (r.log.kills > s.log.kills || Owed(cfg, r) || r.status == Ended(UnboundVariable)
          || (r.status == Ended(CommandFailed) && r.child.NotStarted?))
      && (!r.trapped || r.status == Ended(Completed) ==> r.log.kills > s.log.kills)
      && (r.log.kills > s.log.kills ==> r.log.reached > s.log.reached || r.child.Exited?)
  {
    var t, l := ReachableInv(cfg, s);
    var s' := Next(cfg, s, Term).value;
    var r := Run(cfg, s, [Term] + events).value;
    assert ([Term] + events)[1..] == events;
    StepKeepsInv(cfg, s, Term, t, l);
    RunKeepsInv(cfg, s', events, t, l);
    RunKeepsDebt(cfg, s', events, s.log.kills, t, l);
    if r.pc <= l + 3 {
      assert cfg.script[r.pc..][l + 3 - r.pc] == TestKillNeeded;
    }
  }

  /** In total: with any TERM caught, some kill has reached the child or found it gone on entry to the second
      wait, and without nounset one is owed until then. */
  lemma CaughtTermsAreForwarded(cfg: Config, s: State)
    requires IsStartScript(cfg.script) && Reachable(cfg, s)
    requires s.log.caught > 0
    ensures AtSecondWait(cfg, s) && s.status.Running? ==> s.log.reached > 0 || s.child.Exited?
    ensures !cfg.nounset ==> s.pending || s.killNeeded || s.log.reached > 0 || s.child.Exited?
    ensures s.status == Ended(Completed) ==> s.log.kills > 0
  {
    var t, l := ReachableInv(cfg, s);
  }

  /** What bash's -u does to the protocol: the deferred branch of the handler is dead code, and a
      handler that runs before the pid is known ends the shell instead of being remembered. */
  lemma NounsetExactly(cfg: Config, s: State)
    requires IsStartScript(cfg.script) && Reachable(cfg, s)
    ensures s.status == Ended(UnboundVariable) <==> cfg.nounset && s.log.early > 0
    ensures s.trapped || !s.child.NotStarted? ==> (s.killNeeded <==> !cfg.nounset && s.log.early > 0)
    ensures cfg.nounset && s.status == Ended(Completed) ==> s.log.early == 0
    ensures IsMainScript(cfg.script) && s.status == Ended(UnboundVariable) && !s.child.NotStarted? ==> !s.marker
  {
    var t, l := ReachableInv(cfg, s);
  }

  /** A kill can only run with errexit off, so a kill of a dead child never ends the script; kills are
      the handler runs that knew the pid, and one more if a TERM had been deferred. */
  lemma ForwardingNeverAborts(cfg: Config, s: State)
    requires IsStartScript(cfg.script) && Reachable(cfg, s)
    ensures s.status != Ended(KillFailed)
    ensures HandlerDue(s) && !s.pid.Unset? ==> !s.errexit
    ensures s.pc < |cfg.script| && cfg.script[s.pc] == TestKillNeeded ==> !s.errexit
    ensures s.pid.Foreign? ==> !HandlerDue(s)
    ensures AtSecondWait(cfg, s) || s.pc == |cfg.script| ==>
              s.log.kills == s.log.forwards + if s.log.early > 0 && !cfg.nounset then 1 else 0
  {
    var t, l := ReachableInv(cfg, s);
    if s.pc < |cfg.script| {
      Positions(cfg.script, t, l, s.pc);
    }
  }

  /** Nothing was sent to the child of s, if it has one: nounset has ended the shell, or the TERM is deferred. */
  ghost predicate DiesOrRemembers(cfg: Config, s: State, r: State) {
    && r.child == s.child && r.log.kills == 0
    && (if cfg.nounset then r.status == Ended(UnboundVariable) else r.status.Running? && r.killNeeded)
  }

  lemma EarlyHandler(cfg: Config, s: State, ok: bool, t: nat, l: nat)
    requires Fits(cfg.script, t, l) && Inv(cfg, s, t, l)
    requires s.status.Running? && HandlerDue(s) && s.pid.Unset?
    ensures
      var r := Next(cfg, s, Shell(ok));
      r.Some? && DiesOrRemembers(cfg, s, r.value) && r.value.pc == s.pc
  {
  }

  // The end of a foreground command before the pid is known.
  lemma EarlyReturn(cfg: Config, s: State, t: nat, l: nat)
    requires Fits(cfg.script, t, l) && Inv(cfg, s, t, l)
    requires s.status.Running? && s.busy && s.pending && s.trapped && s.pid.Unset?
    ensures
      var r := Next(cfg, s, Shell(true));
      && r.Some? && r.value.child == s.child && r.value.pc == s.pc + 1 && r.value.status.Running?
      && HandlerDue(r.value) && r.value.pid.Unset? && Inv(cfg, r.value, t, l)
    ensures
      var r := Next(cfg, s, Shell(false));
      r.Some? && r.value.status == Ended(CommandFailed) && r.value.child.NotStarted? && r.value.log.kills == 0
  {
    var c := cfg.script[s.pc];
    Positions(cfg.script, t, l, s.pc);
    StepKeepsInv(cfg, s, Shell(true), t, l);
    assert c.Foreground? || c.RemoveMarker?;
  }

  lemma EarlyTermBetween(cfg: Config, s: State, ok: bool, t: nat, l: nat)
    requires Fits(cfg.script, t, l) && Inv(cfg, s, t, l)
    requires s.status.Running? && s.trapped && !s.busy && s.pid.Unset?
    ensures
      var r := Run(cfg, s, [Term] + [Shell(ok)]);
      r.Some? && DiesOrRemembers(cfg, s, r.value) && r.value.pc == s.pc
  {
    StepKeepsInv(cfg, s, Term, t, l);
    EarlyHandler(cfg, Next(cfg, s, Term).value, ok, t, l);
    RunTwo(cfg, s, Term, Shell(ok));
  }

  lemma EarlyTermInCommand(cfg: Config, s: State, ok: bool, t: nat, l: nat)
    requires Fits(cfg.script, t, l) && Inv(cfg, s, t, l)
    requires s.status.Running? && s.trapped && s.busy && s.pid.Unset?
    ensures
      var r := Run(cfg, s, [Term] + ([Shell(true)] + [Shell(ok)]));
      r.Some? && DiesOrRemembers(cfg, s, r.value) && r.value.pc == s.pc + 1
    ensures
      var r := Run(cfg, s, [Term, Shell(false)]);
      r.Some? && r.value.status == Ended(CommandFailed) && r.value.child.NotStarted? && r.value.log.kills == 0
  {
    var s1 := Next(cfg, s, Term).value;
    StepKeepsInv(cfg, s, Term, t, l);
    EarlyReturn(cfg, s1, t, l);
    EarlyHandler(cfg, Next(cfg, s1, Shell(true)).value, ok, t, l);
    RunTwo(cfg, s1, Shell(true), Shell(ok));
    RunFrom(cfg, s, Term, [Shell(true)] + [Shell(ok)]);
    RunTwo(cfg, s, Term, Shell(false));
    assert [Term, Shell(false)] == [Term] + [Shell(false)];
  }

  /** A TERM caught before the pid is known, at any moment: its handler runs once a foreground command in
      progress has returned.  With nounset the shell dies without having sent anything, otherwise the TERM is
      remembered.  If that command fails instead, errexit ends the script before there is any child. */
  lemma EarlyTerm(cfg: Config, s: State, ok: bool)
    requires IsStartScript(cfg.script) && Reachable(cfg, s)
    requires s.status.Running? && s.trapped && s.pid.Unset?
    ensures
      var ahead := if s.busy then [Shell(true)] else [];
      var r := Run(cfg, s, [Term] + (ahead + [Shell(ok)]));
      r.Some? && DiesOrRemembers(cfg, s, r.value) && r.value.pc == s.pc + |ahead|
    ensures s.busy ==>
              var r := Run(cfg, s, [Term, Shell(false)]);
              r.Some? && r.value.status == Ended(CommandFailed) && r.value.child.NotStarted? && r.value.log.kills == 0
  {
    var t, l := ReachableInv(cfg, s);
    if s.busy {
      EarlyTermInCommand(cfg, s, ok, t, l);
    } else {
      EarlyTermBetween(cfg, s, ok, t, l);
      assert [] + [Shell(ok)] == [Shell(ok)];
    }
  }

  // ---------- Single events ----------

  /** What errexit does to a foreground command, with or without a trap and a pending TERM: the script ends
      if the command fails, before there is a child, and goes on to the next command if it succeeds. */
  lemma ForegroundCommandReturns(cfg: Config, s: State)
    requires IsStartScript(cfg.script) && Reachable(cfg, s) && s.status.Running? && s.busy
    requires s.pc < |cfg.script| && (cfg.script[s.pc].Foreground? || cfg.script[s.pc].RemoveMarker?)
    ensures s.child.NotStarted?
    ensures Next(cfg, s, Shell(false)) == Some(s.(busy := false, status := Ended(CommandFailed)))
    ensures
      var marker := s.marker && cfg.script[s.pc].Foreground?;
      Next(cfg, s, Shell(true)) == Some(s.(busy := false, pc := s.pc + 1, marker := marker))
  {
    BeforeChild(cfg, s);
    CommandReturns(cfg, s, false);
    CommandReturns(cfg, s, true);
  }

  lemma BeforeChild(cfg: Config, s: State)
    requires IsStartScript(cfg.script) && Reachable(cfg, s)
    requires s.pc < |cfg.script| && (cfg.script[s.pc].Foreground? || cfg.script[s.pc].RemoveMarker?)
    ensures s.errexit && s.child.NotStarted?
  {
    var t, l := ReachableInv(cfg, s);
    Positions(cfg.script, t, l, s.pc);
  }

  lemma CommandReturns(cfg: Config, s: State, ok: bool)
    requires s.status.Running? && s.busy && s.errexit
    requires s.pc < |cfg.script| && (cfg.script[s.pc].Foreground? || cfg.script[s.pc].RemoveMarker?)
    ensures
      var marker := s.marker && cfg.script[s.pc].Foreground?;
      Next(cfg, s, Shell(ok)) == Some(if ok then s.(busy := false, pc := s.pc + 1, marker := marker)
                                      else s.(busy := false, status := Ended(CommandFailed)))
  {
    match cfg.script[s.pc] {
      case Foreground(_) =>
      case RemoveMarker =>
    }
  }

  /** A child can exit at any time and does nothing else to the shell; a TERM is noted under the trap, ignored
      by an untrapped PID 1, and ends any other untrapped shell; a restart keeps the marker and nothing else. */
  lemma OutsideEvents(cfg: Config, s: State, envPid: PidVar, envKillNeeded: bool)
    ensures Next(cfg, s, ChildExit) == if s.child == Alive then Some(s.(child := Exited)) else None
    ensures s.status == Running && s.trapped ==>
              Next(cfg, s, Term) == Some(s.(pending := true, log := s.log.(caught := s.log.caught + 1)))
    ensures s.status == Running && !s.trapped ==>
              Next(cfg, s, Term) == Some(if cfg.pidOne then s else s.(status := Ended(KilledByTerm)))
    ensures
      var r := Next(cfg, s, Restart(envPid, envKillNeeded));
      && r.Some? && r.value.marker == s.marker && r.value.child == NotStarted && r.value.status == Running
      && r.value.pc == 0 && !r.value.trapped && !r.value.pending && !r.value.busy && r.value.errexit
      && r.value.pid == envPid && r.value.killNeeded == envKillNeeded
  {
  }

  /** The counts of the history are true: TERMs caught under the trap, handler runs without and with a pid,
      kills of a handler that knows the pid or of the test after the launch, and those of them that found the
      child alive. */
  lemma HistoryIsTrue(cfg: Config, s: State, e: Event)
    requires Next(cfg, s, e).Some? && !e.Restart?
    ensures
      var r := Next(cfg, s, e).value.log;
      var handler := e.Shell? && s.trapped && s.pending && !s.busy;
      var tested := e.Shell? && !handler && s.pc < |cfg.script| && cfg.script[s.pc] == TestKillNeeded && s.killNeeded;
      var killed := (handler && s.pid != Unset) || tested;
      && r.caught == s.log.caught + (if e == Term && s.trapped then 1 else 0)
      && r.early == s.log.early + (if handler && s.pid == Unset then 1 else 0)
      && r.forwards == s.log.forwards + (if handler && s.pid != Unset then 1 else 0)
      && r.kills == s.log.kills + (if killed then 1 else 0)
      && r.reached == s.log.reached + (if killed && s.pid == ChildPid && s.child == Alive then 1 else 0)
  {
    if e.Shell? {
      if HandlerDue(s) {
        HandlerCounts(cfg, s);
      } else if s.pc < |cfg.script| && (s.busy || !Blocking(cfg.script[s.pc])) {
        CommandCounts(s, cfg.script[s.pc], e.ok);
      }
    }
  }

  lemma HandlerCounts(cfg: Config, s: State)
    ensures
      var r := Handler(cfg, s).log;
      && r.caught == s.log.caught
      && (if s.pid == Unset then r == s.log.(early := s.log.early + 1)
          else r == KillCounted(s, s.log.(forwards := s.log.forwards + 1)))
  {
  }

  lemma CommandCounts(s: State, c: Command, ok: bool)
    ensures Complete(s, c, ok).log == if c == TestKillNeeded && s.killNeeded then KillCounted(s, s.log) else s.log
  {
    if c != TestKillNeeded || !s.killNeeded {
      CommandKeepsLog(s, c, ok);
    }
  }

  ghost function KillCounted(s: State, log: History): History {
    log.(kills := log.kills + 1, reached := log.reached + if s.pid == ChildPid && s.child == Alive then 1 else 0)
  }

  // ---------- Points that a start script does reach ----------

  lemma ReachableExtends(cfg: Config, s: State, e: Event)
    requires Reachable(cfg, s) && Next(cfg, s, e).Some?
    ensures Reachable(cfg, Next(cfg, s, e).value)
  {
    var envPid, envKillNeeded, marker, events :|
      Run(cfg, Boot(envPid, envKillNeeded, marker), events) == Some(s);
    RunExtends(cfg, Boot(envPid, envKillNeeded, marker), events, e);
  }

  /** Between two commands, with no TERM so far and the child as launched. */
  ghost predicate Between(cfg: Config, s: State, t: nat, l: nat) {
    && Inv(cfg, s, t, l) && s.status.Running? && !s.busy && !s.pending && !s.child.Exited?
    && s.log == History(0, 0, 0, 0, 0)
  }

  lemma CommandIsPassable(cfg: Config, s: State, t: nat, l: nat) returns (s': State)
    requires Fits(cfg.script, t, l) && Between(cfg, s, t, l) && Reachable(cfg, s) && s.pc < l + 4
    ensures Between(cfg, s', t, l) && Reachable(cfg, s') && s'.pc == s.pc + 1
  {
    var c := cfg.script[s.pc];
    Positions(cfg.script, t, l, s.pc);
    s' := s;
    if Blocking(c) {
      ReachableExtends(cfg, s, Shell(true));
      StepKeepsInv(cfg, s, Shell(true), t, l);
      s' := s.(busy := true);
    }
    ReachableExtends(cfg, s', Shell(true));
    StepKeepsInv(cfg, s', Shell(true), t, l);
    CommandSucceeds(s', c);
    s' := Complete(s', c, true);
  }

  lemma CommandSucceeds(s: State, c: Command)
    requires s.status.Running? && !c.WaitChild? && (c.TestKillNeeded? ==> !s.errexit)
    ensures
      var s' := Complete(s, c, true);
      && s'.status.Running? && s'.pc == s.pc + 1 && !s'.busy && s'.pending == s.pending
      && (s'.child == s.child || s'.child.Alive?)
      && (s'.log == s.log || (c == TestKillNeeded && s.killNeeded))
  {
    CommandMovesOn(s, c, true);
    CommandSignals(s, c, true);
    if c != TestKillNeeded || !s.killNeeded {
      CommandKeepsLog(s, c, true);
    }
    if !c.Launch? {
      CommandKeepsChild(s, c, true);
    }
  }

  // With commands that succeed and no TERM, a start script gets to every command up to its first `wait`.
  lemma {:induction false} PointIsReachable(cfg: Config, point: nat, t: nat, l: nat) returns (s: State)
    requires Fits(cfg.script, t, l) && point <= l + 4
    ensures Reachable(cfg, s) && Between(cfg, s, t, l) && s.pc == point
    decreases point
  {
    if point == 0 {
      s := Boot(Unset, false, false);
      assert Run(cfg, s, []) == Some(s);
    } else {
      s := PointIsReachable(cfg, point - 1, t, l);
      s := CommandIsPassable(cfg, s, t, l);
    }
  }

  /** In every start script the state that EarlyTerm is about does occur with a living child; for a main
      script an end there leaves no marker. */
  lemma LaunchWindowIsReachable(cfg: Config) returns (s: State)
    requires IsStartScript(cfg.script)
    ensures Reachable(cfg, s)
    ensures s.status.Running? && s.trapped && !s.busy && s.pid.Unset? && s.child.Alive?
    ensures IsMainScript(cfg.script) ==> !s.marker
  {
    var t, l := StartScriptFits(cfg.script);
    s := PointIsReachable(cfg, l + 1, t, l);
  }

  lemma FirstWaitIsInterrupted(cfg: Config, t: nat, l: nat) returns (s: State)
    requires Fits(cfg.script, t, l)
    ensures Reachable(cfg, s) && Inv(cfg, s, t, l)
    ensures s.pc == l + 4 && s.status.Running? && s.busy && s.pending && s.child.Alive? && s.log.caught > 0
  {
    s := PointIsReachable(cfg, l + 4, t, l);
    assert cfg.script[s.pc] == WaitChild;
    ReachableExtends(cfg, s, Shell(true));
    StepKeepsInv(cfg, s, Shell(true), t, l);
    s := s.(busy := true);
    ReachableExtends(cfg, s, Term);
    StepKeepsInv(cfg, s, Term, t, l);
    s := Next(cfg, s, Term).value;
  }

  // A TERM that ends the first `wait` takes the shell out of it over a child that lives on.
  lemma FirstWaitIsPassable(cfg: Config, t: nat, l: nat) returns (s: State)
    requires Fits(cfg.script, t, l)
    ensures Reachable(cfg, s) && Inv(cfg, s, t, l)
    ensures s.pc == l + 5 && s.status.Running? && !s.busy && s.pending && s.child.Alive? && s.log.caught > 0
  {
    s := FirstWaitIsInterrupted(cfg, t, l);
    assert cfg.script[s.pc] == WaitChild;
    ReachableExtends(cfg, s, Shell(false));
    StepKeepsInv(cfg, s, Shell(false), t, l);
    s := s.(busy := false, pc := s.pc + 1);
  }

  lemma TrapIsReset(cfg: Config, t: nat, l: nat) returns (s: State)
    requires Fits(cfg.script, t, l)
    ensures Reachable(cfg, s) && Inv(cfg, s, t, l)
    ensures s.pc == l + 6 && s.status.Running? && !s.busy && s.child.Alive? && s.log.caught > 0
  {
    s := FirstWaitIsPassable(cfg, t, l);
    assert cfg.script[s.pc] == UntrapTerm;
    ReachableExtends(cfg, s, Shell(true));
    StepKeepsInv(cfg, s, Shell(true), t, l);
    s := Handler(cfg, s);
    ReachableExtends(cfg, s, Shell(true));
    StepKeepsInv(cfg, s, Shell(true), t, l);
    s := s.(trapped := false, pc := s.pc + 1);
  }

  lemma SecondWaitIsReachable(cfg: Config, t: nat, l: nat) returns (s: State)
    requires Fits(cfg.script, t, l)
    ensures Reachable(cfg, s) && Inv(cfg, s, t, l)
    ensures s.pc == l + 6 && s.status.Running? && s.busy && s.child.Alive? && s.log.caught > 0 && s.log.reached > 0
  {
    s := TrapIsReset(cfg, t, l);
    assert cfg.script[s.pc] == WaitChild;
    ReachableExtends(cfg, s, Shell(true));
    StepKeepsInv(cfg, s, Shell(true), t, l);
    s := s.(busy := true);
  }

  /** Once the trap is reset a TERM is lost to the protocol.  Every start script gets to its second wait over a
      living child, and a TERM there does nothing to a shell that is PID 1 and ends any other, which leaves the
      child alone and, for a main script, makes no marker. */
  lemma LateTerm(cfg: Config) returns (s: State)
    requires IsStartScript(cfg.script)
    ensures Reachable(cfg, s) && AtSecondWait(cfg, s) && s.status.Running? && s.child.Alive?
    ensures
      var r := Next(cfg, s, Term);
      && r.Some? && r.value.child.Alive? && r.value.log == s.log
      && (if cfg.pidOne then r.value == s else r.value.status == Ended(KilledByTerm))
      && (IsMainScript(cfg.script) ==> !r.value.marker)
  {
    var t, l := StartScriptFits(cfg.script);
    s := SecondWaitIsReachable(cfg, t, l);
    assert cfg.script[s.pc] == WaitChild;
  }

  // ---------- Termination of wait_for_termination ----------

  /** Shell steps left that are not handler runs. */
  ghost function Remaining(cfg: Config, s: State): int {
    if s.status.Ended? then 0 else 1 + 2 * (|cfg.script| - s.pc) - (if s.busy then 1 else 0)
  }

  /** How many shell steps of a run are handler runs, or are not. */
  ghost function ShellSteps(cfg: Config, s: State, events: seq<Event>, handlers: bool): nat
    requires Run(cfg, s, events).Some?
    decreases |events|
  {
    if events == [] then 0
    else
      (if events[0].Shell? && HandlerDue(s) == handlers then 1 else 0)
      + ShellSteps(cfg, Next(cfg, s, events[0]).value, events[1..], handlers)
  }

  lemma {:induction false} CommandsAreBounded(cfg: Config, s: State, events: seq<Event>, t: nat, l: nat)
    requires Fits(cfg.script, t, l) && Inv(cfg, s, t, l)
    requires OneLife(events) && Run(cfg, s, events).Some?
    ensures
      var s' := Run(cfg, s, events).value;
      0 <= Remaining(cfg, s') <= Remaining(cfg, s) - ShellSteps(cfg, s, events, false)
    decreases |events|
  {
    if events != [] {
      var s' := Next(cfg, s, events[0]).value;
      StepKeepsInv(cfg, s, events[0], t, l);
      StepShrinks(cfg, s, events[0]);
      CommandsAreBounded(cfg, s', events[1..], t, l);
    }
  }

  // A command either ends the script or moves it on by one; it does the latter if it succeeds, where
  // only a `wait` and a `kill` may fail against the script's will.
  lemma CommandMovesOn(s: State, c: Command, ok: bool)
    requires s.status.Running?
    ensures
      var s' := Complete(s, c, ok);
      if s'.status.Running? then s'.pc == s.pc + 1 && !s'.busy else s'.pc == s.pc && (s'.busy ==> s.busy)
    ensures ok && (c.WaitChild? || c.TestKillNeeded? ==> !s.errexit) ==> Complete(s, c, ok).status.Running?
  {
    match c {
      case TestKillNeeded =>
      case Foreground(_) =>
      case RemoveMarker =>
      case WaitChild =>
      case MakeWatcherDir =>
      case TouchMarker =>
      case _ => BuiltinMovesOn(s, c, ok);
    }
  }

  lemma HandlerStays(cfg: Config, s: State)
    ensures
      var s' := Handler(cfg, s);
      s'.pc == s.pc && s'.busy == s.busy && s'.trapped == s.trapped && s'.child == s.child && !s'.pending
  {
  }

  lemma StepShrinks(cfg: Config, s: State, e: Event)
    requires s.pc <= |cfg.script| && (s.busy ==> s.pc < |cfg.script|)
    requires !e.Restart? && Next(cfg, s, e).Some?
    ensures Remaining(cfg, Next(cfg, s, e).value) <= Remaining(cfg, s) - if e.Shell? && !HandlerDue(s) then 1 else 0
  {
    if e.Shell? && s.pc < |cfg.script| {
      CommandMovesOn(s, cfg.script[s.pc], e.ok);
    }
  }

  /** A TERM arrives in the run while no trap is set. */
  ghost predicate UntrappedTerm(cfg: Config, s: State, events: seq<Event>)
    requires Run(cfg, s, events).Some?
    decreases |events|
  {
    events != []
    && ((events[0].Term? && !s.trapped) || UntrappedTerm(cfg, Next(cfg, s, events[0]).value, events[1..]))
  }

  /** This event is the failing return of one of the two commands that leave the marker. */
  ghost predicate IsMarkingFailure(cfg: Config, s: State, e: Event) {
    e == Shell(false) && s.busy && s.pc < |cfg.script| && cfg.script[s.pc] in {MakeWatcherDir, TouchMarker}
  }

  /** In the run one of those two fails. */
  ghost predicate MarkingFails(cfg: Config, s: State, events: seq<Event>)
    requires Run(cfg, s, events).Some?
    decreases |events|
  {
    events != []
    && (IsMarkingFailure(cfg, s, events[0]) || MarkingFails(cfg, Next(cfg, s, events[0]).value, events[1..]))
  }

  /** All the ways that a script can go from the launch on. */
  ghost predicate Terminating(s: State) {
    && !s.child.NotStarted?
    && (s.status.Running? || s.status.cause in {Completed, UnboundVariable, KilledByTerm, CommandFailed})
  }

  // From the launch on, errexit ends the script for no other command, whatever a `wait` or a `kill` returns.
  lemma CommandFailsExactly(cfg: Config, s: State, ok: bool, t: nat, l: nat)
    requires Completing(cfg, s, t, l) && l < s.pc
    ensures
      var c := cfg.script[s.pc];
      var s' := Complete(s, c, ok);
      && s'.child == s.child
      && s'.status == if !ok && c in {MakeWatcherDir, TouchMarker} then Ended(CommandFailed) else Running
  {
    Positions(cfg.script, t, l, s.pc);
    CommandKeepsChild(s, cfg.script[s.pc], ok);
    var c := cfg.script[s.pc];
    if s.pc <= l + 3 {
      assert c == ErrexitOff || c == AssignChildPid || c == TestKillNeeded;
    } else if s.pc == l + 4 || s.pc == l + 6 {
      assert c == WaitChild;
    } else if s.pc == l + 5 || s.pc == l + 7 {
      assert c == UntrapTerm || c == ErrexitOn;
    } else {
      assert c == MakeWatcherDir || c == TouchMarker;
    }
  }

  lemma StepKeepsTerminating(cfg: Config, s: State, e: Event, t: nat, l: nat)
    requires Fits(cfg.script, t, l) && Inv(cfg, s, t, l) && Terminating(s)
    requires !e.Restart? && Next(cfg, s, e).Some?
    ensures
      var s' := Next(cfg, s, e).value;
      && Terminating(s')
      && (s'.status == Ended(KilledByTerm) <==>
          s.status == Ended(KilledByTerm) || (e.Term? && !s.trapped && !cfg.pidOne))
      && (s'.status == Ended(CommandFailed) <==> s.status == Ended(CommandFailed) || IsMarkingFailure(cfg, s, e))
  {
    if e.Shell? {
      ShellKeepsTerminating(cfg, s, e.ok, t, l);
    }
  }

  lemma ShellKeepsTerminating(cfg: Config, s: State, ok: bool, t: nat, l: nat)
    requires Fits(cfg.script, t, l) && Inv(cfg, s, t, l) && Terminating(s) && Next(cfg, s, Shell(ok)).Some?
    ensures
      var s' := Next(cfg, s, Shell(ok)).value;
      && Terminating(s') && s'.status != Ended(KilledByTerm)
      && (s'.status == Ended(CommandFailed) <==> IsMarkingFailure(cfg, s, Shell(ok)))
  {
    if HandlerDue(s) {
      HandlerKeepsInv(cfg, s, t, l);
    } else if s.pc < |cfg.script| {
      if s.busy || !Blocking(cfg.script[s.pc]) {
        CommandFailsExactly(cfg, s, ok, t, l);
      }
    }
  }

  lemma {:induction false} RunKeepsTerminating(cfg: Config, s: State, events: seq<Event>, t: nat, l: nat)
    requires Fits(cfg.script, t, l) && Inv(cfg, s, t, l) && Terminating(s)
    requires OneLife(events) && Run(cfg, s, events).Some?
    ensures
      var r := Run(cfg, s, events).value;
      && Terminating(r)
      && (r.status == Ended(KilledByTerm) <==>
          s.status == Ended(KilledByTerm) || (UntrappedTerm(cfg, s, events) && !cfg.pidOne))
      && (r.status == Ended(CommandFailed) <==> s.status == Ended(CommandFailed) || MarkingFails(cfg, s, events))
    decreases |events|
  {
    if events != [] {
      StepKeepsInv(cfg, s, events[0], t, l);
      StepKeepsTerminating(cfg, s, events[0], t, l);
      RunKeepsTerminating(cfg, Next(cfg, s, events[0]).value, events[1..], t, l);
    }
  }

  /** However many TERMs arrive and whatever the commands return, a run from the launch on has ended once the
      shell has taken 2 * Remaining + 1 steps, provided that handlers run at most once per command.  And a run
      that has ended has completed the script, with the touch at its end, exactly if the mkdir and the touch
      did not fail, no TERM arrived untrapped, unless the shell is PID 1, and, with nounset, no handler ran
      before the pid was known.  A `wait` may return any status, as it does for a child that a TERM ended. */
  lemma ShutdownTerminates(cfg: Config, s: State, events: seq<Event>)
    requires IsStartScript(cfg.script) && Reachable(cfg, s) && s.status.Running? && !s.child.NotStarted?
    requires OneLife(events) && Run(cfg, s, events).Some?
    ensures
      var r := Run(cfg, s, events).value;
      var handlers, commands := ShellSteps(cfg, s, events, true), ShellSteps(cfg, s, events, false);
      && (handlers <= commands + 1 && handlers + commands >= 2 * Remaining(cfg, s) + 1 ==> r.status.Ended?)
      && (r.status.Ended? ==>
            (r.status == Ended(Completed) <==>
              && !MarkingFails(cfg, s, events)
              && (cfg.pidOne || !UntrappedTerm(cfg, s, events))
              && !(cfg.nounset && r.log.early > 0)))
      && (IsMainScript(cfg.script) && r.status == Ended(Completed) ==> r.marker)
  {
    var t, l := ReachableInv(cfg, s);
    CommandsAreBounded(cfg, s, events, t, l);
    RunKeepsInv(cfg, s, events, t, l);
    RunKeepsTerminating(cfg, s, events, t, l);
  }

  // One command after the child's exit; only the two that leave the marker need to succeed.
  lemma CommandPassesAfterExit(cfg: Config, s: State, ok: bool, t: nat, l: nat) returns (s': State)
    requires Fits(cfg.script, t, l) && Inv(cfg, s, t, l) && Reachable(cfg, s)
    requires s.status.Running? && !s.pending && s.child.Exited? && l + 4 <= s.pc < |cfg.script|
    ensures Inv(cfg, s', t, l) && Reachable(cfg, s') && s'.status.Running? && !s'.pending && s'.child.Exited?
    ensures s'.pc == s.pc + 1 && s'.log == s.log
  {
    var c := cfg.script[s.pc];
    Positions(cfg.script, t, l, s.pc);
    s' := s;
    if Blocking(c) && !s.busy {
      ReachableExtends(cfg, s, Shell(true));
      StepKeepsInv(cfg, s, Shell(true), t, l);
      s' := s.(busy := true);
    }
    var status := ok || c in {MakeWatcherDir, TouchMarker};
    ReachableExtends(cfg, s', Shell(status));
    StepKeepsInv(cfg, s', Shell(status), t, l);
    CommandFailsExactly(cfg, s', status, t, l);
    CommandMovesOn(s', c, status);
    CommandSignals(s', c, status);
    CommandKeepsLog(s', c, status);
    s' := Complete(s', c, status);
  }

  lemma {:induction false} ScriptRunsOut(cfg: Config, s: State, ok: bool, t: nat, l: nat) returns (done: State)
    requires Fits(cfg.script, t, l) && Inv(cfg, s, t, l) && Reachable(cfg, s)
    requires s.status.Running? && !s.pending && s.child.Exited? && l + 4 <= s.pc
    ensures Reachable(cfg, done) && done.status == Ended(Completed) && done.child.Exited? && done.log == s.log
    decreases |cfg.script| - s.pc
  {
    if s.pc < |cfg.script| {
      var s' := CommandPassesAfterExit(cfg, s, ok, t, l);
      done := ScriptRunsOut(cfg, s', ok, t, l);
    } else {
      ReachableExtends(cfg, s, Shell(true));
      done := s.(status := Ended(Completed));
    }
  }

  // The child exits before the shell's first `wait`, or in its second one after a TERM.
  lemma ExitIsReachable(cfg: Config, term: bool, t: nat, l: nat) returns (s: State)
    requires Fits(cfg.script, t, l)
    ensures Reachable(cfg, s) && Inv(cfg, s, t, l)
    ensures s.status.Running? && !s.pending && s.child.Exited? && l + 4 <= s.pc
    ensures if term then s.log.caught > 0 && s.log.reached > 0 else s.log == History(0, 0, 0, 0, 0)
  {
    if term {
      s := SecondWaitIsReachable(cfg, t, l);
    } else {
      s := PointIsReachable(cfg, l + 4, t, l);
    }
    ReachableExtends(cfg, s, ChildExit);
    StepKeepsInv(cfg, s, ChildExit, t, l);
    s := s.(child := Exited);
  }

  /** Every start script does complete, with or without a TERM on the way and whatever status its waits
      return, and then a main script has made the marker, which a restart finds. */
  lemma CompletionIsReachable(cfg: Config, term: bool, ok: bool) returns (done: State)
    requires IsStartScript(cfg.script)
    ensures Reachable(cfg, done) && done.status == Ended(Completed) && done.child == Exited
    ensures if term then done.log.caught > 0 && done.log.reached > 0 else done.log == History(0, 0, 0, 0, 0)
    ensures IsMainScript(cfg.script) ==> done.marker && Reachable(cfg, Boot(Unset, false, true))
  {
    var t, l := StartScriptFits(cfg.script);
    var s := ExitIsReachable(cfg, term, t, l);
    done := ScriptRunsOut(cfg, s, ok, t, l);
    if IsMainScript(cfg.script) {
      CompletionLeavesMarker(cfg, done);
    }
  }

  lemma CompletionLeavesMarker(cfg: Config, done: State)
    requires IsMainScript(cfg.script) && Reachable(cfg, done) && done.status == Ended(Completed)
    ensures done.marker && Reachable(cfg, Boot(Unset, false, true))
  {
    MarkerNeverLies(cfg, done);
    ReachableExtends(cfg, done, Restart(Unset, false));
  }

  /** Only a `wait` for a living child can block the shell, and no `wait` blocks over a pending TERM. */
  lemma ShellBlocksOnlyOnChild(cfg: Config, s: State, ok: bool)
    requires IsStartScript(cfg.script) && Reachable(cfg, s) && s.status.Running?
    ensures Next(cfg, s, Shell(ok)) == None <==>
              s.busy && s.pc < |cfg.script| && cfg.script[s.pc] == WaitChild && s.child.Alive? && !s.pending
  {
    var t, l := ReachableInv(cfg, s);
    if s.pc < |cfg.script| {
      Positions(cfg.script, t, l, s.pc);
    }
  }

  ghost function Flood(n: nat): seq<Event> {
    if n == 0 then [] else [Term, Shell(true)] + Flood(n - 1)
  }

  /** The trap is set, the pid known and the shell between two commands. */
  ghost predicate Floodable(s: State) {
    s.status.Running? && s.trapped && !s.busy && !s.pending && s.pid.ChildPid? && !s.errexit
  }

  lemma {:induction false} FloodStarves(cfg: Config, s: State, n: nat)
    requires Floodable(s)
    ensures
      var r := Run(cfg, s, Flood(n));
      && r.Some? && r.value.pc == s.pc && r.value.status.Running?
      && ShellSteps(cfg, s, Flood(n), true) == n
      && ShellSteps(cfg, s, Flood(n), false) == 0
    decreases n
  {
    if n > 0 {
      var s1 := Next(cfg, s, Term).value;
      var s2 := Next(cfg, s1, Shell(true)).value;
      var rest := [Shell(true)] + Flood(n - 1);
      assert Flood(n)[1..] == rest && rest[1..] == Flood(n - 1);
      FloodStarves(cfg, s2, n - 1);
      assert Run(cfg, s1, rest) == Run(cfg, s2, Flood(n - 1));
      assert Run(cfg, s, Flood(n)) == Run(cfg, s1, rest);
    }
  }

  /** Why handlers must be limited: every start script gets to a point where TERMs that arrive before every
      command keep the shell in its place for any number of handler runs. */
  lemma HandlersCanStarveShutdown(cfg: Config) returns (s: State)
    requires IsStartScript(cfg.script)
    ensures Reachable(cfg, s) && s.status.Running? && s.child.Alive?
    ensures forall n: nat :: Run(cfg, s, Flood(n)).Some?
    ensures forall n: nat ::
              var r := Run(cfg, s, Flood(n)).value;
              && r.pc == s.pc && r.status.Running?
              && ShellSteps(cfg, s, Flood(n), true) == n && ShellSteps(cfg, s, Flood(n), false) == 0
  {
    var t, l := StartScriptFits(cfg.script);
    s := PointIsReachable(cfg, l + 3, t, l);
    forall n: nat
      ensures
        var r := Run(cfg, s, Flood(n));
        && r.Some? && r.value.pc == s.pc && r.value.status.Running?
        && ShellSteps(cfg, s, Flood(n), true) == n && ShellSteps(cfg, s, Flood(n), false) == 0
    {
      FloodStarves(cfg, s, n);
    }
  }
}
