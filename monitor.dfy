/**
  The tray application's monitoring: every tick looks for the League client
  and the game, and keeps Blitz running exactly while one of them runs. The
  tray's toggle switches monitoring on and off, and "Set Blitz Path" picks
  the executable that is launched. Process queries are the tick's inputs;
  the commands it would issue are its output.
 */
module BlitzMonitor {
  import opened Wrappers

  /** The processes a tick looks for. */
  datatype Process =
    | LeagueClient   // image name `LeagueClient.exe`
    | LeagueGame     // image name `League of Legends.exe`
    | Blitz          // image name `Blitz.exe`

  /** One external command a tick issues, in the order it issues them. */
  datatype Effect =
    | Query(process: Process)   // `tasklist /nh /fi "imagename eq <name>" | find /i "<name>"`
    | Launch(path: string)      // `start "" "<path>"`
    | KillBlitz                 // `taskkill /im Blitz.exe /f`

  /** A command that starts or stops a process, as opposed to a query. */
  predicate IsCommand(e: Effect) {
    !e.Query?
  }

  /** The launch and kill commands of a trace, in order. */
  function Commands(effects: seq<Effect>): seq<Effect> {
    if effects == [] then []
    else (if IsCommand(effects[0]) then [effects[0]] else []) + Commands(effects[1..])
  }

  /** Whether Blitz runs once the commands of a trace have taken effect. */
  function RunningAfter(effects: seq<Effect>, running: bool): bool
    decreases |effects|
  {
    if effects == [] then running
    else
      var last := effects[|effects| - 1];
      var before := RunningAfter(effects[..|effects| - 1], running);
      match last
      case Query(_) => before
      case Launch(_) => true
      case KillBlitz => false
  }

  /** The one group the application hard-codes: condition ANY over the client and the game. */
  function Desired(clientRunning: bool, gameRunning: bool): bool {
    clientRunning || gameRunning
  }

  /**
    Reference reconciliation for Blitz under the sync action: launch it when it
    should run and does not, kill it when it runs and should not.
   */
  function Reconcile(desired: bool, running: bool, path: string): (r: seq<Effect>)
    ensures |r| <= 1 && forall i :: 0 <= i < |r| ==> IsCommand(r[i])
    ensures r == [] <==> desired == running
    ensures forall i :: 0 <= i < |r| && r[i].Launch? ==> r[i].path == path
  {
    if desired && !running then [Launch(path)]
    else if !desired && running then [KillBlitz]
    else []
  }

  lemma {:induction false} CommandsAppend(a: seq<Effect>, b: seq<Effect>)
    ensures Commands(a + b) == Commands(a) + Commands(b)
  {
    if a == [] {
      assert a + b == b;
    } else {
      assert (a + b)[0] == a[0];
      assert (a + b)[1..] == a[1..] + b;
      CommandsAppend(a[1..], b);
    }
  }

  /** A trace of queries alone holds no command. */
  lemma {:induction false} QueriesOnly(effects: seq<Effect>)
    requires forall i :: 0 <= i < |effects| ==> effects[i].Query?
    ensures Commands(effects) == []
  {
    if effects != [] {
      QueriesOnly(effects[1..]);
    }
  }

  /** Queries followed by at most one command: the command is the trace's only one, it comes last, and it alone decides whether Blitz runs. */
  lemma QueriesThenCommand(queries: seq<Effect>, command: seq<Effect>, running: bool)
    requires forall i :: 0 <= i < |queries| ==> queries[i].Query?
    requires |command| <= 1 && forall i :: 0 <= i < |command| ==> IsCommand(command[i])
    ensures Commands(queries + command) == command
    ensures forall i :: 0 <= i < |queries + command| && IsCommand((queries + command)[i]) ==> i == |queries + command| - 1
    ensures RunningAfter(queries + command, running) == RunningAfter(command, running)
    ensures forall p :: Query(p) in queries + command <==> Query(p) in queries
  {
    QueriesOnly(queries);
    CommandsAppend(queries, command);
    if command != [] {
      assert command[1..] == [];
    }
    RunningAfterCommands(queries + command, running);
    RunningAfterCommands(command, running);
  }

  /** Queries do not change whether Blitz runs: only the commands of a trace matter. */
  lemma {:induction false} RunningAfterCommands(effects: seq<Effect>, running: bool)
    ensures RunningAfter(effects, running) == RunningAfter(Commands(effects), running)
    decreases |effects|
  {
    if effects != [] {
      var init := effects[..|effects| - 1];
      var last := effects[|effects| - 1];
      assert effects == init + [last];
      CommandsAppend(init, [last]);
      assert Commands([last]) == if IsCommand(last) then [last] else [];
      RunningAfterCommands(init, running);
      var c := Commands(init);
      if IsCommand(last) {
        assert (c + [last])[..|c + [last]| - 1] == c;
      } else {
        assert c + [] == c;
      }
    }
  }

  /** One reconciliation issues at most one command, never both a launch and a kill, and leaves Blitz in the desired state. */
  lemma ReconcileConverges(desired: bool, running: bool, path: string)
    ensures |Reconcile(desired, running, path)| <= 1
    ensures RunningAfter(Reconcile(desired, running, path), running) == desired
  {
    var r := Reconcile(desired, running, path);
    if r != [] {
      assert r[..0] == [];
    }
  }

  /** Reconciling again, once the first command has taken effect, issues nothing. */
  lemma ReconcileIdempotent(desired: bool, running: bool, path: string)
    ensures Reconcile(desired, RunningAfter(Reconcile(desired, running, path), running), path) == []
  {
    ReconcileConverges(desired, running, path);
  }

  /** The queries of a tick with monitoring on: the client, the game only when the client is not found, then Blitz. */
  function TickQueries(clientRunning: bool): seq<Effect> {
    [Query(LeagueClient)] + (if clientRunning then [] else [Query(LeagueGame)]) + [Query(Blitz)]
  }

  /**
    The trace of a tick with monitoring on starts with the client query, holds
    the game query exactly when the client is not found, always queries Blitz,
    issues only the reconciliation's command and that last, and leaves Blitz
    running exactly when the client or the game runs.
   */
  lemma TickTraceShape(clientRunning: bool, gameRunning: bool, blitzRunning: bool, path: string)
    ensures
      var command := Reconcile(Desired(clientRunning, gameRunning), blitzRunning, path);
      var t := TickQueries(clientRunning) + command;
      && |t| >= 2 && t[0] == Query(LeagueClient)
      && (Query(LeagueGame) in t <==> !clientRunning)
      && Query(Blitz) in t
      && (forall i :: 0 <= i < |t| && IsCommand(t[i]) ==> i == |t| - 1)
      && Commands(t) == command
      && RunningAfter(t, blitzRunning) == Desired(clientRunning, gameRunning)
  {
    var command := Reconcile(Desired(clientRunning, gameRunning), blitzRunning, path);
    var queries := TickQueries(clientRunning);
    QueriesThenCommand(queries, command, blitzRunning);
    ReconcileConverges(Desired(clientRunning, gameRunning), blitzRunning, path);
    assert Query(Blitz) in queries;
    assert Query(LeagueGame) in queries <==> !clientRunning;
  }

  /** The path used at startup: the saved `blitzPath` when it is a non-empty string, otherwise the default. */
  function StartupPath(defaultPath: string, saved: Option<string>): (p: string)
    ensures saved.Some? && saved.value != "" ==> p == saved.value
    ensures (saved.None? || saved.value == "") ==> p == defaultPath
  {
    match saved
    case Some(s) => if s != "" then s else defaultPath
    case None => defaultPath
  }

  class Monitor {
    /** Whether ticks do anything; the tray checkbox. */
    var monitoring: bool
    /** The executable a launch starts. */
    var blitzPath: string

    /**
      Startup: monitoring is on, and `blitzPath` is the saved one when
      the configuration file holds a non-empty one, otherwise `defaultPath`.
     */
    constructor (defaultPath: string, saved: Option<string>)
      ensures monitoring
      ensures blitzPath == StartupPath(defaultPath, saved)
    {
      monitoring := true;
      blitzPath := StartupPath(defaultPath, saved);
    }

    /** `ensureBlitzIsRunning`: queries Blitz, then launches it unless it is already running. */
    method EnsureBlitzIsRunning(blitzRunning: bool) returns (effects: seq<Effect>)
      ensures effects == [Query(Blitz)] + Reconcile(true, blitzRunning, blitzPath)
    {
      effects := [Query(Blitz)];
      if !blitzRunning {
        effects := effects + [Launch(blitzPath)];
      }
    }

    /**
      The chain of `exec` callbacks of a tick: the client query, the game
      query only when the client is not found, then `ensureBlitzIsRunning`, or
      the Blitz query and a kill when neither runs.
     */
    method QueryChain(clientRunning: bool, gameRunning: bool, blitzRunning: bool) returns (effects: seq<Effect>)
      ensures effects == TickQueries(clientRunning) + Reconcile(Desired(clientRunning, gameRunning), blitzRunning, blitzPath)
    {
      if clientRunning {
        var ensure := EnsureBlitzIsRunning(blitzRunning);
        effects := [Query(LeagueClient)] + ensure;
      } else if gameRunning {
        var ensure := EnsureBlitzIsRunning(blitzRunning);
        effects := [Query(LeagueClient), Query(LeagueGame)] + ensure;
      } else {
        effects := [Query(LeagueClient), Query(LeagueGame), Query(Blitz)];
        if blitzRunning {
          effects := effects + [KillBlitz];
        }
      }
    }

    /**
      One tick of the monitoring interval, given what the process queries
      would find. Off, it issues nothing. On, it queries the client, the game
      only when the client is not found, and Blitz, and then issues at most one
      command, after every query, which brings Blitz to `client || game`.
     */
    method Tick(clientRunning: bool, gameRunning: bool, blitzRunning: bool) returns (effects: seq<Effect>)
      ensures effects == if monitoring then TickQueries(clientRunning) + Reconcile(Desired(clientRunning, gameRunning), blitzRunning, blitzPath) else []
      ensures monitoring ==> |effects| >= 2 && effects[0] == Query(LeagueClient)
      ensures Query(LeagueGame) in effects <==> monitoring && !clientRunning
      ensures Query(Blitz) in effects <==> monitoring
      ensures forall i :: 0 <= i < |effects| && IsCommand(effects[i]) ==> i == |effects| - 1
      ensures Commands(effects) == if monitoring then Reconcile(Desired(clientRunning, gameRunning), blitzRunning, blitzPath) else []
      ensures monitoring ==> RunningAfter(effects, blitzRunning) == Desired(clientRunning, gameRunning)
    {
      effects := [];
      if monitoring {
        effects := QueryChain(clientRunning, gameRunning, blitzRunning);
        TickTraceShape(clientRunning, gameRunning, blitzRunning, blitzPath);
      } else {
        assert Commands(effects) == [];
      }
    }

    /** "Toggle Monitoring": flips `monitoring`; `startsInterval` says whether `startMonitoring` is called, which is on a switch to on. */
    method Toggle() returns (startsInterval: bool)
      modifies this
      ensures monitoring == !old(monitoring)
      ensures startsInterval == monitoring
      ensures blitzPath == old(blitzPath)
    {
      monitoring := !monitoring;
      startsInterval := monitoring;
    }

    /**
      "Set Blitz Path": `selection` is what the file dialog returned (`None`
      when cancelled). A non-empty selection sets `blitzPath` to its first
      path, which is also what gets saved; anything else changes nothing.
     */
    method SetBlitzPath(selection: Option<seq<string>>) returns (saved: Option<string>)
      modifies this
      ensures selection.Some? && |selection.value| > 0 ==> blitzPath == selection.value[0] && saved == Some(blitzPath)
      ensures !(selection.Some? && |selection.value| > 0) ==> blitzPath == old(blitzPath) && saved.None?
      ensures monitoring == old(monitoring)
    {
      saved := None;
      if selection.Some? && |selection.value| > 0 {
        blitzPath := selection.value[0];
        saved := Some(blitzPath);
      }
    }
  }

  /**
    "Set Blitz Path" on a running monitor, then a restart. `file` is the
    `blitzPath` the configuration file held before; a save replaces it. A
    non-empty path picked in the dialog is the one the restarted monitor
    launches; a cancelled dialog leaves the restart with what `file` gives.
   */
  method SetPathThenRestart(m: Monitor, selection: Option<seq<string>>, defaultPath: string, file: Option<string>)
    returns (restarted: Monitor)
    modifies m
    ensures fresh(restarted) && restarted.monitoring
    ensures selection.Some? && |selection.value| > 0 && selection.value[0] != "" ==>
      restarted.blitzPath == m.blitzPath == selection.value[0]
    ensures !(selection.Some? && |selection.value| > 0) ==> restarted.blitzPath == StartupPath(defaultPath, file)
    ensures selection.Some? && |selection.value| > 0 && selection.value[0] == "" ==> restarted.blitzPath == defaultPath
    ensures m.monitoring == old(m.monitoring)
  {
    var saved := m.SetBlitzPath(selection);
    var fileAfter := if saved.Some? then saved else file;
    restarted := new Monitor(defaultPath, fileAfter);
  }
}
