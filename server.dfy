/** The simulation server's control state (src/server.py): the running and
    paused flags and the pause event driven by the front end's commands and by
    the simulation task, and the integer telemetry counters. */
module SimulationServer {
  import opened Common

  /** `simulation_running`, `simulation_paused`, whether `pause_event` is set
      ("go"), and whether `simulation_task` has ever been assigned. */
  datatype Flags = Flags(running: bool, paused: bool, go: bool, hasTask: bool)

  /** The "type" field of a command from the front end. */
  datatype Command =
    | StartSimulation(configFile: Option<string>)
    | StopSimulation
    | PauseSimulation
    | ResumeSimulation
    | RequestStats
    | Unknown

  /** What the server tells the front end in reply. */
  datatype Reply =
    | NoConfigFile
    | AlreadyRunning
    | Starting
    | Stopped
    | NothingRunning
    | Paused
    | Resumed
    | NotPaused
    | StatsSent
    | NoReply

  datatype Handled = Handled(flags: Flags, reply: Reply)

  /** How `start_simulation` ends: normally, with a missing config file, with
      another exception, or cancelled by a stop. */
  datatype Exit = Completed | ConfigNotFound | Failed | Cancelled

  const Initial: Flags := Flags(false, false, true, false)

  /** The pause event is cleared exactly while the simulation is paused. */
  predicate PauseInSync(f: Flags) {
    f.paused == !f.go
  }

  /** `handle_command`. Starting only creates the task; the task itself sets
      the running flag when it begins (`SimulationBegins`). */
  function Handle(f: Flags, c: Command): Handled {
    match c
    case StartSimulation(config) =>
      if !TruthyOpt(config) then Handled(f, NoConfigFile)
      else if f.running then Handled(f, AlreadyRunning)
      else Handled(f.(hasTask := true), Starting)
    case StopSimulation =>
      if f.running && f.hasTask then Handled(f.(running := false), Stopped)
      else Handled(f, NothingRunning)
    case PauseSimulation =>
      if f.running then Handled(f.(paused := true, go := false), Paused)
      else Handled(f, NothingRunning)
    case ResumeSimulation =>
      if f.running && f.paused then Handled(f.(paused := false, go := true), Resumed)
      else Handled(f, NotPaused)
    case RequestStats => Handled(f, StatsSent)
    case Unknown => Handled(f, NoReply)
  }

  /** The first statement of `start_simulation`'s `try`. */
  function Begin(f: Flags): Flags {
    f.(running := true)
  }

  /** The `finally` of `start_simulation`. Every exit reaches the same
      `finally`, so the flags it leaves do not depend on `exit`, which names
      the way out only to state that. */
  function Finish(f: Flags, exit: Exit): Flags {
    f.(running := false, paused := false, go := true)
  }

  /** Every command, the task's start and its end keep the pause event in step
      with the paused flag. */
  lemma EveryTransitionKeepsPauseInSync(f: Flags, c: Command, exit: Exit)
    requires PauseInSync(f)
    ensures PauseInSync(Handle(f, c).flags)
    ensures PauseInSync(Begin(f))
    ensures PauseInSync(Finish(f, exit))
  {
  }

  /** A start without a config file is refused first, even while running; a start
      while running is refused; neither changes any flag. An accepted start
      changes no flag but the task's. */
  lemma StartRefusals(f: Flags, config: Option<string>)
    ensures !TruthyOpt(config) ==> Handle(f, StartSimulation(config)) == Handled(f, NoConfigFile)
    ensures TruthyOpt(config) && f.running ==> Handle(f, StartSimulation(config)) == Handled(f, AlreadyRunning)
    ensures TruthyOpt(config) && !f.running ==>
      Handle(f, StartSimulation(config)) == Handled(f.(hasTask := true), Starting)
  {
  }

  /** Pausing takes effect only while running and is idempotent; resuming takes
      effect only while running and paused, and undoes a pause. */
  lemma PauseAndResume(f: Flags)
    requires PauseInSync(f)
    ensures !f.running ==> Handle(f, PauseSimulation).flags == f
    ensures var once := Handle(f, PauseSimulation).flags;
      Handle(once, PauseSimulation).flags == once
    ensures !(f.running && f.paused) ==> Handle(f, ResumeSimulation).flags == f
    ensures f.running && !f.paused ==>
      Handle(Handle(f, PauseSimulation).flags, ResumeSimulation).flags == f
  {
  }

  /** A stop clears only the running flag, and only when running with a task; a
      stop that cancels a paused simulation leaves it marked paused until the
      task's `finally` runs. */
  lemma StopClearsRunningOnly(f: Flags)
    ensures f.running && f.hasTask ==> Handle(f, StopSimulation) == Handled(f.(running := false), Stopped)
    ensures !(f.running && f.hasTask) ==> Handle(f, StopSimulation) == Handled(f, NothingRunning)
    ensures f.running && f.hasTask && f.paused ==>
      var g := Handle(f, StopSimulation).flags;
      !g.running && g.paused && Handle(g, ResumeSimulation).flags == g
  {
  }

  /** However the task ends, the server is left stopped, unpaused and with the
      pause event set, ready for a new start. */
  lemma FinishResetsOnEveryExit(f: Flags, exit: Exit, cfg: string)
    requires cfg != ""
    ensures Finish(f, exit) == Finish(f, Completed)
    ensures !Finish(f, exit).running && !Finish(f, exit).paused && Finish(f, exit).go
    ensures Handle(Finish(f, exit), StartSimulation(Some(cfg))).reply == Starting
  {
  }

  // ---------------------------------------------------------------------------
  // Counters
  // ---------------------------------------------------------------------------

  /** The count stored for a key, 0 when the key is absent. */
  function Get(found: map<string, nat>, id: string): nat {
    if id in found then found[id] else 0
  }

  /** `send_resource_discovered`: the first report of an id stores 1, later ones add 1. */
  function Discover(found: map<string, nat>, id: string): map<string, nat> {
    if id !in found then found[id := 1] else found[id := found[id] + 1]
  }

  /** The counters after a sequence of reports, in order. */
  function DiscoverAll(found: map<string, nat>, ids: seq<string>): map<string, nat> {
    if ids == [] then found else Discover(DiscoverAll(found, ids[..|ids| - 1]), ids[|ids| - 1])
  }

  /** How many times `id` occurs in `ids`. */
  function Occurrences(ids: seq<string>, id: string): nat {
    if ids == [] then 0 else Occurrences(ids[..|ids| - 1], id) + (if ids[|ids| - 1] == id then 1 else 0)
  }

  /** One report raises its own count by one and leaves every other count alone. */
  lemma DiscoverCountsOne(found: map<string, nat>, id: string, other: string)
    ensures id in Discover(found, id)
    ensures Get(Discover(found, id), id) == Get(found, id) + 1
    ensures other != id ==> (other in Discover(found, id) <==> other in found)
                             && Get(Discover(found, id), other) == Get(found, other)
  {
  }

  /** After any sequence of reports the count of each id is its old count plus the
      number of times it was reported, and an id has an entry exactly when it
      had one or was reported. */
  lemma {:induction false} DiscoverAllCountsOccurrences(found: map<string, nat>, ids: seq<string>, id: string)
    ensures Get(DiscoverAll(found, ids), id) == Get(found, id) + Occurrences(ids, id)
    ensures id in DiscoverAll(found, ids) <==> id in found || Occurrences(ids, id) > 0
  {
    if ids != [] {
      DiscoverAllCountsOccurrences(found, ids[..|ids| - 1], id);
      DiscoverCountsOne(DiscoverAll(found, ids[..|ids| - 1]), ids[|ids| - 1], id);
    }
  }

  /** Starting from no counts, a stored count is never 0. */
  lemma StoredCountsArePositive(ids: seq<string>, id: string)
    requires id in DiscoverAll(map[], ids)
    ensures DiscoverAll(map[], ids)[id] == Occurrences(ids, id) >= 1
  {
    DiscoverAllCountsOccurrences(map[], ids, id);
  }

  // ---------------------------------------------------------------------------
  // The server
  // ---------------------------------------------------------------------------

  class Server {
    var running: bool
    var paused: bool
    var go: bool
    var hasTask: bool
    var resourcesFound: map<string, nat>
    var hazards: nat

    function Control(): Flags
      reads this
    {
      Flags(running, paused, go, hasTask)
    }

    constructor ()
      ensures Control() == Initial && PauseInSync(Control())
      ensures resourcesFound == map[] && hazards == 0
    {
      running := false;
      paused := false;
      go := true;
      hasTask := false;
      resourcesFound := map[];
      hazards := 0;
    }

    method HandleCommand(c: Command) returns (reply: Reply)
      modifies this`running, this`paused, this`go, this`hasTask
      ensures Handled(Control(), reply) == Handle(old(Control()), c)
    {
      match c {
        case StartSimulation(config) =>
          if !TruthyOpt(config) {
            return NoConfigFile;
          }
          if running {
            return AlreadyRunning;
          }
          hasTask := true;
          reply := Starting;
        case StopSimulation =>
          if running && hasTask {
            running := false;
            reply := Stopped;
          } else {
            reply := NothingRunning;
          }
        case PauseSimulation =>
          if running {
            paused := true;
            go := false;
            reply := Paused;
          } else {
            reply := NothingRunning;
          }
        case ResumeSimulation =>
          if running && paused {
            paused := false;
            go := true;
            reply := Resumed;
          } else {
            reply := NotPaused;
          }
        case RequestStats =>
          reply := StatsSent;
        case Unknown =>
          reply := NoReply;
      }
    }

    /** `start_simulation` entering its `try`. */
    method SimulationBegins()
      modifies this`running
      ensures Control() == Begin(old(Control()))
    {
      running := true;
    }

    /** `start_simulation`'s `finally`. */
    method SimulationEnds(exit: Exit)
      modifies this`running, this`paused, this`go
      ensures Control() == Finish(old(Control()), exit)
    {
      running := false;
      paused := false;
      go := true;
    }

    method ResourceDiscovered(id: string)
      modifies this`resourcesFound
      ensures resourcesFound == Discover(old(resourcesFound), id)
    {
      if id !in resourcesFound {
        resourcesFound := resourcesFound[id := 1];
      } else {
        resourcesFound := resourcesFound[id := resourcesFound[id] + 1];
      }
    }

    method HazardDetected()
      modifies this`hazards
      ensures hazards == old(hazards) + 1
    {
      hazards := hazards + 1;
    }
  }
}
