/** The base (src/agents/base.py): two FIFO queues of idle drones and rovers,
    the missions it has handed out and the resource reports it has received,
    driven by one message at a time. */
module BaseAgent {
  import opened Common

  /** A received message: its performative, its sender's address and the
      fields of its already-parsed body that the base reads. */
  datatype Message = Message(performative: string, sender: Jid, target: Option<Pos>, report: string)

  /** The pair recorded in `active_missions`. */
  datatype Assignment = Assignment(drone: Jid, rover: Jid)

  /** The `inform` the base sends to the assigned drone. */
  datatype Notice = Notice(to: Jid, target: Option<Pos>, rover: Jid)

  datatype BaseState = BaseState(drones: seq<Jid>, rovers: seq<Jid>,
                                 missions: map<Option<Pos>, Assignment>, reports: seq<string>)

  /** What a handler leaves behind: the new state and the notice it sent, if any. */
  datatype Outcome = Outcome(state: BaseState, notice: Option<Notice>)

  /** The result of `popleft` guarded by an emptiness test: the agent, and the rest. */
  datatype Selection = Selection(agent: Option<Jid>, rest: seq<Jid>)

  /** `select_drone` / `select_rover`: nothing from an empty queue; otherwise the
      front, with the rest of the queue left in order behind it. */
  function Select(q: seq<Jid>): (r: Selection)
    ensures r.agent.None? <==> q == []
    ensures r.agent.None? ==> r.rest == q
    ensures r.agent.Some? ==> [r.agent.value] + r.rest == q
  {
    if q == [] then Selection(None, q) else Selection(Some(q[0]), q[1..])
  }

  /** Popping keeps a duplicate-free queue duplicate-free, and the popped agent
      is no longer queued. */
  lemma SelectKeepsNoDuplicates(q: seq<Jid>)
    requires NoDuplicates(q)
    ensures NoDuplicates(Select(q).rest)
    ensures Select(q).agent.Some? ==> Select(q).agent.value !in Select(q).rest
  {
    if q != [] {
      forall k | 0 <= k < |q| - 1 ensures q[1..][k] != q[0] {
        assert q[k + 1] != q[0];
      }
    }
  }

  /** The `request` branch: pop both queues, then assign only if both pops gave
      a non-empty address (`if not drone or not rover`). */
  function Request(s: BaseState, target: Option<Pos>): Outcome {
    var d := Select(s.drones);
    var r := Select(s.rovers);
    var popped := s.(drones := d.rest, rovers := r.rest);
    if !TruthyOpt(d.agent) || !TruthyOpt(r.agent) then Outcome(popped, None)
    else Outcome(popped.(missions := s.missions[target := Assignment(d.agent.value, r.agent.value)]),
                 Some(Notice(d.agent.value, target, r.agent.value)))
  }

  /** `ManageMissions.run` for one received message. Every handler sees the
      sender's address cut at its first '@'. */
  function Step(s: BaseState, m: Message): Outcome {
    var sender := ShortName(m.sender);
    if m.performative == "request" then Request(s, m.target)
    else if m.performative == "inform_done" then Outcome(s.(drones := AppendIfAbsent(s.drones, sender)), None)
    else if m.performative == "inform_success" then Outcome(s.(rovers := AppendIfAbsent(s.rovers, sender)), None)
    else if m.performative == "inform_resource" then Outcome(s.(reports := s.reports + [m.report]), None)
    else Outcome(s, None)
  }

  predicate QueuesDuplicateFree(s: BaseState) {
    NoDuplicates(s.drones) && NoDuplicates(s.rovers)
  }

  /** No message puts an agent twice into a queue. */
  lemma StepKeepsQueuesDuplicateFree(s: BaseState, m: Message)
    requires QueuesDuplicateFree(s)
    ensures QueuesDuplicateFree(Step(s, m).state)
  {
    SelectKeepsNoDuplicates(s.drones);
    SelectKeepsNoDuplicates(s.rovers);
    AppendIfAbsentProperties(s.drones, ShortName(m.sender));
    AppendIfAbsentProperties(s.rovers, ShortName(m.sender));
  }

  /** A request served from two non-empty queues with non-empty fronts records
      the two former fronts under the target, changes no other mission, informs
      the drone, and leaves both queues as their old tails. */
  lemma RequestAssignsFronts(s: BaseState, m: Message)
    requires m.performative == "request"
    requires s.drones != [] && s.rovers != [] && s.drones[0] != "" && s.rovers[0] != ""
    ensures var o := Step(s, m);
      && o.state.missions[m.target] == Assignment(s.drones[0], s.rovers[0])
      && (forall t :: t in s.missions && t != m.target ==> t in o.state.missions && o.state.missions[t] == s.missions[t])
      && o.state.missions.Keys == s.missions.Keys + {m.target}
      && [s.drones[0]] + o.state.drones == s.drones
      && [s.rovers[0]] + o.state.rovers == s.rovers
      && o.state.reports == s.reports
      && o.notice == Some(Notice(s.drones[0], m.target, s.rovers[0]))
  {
  }

  /** A request finding either queue empty records no mission and sends nothing,
      yet still takes the front off the other queue if it has one. */
  lemma RequestWithEmptyQueueRecordsNothing(s: BaseState, m: Message)
    requires m.performative == "request"
    requires s.drones == [] || s.rovers == []
    ensures var o := Step(s, m);
      && o.state.missions == s.missions
      && o.notice == None
      && o.state.drones == (if s.drones == [] then [] else s.drones[1..])
      && o.state.rovers == (if s.rovers == [] then [] else s.rovers[1..])
      && o.state.reports == s.reports
  {
  }

  /** A completion from a drone (rover) re-queues the sender's short name at the
      back of the drone (rover) queue unless it is already there, and touches
      nothing else. */
  lemma CompletionRequeuesShortName(s: BaseState, m: Message)
    requires m.performative == "inform_done" || m.performative == "inform_success"
    ensures var o := Step(s, m);
      var j := ShortName(m.sender);
      && o.notice == None
      && o.state.missions == s.missions && o.state.reports == s.reports
      && (m.performative == "inform_done" ==>
            && o.state.rovers == s.rovers
            && j in o.state.drones
            && o.state.drones == (if j in s.drones then s.drones else s.drones + [j]))
      && (m.performative == "inform_success" ==>
            && o.state.drones == s.drones
            && j in o.state.rovers
            && o.state.rovers == (if j in s.rovers then s.rovers else s.rovers + [j]))
  {
    AppendIfAbsentProperties(s.drones, ShortName(m.sender));
    AppendIfAbsentProperties(s.rovers, ShortName(m.sender));
  }

  /** A resource report is appended once; any other performative changes nothing. */
  lemma ReportsAndUnknownMessages(s: BaseState, m: Message)
    ensures m.performative == "inform_resource" ==>
      Step(s, m) == Outcome(s.(reports := s.reports + [m.report]), None)
    ensures m.performative !in {"request", "inform_done", "inform_success", "inform_resource"} ==>
      Step(s, m) == Outcome(s, None)
  {
  }

  // ---------------------------------------------------------------------------
  // Findings
  // ---------------------------------------------------------------------------

  /** Every agent the base still accounts for: queued, or named in a mission. */
  predicate DroneAccounted(s: BaseState, j: Jid) {
    j in s.drones || exists t :: t in s.missions && s.missions[t].drone == j
  }

  /** The defect at base.py:98-102: a request with an idle drone and no idle rover
      pops the drone and then gives up, so the base no longer knows that drone. */
  lemma RequestLosesDrone()
    ensures var s := BaseState(["d1@x"], [], map[], []);
      var o := Step(s, Message("request", "sat@x", Some(Pos(1.0, 1.0)), ""));
      && DroneAccounted(s, "d1@x")
      && !DroneAccounted(o.state, "d1@x")
  {
    var s := BaseState(["d1@x"], [], map[], []);
    assert "d1@x" in s.drones;
    var o := Step(s, Message("request", "sat@x", Some(Pos(1.0, 1.0)), ""));
    assert o.state.drones == [];
    assert o.state.missions == map[];
  }

  /** The request as evidently intended: pop only when both queues can serve. */
  function RequestChecked(s: BaseState, target: Option<Pos>): Outcome {
    if s.drones == [] || s.rovers == [] || s.drones[0] == "" || s.rovers[0] == "" then Outcome(s, None)
    else Outcome(s.(drones := s.drones[1..], rovers := s.rovers[1..],
                    missions := s.missions[target := Assignment(s.drones[0], s.rovers[0])]),
                 Some(Notice(s.drones[0], target, s.rovers[0])))
  }

  /** The checked request loses no agent: an unserved request changes nothing,
      and a served one moves exactly one drone and one rover from the queues into
      the mission it records. Where both queues can serve it agrees with the
      request as written. */
  lemma RequestCheckedConservesAgents(s: BaseState, target: Option<Pos>)
    ensures var o := RequestChecked(s, target);
      && (o.notice.None? ==> o.state == s)
      && (o.notice.Some? ==>
            var a := o.state.missions[target];
            && multiset(o.state.drones) + multiset{a.drone} == multiset(s.drones)
            && multiset(o.state.rovers) + multiset{a.rover} == multiset(s.rovers)
            && o == Request(s, target))
  {
    if !(s.drones == [] || s.rovers == [] || s.drones[0] == "" || s.rovers[0] == "") {
      assert s.drones == [s.drones[0]] + s.drones[1..];
      assert s.rovers == [s.rovers[0]] + s.rovers[1..];
    }
  }

  /** The defect at base.py:88 and :117: the queue holds full addresses, the
      completion re-queues the short name, and the same drone is queued twice. */
  lemma CompletionQueuesDroneTwice()
    ensures var s := BaseState(["d1@x"], [], map[], []);
      Step(s, Message("inform_done", "d1@x", None, "")).state.drones == ["d1@x", "d1"]
  {
    ShortNameOfFullAddress();
  }

  lemma ShortNameOfFullAddress()
    ensures ShortName("d1@x") == "d1"
  {
    assert "d1@x"[..2] == "d1";
    assert ShortName("d1@x"[2..]) == "";
  }

  /** The completion as evidently intended: re-queue the sender's full address. */
  function CompleteChecked(s: BaseState, m: Message): BaseState
    requires m.performative == "inform_done" || m.performative == "inform_success"
  {
    if m.performative == "inform_done" then s.(drones := AppendIfAbsent(s.drones, m.sender))
    else s.(rovers := AppendIfAbsent(s.rovers, m.sender))
  }

  /** A completion from an agent that is still queued leaves the queues alone, and
      the agent ends up queued exactly once. */
  lemma CompleteCheckedQueuesOnce(s: BaseState, m: Message)
    requires m.performative == "inform_done" || m.performative == "inform_success"
    requires QueuesDuplicateFree(s)
    ensures var r := CompleteChecked(s, m);
      && QueuesDuplicateFree(r)
      && (m.performative == "inform_done" ==>
            m.sender in r.drones && (m.sender in s.drones ==> r == s) && r.rovers == s.rovers)
      && (m.performative == "inform_success" ==>
            m.sender in r.rovers && (m.sender in s.rovers ==> r == s) && r.drones == s.drones)
  {
    AppendIfAbsentProperties(s.drones, m.sender);
    AppendIfAbsentProperties(s.rovers, m.sender);
  }

  // ---------------------------------------------------------------------------
  // The agent
  // ---------------------------------------------------------------------------

  class Base {
    var drones: seq<Jid>
    var rovers: seq<Jid>
    var missions: map<Option<Pos>, Assignment>
    var reports: seq<string>

    function State(): BaseState
      reads this
    {
      BaseState(drones, rovers, missions, reports)
    }

    constructor (knownDrones: seq<Jid>, knownRovers: seq<Jid>)
      ensures State() == BaseState(knownDrones, knownRovers, map[], [])
    {
      drones := knownDrones;
      rovers := knownRovers;
      missions := map[];
      reports := [];
    }

    method SelectDrone() returns (drone: Option<Jid>)
      modifies this`drones
      ensures Selection(drone, drones) == Select(old(drones))
    {
      if drones == [] {
        return None;
      }
      drone := Some(drones[0]);
      drones := drones[1..];
    }

    method SelectRover() returns (rover: Option<Jid>)
      modifies this`rovers
      ensures Selection(rover, rovers) == Select(old(rovers))
    {
      if rovers == [] {
        return None;
      }
      rover := Some(rovers[0]);
      rovers := rovers[1..];
    }

    method MarkDroneAvailable(jid: Jid)
      modifies this`drones
      ensures drones == AppendIfAbsent(old(drones), jid)
    {
      if jid !in drones {
        drones := drones + [jid];
      }
    }

    method MarkRoverAvailable(jid: Jid)
      modifies this`rovers
      ensures rovers == AppendIfAbsent(old(rovers), jid)
    {
      if jid !in rovers {
        rovers := rovers + [jid];
      }
    }

    /** `ManageMissions.run` once a message has arrived. */
    method Handle(m: Message) returns (notice: Option<Notice>)
      modifies this
      ensures Outcome(State(), notice) == Step(old(State()), m)
    {
      notice := None;
      var sender := ShortName(m.sender);
      if m.performative == "request" {
        var drone := SelectDrone();
        var rover := SelectRover();
        if !TruthyOpt(drone) || !TruthyOpt(rover) {
          return;
        }
        missions := missions[m.target := Assignment(drone.value, rover.value)];
        notice := Some(Notice(drone.value, m.target, rover.value));
      } else if m.performative == "inform_done" {
        MarkDroneAvailable(sender);
      } else if m.performative == "inform_success" {
        MarkRoverAvailable(sender);
      } else if m.performative == "inform_resource" {
        reports := reports + [m.report];
      }
    }
  }
}
