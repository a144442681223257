/** The scouting drone (src/agents/drone.py): it sweeps a scan window over the
    map and, for each area of interest, runs the initiator side of a
    Contract-Net round with the bases it believes have rovers. Messages are
    records: what the drone receives is given as a sequence, what it sends is
    returned as a sequence. */
module DroneAgent {
  import opened Common

  /** The refusal reason that makes the drone park a base. */
  const NoRoversAvailable: string := "no_rovers_available"
  /** The inform payload that makes the drone take a parked base back. */
  const HasRoversAvailable: string := "has_rovers_available"

  /** A message received while a round is open, by performative. */
  datatype RoundMessage =
    | Propose(sender: Jid, body: Proposal)
    | Refuse(sender: Jid, reason: string)
    | NotUnderstood(sender: Jid)
    | Failure(sender: Jid)
    | Inform(sender: Jid, info: string)
    | Unhandled(sender: Jid, performative: string)

  datatype Performative = Cfp | AcceptProposal | RejectProposal

  /** A message the drone sends: performative, recipient, the target of the
      round and, for an accept or a reject, the rover named in the bid. */
  datatype Outgoing = Outgoing(performative: Performative, to: Jid, target: Pos, rover: Option<Jid>)

  /** `list.remove` of an address the list does not hold (ValueError). */
  datatype DroneError = NotInList(jid: Jid)

  /** The drone's negotiation state: the bases it asks, the bases it parked
      because they had no rovers, and the bids of the open round. */
  datatype Registry = Registry(bases: seq<Jid>, unavailable: seq<Jid>, proposals: seq<Entry<Bid>>)

  /** Every base the drone knows of, available or parked. */
  function Known(reg: Registry): multiset<Jid> {
    multiset(reg.bases) + multiset(reg.unavailable)
  }

  /** What the scan behaviour schedules next. */
  datatype NextBehaviour = KeepScanning | RecheckLater | RequestMission(target: Pos)

  // ---------------------------------------------------------------------------
  // Scanning
  // ---------------------------------------------------------------------------

  function Sq(r: real): real {
    r * r
  }

  /** `in_scan_radius`: the squared distance from the drone to the scan
      position is at most the squared scan radius. */
  predicate InScanRadius(drone: Pos, scan: Pos, radius: real) {
    Sq(drone.x - scan.x) + Sq(drone.y - scan.y) <= Sq(radius)
  }

  lemma SqOfAbs(r: real)
    ensures Sq(Abs(r)) == Sq(r) && 0.0 <= Sq(r)
  {
  }

  lemma SqStrictlyMonotone(a: real, b: real)
    requires 0.0 <= a < b
    ensures Sq(a) < Sq(b)
  {
    assert (b - a) * (b + a) == b * b - a * a;
    PositiveProduct(b - a, b + a);
  }

  lemma PositiveProduct(p: real, q: real)
    requires 0.0 < p && 0.0 < q
    ensures 0.0 < p * q
  {
  }

  /** Inside the scan disc, each offset is at most the radius. */
  lemma InScanRadiusBoundsOffsets(drone: Pos, scan: Pos, radius: real)
    requires InScanRadius(drone, scan, radius)
    ensures Abs(drone.x - scan.x) <= Abs(radius)
    ensures Abs(drone.y - scan.y) <= Abs(radius)
  {
    var dx, dy := drone.x - scan.x, drone.y - scan.y;
    SqOfAbs(dx);
    SqOfAbs(dy);
    SqOfAbs(radius);
    if Abs(dx) > Abs(radius) {
      SqStrictlyMonotone(Abs(radius), Abs(dx));
    }
    if Abs(dy) > Abs(radius) {
      SqStrictlyMonotone(Abs(radius), Abs(dy));
    }
  }

  /** A scan position whose offsets sum to at most the radius is inside the disc. */
  lemma InScanRadiusContainsDiamond(drone: Pos, scan: Pos, radius: real)
    requires Abs(drone.x - scan.x) + Abs(drone.y - scan.y) <= Abs(radius)
    ensures InScanRadius(drone, scan, radius)
  {
    var ax, ay := Abs(drone.x - scan.x), Abs(drone.y - scan.y);
    SqOfAbs(drone.x - scan.x);
    SqOfAbs(drone.y - scan.y);
    SqOfAbs(radius);
    assert Sq(ax + ay) == Sq(ax) + 2.0 * ax * ay + Sq(ay);
    assert 0.0 <= ax * ay;
    if ax + ay < Abs(radius) {
      SqStrictlyMonotone(ax + ay, Abs(radius));
    }
  }

  // ---------------------------------------------------------------------------
  // Base registry
  // ---------------------------------------------------------------------------

  /** `list.remove(x)`: drop the first occurrence of `x`. */
  function RemoveFirst(s: seq<Jid>, x: Jid): (r: seq<Jid>)
    requires x in s
    ensures |r| == |s| - 1
    ensures multiset(r) == multiset(s) - multiset{x}
  {
    if s[0] == x then
      assert s == [s[0]] + s[1..];
      s[1..]
    else
      assert s == [s[0]] + s[1..];
      [s[0]] + RemoveFirst(s[1..], x)
  }

  /** Where `list.remove` cuts: the first occurrence of `x`. */
  lemma {:induction false} FirstOccurrence(s: seq<Jid>, x: Jid) returns (i: nat)
    requires x in s
    ensures i < |s| && s[i] == x && x !in s[..i]
    ensures RemoveFirst(s, x) == s[..i] + s[i + 1..]
  {
    if s[0] == x {
      i := 0;
    } else {
      assert s == [s[0]] + s[1..];
      assert x in s[1..];
      var j := FirstOccurrence(s[1..], x);
      i := j + 1;
      assert s[..i] == [s[0]] + s[1..][..j];
      assert s[i + 1..] == s[1..][j + 1..];
      calc {
        RemoveFirst(s, x);
        [s[0]] + RemoveFirst(s[1..], x);
        [s[0]] + (s[1..][..j] + s[1..][j + 1..]);
        s[..i] + s[i + 1..];
      }
    }
  }

  /** `list.remove` takes out the first occurrence and keeps the order of the rest. */
  lemma RemoveFirstDropsFirstOccurrence(s: seq<Jid>, x: Jid)
    requires x in s
    ensures exists i :: 0 <= i < |s| && s[i] == x && x !in s[..i] && RemoveFirst(s, x) == s[..i] + s[i + 1..]
  {
    var i := FirstOccurrence(s, x);
  }

  /** Removing an address appended to a list that did not hold it gives the list back. */
  lemma {:induction false} RemoveFirstOfAppended(s: seq<Jid>, x: Jid)
    requires x !in s
    ensures RemoveFirst(s + [x], x) == s
  {
    if s != [] {
      assert (s + [x])[1..] == s[1..] + [x];
      RemoveFirstOfAppended(s[1..], x);
      assert s == [s[0]] + s[1..];
    }
  }

  /** `on_refuse`: a refusal for lack of rovers moves the sender from the
      available list to the end of the parked list. */
  function AfterRefuse(reg: Registry, sender: Jid, reason: string): Result<Registry, DroneError> {
    if reason != NoRoversAvailable then Ok(reg)
    else if sender !in reg.bases then Err(NotInList(sender))
    else Ok(reg.(bases := RemoveFirst(reg.bases, sender), unavailable := reg.unavailable + [sender]))
  }

  /** The `has_rovers_available` inform: the sender leaves the parked list and
      goes back to the end of the available list. */
  function AfterBaseAvailable(reg: Registry, sender: Jid, info: string): Result<Registry, DroneError> {
    if info != HasRoversAvailable then Ok(reg)
    else if sender !in reg.unavailable then Err(NotInList(sender))
    else Ok(reg.(unavailable := RemoveFirst(reg.unavailable, sender), bases := reg.bases + [sender]))
  }

  /** `on_propose`: the bid is stored under the "base" field of its body when
      that field and "rover" are both present; a cost `float()` rejects makes
      the handler drop the bid. */
  function AfterPropose(reg: Registry, body: Proposal): Registry {
    match BidCost(body.cost)
    case None => reg
    case Some(c) =>
      if body.base.Some? && body.rover.Some?
      then reg.(proposals := Put(reg.proposals, body.base.value, Bid(c, body.rover.value)))
      else reg
  }

  /** One reply of the round, dispatched on its performative. An inform calls
      the coroutine `on_inform` without awaiting it, so it does nothing. */
  function Receive(reg: Registry, m: RoundMessage): Result<Registry, DroneError> {
    match m
    case Propose(_, body) => Ok(AfterPropose(reg, body))
    case Refuse(sender, reason) => AfterRefuse(reg, sender, reason)
    case NotUnderstood(_) => Ok(reg)
    case Failure(_) => Ok(reg)
    case Inform(_, _) => Ok(reg)
    case Unhandled(_, _) => Ok(reg)
  }

  /** The registry after the replies, and the exception that ended the round early. */
  datatype Collected = Collected(reg: Registry, error: Option<DroneError>)

  /** The receive loop of a round over its replies, in arrival order. */
  function Collect(reg: Registry, replies: seq<RoundMessage>): Collected
    decreases |replies|
  {
    if replies == [] then Collected(reg, None)
    else match Receive(reg, replies[0])
      case Err(e) => Collected(reg, Some(e))
      case Ok(r) => Collect(r, replies[1..])
  }

  /** `RecheckBaseAvailability.run`: every parked base becomes available again. */
  function Recheck(reg: Registry): Registry {
    reg.(bases := reg.bases + reg.unavailable, unavailable := [])
  }

  /** A refusal for lack of rovers moves exactly the sender, keeping the number of
      known bases; a refusal from an address not in the list is the
      ValueError of `list.remove`; any other reason changes nothing. */
  lemma RefuseMovesSender(reg: Registry, sender: Jid, reason: string)
    ensures reason != NoRoversAvailable ==> AfterRefuse(reg, sender, reason) == Ok(reg)
    ensures reason == NoRoversAvailable && sender !in reg.bases ==>
            AfterRefuse(reg, sender, reason) == Err(NotInList(sender))
    ensures reason == NoRoversAvailable && sender in reg.bases ==>
            var r := AfterRefuse(reg, sender, reason).value;
            && multiset(r.bases) == multiset(reg.bases) - multiset{sender}
            && r.unavailable == reg.unavailable + [sender]
            && r.proposals == reg.proposals
            && |r.bases| + |r.unavailable| == |reg.bases| + |reg.unavailable|
            && Known(r) == Known(reg)
  {
  }

  /** No reply, no availability inform and no recheck loses or invents a base. */
  lemma {:induction false} CollectKeepsKnownBases(reg: Registry, replies: seq<RoundMessage>)
    ensures Known(Collect(reg, replies).reg) == Known(reg)
    ensures var r := Collect(reg, replies).reg;
      |r.bases| + |r.unavailable| == |reg.bases| + |reg.unavailable|
    decreases |replies|
  {
    if replies != [] {
      match Receive(reg, replies[0])
      case Err(e) =>
      case Ok(r) =>
        if replies[0].Refuse? {
          RefuseMovesSender(reg, replies[0].sender, replies[0].reason);
        }
        CollectKeepsKnownBases(r, replies[1..]);
    }
  }

  /** The availability inform is the inverse move of a refusal for lack of rovers:
      the base goes back to the available list, and nothing is lost. */
  lemma BaseAvailableUndoesRefuse(reg: Registry, sender: Jid)
    requires sender in reg.bases && sender !in reg.unavailable
    ensures var parked := AfterRefuse(reg, sender, NoRoversAvailable).value;
      && AfterBaseAvailable(parked, sender, HasRoversAvailable).Ok?
      && var back := AfterBaseAvailable(parked, sender, HasRoversAvailable).value;
      && back.unavailable == reg.unavailable
      && multiset(back.bases) == multiset(reg.bases)
      && Known(back) == Known(reg)
  {
    var parked := AfterRefuse(reg, sender, NoRoversAvailable).value;
    assert sender in parked.unavailable by { assert parked.unavailable[|reg.unavailable|] == sender; }
    RemoveFirstOfAppended(reg.unavailable, sender);
  }

  /** After a recheck no base is parked, the available list is the old one followed
      by the old parked one, and every known base is available. */
  lemma RecheckRestoresEveryBase(reg: Registry)
    ensures Recheck(reg).unavailable == []
    ensures Known(Recheck(reg)) == Known(reg)
    ensures forall b :: b in Known(reg) ==> b in Recheck(reg).bases
  {
    forall b | b in Known(reg) ensures b in Recheck(reg).bases {
      assert b in reg.bases || b in reg.unavailable;
    }
  }

  /** The round's own dispatch of an inform (drone.py:219-220) calls the
      coroutine `on_inform` at :351 without awaiting it, so it changes nothing;
      the same inform handled by `ReceiveMessages` moves the base back. */
  lemma InformDuringRoundIsDropped(reg: Registry, sender: Jid)
    requires sender in reg.unavailable
    ensures Receive(reg, Inform(sender, HasRoversAvailable)) == Ok(reg)
    ensures AfterBaseAvailable(reg, sender, HasRoversAvailable).Ok?
    ensures sender in AfterBaseAvailable(reg, sender, HasRoversAvailable).value.bases
  {
    var r := AfterBaseAvailable(reg, sender, HasRoversAvailable).value;
    assert r.bases[|reg.bases|] == sender;
  }

  /** One reply of a round as the drone as a whole handles it. `ReceiveMessages`
      has no template, so it gets its own copy of every reply; it ignores all but
      an inform, which it handles with `AfterBaseAvailable` (drone.py:385-393).
      The copy is taken to be handled before the round's next reply. */
  function ReceiveWithListener(reg: Registry, m: RoundMessage): Result<Registry, DroneError> {
    if m.Inform? then AfterBaseAvailable(reg, m.sender, m.info) else Receive(reg, m)
  }

  /** Counting `ReceiveMessages`' copy, a base that refused for lack of rovers and
      then announces rovers within the same round is available again, and no base
      is lost or invented; every other reply is handled by the round alone. */
  lemma ListenerRestoresBaseDuringRound(reg: Registry, sender: Jid, m: RoundMessage)
    requires sender in reg.bases && sender !in reg.unavailable
    ensures !m.Inform? ==> ReceiveWithListener(reg, m) == Receive(reg, m)
    ensures var parked := ReceiveWithListener(reg, Refuse(sender, NoRoversAvailable)).value;
      && sender in parked.unavailable
      && ReceiveWithListener(parked, Inform(sender, HasRoversAvailable)).Ok?
      && var back := ReceiveWithListener(parked, Inform(sender, HasRoversAvailable)).value;
      && sender in back.bases && back.unavailable == reg.unavailable && Known(back) == Known(reg)
  {
    BaseAvailableUndoesRefuse(reg, sender);
    var parked := AfterRefuse(reg, sender, NoRoversAvailable).value;
    var back := AfterBaseAvailable(parked, sender, HasRoversAvailable).value;
    assert back.bases[|parked.bases|] == sender;
  }

  /** A bid is stored exactly when its cost parses and it names a base and a
      rover; a missing cost is stored as infinite; it lands under its base,
      overwriting an earlier bid from that base in place. */
  lemma ProposeStoresValidBids(reg: Registry, body: Proposal)
    requires UniqueKeys(reg.proposals)
    ensures var r := AfterPropose(reg, body);
      && r.bases == reg.bases && r.unavailable == reg.unavailable
      && UniqueKeys(r.proposals)
      && (body.cost.CostInvalid? || body.base.None? || body.rover.None? ==> r == reg)
      && (!body.cost.CostInvalid? && body.base.Some? && body.rover.Some? ==>
            var stored := Bid(BidCost(body.cost).value, body.rover.value);
            && (body.cost.CostAbsent? ==> stored.cost == Infinite)
            && (forall i :: 0 <= i < |reg.proposals| ==>
                  r.proposals[i] == (if reg.proposals[i].key == body.base.value
                                     then Entry(body.base.value, stored) else reg.proposals[i]))
            && (HasKey(reg.proposals, body.base.value) ==> |r.proposals| == |reg.proposals|)
            && (!HasKey(reg.proposals, body.base.value) ==>
                  r.proposals == reg.proposals + [Entry(body.base.value, stored)]))
  {
    if !body.cost.CostInvalid? && body.base.Some? && body.rover.Some? {
      var stored := Bid(BidCost(body.cost).value, body.rover.value);
      PutPlacesEntries(reg.proposals, body.base.value, stored);
      PutKeepsUniqueKeys(reg.proposals, body.base.value, stored);
      var r := AfterPropose(reg, body);
      if !HasKey(reg.proposals, body.base.value) {
        assert r.proposals == reg.proposals + [Entry(body.base.value, stored)];
      }
    }
  }

  // ---------------------------------------------------------------------------
  // Resolution
  // ---------------------------------------------------------------------------

  /** `min(proposals.items(), key=cost)`: the first bid whose cost no other bid
      undercuts (Python's `min` replaces its candidate only on a strict `<`). */
  function Cheapest(props: seq<Entry<Bid>>): (w: nat)
    requires props != []
    ensures w < |props|
    ensures forall i :: 0 <= i < |props| ==> !CostLess(props[i].val.cost, props[w].val.cost)
    ensures forall i :: 0 <= i < w ==> CostLess(props[w].val.cost, props[i].val.cost)
  {
    if |props| == 1 then 0
    else
      var p := props[..|props| - 1];
      var w := Cheapest(p);
      assert forall i :: 0 <= i < |p| ==> p[i] == props[i];
      if CostLess(props[|props| - 1].val.cost, props[w].val.cost) then |props| - 1 else w
  }

  /** The reject messages for the losing bids, in dictionary order. */
  function Rejections(losers: seq<Entry<Bid>>, target: Pos): seq<Outgoing> {
    seq(|losers|, i requires 0 <= i < |losers| =>
      Outgoing(RejectProposal, losers[i].key, target, Some(losers[i].val.rover)))
  }

  /** `on_all_responses_received`: nothing without bids; otherwise accept the
      cheapest bid and reject every other one — unless the winning key is the
      empty string, which `if best_base:` treats as no winner. */
  function Resolution(props: seq<Entry<Bid>>, target: Pos): seq<Outgoing> {
    if props == [] then []
    else
      var best := props[Cheapest(props)];
      if !Truthy(best.key) then []
      else [Outgoing(AcceptProposal, best.key, target, Some(best.val.rover))]
           + Rejections(Losers(props, best.key), target)
  }

  /** How many sent messages have performative `perf` and recipient `to`. */
  function CountSent(sent: seq<Outgoing>, perf: Performative, to: Jid): nat {
    if sent == [] then 0
    else CountSent(sent[..|sent| - 1], perf, to)
         + (if sent[|sent| - 1].performative == perf && sent[|sent| - 1].to == to then 1 else 0)
  }

  lemma {:induction false} CountSentAppend(a: seq<Outgoing>, b: seq<Outgoing>, perf: Performative, to: Jid)
    ensures CountSent(a + b, perf, to) == CountSent(a, perf, to) + CountSent(b, perf, to)
  {
    if b != [] {
      assert (a + b)[..|a + b| - 1] == a + b[..|b| - 1];
      CountSentAppend(a, b[..|b| - 1], perf, to);
    } else {
      assert a + b == a;
    }
  }

  lemma {:induction false} RejectionsCount(losers: seq<Entry<Bid>>, target: Pos, to: Jid)
    ensures CountSent(Rejections(losers, target), RejectProposal, to) == CountKey(losers, to)
    ensures CountSent(Rejections(losers, target), AcceptProposal, to) == 0
  {
    if losers != [] {
      var p := losers[..|losers| - 1];
      RejectionsCount(p, target, to);
      assert Rejections(losers, target)[..|losers| - 1] == Rejections(p, target);
    }
  }

  lemma RejectionsAppend(losers: seq<Entry<Bid>>, e: Entry<Bid>, target: Pos)
    ensures Rejections(losers + [e], target)
            == Rejections(losers, target) + [Outgoing(RejectProposal, e.key, target, Some(e.val.rover))]
  {
  }

  /** The round's outcome: the accepted bid's cost is at most every stored cost and
      it is the first such bid; the winner gets exactly one accept and no reject;
      every other bidder gets exactly one reject and no accept; nobody else hears
      anything. Without bids, or when the cheapest bid's key is the empty string
      (the else-branch of `if best_base:`), nothing is sent. */
  lemma ResolutionAcceptsCheapestRejectsRest(props: seq<Entry<Bid>>, target: Pos, k: Jid)
    requires UniqueKeys(props)
    ensures props == [] ==> Resolution(props, target) == []
    ensures props != [] && !Truthy(props[Cheapest(props)].key) ==> Resolution(props, target) == []
    ensures props != [] && Truthy(props[Cheapest(props)].key) ==>
      var w := Cheapest(props);
      var sent := Resolution(props, target);
      && sent[0] == Outgoing(AcceptProposal, props[w].key, target, Some(props[w].val.rover))
      && (forall i :: 0 <= i < |props| ==> !CostLess(props[i].val.cost, props[w].val.cost))
      && (forall i :: 0 <= i < w ==> CostLess(props[w].val.cost, props[i].val.cost))
      && CountSent(sent, AcceptProposal, k) == (if k == props[w].key then 1 else 0)
      && CountSent(sent, RejectProposal, k) == (if k != props[w].key && HasKey(props, k) then 1 else 0)
  {
    if props != [] && Truthy(props[Cheapest(props)].key) {
      var w := Cheapest(props);
      var accept := Outgoing(AcceptProposal, props[w].key, target, Some(props[w].val.rover));
      var losers := Losers(props, props[w].key);
      CountSentAppend([accept], Rejections(losers, target), AcceptProposal, k);
      CountSentAppend([accept], Rejections(losers, target), RejectProposal, k);
      assert [accept][..0] == [];
      RejectionsCount(losers, target, k);
      LosersCount(props, props[w].key, k);
    }
  }

  /** The reject loop of the resolution: one reject per bid not from the winner,
      in dictionary order. */
  method RejectLosers(props: seq<Entry<Bid>>, winner: Jid, target: Pos) returns (rejects: seq<Outgoing>)
    ensures rejects == Rejections(Losers(props, winner), target)
  {
    rejects := [];
    var i := 0;
    while i < |props|
      invariant 0 <= i <= |props|
      invariant rejects == Rejections(Losers(props[..i], winner), target)
    {
      assert props[..i + 1][..i] == props[..i];
      if props[i].key != winner {
        RejectionsAppend(Losers(props[..i], winner), props[i], target);
        rejects := rejects + [Outgoing(RejectProposal, props[i].key, target, Some(props[i].val.rover))];
      }
      i := i + 1;
    }
    assert props[..i] == props;
  }

  // ---------------------------------------------------------------------------
  // A whole round
  // ---------------------------------------------------------------------------

  /** One call for proposals per available base, in list order. */
  function Cfps(bases: seq<Jid>, target: Pos): seq<Outgoing> {
    seq(|bases|, i requires 0 <= i < |bases| => Outgoing(Cfp, bases[i], target, None))
  }

  datatype RoundResult = RoundResult(reg: Registry, sent: seq<Outgoing>, error: Option<DroneError>)

  /** `RequestAgentForMission.run`: CFPs to the available bases, the replies in
      order, then the resolution, which clears the bids. A failed `list.remove`
      ends the round at once: no resolution, bids kept. */
  function Round(reg: Registry, target: Pos, replies: seq<RoundMessage>): RoundResult {
    var c := Collect(reg, replies);
    if c.error.Some? then RoundResult(c.reg, Cfps(reg.bases, target), c.error)
    else RoundResult(c.reg.(proposals := []), Cfps(reg.bases, target) + Resolution(c.reg.proposals, target), None)
  }

  /** Every available base gets one CFP; a completed round leaves no bids behind,
      whether or not any were made, and never loses a known base. */
  lemma RoundClearsBidsAndKeepsBases(reg: Registry, target: Pos, replies: seq<RoundMessage>)
    ensures var r := Round(reg, target, replies);
      && r.sent[..|reg.bases|] == Cfps(reg.bases, target)
      && (forall i :: 0 <= i < |reg.bases| ==> r.sent[i].performative == Cfp && r.sent[i].to == reg.bases[i])
      && (r.error.None? ==> r.reg.proposals == [])
      && Known(r.reg) == Known(reg)
  {
    CollectKeepsKnownBases(reg, replies);
  }

  // ---------------------------------------------------------------------------
  // The agent
  // ---------------------------------------------------------------------------

  class Drone {
    const position: Pos
    const scanRadius: real
    const mapLength: int
    const mapHeight: int
    /** SCAN_MAP_SIZE from the settings module. */
    const scanMapSize: int
    var bases: seq<Jid>
    var unavailable: seq<Jid>
    var proposals: seq<Entry<Bid>>
    var areasOfInterest: seq<Pos>
    var scanPos: Pos

    ghost predicate Valid()
      reads this
    {
      scanMapSize != 0 && UniqueKeys(proposals)
    }

    function State(): Registry
      reads this
    {
      Registry(bases, unavailable, proposals)
    }

    constructor (position: Pos, knownBases: seq<Jid>, scanRadius: real,
                 mapLength: int, mapHeight: int, scanMapSize: int)
      requires scanMapSize != 0
      ensures Valid()
      ensures State() == Registry(knownBases, [], [])
      ensures this.position == position && this.scanRadius == scanRadius
      ensures this.mapLength == mapLength && this.mapHeight == mapHeight
      ensures this.scanMapSize == scanMapSize
      ensures areasOfInterest == [] && scanPos == position
    {
      this.position := position;
      this.scanRadius := scanRadius;
      this.mapLength := mapLength;
      this.mapHeight := mapHeight;
      this.scanMapSize := scanMapSize;
      bases := knownBases;
      unavailable := [];
      proposals := [];
      areasOfInterest := [];
      scanPos := position;
    }

    /** `ScanTerrain.run`: step the window by `map.length // SCAN_MAP_SIZE`;
        `interesting` is the 25% random draw. */
    method ScanTick(interesting: bool) returns (next: NextBehaviour)
      requires Valid()
      modifies this`scanPos, this`areasOfInterest
      ensures scanPos == NextScan(old(scanPos), FloorDiv(mapLength, scanMapSize), mapLength, mapHeight)
      ensures interesting && InScanRadius(position, scanPos, scanRadius) ==>
                areasOfInterest == old(areasOfInterest) + [scanPos] &&
                next == (if bases == [] then RecheckLater else RequestMission(scanPos))
      ensures !(interesting && InScanRadius(position, scanPos, scanRadius)) ==>
                areasOfInterest == old(areasOfInterest) && next == KeepScanning
    {
      var rate := FloorDiv(mapLength, scanMapSize);
      scanPos := NextScan(scanPos, rate, mapLength, mapHeight);
      next := KeepScanning;
      if interesting && InScanRadius(position, scanPos, scanRadius) {
        areasOfInterest := areasOfInterest + [scanPos];
        if bases == [] {
          next := RecheckLater;
        } else {
          next := RequestMission(scanPos);
        }
      }
    }

    method OnRefuse(sender: Jid, reason: string) returns (error: Option<DroneError>)
      requires Valid()
      modifies this`bases, this`unavailable
      ensures Valid()
      ensures match AfterRefuse(old(State()), sender, reason)
              case Ok(r) => State() == r && error == None
              case Err(e) => State() == old(State()) && error == Some(e)
    {
      error := None;
      if reason == NoRoversAvailable {
        if sender !in bases {
          error := Some(NotInList(sender));
          return;
        }
        bases := RemoveFirst(bases, sender);
        unavailable := unavailable + [sender];
      }
    }

    method OnPropose(body: Proposal)
      requires Valid()
      modifies this`proposals
      ensures Valid()
      ensures State() == AfterPropose(old(State()), body)
    {
      var cost := BidCost(body.cost);
      if cost.Some? && body.base.Some? && body.rover.Some? {
        PutKeepsUniqueKeys(proposals, body.base.value, Bid(cost.value, body.rover.value));
        proposals := Put(proposals, body.base.value, Bid(cost.value, body.rover.value));
      }
    }

    method OnAllResponsesReceived(target: Pos) returns (sent: seq<Outgoing>)
      requires Valid()
      modifies this`proposals
      ensures Valid()
      ensures sent == Resolution(old(proposals), target)
      ensures proposals == []
    {
      var props := proposals;
      proposals := [];
      sent := [];
      if props == [] {
        return;
      }
      var best := props[Cheapest(props)];
      if !Truthy(best.key) {
        return;
      }
      var rejects := RejectLosers(props, best.key, target);
      sent := [Outgoing(AcceptProposal, best.key, target, Some(best.val.rover))] + rejects;
    }

    /** `RequestAgentForMission.run` over the replies that arrive in the window. */
    method RunRound(target: Pos, replies: seq<RoundMessage>) returns (sent: seq<Outgoing>, error: Option<DroneError>)
      requires Valid()
      modifies this`bases, this`unavailable, this`proposals
      ensures Valid()
      ensures RoundResult(State(), sent, error) == Round(old(State()), target, replies)
    {
      sent := [];
      var i := 0;
      while i < |bases|
        invariant 0 <= i <= |bases|
        invariant sent == Cfps(bases[..i], target)
        invariant State() == old(State())
      {
        sent := sent + [Outgoing(Cfp, bases[i], target, None)];
        i := i + 1;
      }
      assert bases[..i] == bases;
      error := None;
      var n := 0;
      while n < |replies|
        invariant 0 <= n <= |replies|
        invariant Valid()
        invariant sent == Cfps(old(bases), target)
        invariant error == None
        invariant Collect(State(), replies[n..]) == Collect(old(State()), replies)
      {
        assert replies[n..][1..] == replies[n + 1..];
        assert replies[n..][0] == replies[n];
        match replies[n] {
          case Propose(_, body) =>
            OnPropose(body);
          case Refuse(s, reason) =>
            ghost var before := State();
            error := OnRefuse(s, reason);
            if error.Some? {
              assert AfterRefuse(before, s, reason) == Err(error.value);
              assert Collect(before, replies[n..]) == Collected(State(), error);
              return;
            }
          case NotUnderstood(_) =>
          case Failure(_) =>
          case Inform(_, _) =>
          case Unhandled(_, _) =>
        }
        n := n + 1;
      }
      assert replies[n..] == [];
      assert Collect(old(State()), replies) == Collected(State(), None);
      var resolution := OnAllResponsesReceived(target);
      sent := sent + resolution;
    }

    /** The inform branch of `ReceiveMessages.run` (the same logic as the
        synchronous `on_inform` at drone.py:241-258, which the coroutine of the
        same name shadows). */
    method OnBaseAvailable(sender: Jid, info: string) returns (error: Option<DroneError>)
      requires Valid()
      modifies this`bases, this`unavailable
      ensures Valid()
      ensures match AfterBaseAvailable(old(State()), sender, info)
              case Ok(r) => State() == r && error == None
              case Err(e) => State() == old(State()) && error == Some(e)
    {
      error := None;
      if info == HasRoversAvailable {
        if sender !in unavailable {
          error := Some(NotInList(sender));
          return;
        }
        unavailable := RemoveFirst(unavailable, sender);
        bases := bases + [sender];
      }
    }

    /** `RecheckBaseAvailability.run`, after its 30-second sleep. */
    method RecheckBases()
      requires Valid()
      modifies this`bases, this`unavailable
      ensures Valid()
      ensures State() == Recheck(old(State()))
    {
      bases := bases + unavailable;
      unavailable := [];
    }
  }
}
