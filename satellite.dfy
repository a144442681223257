/** The satellite (src/agents/satellite.py), an earlier draft of the drone's
    Contract-Net initiator: it sweeps the map in steps of 100, raises a mission
    for an interesting area on its first visit, collects bids keyed by sender
    and picks the winner with an explicit strict-minimum loop. */
module SatelliteAgent {
  import opened Common
  import DroneAgent

  /** The satellite's scan step, in map units. */
  const ScanStep: int := 100

  // ---------------------------------------------------------------------------
  // Scanning
  // ---------------------------------------------------------------------------

  datatype ScanState = ScanState(pos: Pos, scanned: seq<Pos>, interesting: seq<Pos>)

  /** What one run of `ScanTerrain` leaves behind, and the mission it raises. */
  datatype ScanOutcome = ScanOutcome(state: ScanState, request: Option<Pos>)

  /** `ScanTerrain.run`: step the window; on a first visit record the position,
      and if the draw says the area is interesting, keep it and request a mission. */
  function Scan(s: ScanState, interesting: bool, length: int, height: int): ScanOutcome {
    var p := NextScan(s.pos, ScanStep, length, height);
    if p in s.scanned then ScanOutcome(s.(pos := p), None)
    else if !interesting then ScanOutcome(s.(pos := p, scanned := s.scanned + [p]), None)
    else ScanOutcome(ScanState(p, s.scanned + [p], s.interesting + [p]), Some(p))
  }

  /** The scan keeps the window on the map, never records an area twice, and raises
      a mission only for the new position on its first visit. */
  lemma ScanRecordsFirstVisitsOnly(s: ScanState, interesting: bool, length: int, height: int)
    requires InWindow(s.pos, length, height)
    requires NoDuplicates(s.scanned)
    ensures var o := Scan(s, interesting, length, height);
      && InWindow(o.state.pos, length, height)
      && NoDuplicates(o.state.scanned)
      && o.state.pos in o.state.scanned
      && o.state.scanned == AppendIfAbsent(s.scanned, o.state.pos)
      && (o.request.Some? <==> interesting && o.state.pos !in s.scanned)
      && (o.request.Some? ==> o.request.value == o.state.pos
                              && o.state.interesting == s.interesting + [o.state.pos])
      && (o.request.None? ==> o.state.interesting == s.interesting)
  {
    NextScanStaysInWindow(s.pos, ScanStep, length, height);
    AppendIfAbsentProperties(s.scanned, NextScan(s.pos, ScanStep, length, height));
  }

  // ---------------------------------------------------------------------------
  // Bids
  // ---------------------------------------------------------------------------

  /** `on_propose`: the bid is stored under its sender's address when it names a
      rover; a cost `float()` rejects makes the handler drop it. */
  function AfterPropose(props: seq<Entry<Bid>>, sender: Jid, body: Proposal): seq<Entry<Bid>> {
    match BidCost(body.cost)
    case None => props
    case Some(c) => if body.rover.Some? then Put(props, sender, Bid(c, body.rover.value)) else props
  }

  /** A bid naming a rover with a valid cost lands under its sender, replacing an
      earlier bid from the same sender in place; any other bid changes nothing. */
  lemma ProposeStoresBidsBySender(props: seq<Entry<Bid>>, sender: Jid, body: Proposal)
    requires UniqueKeys(props)
    ensures var r := AfterPropose(props, sender, body);
      && UniqueKeys(r)
      && (body.cost.CostInvalid? || body.rover.None? ==> r == props)
      && (!body.cost.CostInvalid? && body.rover.Some? ==>
            var stored := Bid(BidCost(body.cost).value, body.rover.value);
            && (body.cost.CostAbsent? ==> stored.cost == Infinite)
            && (forall i :: 0 <= i < |props| ==>
                  r[i] == (if props[i].key == sender then Entry(sender, stored) else props[i]))
            && (HasKey(props, sender) ==> |r| == |props|)
            && (!HasKey(props, sender) ==> r == props + [Entry(sender, stored)]))
  {
    if !body.cost.CostInvalid? && body.rover.Some? {
      var stored := Bid(BidCost(body.cost).value, body.rover.value);
      PutPlacesEntries(props, sender, stored);
      PutKeepsUniqueKeys(props, sender, stored);
      if !HasKey(props, sender) {
        assert AfterPropose(props, sender, body) == props + [Entry(sender, stored)];
      }
    }
  }

  // ---------------------------------------------------------------------------
  // Resolution
  // ---------------------------------------------------------------------------

  /** The bid the strict-minimum loop settles on: none when every cost is
      infinite (nothing is below the starting `float('inf')`); otherwise the
      first bid that no other undercuts. */
  function StrictMin(props: seq<Entry<Bid>>): (best: Option<nat>)
    ensures best.None? <==> forall i :: 0 <= i < |props| ==> props[i].val.cost == Infinite
    ensures best.Some? ==>
      && best.value < |props|
      && props[best.value].val.cost.Finite?
      && (forall i :: 0 <= i < |props| ==> !CostLess(props[i].val.cost, props[best.value].val.cost))
      && (forall i :: 0 <= i < best.value ==> CostLess(props[best.value].val.cost, props[i].val.cost))
  {
    if forall i :: 0 <= i < |props| ==> props[i].val.cost == Infinite then None
    else
      var w := DroneAgent.Cheapest(props);
      assert props[w].val.cost.Finite? by {
        var j :| 0 <= j < |props| && props[j].val.cost != Infinite;
        assert !CostLess(props[j].val.cost, props[w].val.cost);
      }
      Some(w)
  }

  /** The loop of `on_all_responses_received` (satellite.py:202-209). */
  method SelectBest(props: seq<Entry<Bid>>) returns (best: Option<nat>, minCost: Cost)
    ensures best == StrictMin(props)
    ensures best.None? ==> minCost == Infinite
    ensures best.Some? ==> minCost == props[best.value].val.cost
  {
    best := None;
    minCost := Infinite;
    var i := 0;
    while i < |props|
      invariant 0 <= i <= |props|
      invariant best.None? ==> minCost == Infinite && forall j :: 0 <= j < i ==> props[j].val.cost == Infinite
      invariant best.Some? ==> 0 < i && best.value == DroneAgent.Cheapest(props[..i])
                               && minCost == props[best.value].val.cost && minCost.Finite?
    {
      assert props[..i + 1][..i] == props[..i];
      if CostLess(props[i].val.cost, minCost) {
        minCost := props[i].val.cost;
        best := Some(i);
      }
      i := i + 1;
    }
    assert props[..i] == props;
    if best.Some? {
      assert exists j :: 0 <= j < |props| && props[j].val.cost != Infinite;
    }
  }

  /** The messages of the resolution: an accept for the winner if its key is
      non-empty (`if best_base:`), then a reject for every other bidder. */
  function Resolution(props: seq<Entry<Bid>>, target: Pos): seq<DroneAgent.Outgoing> {
    match StrictMin(props)
    case None => []
    case Some(w) =>
      if !Truthy(props[w].key) then []
      else [DroneAgent.Outgoing(DroneAgent.AcceptProposal, props[w].key, target, Some(props[w].val.rover))]
           + DroneAgent.Rejections(Losers(props, props[w].key), target)
  }

  /** With no finite bid, or when the winning key is the empty string (the
      else-branch of `if best_base:`), nothing is sent. Otherwise the winner gets
      exactly one accept and no reject, every other bidder exactly one reject and
      no accept.
      Where some bid is finite the satellite's loop picks the same bid as the
      drone's `min`. */
  lemma ResolutionAcceptsStrictMin(props: seq<Entry<Bid>>, target: Pos, k: Jid)
    requires UniqueKeys(props)
    ensures StrictMin(props).None? ==> Resolution(props, target) == []
    ensures StrictMin(props).Some? && !Truthy(props[StrictMin(props).value].key) ==>
      Resolution(props, target) == []
    ensures StrictMin(props).Some? ==> StrictMin(props).value == DroneAgent.Cheapest(props)
    ensures StrictMin(props).Some? && Truthy(props[StrictMin(props).value].key) ==>
      var w := StrictMin(props).value;
      var sent := Resolution(props, target);
      && DroneAgent.CountSent(sent, DroneAgent.AcceptProposal, k) == (if k == props[w].key then 1 else 0)
      && DroneAgent.CountSent(sent, DroneAgent.RejectProposal, k) == (if k != props[w].key && HasKey(props, k) then 1 else 0)
  {
    if StrictMin(props).Some? {
      DroneAgent.ResolutionAcceptsCheapestRejectsRest(props, target, k);
    }
  }

  // ---------------------------------------------------------------------------
  // The agent
  // ---------------------------------------------------------------------------

  class Satellite {
    const mapLength: int
    const mapHeight: int
    var scanPos: Pos
    var scannedAreas: seq<Pos>
    var areasOfInterest: seq<Pos>
    var proposals: seq<Entry<Bid>>

    ghost predicate Valid()
      reads this
    {
      NoDuplicates(scannedAreas) && UniqueKeys(proposals)
    }

    function Scanning(): ScanState
      reads this
    {
      ScanState(scanPos, scannedAreas, areasOfInterest)
    }

    constructor (position: Pos, mapLength: int, mapHeight: int)
      ensures Valid()
      ensures Scanning() == ScanState(position, [], []) && proposals == []
      ensures this.mapLength == mapLength && this.mapHeight == mapHeight
    {
      this.mapLength := mapLength;
      this.mapHeight := mapHeight;
      scanPos := position;
      scannedAreas := [];
      areasOfInterest := [];
      proposals := [];
    }

    /** `ScanTerrain.run`; `interesting` is the 5% random draw. */
    method ScanTick(interesting: bool) returns (request: Option<Pos>)
      requires Valid()
      modifies this`scanPos, this`scannedAreas, this`areasOfInterest
      ensures Valid()
      ensures ScanOutcome(Scanning(), request) == Scan(old(Scanning()), interesting, mapLength, mapHeight)
    {
      var x := scanPos.x + ScanStep as real;
      var y := scanPos.y;
      if x > mapLength as real {
        x := 0.0;
        y := y + ScanStep as real;
      }
      if y > mapHeight as real {
        y := 0.0;
      }
      scanPos := Pos(x, y);
      request := None;
      if scanPos !in scannedAreas {
        AppendIfAbsentProperties(scannedAreas, scanPos);
        scannedAreas := scannedAreas + [scanPos];
        if interesting {
          areasOfInterest := areasOfInterest + [scanPos];
          request := Some(scanPos);
        }
      }
    }

    method OnPropose(sender: Jid, body: Proposal)
      requires Valid()
      modifies this`proposals
      ensures Valid()
      ensures proposals == AfterPropose(old(proposals), sender, body)
    {
      var cost := BidCost(body.cost);
      if cost.Some? && body.rover.Some? {
        PutKeepsUniqueKeys(proposals, sender, Bid(cost.value, body.rover.value));
        proposals := Put(proposals, sender, Bid(cost.value, body.rover.value));
      }
    }

    method OnAllResponsesReceived(target: Pos) returns (sent: seq<DroneAgent.Outgoing>)
      requires Valid()
      modifies this`proposals
      ensures Valid()
      ensures sent == Resolution(old(proposals), target)
      ensures proposals == []
    {
      var props := proposals;
      proposals := [];
      sent := [];
      var best, minCost := SelectBest(props);
      if best.None? || !Truthy(props[best.value].key) {
        return;
      }
      var bestBase := props[best.value];
      var rejects := DroneAgent.RejectLosers(props, bestBase.key, target);
      sent := [DroneAgent.Outgoing(DroneAgent.AcceptProposal, bestBase.key, target, Some(bestBase.val.rover))] + rejects;
    }
  }
}
