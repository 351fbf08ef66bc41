/**
 The opponent classifier of the main agent variant: the record of received
 bids, the running count of conceder / hardliner / neutral moves, and the
 majority label the pattern generator adapts to.

 As written, the utility difference is taken after the new bid has been
 appended, so it compares the new bid with itself: the difference is always
 0 and the label depends only on the two thresholds.
 */
module Opponent {
  import opened Common

  datatype Label = Conceder | Hardliner | Neutral

  /** The dictionary keys of `_moveCounts`, in insertion order. */
  function LabelName(l: Label): string {
    match l
    case Conceder => "conceder"
    case Hardliner => "hardliner"
    case Neutral => "neutral"
  }

  /** `_receivedBids` and `_moveCounts`. */
  datatype Moves = Moves(received: seq<Option<Bid>>, conceder: nat, hardliner: nat, neutral: nat)

  const NoMoves: Moves := Moves([], 0, 0, 0)

  function CountOf(m: Moves, l: Label): nat {
    match l
    case Conceder => m.conceder
    case Hardliner => m.hardliner
    case Neutral => m.neutral
  }

  function Total(m: Moves): nat {
    m.conceder + m.hardliner + m.neutral
  }

  /** The classification rule: a rise above `epsilonHigher` concedes, a drop below `epsilonLower` holds firm. */
  function Classify(delta: real, epsilonHigher: real, epsilonLower: real): Label {
    if delta > epsilonHigher then Conceder
    else if delta < epsilonLower then Hardliner
    else Neutral
  }

  /** Adds one to the count of `l` and leaves the other counts alone. */
  function Increment(m: Moves, l: Label): (r: Moves)
    ensures r.received == m.received
    ensures CountOf(r, l) == CountOf(m, l) + 1
    ensures forall other :: other != l ==> CountOf(r, other) == CountOf(m, other)
  {
    match l
    case Conceder => m.(conceder := m.conceder + 1)
    case Hardliner => m.(hardliner := m.hardliner + 1)
    case Neutral => m.(neutral := m.neutral + 1)
  }

  /**
   `_updateMoves(epsilonHigher, epsilonLower)` for the last received bid
   `last`: the first call only records it; later calls record it and then
   classify `util(last) - util(receivedBids[-1])`, which reads the bid just
   appended. Asking the profile for the utility of None may raise.
   */
  function UpdateMoves(m: Moves, last: Option<Bid>, epsilonHigher: real, epsilonLower: real,
                       profile: Profile): (r: Result<Moves>)
    ensures r.Ok? ==> r.value.received == m.received + [last]
    ensures |m.received| == 0 ==> r == Ok(m.(received := [last]))
    ensures r.Err? <==> |m.received| > 0 && UtilityOf(profile, last).Err?
    ensures |m.received| > 0 && r.Ok? ==>
              r.value == Increment(m.(received := m.received + [last]), Classify(0.0, epsilonHigher, epsilonLower))
  {
    if |m.received| == 0 then
      assert m.received + [last] == [last];
      Ok(m.(received := m.received + [last]))
    else
      var received := m.received + [last];
      match UtilityOf(profile, last)
      case Err(f) => Err(f)
      case Ok(now) =>
        match UtilityOf(profile, received[|received| - 1])
        case Err(f) => Err(f)
        case Ok(before) =>
          var delta := now - before;
          Ok(Increment(m.(received := received), Classify(delta, epsilonHigher, epsilonLower)))
  }

  /** Feeds a run of last-received bids to `UpdateMoves`, one per turn. */
  function ObserveAll(m: Moves, bids: seq<Option<Bid>>, epsilonHigher: real, epsilonLower: real,
                      profile: Profile): Result<Moves>
    decreases |bids|
  {
    if |bids| == 0 then Ok(m)
    else match UpdateMoves(m, bids[0], epsilonHigher, epsilonLower, profile)
      case Err(f) => Err(f)
      case Ok(m') => ObserveAll(m', bids[1..], epsilonHigher, epsilonLower, profile)
  }

  /** Counts sum to one less than the number of received bids (none before the first). */
  predicate Balanced(m: Moves) {
    if |m.received| == 0 then Total(m) == 0 else Total(m) + 1 == |m.received|
  }

  /** How many of `bids` get classified when fed to `m`: all but the first when nothing was received yet. */
  function Classified(m: Moves, bids: seq<Option<Bid>>): nat {
    if |bids| == 0 then 0
    else if |m.received| == 0 then |bids| - 1
    else |bids|
  }

  /**
   Over any run of turns, the bids are recorded in order, every turn but the
   very first adds exactly one classification, and that classification is
   always the one for a difference of 0: its count grows by the number of
   classified bids and the other two counts stay put.
   */
  lemma {:induction false} ObserveAllCounts(m: Moves, bids: seq<Option<Bid>>, epsilonHigher: real,
                                            epsilonLower: real, profile: Profile)
    requires Balanced(m)
    ensures ObserveAll(m, bids, epsilonHigher, epsilonLower, profile).Ok? ==>
              var r := ObserveAll(m, bids, epsilonHigher, epsilonLower, profile).value;
              && r.received == m.received + bids
              && Balanced(r)
              && forall l :: CountOf(r, l) == CountOf(m, l) +
                               (if l == Classify(0.0, epsilonHigher, epsilonLower) then Classified(m, bids) else 0)
    decreases |bids|
  {
    if |bids| > 0 {
      match UpdateMoves(m, bids[0], epsilonHigher, epsilonLower, profile)
      case Err(_) =>
      case Ok(m') =>
        ObserveAllCounts(m', bids[1..], epsilonHigher, epsilonLower, profile);
        assert m.received + bids == m'.received + bids[1..];
    }
  }

  /**
   From the empty record (`NoMoves`: `_receivedBids = []`, every count 0), the
   first bid only records and each later one adds to the count for a
   difference of 0.
   */
  lemma FromNoMoves(m: Moves, bids: seq<Option<Bid>>, epsilonHigher: real, epsilonLower: real, profile: Profile)
    requires |m.received| == 0 && Total(m) == 0 && |bids| > 0
    ensures ObserveAll(m, bids, epsilonHigher, epsilonLower, profile).Ok? ==>
              var r := ObserveAll(m, bids, epsilonHigher, epsilonLower, profile).value;
              && r.received == bids
              && CountOf(r, Classify(0.0, epsilonHigher, epsilonLower)) == |bids| - 1
              && Total(r) == |bids| - 1
  {
    var res := ObserveAll(m, bids, epsilonHigher, epsilonLower, profile);
    ObserveAllCounts(m, bids, epsilonHigher, epsilonLower, profile);
    if res.Ok? {
      var r, zero := res.value, Classify(0.0, epsilonHigher, epsilonLower);
      assert m.received + bids == bids;
      assert Classified(m, bids) == |bids| - 1;
      assert CountOf(r, Conceder) == if zero == Conceder then |bids| - 1 else 0;
      assert CountOf(r, Hardliner) == if zero == Hardliner then |bids| - 1 else 0;
      assert CountOf(r, Neutral) == if zero == Neutral then |bids| - 1 else 0;
    }
  }

  /**
   `max(self._moveCounts, key=self._moveCounts.get)`: the label with the
   largest count, the earliest label in dictionary order among equals.
   */
  function Majority(m: Moves): (r: Label)
    ensures forall l :: CountOf(m, l) <= CountOf(m, r)
    ensures r == Hardliner ==> m.conceder < m.hardliner
    ensures r == Neutral ==> m.conceder < m.neutral && m.hardliner < m.neutral
  {
    if m.conceder >= m.hardliner && m.conceder >= m.neutral then Conceder
    else if m.hardliner >= m.neutral then Hardliner
    else Neutral
  }
}
