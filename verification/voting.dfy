/**
 The voting rule shared by all three agent variants (MOPAC protocol): every
 offered bid the acceptance test passes gets one vote carrying the
 configured minimum and maximum power.
 */
module Voting {
  import opened Common

  /** A session parameter value as it arrives from the settings. */
  datatype ParamValue = IntValue(i: int) | BoolValue(b: bool) | OtherValue

  const MinPowerDefault: int := 2
  const MaxPowerDefault: int := 9999999

  /**
   `val if isinstance(val, int) else default` on `parameters.get(key)`:
   a missing key reads as None, and a Python bool is an int (True is 1).
   */
  function IntParam(params: map<string, ParamValue>, key: string, default: int): (r: int)
    ensures key !in params ==> r == default
    ensures key in params && params[key].OtherValue? ==> r == default
    ensures key in params && params[key].IntValue? ==> r == params[key].i
    ensures key in params && params[key].BoolValue? ==> r == (if params[key].b then 1 else 0)
  {
    if key !in params then default
    else match params[key]
      case IntValue(i) => i
      case BoolValue(b) => if b then 1 else 0
      case OtherValue => default
  }

  function MinPower(params: map<string, ParamValue>): int {
    IntParam(params, "minPower", MinPowerDefault)
  }

  function MaxPower(params: map<string, ParamValue>): int {
    IntParam(params, "maxPower", MaxPowerDefault)
  }

  datatype Vote = Vote(actor: PartyId, bid: Option<Bid>, minPower: int, maxPower: int)

  datatype Votes = Votes(actor: PartyId, votes: set<Vote>)

  /**
   The offered bids that pass `good`, in offer order, evaluating `good` left to
   right as the list comprehension does: the first failing test aborts.
   */
  function GoodBids(bids: seq<Option<Bid>>, good: Option<Bid> -> Result<bool>): (r: Result<seq<Option<Bid>>>)
    ensures r.Ok? <==> forall i :: 0 <= i < |bids| ==> good(bids[i]).Ok?
    ensures r.Err? ==> exists i :: 0 <= i < |bids| && good(bids[i]) == Err(r.fault)
    ensures r.Ok? ==> forall b :: b in r.value <==> b in bids && good(b) == Ok(true)
  {
    if |bids| == 0 then Ok([])
    else match good(bids[0])
      case Err(f) => Err(f)
      case Ok(keep) =>
        match GoodBids(bids[1..], good)
        case Err(f) => Err(f)
        case Ok(rest) => Ok(if keep then [bids[0]] + rest else rest)
  }

  /**
   `_vote`: one vote per offered bid that passes `good`, all with the
   configured powers; a failing test makes the whole vote fail.
   */
  function Ballot(me: PartyId, bids: seq<Option<Bid>>, good: Option<Bid> -> Result<bool>,
                  params: map<string, ParamValue>): (r: Result<Votes>)
    ensures r.Ok? <==> forall i :: 0 <= i < |bids| ==> good(bids[i]).Ok?
    ensures r.Ok? ==> r.value.actor == me
    ensures r.Ok? ==> forall v :: v in r.value.votes <==>
      v.actor == me && v.minPower == MinPower(params) && v.maxPower == MaxPower(params) &&
      v.bid in bids && good(v.bid) == Ok(true)
  {
    match GoodBids(bids, good)
    case Err(f) => Err(f)
    case Ok(kept) => Ok(Votes(me, set b | b in kept :: Vote(me, b, MinPower(params), MaxPower(params))))
  }
}
