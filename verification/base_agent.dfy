/**
 The base PonPoko agent variant: accept the last received bid when it lies
 in the band, otherwise offer the first bid of the bid list that does, and
 when none does, the last bid scanned (the loop variable keeps its final
 value). Its pattern module is not part of this model: the pattern slot
 holds whatever the first `next` of `Patterns(False)` gave there, an
 arbitrary function of the time fraction and the mode flag, or None, in
 which case every use of it raises as in the main variant.
 */
module BaseAgent {
  import opened Common
  import BidScan
  import Voting

  datatype Agent = Agent(
    me: PartyId,
    pattern: Option<(real, real) -> Band>,
    lastReceived: Option<Bid>,
    progress: Progress,
    params: map<string, Voting.ParamValue>)

  /** The band `_isGood` judges with: the pattern at the time fraction and flag 0.0. */
  function AcceptBand(p: (real, real) -> Band, progress: Progress): Band {
    p(TimeFraction(progress), 0.0)
  }

  /** Whether a bid's utility lies in the acceptance band of pattern `p`, bounds included. */
  predicate InAcceptBand(p: (real, real) -> Band, progress: Progress, profile: Profile, bid: Bid) {
    AcceptBand(p, progress).low <= profile.utility(bid) <= AcceptBand(p, progress).high
  }

  /**
   `_isGood(bid)`: the band is computed first, so an empty pattern slot
   raises; then None is never good, and a bid is good iff `low <= utility <= high`.
   */
  function IsGood(a: Agent, profile: Profile, bid: Option<Bid>): (r: Result<bool>)
    ensures r.Err? <==> a.pattern.None?
    ensures r.Err? ==> r.fault == NotCallable
    ensures r == Ok(true) <==> a.pattern.Some? && bid.Some? && InAcceptBand(a.pattern.value, a.progress, profile, bid.value)
  {
    match a.pattern
    case None => Err(NotCallable)
    case Some(p) =>
      var band := AcceptBand(p, a.progress);
      if bid.None? then Ok(false)
      else
        var u := profile.utility(bid.value);
        Ok(u >= band.low && u <= band.high)
  }

  /**
   The scan of `_myTurn`: the flag-1.0 band is computed first (an empty
   pattern slot raises there); then stop at the first good bid; after a full
   pass the loop variable still holds the last bid; over an empty list it was
   never bound and the offer raises.
   */
  function ScanOffer(a: Agent, env: Env): (r: Result<Bid>)
    ensures a.pattern.None? ==> r == Err(NotCallable)
    ensures a.pattern.Some? ==> (r.Err? <==> |env.space| == 0)
    ensures a.pattern.Some? && r.Err? ==> r.fault == UnboundBid
    ensures a.pattern.Some? ==>
              forall i :: (0 <= i < |env.space| && InAcceptBand(a.pattern.value, a.progress, env.profile, env.space[i]) &&
                           forall j :: 0 <= j < i ==> !InAcceptBand(a.pattern.value, a.progress, env.profile, env.space[j])) ==>
                r == Ok(env.space[i])
    ensures a.pattern.Some? && 0 < |env.space| &&
            (forall i :: 0 <= i < |env.space| ==> !InAcceptBand(a.pattern.value, a.progress, env.profile, env.space[i])) ==>
              r == Ok(env.space[|env.space| - 1])
  {
    match a.pattern
    case None => Err(NotCallable)
    case Some(p) =>
      if |env.space| == 0 then Err(UnboundBid)
      else
        match BidScan.FirstMatch(env.space, b => InAcceptBand(p, a.progress, env.profile, b))
        case Some(i) => Ok(env.space[i])
        case None => Ok(env.space[|env.space| - 1])
  }

  /** `_myTurn()`: accept the last received bid iff it is good, otherwise offer what the scan ends on. */
  function MyTurn(a: Agent, env: Env): (r: Result<Action>)
    ensures a.pattern.None? ==> r == Err(NotCallable)
    ensures IsGood(a, env.profile, a.lastReceived) == Ok(true) ==> r == Ok(Accept(a.me, a.lastReceived))
    ensures IsGood(a, env.profile, a.lastReceived) == Ok(false) ==>
              r == (match ScanOffer(a, env) case Ok(b) => Ok(Offer(a.me, Some(b))) case Err(f) => Err(f))
    ensures r.Ok? && r.value.Offer? ==> r.value.bid.Some? && r.value.bid.value in env.space
  {
    match IsGood(a, env.profile, a.lastReceived)
    case Err(f) => Err(f)
    case Ok(good) =>
      if good then Ok(Accept(a.me, a.lastReceived))
      else
        match ScanOffer(a, env)
        case Err(f) => Err(f)
        case Ok(bid) => Ok(Offer(a.me, Some(bid)))
  }

  /**
   `_vote(voting)`: exactly the good offered bids, each with the configured
   powers; with no pattern the first test raises.
   */
  function Vote(a: Agent, profile: Profile, bids: seq<Option<Bid>>): (r: Result<Voting.Votes>)
    ensures r.Err? <==> a.pattern.None? && |bids| > 0
    ensures r.Ok? ==> r.value.actor == a.me
    ensures r.Ok? ==> forall v :: v in r.value.votes <==>
              v.actor == a.me && v.bid in bids && v.bid.Some? &&
              v.minPower == Voting.MinPower(a.params) && v.maxPower == Voting.MaxPower(a.params) &&
              InAcceptBand(a.pattern.value, a.progress, profile, v.bid.value)
  {
    var r := Voting.Ballot(a.me, bids, b => IsGood(a, profile, b), a.params);
    assert a.pattern.None? && |bids| > 0 ==> IsGood(a, profile, bids[0]).Err?;
    r
  }
}
