/**
 The earliest PonPoko agent variant. Bands are evaluated at the turn
 counter itself rather than a time fraction. Its acceptance test has its
 None guard inverted: every real bid is judged not good, and only None
 reaches the profile. So a received bid is never accepted, and an offer is
 the twentieth random in-band bid, since the twenty-attempt loop never
 stops early.
 */
module OldAgent {
  import opened Common
  import opened OldPatterns
  import Voting

  datatype Agent = Agent(
    me: PartyId,
    pattern: Pattern,
    turnCounter: nat,
    lastReceived: Option<Bid>,
    params: map<string, Voting.ParamValue>)

  /** The number of random bids one offer tries. */
  const Attempts: nat := 20

  /** The constructor: turn counter 0 and a pattern from the non-random generator `Patterns(False)`. */
  function Init(me: PartyId, params: map<string, Voting.ParamValue>, d: Draw): (r: Agent)
    requires ValidDraw(d)
    ensures r.turnCounter == 0 && r.lastReceived.None? && r.pattern in Catalog
  {
    Agent(me, Next(false, d), 0, None, params)
  }

  /** The band of the current turn: the pattern at `t = turn counter`, flag 0.0. */
  function TurnBand(a: Agent, env: Env): Band {
    Eval(env.nums, a.pattern, a.turnCounter as real, 0.0)
  }

  /**
   `_isGood(bid)` with its guard `if bid is not None: return False`: every
   real bid is not good; for None the profile is asked, which may raise, and
   the answer is compared strictly with the low bound.
   */
  function IsGood(a: Agent, env: Env, bid: Option<Bid>): (r: Result<bool>)
    ensures bid.Some? ==> r == Ok(false)
    ensures bid.None? && env.profile.onNone.None? ==> r == Err(UtilityOfNone)
    ensures bid.None? && env.profile.onNone.Some? ==> r == Ok(env.profile.onNone.value > TurnBand(a, env).low)
  {
    var band := TurnBand(a, env);
    if bid.Some? then Ok(false)
    else
      match UtilityOf(env.profile, bid)
      case Err(f) => Err(f)
      case Ok(u) => Ok(u > band.low)
  }

  /** Draws are results of randint(0, size - 1) over the bid list. */
  predicate DrawsFit(draws: seq<nat>, space: seq<Bid>) {
    forall k :: 0 <= k < |draws| ==> draws[k] < |space|
  }

  /** The drawn bids that fall inside `band`, in drawing order. */
  function Hits(space: seq<Bid>, u: Bid -> real, band: Band, draws: seq<nat>): seq<Bid>
    requires DrawsFit(draws, space)
  {
    if |draws| == 0 then []
    else
      var bid := space[draws[0]];
      (if InBand(u(bid), band) then [bid] else []) + Hits(space, u, band, draws[1..])
  }

  /** Every hit is a bid of the list whose utility lies in the band, and there are no more hits than draws. */
  lemma {:induction false} HitsInBand(space: seq<Bid>, u: Bid -> real, band: Band, draws: seq<nat>)
    requires DrawsFit(draws, space)
    ensures forall b :: b in Hits(space, u, band, draws) ==> b in space && InBand(u(b), band)
    ensures |Hits(space, u, band, draws)| <= |draws|
  {
    if |draws| > 0 {
      HitsInBand(space, u, band, draws[1..]);
    }
  }

  /**
   `_getRandomBid(domain)`: draw bids until one lies in the band at the turn
   counter. The loop has no bound; the model consumes a finite stream of
   draws and reports when the stream ends first.
   */
  function GetRandomBid(a: Agent, env: Env, draws: seq<nat>): (r: Result<(Bid, seq<nat>)>)
    requires DrawsFit(draws, env.space)
    ensures r.Err? ==> (r.fault == EmptyRange <==> |env.space| == 0)
    ensures r.Err? <==> |env.space| == 0 || |Hits(env.space, env.profile.utility, TurnBand(a, env), draws)| == 0
    ensures r.Ok? ==> (DrawsFit(r.value.1, env.space) &&
                       var hits := Hits(env.space, env.profile.utility, TurnBand(a, env), draws);
                       r.value.0 == hits[0] &&
                       Hits(env.space, env.profile.utility, TurnBand(a, env), r.value.1) == hits[1..])
    decreases |draws|
  {
    var band := TurnBand(a, env);
    if |env.space| == 0 then Err(EmptyRange)
    else if |draws| == 0 then Err(NoReturnWithinDraws)
    else
      var bid := env.space[draws[0]];
      if InBand(env.profile.utility(bid), band) then Ok((bid, draws[1..]))
      else GetRandomBid(a, env, draws[1..])
  }

  /**
   `for _attempt in range(20)`, with `attempts` tries left: draw a bid and stop
   when it is good; the last try's bid is kept otherwise. Since no real bid is
   ever good, the result is the `attempts`-th in-band draw.
   */
  function OfferLoop(a: Agent, env: Env, attempts: nat, draws: seq<nat>): (r: Result<(Bid, seq<nat>)>)
    requires attempts >= 1 && DrawsFit(draws, env.space)
    ensures r.Err? ==> (r.fault == EmptyRange <==> |env.space| == 0)
    ensures r.Err? <==> |env.space| == 0 || |Hits(env.space, env.profile.utility, TurnBand(a, env), draws)| < attempts
    ensures r.Ok? ==> r.value.0 == Hits(env.space, env.profile.utility, TurnBand(a, env), draws)[attempts - 1]
    decreases attempts
  {
    match GetRandomBid(a, env, draws)
    case Err(f) => Err(f)
    case Ok((bid, rest)) =>
      match IsGood(a, env, Some(bid))
      case Err(f) => Err(f)
      case Ok(good) =>
        if good || attempts == 1 then Ok((bid, rest))
        else OfferLoop(a, env, attempts - 1, rest)
  }

  /**
   `_myTurn()`: advance the turn counter, accept the last received bid if
   `_isGood` passes it, otherwise offer the bid of the twenty-attempt loop.
   */
  function MyTurn(a: Agent, env: Env, draws: seq<nat>): (r: Result<(Agent, Action)>)
    requires DrawsFit(draws, env.space)
    ensures r.Ok? ==> r.value.0 == a.(turnCounter := a.turnCounter + 1)
    ensures r.Ok? ==> (r.value.1.Accept? <==> IsGood(a.(turnCounter := a.turnCounter + 1), env, a.lastReceived) == Ok(true))
    ensures r.Err? <==>
              IsGood(a.(turnCounter := a.turnCounter + 1), env, a.lastReceived).Err? ||
              (IsGood(a.(turnCounter := a.turnCounter + 1), env, a.lastReceived) == Ok(false) &&
               (|env.space| == 0 ||
                |Hits(env.space, env.profile.utility, TurnBand(a.(turnCounter := a.turnCounter + 1), env), draws)| < Attempts))
    ensures r.Ok? && r.value.1.Accept? ==>
              a.lastReceived.None? && r.value.1 == Accept(a.me, None) &&
              env.profile.onNone.Some? && env.profile.onNone.value > TurnBand(r.value.0, env).low
    ensures a.lastReceived.Some? && r.Ok? ==>
              |Hits(env.space, env.profile.utility, TurnBand(r.value.0, env), draws)| >= Attempts &&
              r.value.1 == Offer(a.me, Some(Hits(env.space, env.profile.utility, TurnBand(r.value.0, env), draws)[Attempts - 1]))
    ensures r.Ok? && r.value.1.Offer? ==>
              r.value.1.bid.Some? && r.value.1.bid.value in env.space &&
              InBand(env.profile.utility(r.value.1.bid.value), TurnBand(r.value.0, env))
  {
    var a1 := a.(turnCounter := a.turnCounter + 1);
    HitsInBand(env.space, env.profile.utility, TurnBand(a1, env), draws);
    match IsGood(a1, env, a1.lastReceived)
    case Err(f) => Err(f)
    case Ok(good) =>
      if good then Ok((a1, Accept(a1.me, a1.lastReceived)))
      else
        match OfferLoop(a1, env, Attempts, draws)
        case Err(f) => Err(f)
        case Ok((bid, _)) => Ok((a1, Offer(a1.me, Some(bid))))
  }

  /** Consecutive turns, one stream of draws per turn, stopping at the first that raises. */
  function Turns(a: Agent, env: Env, streams: seq<seq<nat>>): Result<Agent>
    requires forall i :: 0 <= i < |streams| ==> DrawsFit(streams[i], env.space)
    decreases |streams|
  {
    if |streams| == 0 then Ok(a)
    else match MyTurn(a, env, streams[0])
      case Err(f) => Err(f)
      case Ok((a', _)) => Turns(a', env, streams[1..])
  }

  /** Over `k` turns that all return, the turn counter grows by exactly `k` and nothing else changes. */
  lemma {:induction false} TurnsCountTurns(a: Agent, env: Env, streams: seq<seq<nat>>)
    requires forall i :: 0 <= i < |streams| ==> DrawsFit(streams[i], env.space)
    ensures Turns(a, env, streams).Ok? ==>
              Turns(a, env, streams).value == a.(turnCounter := a.turnCounter + |streams|)
    decreases |streams|
  {
    if |streams| > 0 {
      match MyTurn(a, env, streams[0])
      case Err(_) =>
      case Ok((a', _)) =>
        TurnsCountTurns(a', env, streams[1..]);
    }
  }

  /**
   `_vote(voting)`: exactly the offered bids `_isGood` passes, so no real bid
   ever gets a vote; asking about a None bid may raise.
   */
  function Vote(a: Agent, env: Env, bids: seq<Option<Bid>>): (r: Result<Voting.Votes>)
    ensures (forall i :: 0 <= i < |bids| ==> bids[i].Some?) ==> r == Ok(Voting.Votes(a.me, {}))
    ensures r.Ok? ==> r.value.actor == a.me
    ensures r.Ok? ==> forall v :: v in r.value.votes <==>
              v.actor == a.me && v.bid in bids && v.bid.None? &&
              v.minPower == Voting.MinPower(a.params) && v.maxPower == Voting.MaxPower(a.params) &&
              env.profile.onNone.Some? && env.profile.onNone.value > TurnBand(a, env).low
    ensures r.Err? <==> None in bids && env.profile.onNone.None?
  {
    var r := Voting.Ballot(a.me, bids, b => IsGood(a, env, b), a.params);
    if r.Ok? && forall i :: 0 <= i < |bids| ==> bids[i].Some? then
      assert forall v :: v !in r.value.votes;
      assert r.value.votes == {};
      r
    else r
  }
}
