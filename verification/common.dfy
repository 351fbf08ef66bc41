/**
 Shared vocabulary of the PonPoko negotiation agent model: optional values,
 the exceptions the agent code can raise, utility bands, bids, the profile
 (utility oracle), the numeric primitives the pattern curves use, and the
 negotiation progress the agent reads its time fraction from.
 */
module Common {

  datatype Option<+T> = None | Some(value: T)

  /** The exceptions the modelled agent code can raise, plus one model limit. */
  datatype Fault =
    | NotCallable          // TypeError: the pattern slot holds None and is called
    | EmptyRange           // ValueError: randint(0, -1) when picking from an empty list
    | UtilityOfNone        // the profile raised when asked for the utility of None
    | UnboundBid           // UnboundLocalError: a scan over an empty bid list never bound `bid`
    | NoReturnWithinDraws  // not an exception: an unbounded retry loop did not return within the supplied draws

  datatype Result<+T> = Ok(value: T) | Err(fault: Fault)

  function Abs(x: real): real {
    if x < 0.0 then -x else x
  }

  /** The pair a pattern returns: the highest and the lowest acceptable utility. */
  datatype Band = Band(high: real, low: real)

  /** Inclusive band membership, `low <= x <= high`. */
  predicate InBand(x: real, band: Band) {
    band.low <= x <= band.high
  }

  /** A band whose bounds are in order and never above utility 1. */
  predicate Sane(band: Band) {
    band.low <= band.high <= 1.0
  }

  /** A bid assigns a value to every issue of the domain; equality is by value. */
  datatype Bid = Bid(values: map<string, string>)

  type PartyId = string

  /**
   The profile's utility space: `utility` for real bids, and `onNone` for what
   its getUtility does when handed None (it is code outside this model:
   None means it raises, Some(x) means it returns x).
   */
  datatype Profile = Profile(utility: Bid -> real, onNone: Option<real>)

  function UtilityOf(profile: Profile, bid: Option<Bid>): (r: Result<real>)
    ensures bid.Some? ==> r == Ok(profile.utility(bid.value))
    ensures r.Err? <==> bid.None? && profile.onNone.None?
  {
    match bid
    case Some(b) => Ok(profile.utility(b))
    case None => if profile.onNone.Some? then Ok(profile.onNone.value) else Err(UtilityOfNone)
  }

  /**
   The math functions the curves call. Nothing is known about them except
   what a caller requires, normally `SinZero`.
   */
  datatype Numerics = Numerics(sin: real -> real, cos: real -> real, tan: real -> real, pow: (real, real) -> real)

  predicate SinZero(n: Numerics) {
    n.sin(0.0) == 0.0
  }

  /** The bids of the domain in the enumeration order of the bid list, with the profile. */
  datatype Env = Env(profile: Profile, space: seq<Bid>, nums: Numerics)

  type Positive = n: nat | 0 < n witness 1

  /**
   Negotiation progress: counted in rounds, or by a wall clock whose reading
   (already turned into a fraction by the platform) is a parameter, or any
   other kind the agent does not recognise.
   */
  datatype Progress = Rounds(round: nat, duration: Positive) | Timed(reading: real) | OtherProgress

  /** The elapsed fraction of the negotiation the agent bases its band on. */
  function TimeFraction(p: Progress): (r: real)
    ensures p.Rounds? ==> r * (p.duration as real) == p.round as real
    ensures p.Rounds? && p.round <= p.duration ==> 0.0 <= r <= 1.0
    ensures p.Timed? ==> r == p.reading
    ensures p.OtherProgress? ==> r == 0.0
  {
    match p
    case Rounds(round, duration) => round as real / duration as real
    case Timed(reading) => reading
    case OtherProgress => 0.0
  }

  /** What the agent sends on its turn. */
  datatype Action = Accept(actor: PartyId, bid: Option<Bid>) | Offer(actor: PartyId, bid: Option<Bid>)

  /** randint(0, n - 1) answered by `pick(n)`: for a non-empty range, a value inside it. */
  ghost predicate ValidPick(pick: nat -> nat) {
    forall n: nat :: 0 < n ==> pick(n) < n
  }
}
