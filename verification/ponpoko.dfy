/**
 The main PonPoko agent variant: one turn rotates the pattern on a
 countdown, optionally classifies the opponent's last move, accepts the last
 received bid when it lies in the band, and otherwise searches the bid list
 for an offer. The voting round votes for every offered bid in the band.

 The agent builds its generator from `Patterns(False)`, which matches no
 generator type, so its pattern slot holds None and every acceptance test
 raises: see `DefaultAgentCannotMove`.
 */
module PonPoko {
  import opened Common
  import opened Patterns
  import opened Opponent
  import BidScan
  import Voting

  /** The session state of one agent instance, after the settings arrived. */
  datatype Agent = Agent(
    me: PartyId,
    generator: Generator,
    pattern: Option<Pattern>,      // `_utility_func`; None when the generator returned None
    changeFrequency: int,          // `_PATTERN_CHANGE_FREQUENCY`
    changeCount: int,              // `_pattern_change_count`
    epsilonHigher: real,
    epsilonLower: real,
    moves: Moves,
    lastReceived: Option<Bid>,
    progress: Progress,
    params: map<string, Voting.ParamValue>)

  /** The "not configured" value of both opponent thresholds. */
  const Unset: real := -1.0

  /** The time fraction from which the opponent label drives the pattern. */
  const OpponentActivation: real := 0.3

  /**
   The agent as the constructor and the settings handler leave it: the
   pattern is the first `next` of generator `Patterns(False)`, the frequency
   comes from the `patternChangeFrequency` parameter when given and is -1
   otherwise, the countdown starts at the frequency, nothing has been
   received, every move count is 0 and both thresholds are unset.
   */
  function Init(me: PartyId, progress: Progress, params: map<string, Voting.ParamValue>,
                frequency: Option<int>, d: Draw): (r: Agent)
    requires ValidDraw(d)
    ensures r.me == me && r.progress == progress && r.params == params
    ensures frequency.Some? ==> r.changeFrequency == frequency.value
    ensures frequency.None? ==> r.changeFrequency == -1
    ensures r.changeCount == r.changeFrequency
    ensures r.moves == NoMoves && r.lastReceived.None?
    ensures r.epsilonHigher == Unset && r.epsilonLower == Unset && !ThresholdsSet(r)
    ensures r.pattern.None? && r.generator == NewGenerator(Unrecognised)
  {
    var f := if frequency.Some? then frequency.value else -1;
    var (g, p) := Next(NewGenerator(Unrecognised), d);
    Agent(me, g, p, f, f, Unset, Unset, NoMoves, None, progress, params)
  }

  /** `next(Patterns(False))` falls through every branch and returns None. */
  lemma InitialPatternIsNone(d: Draw)
    requires ValidDraw(d)
    ensures Next(NewGenerator(Unrecognised), d) == (NewGenerator(Unrecognised), None)
  {
  }

  /** One tick of the rotation countdown: regenerate at 0 and reset, otherwise count down. */
  function Countdown(count: int, frequency: int): (bool, int) {
    if count == 0 then (true, frequency) else (false, count - 1)
  }

  /** The countdown after `k` turns, starting from the frequency as the settings leave it. */
  function CountAfter(frequency: int, k: nat): int {
    if k == 0 then frequency else Countdown(CountAfter(frequency, k - 1), frequency).1
  }

  /** Whether turn `k` (counting from 1) regenerates the pattern. */
  function RegeneratesOnTurn(frequency: int, k: nat): bool
    requires k >= 1
  {
    Countdown(CountAfter(frequency, k - 1), frequency).0
  }

  /** From frequency `f >= 0` the countdown runs f, f - 1, ..., 0 over the first `f` turns. */
  lemma {:induction false} CountdownRunsDown(f: int, i: nat)
    requires 0 <= f && i <= f
    ensures CountAfter(f, i) == f - i
  {
    if i > 0 {
      CountdownRunsDown(f, i - 1);
    }
  }

  /** The countdown repeats with period `f + 1`. */
  lemma {:induction false} CountdownPeriodic(f: int, k: nat)
    requires 0 <= f
    ensures CountAfter(f, k + f + 1) == CountAfter(f, k)
  {
    if k == 0 {
      CountdownRunsDown(f, f);
    } else {
      CountdownPeriodic(f, k - 1);
      assert k + f + 1 - 1 == k - 1 + f + 1;
    }
  }

  /**
   With frequency `f >= 0` the pattern is regenerated every `f + 1` turns:
   first on turn `f + 1` and on none before it, and from then on turn `k`
   regenerates iff turn `k + f + 1` does.
   */
  lemma RegenerationPeriod(f: int, k: nat)
    requires f >= 0 && k >= 1
    ensures k <= f + 1 ==> (RegeneratesOnTurn(f, k) <==> k == f + 1)
    ensures RegeneratesOnTurn(f, k + f + 1) == RegeneratesOnTurn(f, k)
  {
    if k <= f + 1 {
      CountdownRunsDown(f, k - 1);
    }
    CountdownPeriodic(f, k - 1);
    assert k + f + 1 - 1 == k - 1 + f + 1;
  }

  /** With a negative frequency (the default -1) the countdown never reaches 0. */
  lemma {:induction false} NegativeFrequencyNeverRegenerates(f: int, k: nat)
    requires f < 0
    ensures CountAfter(f, k) == f - k
    ensures k >= 1 ==> !RegeneratesOnTurn(f, k)
  {
    if k > 0 {
      NegativeFrequencyNeverRegenerates(f, k - 1);
    }
  }

  /** Step 1 of `_myTurn`: the pattern rotation. */
  function Rotate(a: Agent, d: Draw): (r: Agent)
    requires ValidDraw(d)
    ensures r.changeCount == Countdown(a.changeCount, a.changeFrequency).1
    ensures a.changeCount != 0 ==> r == a.(changeCount := a.changeCount - 1)
    ensures a.changeCount == 0 ==> (r.generator, r.pattern) == Next(a.generator, d)
    ensures r == a.(generator := r.generator, pattern := r.pattern, changeCount := r.changeCount)
  {
    var (regenerate, count) := Countdown(a.changeCount, a.changeFrequency);
    if regenerate then
      var (g, p) := Next(a.generator, d);
      a.(generator := g, pattern := p, changeCount := count)
    else a.(changeCount := count)
  }

  /** `k` successive rotations, one draw each, in turn order. */
  function Rotations(a: Agent, ds: seq<Draw>): Agent
    requires forall i :: 0 <= i < |ds| ==> ValidDraw(ds[i])
    decreases |ds|
  {
    if |ds| == 0 then a else Rotate(Rotations(a, ds[..|ds| - 1]), ds[|ds| - 1])
  }

  /**
   Successive rotations follow the countdown: from count `CountAfter(f, j)`,
   after `k` more turns the count is `CountAfter(f, j + k)`; only the
   generator, the pattern and the count change; the pattern stays as it was
   unless one of those turns regenerates; and turn `j + k` draws the next
   pattern exactly when `RegeneratesOnTurn` says so.
   */
  lemma {:induction false} RotationsFollowCountdown(a: Agent, ds: seq<Draw>, j: nat)
    requires forall i :: 0 <= i < |ds| ==> ValidDraw(ds[i])
    requires a.changeCount == CountAfter(a.changeFrequency, j)
    ensures Rotations(a, ds).changeCount == CountAfter(a.changeFrequency, j + |ds|)
    ensures Rotations(a, ds) == a.(generator := Rotations(a, ds).generator, pattern := Rotations(a, ds).pattern,
                                   changeCount := Rotations(a, ds).changeCount)
    ensures (forall k :: j < k <= j + |ds| ==> !RegeneratesOnTurn(a.changeFrequency, k)) ==>
              Rotations(a, ds).generator == a.generator && Rotations(a, ds).pattern == a.pattern
    ensures |ds| > 0 ==>
              var before := Rotations(a, ds[..|ds| - 1]);
              var after := Rotations(a, ds);
              && (RegeneratesOnTurn(a.changeFrequency, j + |ds|) ==>
                    (after.generator, after.pattern) == Next(before.generator, ds[|ds| - 1]))
              && (!RegeneratesOnTurn(a.changeFrequency, j + |ds|) ==>
                    after.generator == before.generator && after.pattern == before.pattern)
    decreases |ds|
  {
    if |ds| > 0 {
      var init := ds[..|ds| - 1];
      RotationsFollowCountdown(a, init, j);
      assert j + |ds| - 1 == j + |init|;
      if forall k :: j < k <= j + |ds| ==> !RegeneratesOnTurn(a.changeFrequency, k) {
        assert !RegeneratesOnTurn(a.changeFrequency, j + |ds|);
        assert forall k :: j < k <= j + |init| ==> !RegeneratesOnTurn(a.changeFrequency, k);
      }
    }
  }

  predicate ThresholdsSet(a: Agent) {
    a.epsilonHigher != Unset && a.epsilonLower != Unset
  }

  /**
   `_isGood(bid)`: the band at flag 0.0 is computed first, so an empty pattern
   slot raises even for None; then None is not good, and a bid is good iff its
   utility lies in the band, bounds included.
   */
  function IsGood(a: Agent, env: Env, bid: Option<Bid>): (r: Result<bool>)
    ensures r.Err? <==> a.pattern.None?
    ensures r.Err? ==> r.fault == NotCallable
    ensures r == Ok(true) <==>
              a.pattern.Some? && bid.Some? &&
              InBand(env.profile.utility(bid.value), Eval(env.nums, a.pattern.value, TimeFraction(a.progress), 0.0))
  {
    match a.pattern
    case None => Err(NotCallable)
    case Some(p) =>
      var band := Eval(env.nums, p, TimeFraction(a.progress), 0.0);
      if bid.None? then Ok(false)
      else
        var u := env.profile.utility(bid.value);
        Ok(u >= band.low && u <= band.high)
  }

  /**
   Lines 160-162 of `_getBid`: with both thresholds set and at least 30% of
   the time gone, label the opponent by its majority move and draw a new pattern.
   */
  function Relabel(a: Agent, d: Draw): (r: Agent)
    requires ValidDraw(d)
    ensures !(ThresholdsSet(a) && TimeFraction(a.progress) >= OpponentActivation) ==> r == a
    ensures ThresholdsSet(a) && TimeFraction(a.progress) >= OpponentActivation ==>
              r.generator.opponent == LabelName(Majority(a.moves)) &&
              (r.generator, r.pattern) == Next(a.generator.(opponent := LabelName(Majority(a.moves))), d)
    ensures r == a.(generator := r.generator, pattern := r.pattern)
  {
    if ThresholdsSet(a) && TimeFraction(a.progress) >= OpponentActivation then
      var g := a.generator.(opponent := LabelName(Majority(a.moves)));
      var (g', p) := Next(g, d);
      a.(generator := g', pattern := p)
    else a
  }

  /**
   `_getBid()`: relabel, then search the bid list with the (possibly new)
   pattern: the band at flag 0.0 decides a match, the band at flag 1.0 gives
   the fallback midpoint; an absent pattern raises.
   */
  function GetBid(a: Agent, env: Env, relabel: Draw, pick: nat -> nat): (r: Result<(Agent, Bid)>)
    requires ValidDraw(relabel) && ValidPick(pick)
    ensures r.Ok? ==> r.value.0 == Relabel(a, relabel) && r.value.1 in env.space
    ensures Relabel(a, relabel).pattern.None? ==> r == Err(NotCallable)
    ensures Relabel(a, relabel).pattern.Some? ==>
              r == (match SearchWithPattern(Relabel(a, relabel).pattern.value, env, TimeFraction(a.progress), pick)
                    case Ok(b) => Ok((Relabel(a, relabel), b))
                    case Err(f) => Err(f))
  {
    var a1 := Relabel(a, relabel);
    match a1.pattern
    case None => Err(NotCallable)
    case Some(p) =>
      match SearchWithPattern(p, env, TimeFraction(a1.progress), pick)
      case Err(f) => Err(f)
      case Ok(b) => Ok((a1, b))
  }

  /** The bid search of `_getBid` under pattern `p` at time `t`: flag 0.0 decides a match, flag 1.0 gives the midpoint. */
  function SearchWithPattern(p: Pattern, env: Env, t: real, pick: nat -> nat): Result<Bid>
    requires ValidPick(pick)
  {
    BidScan.Search(env.space, env.profile.utility, Eval(env.nums, p, t, 0.0),
                   BidScan.Median(Eval(env.nums, p, t, 1.0)), pick)
  }

  /** The random choices of one turn: the rotation's `next`, the relabel's `next`, and the fallback's randint. */
  datatype TurnDraws = TurnDraws(rotate: Draw, relabel: Draw, fallback: nat -> nat)

  ghost predicate ValidTurnDraws(d: TurnDraws) {
    ValidDraw(d.rotate) && ValidDraw(d.relabel) && ValidPick(d.fallback)
  }

  /** Step 2 of `_myTurn`: classify the last move when both thresholds are set. */
  function Observe(a: Agent, env: Env): (r: Result<Agent>)
    ensures !ThresholdsSet(a) ==> r == Ok(a)
    ensures r.Ok? ==> r.value == a.(moves := r.value.moves)
    ensures ThresholdsSet(a) ==>
              r == (match UpdateMoves(a.moves, a.lastReceived, a.epsilonHigher, a.epsilonLower, env.profile)
                    case Ok(m) => Ok(a.(moves := m))
                    case Err(f) => Err(f))
  {
    if ThresholdsSet(a) then
      match UpdateMoves(a.moves, a.lastReceived, a.epsilonHigher, a.epsilonLower, env.profile)
      case Err(f) => Err(f)
      case Ok(m) => Ok(a.(moves := m))
    else Ok(a)
  }

  /**
   `_myTurn()`: rotate, observe, then accept the last received bid when it is
   good and otherwise offer the bid `_getBid` finds.
   */
  function MyTurn(a: Agent, env: Env, d: TurnDraws): (r: Result<(Agent, Action)>)
    requires ValidTurnDraws(d)
    ensures r.Ok? ==> r.value.0.changeCount == Countdown(a.changeCount, a.changeFrequency).1
    ensures r.Ok? ==> r.value.0 == a.(generator := r.value.0.generator, pattern := r.value.0.pattern,
                                      changeCount := r.value.0.changeCount, moves := r.value.0.moves)
    ensures r.Ok? ==> (r.value.1.Accept? <==> IsGood(Rotate(a, d.rotate), env, a.lastReceived) == Ok(true))
    ensures r.Ok? && r.value.1.Accept? ==> r.value.1 == Accept(a.me, a.lastReceived)
    ensures r.Ok? && r.value.1.Offer? ==>
              r.value.1.actor == a.me && r.value.1.bid.Some? && r.value.1.bid.value in env.space
    ensures r.Ok? && r.value.1.Offer? ==>
              Observe(Rotate(a, d.rotate), env).Ok? && r.value.1.bid.Some? &&
              GetBid(Observe(Rotate(a, d.rotate), env).value, env, d.relabel, d.fallback) == Ok((r.value.0, r.value.1.bid.value))
    ensures Rotate(a, d.rotate).pattern.None? && Observe(Rotate(a, d.rotate), env).Ok? ==> r == Err(NotCallable)
    ensures r.Ok? && r.value.1.Accept? ==> r.value.0 == Observe(Rotate(a, d.rotate), env).value
    ensures r.Err? <==>
              Observe(Rotate(a, d.rotate), env).Err? || Rotate(a, d.rotate).pattern.None? ||
              (IsGood(Rotate(a, d.rotate), env, a.lastReceived) == Ok(false) &&
               GetBid(Observe(Rotate(a, d.rotate), env).value, env, d.relabel, d.fallback).Err?)
  {
    var a1 := Rotate(a, d.rotate);
    match Observe(a1, env)
    case Err(f) => Err(f)
    case Ok(a2) =>
      match IsGood(a2, env, a2.lastReceived)
      case Err(f) => Err(f)
      case Ok(good) =>
        if good then Ok((a2, Accept(a2.me, a2.lastReceived)))
        else
          match GetBid(a2, env, d.relabel, d.fallback)
          case Err(f) => Err(f)
          case Ok((a3, bid)) => Ok((a3, Offer(a3.me, Some(bid))))
  }

  /**
   The agent as built fails on every turn: `Patterns(False)` gives no
   pattern, the default frequency -1 never regenerates one (and a
   regeneration would give None again), and the thresholds are unset, so the
   acceptance test calls None.
   */
  lemma DefaultAgentCannotMove(me: PartyId, progress: Progress, params: map<string, Voting.ParamValue>,
                               frequency: Option<int>, init: Draw, env: Env, d: TurnDraws)
    requires ValidDraw(init) && ValidTurnDraws(d)
    ensures MyTurn(Init(me, progress, params, frequency, init), env, d) == Err(NotCallable)
  {
  }

  /**
   `_vote(voting)`: one vote, with the configured powers, for each offered
   bid `_isGood` passes; with no pattern the first test raises.
   */
  function Vote(a: Agent, env: Env, bids: seq<Option<Bid>>): (r: Result<Voting.Votes>)
    ensures r.Err? <==> a.pattern.None? && |bids| > 0
    ensures r.Ok? ==> r.value.actor == a.me
    ensures r.Ok? ==> forall v :: v in r.value.votes <==>
              v.actor == a.me && v.bid in bids && v.bid.Some? &&
              v.minPower == Voting.MinPower(a.params) && v.maxPower == Voting.MaxPower(a.params) &&
              InBand(env.profile.utility(v.bid.value), Eval(env.nums, a.pattern.value, TimeFraction(a.progress), 0.0))
  {
    var r := Voting.Ballot(a.me, bids, b => IsGood(a, env, b), a.params);
    assert a.pattern.None? && |bids| > 0 ==> IsGood(a, env, bids[0]).Err?;
    r
  }
}
