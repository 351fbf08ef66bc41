# PonPoko negotiation agents, modelled in Dafny

This project models the decision core of three variants of the PonPoko
negotiation party for the GeniusWeb platform:

- the **main variant** (`agents/ponpokoagent`). It keeps a pattern generator
  that hands out a utility band `(high, low)` as a function of the elapsed
  time fraction. Each turn it:
  - rotates the pattern on a countdown;
  - optionally counts the opponent's moves as conceder, hardliner or neutral;
  - accepts the last received bid when its utility lies in the band;
  - otherwise scans the bid list for an offer, falling back to a random bid
    near the band's midpoint.
- the **base variant** (`agents/ponpoko_base_agent`). It accepts a bid in the
  band, or offers the first in-band bid of the list. When no bid is in the
  band, it offers the last bid scanned.
- the **earliest variant** (`ponpokoagent`). Its band is evaluated at the turn
  counter, and its offers are random in-band bids, drawn twenty times per turn.

All three share the MOPAC voting rule: one vote, with the configured
`minPower` / `maxPower`, for every offered bid the acceptance test passes.

## Layout

| file | module | what it holds |
|---|---|---|
| common.dfy | `Common` | bids, profiles, bands, progress and time fraction, actions, the `Result` / `Option` wrappers, the `Fault` kinds that stand for Python exceptions |
| voting.dfy | `Voting` | parameter lookup with defaults 2 and 9999999, and the ballot built from an acceptance test |
| bid_scan.dfy | `BidScan` | the main variant's single pass over the bid list, and its near-median fallback |
| patterns.dfy | `Patterns` | the main variant's curves, its named patterns and catalogs, and the generator `__next__` for every generator type |
| old_patterns.dfy | `OldPatterns` | the earliest variant's `generate_pattern`, its five-entry catalog and its generator |
| opponent.dfy | `Opponent` | the received-bid record, the move counts and the majority label |
| ponpoko.dfy | `PonPoko` | the main agent: construction, rotation countdown, `_isGood`, `_getBid`, `_myTurn`, `_vote` |
| base_agent.dfy | `BaseAgent` | the base agent: `_isGood`, `_myTurn`, `_vote` |
| old_agent.dfy | `OldAgent` | the earliest agent: `_isGood`, `_getRandomBid`, the twenty-attempt offer loop, `_myTurn`, `_vote` |

Python exceptions become `Err` values (what this leaves out is under "Left out"):
- calling a pattern slot that holds None is `NotCallable`;
- `randint(0, -1)` over an empty list is `EmptyRange`;
- the profile raising on `getUtility(None)` is `UtilityOfNone`;
- the base variant's loop variable left unbound over an empty bid list is `UnboundBid`.

Randomness is an explicit argument:
- `randint(0, n - 1)` is answered by a function `pick` with `pick(n) < n`;
- `uniform` / `randint` coefficients and `sample` choices are fields of a
  `Draw` record, constrained to their ranges.

`sin`, `cos`, `tan` and `pow` are uninterpreted functions in a `Numerics`
record. Where a property needs it, the lemma requires `sin 0 = 0`.

## Behaviour kept as written

The model follows the code, including behaviour that is evidently unintended:

- The main agent builds its generator with `Patterns(False)`. `False` matches
  no generator type, so `__next__` falls through every branch and returns
  None. The default pattern change frequency of -1 means the countdown never
  reaches 0, so nothing replaces that None. The acceptance test then calls
  None on the first turn (`PonPoko.DefaultAgentCannotMove`).
- `_updateMoves` appends the last received bid first, and then compares it
  with `receivedBids[-1]`, which is that same bid. The difference is always
  0, so the label depends only on the two thresholds
  (`Opponent.UpdateMoves`, `Opponent.ObserveAllCounts`). Only the main agent
  has thresholds, and it never sets them away from -1: it initialises them
  in its constructor (agents/ponpokoagent/ponpoko/ponpoko.py:54-55) and
  nothing assigns them again.
- In the main variant's `_generate_value`, the `add` curve is
  `1 - a*t + |trig(b*t)|` and the `sub` curve is `1 - a*t - |trig(b*t)|`.
  Any other operator `op` gives `1 - op(a*t, |trig(b*t)|)`. So the `sub`
  curve lies below the line `1 - a*t` and the `add` curve above it
  (`Patterns.SubAddGap`). The earliest variant always applies the operator,
  so its default `sub` adds the oscillation back: its `sub` patterns are the
  main variant's `add` patterns (`OldPatterns.MatchesMainVariant`), and its
  `pattern_1` has its low bound at or above its high bound.
- The earliest variant's `_isGood` returns False for every real bid (its
  None guard is inverted). Only None reaches the profile, compared strictly
  against the low bound. So the offer loop never stops early: the offer is
  the twentieth in-band random draw.
- The fourth pattern's flag threshold is inclusive (`<= 0.99`) in the main
  variant and strict (`< 0.99`) in the earliest one. The main catalog does
  not contain it; the earliest catalog does.
- The base variant offers the last bid of the list when no bid is in the band.

## Model

| member | source | states |
|---|---|---|
| Common.TimeFraction | agents/ponpokoagent/ponpoko/ponpoko.py:219-227 | in rounds, the fraction times the duration is the current round, and lies in [0, 1] while the round is within the duration; a wall clock gives its reading; any other progress gives 0 |
| Voting.GoodBids | agents/ponpokoagent/ponpoko/ponpoko.py:213-216 | the kept bids are exactly the offered bids the test passes; the result fails iff some test fails, with that test's fault |
| Voting.Ballot | agents/ponpokoagent/ponpoko/ponpoko.py:208-217 | the ballot succeeds iff every acceptance test returns; a vote is in it iff it is by this party, carries the configured powers, and names an offered bid that passes |
| BidScan.FirstMatch | agents/ponpokoagent/ponpoko/ponpoko.py:170-182 | the index found is good and every earlier one is not; nothing is found iff no bid is good |
| BidScan.CandidatesMembers | agents/ponpokoagent/ponpoko/ponpoko.py:167-178 | a bid is remembered iff it is in the scanned list and its utility is within 0.05 of the midpoint |
| BidScan.ScanBids | agents/ponpokoagent/ponpoko/ponpoko.py:167-182 | the loop stops at the first in-band bid, and its near-median list holds exactly the candidates among the bids up to and including that one (all bids when none is in band) |
| BidScan.Search | agents/ponpokoagent/ponpoko/ponpoko.py:167-186 | the first in-band bid is returned when there is one; otherwise the result is a near-median bid of the list; the search fails with an empty-range fault iff no bid is in band or near the midpoint |
| Patterns.Next | agents/ponpokoagent/ponpoko/patterns.py:118-145 | `__next__` returns None iff the generator type is unrecognised. Standard picks a catalog entry. Opponent answers a hardliner with a conceder pattern, a conceder with a hardliner pattern, and anything else with a catalog entry. Random and Mutation draw coefficients in [0.01, 0.15] x {0..20} and [0.01, 0.35] x {0..80}, with Random using `sub` and `sin`. Operation keeps the catalog coefficients of the index it picks |
| Patterns.StandardReachesEveryEntry | agents/ponpokoagent/ponpoko/patterns.py:118-122 | every catalog entry can come out of a Standard generator |
| Patterns.SubAddGap | agents/ponpokoagent/ponpoko/patterns.py:32-39 | for the same coefficients, the `sub` curve lies at or below the line 1 - a*t and the `add` curve at or above it, exactly twice the oscillation apart |
| Patterns.SubValueAtMostOne | agents/ponpokoagent/ponpoko/patterns.py:34-35 | a `sub` curve with a >= 0 never exceeds utility 1 for t >= 0 |
| Patterns.GeneratedIgnoresFlag | agents/ponpokoagent/ponpoko/patterns.py:52-57 | a generated pattern gives the same band whatever the mode flag |
| Patterns.NamedPatternsSane | agents/ponpokoagent/ponpoko/patterns.py:80-92 | patterns 1, 2, 3 and 5, the hardliner pattern and the conceder pattern all give low <= high <= 1 for t >= 0 |
| Patterns.FourthPattern | agents/ponpokoagent/ponpoko/patterns.py:95-108 | the fourth pattern's high bound is 1 - 0.05t; its low bound is 1 - 0.1t up to flag 0.99 inclusive and 1 - 0.3t above; its band is sane for t >= 0; it is not in the catalog |
| OldPatterns.Next | ponpokoagent/patterns.py:32-43 | a non-random generator returns a catalog entry; a random one returns a `sub`/`sub` pattern with all four coefficients in [0, 1) |
| OldPatterns.NonRandomReachesEveryEntry | ponpokoagent/patterns.py:33-43 | every one of the five catalog entries can be handed out, and the fourth entry is the hand-written pattern |
| OldPatterns.MatchesMainVariant | ponpokoagent/patterns.py:5-15 | every generated pattern equals the main variant's pattern with the same coefficients, oscillation `sin`, `mul` kept and `sub` replaced by `add`; the flag is ignored |
| OldPatterns.Pattern1Inverted | ponpokoagent/patterns.py:17 | `pattern_1` has its low bound at or above its high bound for t >= 0 |
| OldPatterns.Pattern2Band | ponpokoagent/patterns.py:18 | `pattern_2` is the band (1 - 0.1t, 1 - 0.22t), sane for t >= 0 |
| OldPatterns.Pattern5Band | ponpokoagent/patterns.py:20 | `pattern_5` is (1 - 0.15t abs(sin 20t), 1 - 0.21t abs(sin 20t)), sane for t >= 0 |
| OldPatterns.FourthPattern | ponpokoagent/patterns.py:22-30 | the fourth pattern's low bound is 1 - 0.1t strictly below flag 0.99 and 1 - 0.3t from 0.99 on; its band is sane for t >= 0 |
| Opponent.UpdateMoves | agents/ponpokoagent/ponpoko/ponpoko.py:188-199 | on success, the last received bid is recorded. The first call counts nothing. A later call adds one to exactly the label for a difference of 0. The update fails iff it classifies a None bid the profile cannot value |
| Opponent.ObserveAllCounts | agents/ponpokoagent/ponpoko/ponpoko.py:188-199 | over any run of turns, the record grows by the bids in order and the counts total one less than the bids recorded; the zero-difference label's count grows by the number of classified bids (all but the very first bid ever) and the other two counts stay put |
| Opponent.FromNoMoves | agents/ponpokoagent/ponpoko/ponpoko.py:188-199 | from the empty record of the constructor, n >= 1 observed bids are recorded in order and give n - 1 moves, all with the zero-difference label |
| Opponent.Majority | agents/ponpokoagent/ponpoko/ponpoko.py:161 | the label with the largest count, with ties going to the earlier of conceder, hardliner, neutral |
| PonPoko.Init | agents/ponpokoagent/ponpoko/ponpoko.py:46-72 | the new agent's pattern slot is empty and its generator is the unrecognised-type one, so every later `next` gives None again; its frequency is the `patternChangeFrequency` parameter when given and -1 otherwise, and the countdown starts there; nothing is received, every move count is 0 and both thresholds are unset |
| PonPoko.InitialPatternIsNone | agents/ponpokoagent/ponpoko/ponpoko.py:50-51 | `next(Patterns(False))` returns None and leaves the generator unchanged |
| PonPoko.CountdownRunsDown | agents/ponpokoagent/ponpoko/ponpoko.py:128-136 | from frequency f >= 0, the countdown after i <= f turns is f - i |
| PonPoko.CountdownPeriodic | agents/ponpokoagent/ponpoko/ponpoko.py:128-136 | from frequency f >= 0, the countdown repeats with period f + 1 |
| PonPoko.RegenerationPeriod | agents/ponpokoagent/ponpoko/ponpoko.py:128-136 | with frequency f >= 0, the first regeneration is on turn f + 1 and none comes earlier; turn k regenerates iff turn k + f + 1 does |
| PonPoko.NegativeFrequencyNeverRegenerates | agents/ponpokoagent/ponpoko/ponpoko.py:128-136 | with a negative frequency, such as the default -1, the countdown only decreases and no turn regenerates |
| PonPoko.Rotate | agents/ponpokoagent/ponpoko/ponpoko.py:128-136 | at count 0, the generator's next pattern is installed and the count resets to the frequency. Otherwise only the count goes down by one. Nothing but the generator, the pattern and the count changes |
| PonPoko.RotationsFollowCountdown | agents/ponpokoagent/ponpoko/ponpoko.py:128-136 | over k successive turns from count `CountAfter(f, j)`, the count becomes `CountAfter(f, j + k)` and the frequency stays; the pattern is unchanged unless some turn in between regenerates; the last turn draws the next pattern iff `RegeneratesOnTurn` says so |
| PonPoko.IsGood | agents/ponpokoagent/ponpoko/ponpoko.py:146-155 | the test raises iff the pattern slot is None, even for a None bid; it passes exactly the real bids whose utility lies in the band at flag 0.0, bounds included |
| PonPoko.Relabel | agents/ponpokoagent/ponpoko/ponpoko.py:160-162 | with both thresholds set and at least 30% of the time gone, the generator adopts the majority label and draws a new pattern; otherwise the agent is unchanged; in no case does anything but the generator and the pattern change |
| PonPoko.Observe | agents/ponpokoagent/ponpoko/ponpoko.py:137-138 | the move counts change only when both thresholds are set, and then exactly as `_updateMoves` does |
| PonPoko.GetBid | agents/ponpokoagent/ponpoko/ponpoko.py:157-186 | after relabelling, an empty pattern slot raises. Otherwise the result is the bid search with the band at flag 0.0 and the midpoint of the band at flag 1.0, and an offered bid is always one of the domain's bids |
| PonPoko.MyTurn | agents/ponpokoagent/ponpoko/ponpoko.py:127-144 | the countdown ticks once. The agent accepts iff the rotated pattern passes the last received bid, and then accepts that bid. An offer is by this party and names exactly the bid `_getBid` returns from the rotated and observed agent, which is a domain bid. Only the generator, the pattern, the count and the move counts change. On acceptance the agent is the rotated and observed one. The turn raises exactly when observing raises, when there is no pattern after rotation, or when the bid is not good and `_getBid` raises |
| PonPoko.DefaultAgentCannotMove | agents/ponpokoagent/ponpoko/ponpoko.py:46-72 | the agent as built raises on its first turn, whatever the settings and draws |
| PonPoko.Vote | agents/ponpokoagent/ponpoko/ponpoko.py:202-217 | voting raises iff the pattern slot is None and some bid is offered. Otherwise the votes are exactly those for offered real bids in the band, with the configured powers |
| BaseAgent.IsGood | agents/ponpoko_base_agent/ponpoko/ponpoko.py:129-137 | the test raises iff the pattern slot is empty, even for a None bid; it passes exactly the real bids whose utility lies in the band at flag 0.0, bounds included |
| BaseAgent.ScanOffer | agents/ponpoko_base_agent/ponpoko/ponpoko.py:115-126 | an empty pattern slot raises; otherwise an empty bid list leaves the bid unbound, and a non-empty one yields the first in-band bid, or the last bid when none is in band |
| BaseAgent.MyTurn | agents/ponpoko_base_agent/ponpoko/ponpoko.py:111-127 | an empty pattern slot raises; otherwise the agent accepts the last received bid iff it is good, and else offers what the scan yields, always a domain bid |
| BaseAgent.Vote | agents/ponpoko_base_agent/ponpoko/ponpoko.py:139-154 | voting raises iff the pattern slot is empty and some bid is offered; otherwise the votes are exactly those for offered real bids in the band, with the configured powers |
| OldAgent.Init | ponpokoagent/ponpoko/ponpoko.py:33-40 | the agent starts at turn 0, with no received bid and a pattern from the five-entry catalog |
| OldAgent.IsGood | ponpokoagent/ponpoko/ponpoko.py:109-117 | every real bid is judged not good; None is judged by the profile, strictly above the low bound, and raises when the profile cannot value it |
| OldAgent.GetRandomBid | ponpokoagent/ponpoko/ponpoko.py:119-128 | the result is the first in-band bid among the draws. An empty list raises. The draws running out before an in-band bid is the only other failure |
| OldAgent.OfferLoop | ponpokoagent/ponpoko/ponpoko.py:101-106 | the loop's bid is the n-th in-band draw for n attempts, and it fails iff fewer than n in-band draws exist |
| OldAgent.HitsInBand | ponpokoagent/ponpoko/ponpoko.py:124-128 | every bid the draw loop can return is a bid of the list whose utility lies in the band, and there are no more of them than draws |
| OldAgent.MyTurn | ponpokoagent/ponpoko/ponpoko.py:95-107 | the turn counter goes up by one. The agent accepts iff `_isGood` passes the last received bid at the new counter, which happens exactly for a None last bid that the profile values above the low bound. A real last bid always leads to an offer of the twentieth in-band draw. Every offer is a bid of the list inside the band at the new turn count. The turn raises iff the profile cannot value a None last bid, or an offer is due and the list is empty or has fewer than twenty in-band draws |
| OldAgent.TurnsCountTurns | ponpokoagent/ponpoko/ponpoko.py:95-96 | over k turns that all return, the turn counter grows by exactly k and nothing else changes |
| OldAgent.Vote | ponpokoagent/ponpoko/ponpoko.py:131-146 | the votes are exactly one per offered None, with the configured powers, when the profile values None above the low bound at the current counter; no real bid ever gets a vote; voting raises iff None is offered and the profile cannot value it |

## Left out

- Message dispatch (`notifyChange`) is not modelled: the connection, the
  reporter's logging, `terminate`, `getCapabilities`, `getDescription`,
  `LearningDone`, and the `OptIn` resend. It is platform I/O. The model takes
  the settings as plain values (`Init`, `params`, `progress`).
- Sending the chosen action is left out, because it is I/O. `MyTurn`
  returns the action instead.
- `progress.advance()` after a turn is left out: it is the platform's round
  counter. The model takes the progress as given.
- The wall clock behind `ProgressTime.get(time_ns() // 1e6)` is a parameter:
  `Timed(reading)` is one fraction, used for the whole turn. The code reads
  the clock afresh at every `_getTimeFraction()` call: in `_isGood`, in the
  relabel test and for the flag-1.0 band of `_getBid`, and once per scanned
  bid through `_isGood`. Under time-based progress the band can therefore
  move during one scan, which the model does not capture; under round-based
  progress every call gives the same fraction, so nothing is lost there.
- A raised exception ends the modelled turn, vote or update with an `Err`
  that carries no agent state. The source has already changed the agent by
  then: the main variant's countdown has ticked before `_isGood` raises, the
  opponent record has the new bid appended before `getUtility` raises, and
  the earliest variant's turn counter has gone up before its `_isGood`
  raises. The model keeps none of those partial updates, so turns after a
  raise are not modelled.
- Decimal and float arithmetic are modelled as exact reals, so rounding in
  the utility difference `getUtility(bid) - Decimal(median)` is not modelled.
- The "Can not handle this type of profile" exception is left out. The
  agents declare only linear additive profiles, which are utility spaces, so
  `Profile` always has a utility function.
- What the profile's `getUtility(None)` does is outside the agents' code. It
  is a parameter, `Profile.onNone`.
- `int(...)` conversion of the `patternChangeFrequency` parameter is left
  out: the frequency arrives as an optional integer.
- The base variant's pattern module is not part of this model, so what the
  first `next(Patterns(False))` gives there is unknown. The pattern slot is
  therefore either empty (every use raises, as in the main variant) or an
  arbitrary function from (time fraction, flag) to a band; no curve shapes
  are stated for it.
- The `print` calls in `__next__` (Random) and `_mutate_pattern` are left
  out, because they are output only.
- `sin`, `cos`, `tan` and `pow` are uninterpreted. No property depends on
  their values, except where a lemma requires `sin 0 = 0`.
- OldAgent.GetRandomBid: the `while True` loop has no bound, so the model
  consumes a finite list of draws and reports `NoReturnWithinDraws` when
  they run out. An endless loop, when no bid is ever in band, is therefore
  not distinguished from running out of draws.
- Patterns.Next: for Mutation it states the coefficient ranges but not which
  operators and oscillations `sample` chose.
- BidScan.Search: the fallback choice among near-median bids is stated as
  "one of them", not as the specific `randint` index.
- The run scripts, the tournament summaries and the packaging files are not
  modelled: they drive or package the agents.
