/**
 The bid search of the main agent variant: one pass over the enumerated bid
 list that stops at the first bid inside the band, remembering on the way
 every bid whose utility is within a fixed tolerance of the band's midpoint.
 */
module BidScan {
  import opened Common

  /** The absolute tolerance `isclose(diff, 0, abs_tol=0.05)` applies. */
  const Tolerance: real := 0.05

  function Median(band: Band): real {
    (band.high + band.low) / 2.0
  }

  /** `isclose(|x - median|, 0, abs_tol=0.05)`; the relative tolerance never wins against 0. */
  predicate NearMedian(x: real, median: real) {
    Abs(x - median) <= Tolerance
  }

  /** The index of the first bid of `space` that is `good`, if there is one. */
  function FirstMatch(space: seq<Bid>, good: Bid -> bool): (r: Option<nat>)
    ensures r.Some? ==> r.value < |space| && good(space[r.value])
    ensures r.Some? ==> forall j :: 0 <= j < r.value ==> !good(space[j])
    ensures r.None? <==> forall j :: 0 <= j < |space| ==> !good(space[j])
  {
    if |space| == 0 then None
    else if good(space[0]) then Some(0)
    else match FirstMatch(space[1..], good)
      case None => None
      case Some(k) => Some(k + 1)
  }

  /** The bids of `bids`, in order, whose utility is near `median`. */
  function Candidates(bids: seq<Bid>, u: Bid -> real, median: real): (r: seq<Bid>)
    ensures |r| <= |bids|
  {
    if |bids| == 0 then []
    else
      var last := bids[|bids| - 1];
      Candidates(bids[..|bids| - 1], u, median) + (if NearMedian(u(last), median) then [last] else [])
  }

  /** The candidates are exactly the bids near the median. */
  lemma {:induction false} CandidatesMembers(bids: seq<Bid>, u: Bid -> real, median: real)
    ensures forall b :: b in Candidates(bids, u, median) <==> b in bids && NearMedian(u(b), median)
    decreases |bids|
  {
    if |bids| > 0 {
      var last := bids[|bids| - 1];
      CandidatesMembers(bids[..|bids| - 1], u, median);
      assert bids == bids[..|bids| - 1] + [last];
    }
  }

  /** Outcome of one pass: the first good index, and the near-median bids seen before stopping. */
  datatype Scan = Scan(found: Option<nat>, close: seq<Bid>)

  function ScanOf(space: seq<Bid>, u: Bid -> real, band: Band, median: real): Scan {
    var found := FirstMatch(space, b => InBand(u(b), band));
    var end := if found.Some? then found.value + 1 else |space|;
    Scan(found, Candidates(space[..end], u, median))
  }

  /** One more bid scanned adds it to the candidates exactly when it is near the median. */
  lemma CandidatesStep(space: seq<Bid>, u: Bid -> real, median: real, i: nat)
    requires i < |space|
    ensures Candidates(space[..i + 1], u, median)
         == Candidates(space[..i], u, median) + (if NearMedian(u(space[i]), median) then [space[i]] else [])
  {
    assert space[..i + 1][..i] == space[..i];
  }

  /** A pass that meets its first in-band bid at `i` stops there, having seen the bids up to `i`. */
  lemma ScanStopsAt(space: seq<Bid>, u: Bid -> real, band: Band, median: real, i: nat)
    requires i < |space| && InBand(u(space[i]), band)
    requires forall j :: 0 <= j < i ==> !InBand(u(space[j]), band)
    ensures ScanOf(space, u, band, median) == Scan(Some(i), Candidates(space[..i + 1], u, median))
  {
  }

  /** A pass that meets no in-band bid sees the whole list. */
  lemma ScanRunsThrough(space: seq<Bid>, u: Bid -> real, band: Band, median: real)
    requires forall j :: 0 <= j < |space| ==> !InBand(u(space[j]), band)
    ensures ScanOf(space, u, band, median) == Scan(None, Candidates(space[..|space|], u, median))
  {
  }

  /**
   The loop `for _attempt in range(allBids.size())`: remember the bid when it
   is near the median, then stop at the first bid inside the band.
   */
  method ScanBids(space: seq<Bid>, u: Bid -> real, band: Band, median: real)
    returns (found: Option<nat>, close: seq<Bid>)
    ensures Scan(found, close) == ScanOf(space, u, band, median)
    ensures found.Some? ==> found.value < |space| && InBand(u(space[found.value]), band)
  {
    found := None;
    close := [];
    var i := 0;
    while i < |space|
      invariant 0 <= i <= |space|
      invariant forall j :: 0 <= j < i ==> !InBand(u(space[j]), band)
      invariant close == Candidates(space[..i], u, median)
    {
      var bid := space[i];
      CandidatesStep(space, u, median, i);
      if NearMedian(u(bid), median) {
        close := close + [bid];
      }
      if InBand(u(bid), band) {
        found := Some(i);
        ScanStopsAt(space, u, band, median, i);
        return;
      }
      i := i + 1;
    }
    ScanRunsThrough(space, u, band, median);
  }

  /**
   The search as a whole: the first bid inside `band`; failing that, the
   candidate `pick` chooses among the near-median bids; failing that,
   randint(0, -1) raises.
   */
  function Search(space: seq<Bid>, u: Bid -> real, band: Band, median: real, pick: nat -> nat): (r: Result<Bid>)
    requires ValidPick(pick)
    ensures r.Err? ==> r.fault == EmptyRange
    ensures r.Err? <==> forall i :: 0 <= i < |space| ==> !InBand(u(space[i]), band) && !NearMedian(u(space[i]), median)
    ensures forall i :: (0 <= i < |space| && InBand(u(space[i]), band) &&
                         forall j :: 0 <= j < i ==> !InBand(u(space[j]), band)) ==> r == Ok(space[i])
    ensures r.Ok? ==> r.value in space && (InBand(u(r.value), band) || NearMedian(u(r.value), median))
  {
    var scan := ScanOf(space, u, band, median);
    match scan.found
    case Some(i) => Ok(space[i])
    case None =>
      assert space[..|space|] == space;
      CandidatesMembers(space, u, median);
      if |scan.close| == 0 then Err(EmptyRange)
      else Ok(scan.close[pick(|scan.close|)])
  }
}
