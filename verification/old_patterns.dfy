/**
 Utility-band patterns of the earliest agent variant. `generate_pattern`
 always applies its operator, so with the default `sub` the oscillation term
 is added back: high is `1 - (a*t - |sin(b*t)|)`. The catalog holds five
 patterns, the hand-written fourth one included, and the fourth pattern's
 flag threshold is strict.
 */
module OldPatterns {
  import opened Common
  import Patterns

  /** The two operators this variant imports from Python's `operator` module. */
  datatype OldOp = Sub | Mul

  datatype Pattern =
    | Generated(a: real, b: real, c: real, d: real, opOne: OldOp, opTwo: OldOp)
    | Fourth

  function Apply(op: OldOp, x: real, y: real): real {
    match op
    case Sub => x - y
    case Mul => x * y
  }

  /** `generate_pattern(one, two, op_one, op_two)` evaluated at `t`; `iftime` is ignored. */
  function Eval(n: Numerics, p: Pattern, t: real, iftime: real): Band {
    match p
    case Generated(a, b, c, d, opOne, opTwo) =>
      Band(1.0 - Apply(opOne, a * t, Abs(n.sin(b * t))), 1.0 - Apply(opTwo, c * t, Abs(n.sin(d * t))))
    case Fourth =>
      Band(1.0 - 0.05 * t, if iftime < 0.99 then 1.0 - 0.1 * t else 1.0 - 0.3 * t)
  }

  const Pattern1: Pattern := Generated(0.1, 0.0, 0.1, 40.0, Sub, Sub)
  const Pattern2: Pattern := Generated(0.1, 0.0, 0.22, 0.0, Sub, Sub)
  const Pattern3: Pattern := Generated(0.05, 0.0, 0.15, 20.0, Sub, Sub)
  const Pattern5: Pattern := Generated(0.15, 20.0, 0.21, 20.0, Mul, Mul)

  /** `Patterns._patterns`, in source order. */
  const Catalog: seq<Pattern> := [Pattern1, Pattern2, Pattern3, Fourth, Pattern5]

  /** The random choices of one `__next__`: `pick` answers randint(0, n - 1), `r1`..`r4` are `random()` results. */
  datatype Draw = Draw(pick: nat -> nat, r1: real, r2: real, r3: real, r4: real)

  ghost predicate ValidDraw(d: Draw) {
    && ValidPick(d.pick)
    && 0.0 <= d.r1 < 1.0 && 0.0 <= d.r2 < 1.0 && 0.0 <= d.r3 < 1.0 && 0.0 <= d.r4 < 1.0
  }

  /** `Patterns(random).__next__()` */
  function Next(random: bool, d: Draw): (r: Pattern)
    requires ValidDraw(d)
    ensures !random ==> r in Catalog
    ensures random ==> r.Generated? && r.opOne == Sub && r.opTwo == Sub
    ensures random ==> 0.0 <= r.a < 1.0 && 0.0 <= r.b < 1.0 && 0.0 <= r.c < 1.0 && 0.0 <= r.d < 1.0
  {
    if random then Generated(d.r1, d.r2, d.r3, d.r4, Sub, Sub)
    else Catalog[d.pick(|Catalog|)]
  }

  /** A non-random generator can hand out every catalog entry, the fourth pattern included. */
  lemma NonRandomReachesEveryEntry(i: nat)
    requires i < |Catalog|
    ensures exists d :: ValidDraw(d) && Next(false, d) == Catalog[i]
    ensures Catalog[3] == Fourth
  {
    var d := Draw(n => if i < n then i else 0, 0.0, 0.0, 0.0, 0.0);
    assert ValidDraw(d);
    assert Next(false, d) == Catalog[i];
  }

  /** The main variant's operator that behaves like this variant's: `sub` here adds the oscillation, as `add` does there. */
  function MainOp(op: OldOp): Patterns.Op {
    match op
    case Sub => Patterns.Add
    case Mul => Patterns.Mul
  }

  /**
   Every generated pattern of this variant is the main variant's pattern with
   the same coefficients, oscillation `sin`, and `sub` read as `add`: the
   default `sub`/`sub` pattern here is the main variant's `add`/`add` one.
   Like it, the pattern ignores its mode flag.
   */
  lemma MatchesMainVariant(n: Numerics, p: Pattern, t: real, iftime: real, other: real)
    requires p.Generated?
    ensures Eval(n, p, t, iftime) == Eval(n, p, t, other)
    ensures Eval(n, p, t, iftime) ==
            Patterns.Eval(n, Patterns.GeneratePattern((p.a, p.b), (p.c, p.d), MainOp(p.opOne), MainOp(p.opTwo),
                                                      Patterns.Sin, Patterns.Sin), t, iftime)
  {
    CurveMatches(n, p.a, p.b, p.opOne, t);
    CurveMatches(n, p.c, p.d, p.opTwo, t);
  }

  /** One bound of a generated pattern agrees with the main variant's curve under `MainOp`. */
  lemma CurveMatches(n: Numerics, a: real, b: real, op: OldOp, t: real)
    ensures Patterns.Value(n, Patterns.Curve(a, b, MainOp(op), Patterns.Sin), t) == 1.0 - Apply(op, a * t, Abs(n.sin(b * t)))
  {
    var osc := Abs(n.sin(b * t));
    assert Patterns.Oscillation(n, Patterns.Sin, b, t) == osc;
    match op
    case Sub => assert Patterns.Value(n, Patterns.Curve(a, b, Patterns.Add, Patterns.Sin), t) == 1.0 - a * t + osc;
    case Mul => assert Patterns.Value(n, Patterns.Curve(a, b, Patterns.Mul, Patterns.Sin), t) == 1.0 - (a * t) * osc;
  }

  /** `pattern_1` is inverted: for `t >= 0` its low bound is at or above its high bound. */
  lemma Pattern1Inverted(n: Numerics, t: real, iftime: real)
    requires SinZero(n) && t >= 0.0
    ensures Eval(n, Pattern1, t, iftime).low >= Eval(n, Pattern1, t, iftime).high
  {
  }

  /** `pattern_2` is `(1 - 0.1t, 1 - 0.22t)` and sane for `t >= 0`. */
  lemma Pattern2Band(n: Numerics, t: real, iftime: real)
    requires SinZero(n)
    ensures Eval(n, Pattern2, t, iftime) == Band(1.0 - 0.1 * t, 1.0 - 0.22 * t)
    ensures t >= 0.0 ==> Sane(Eval(n, Pattern2, t, iftime))
  {
    assert n.sin(0.0 * t) == 0.0 by { assert 0.0 * t == 0.0; }
    assert Eval(n, Pattern2, t, iftime).high == 1.0 - 0.1 * t;
    assert Eval(n, Pattern2, t, iftime).low == 1.0 - 0.22 * t;
  }

  /** `pattern_5` multiplies: `(1 - 0.15t|sin 20t|, 1 - 0.21t|sin 20t|)`, sane for `t >= 0`. */
  lemma Pattern5Band(n: Numerics, t: real, iftime: real)
    ensures Eval(n, Pattern5, t, iftime) ==
            Band(1.0 - 0.15 * t * Abs(n.sin(20.0 * t)), 1.0 - 0.21 * t * Abs(n.sin(20.0 * t)))
    ensures t >= 0.0 ==> Sane(Eval(n, Pattern5, t, iftime))
  {
    var s := Abs(n.sin(20.0 * t));
    if t >= 0.0 {
      assert t * s >= 0.0;
      assert 0.15 * t * s == 0.15 * (t * s);
      assert 0.21 * t * s == 0.21 * (t * s);
    }
  }

  /**
   The fourth pattern: high is `1 - 0.05t`; low is `1 - 0.1t` strictly below
   flag 0.99 and `1 - 0.3t` from 0.99 on; sane for `t >= 0`.
   */
  lemma FourthPattern(n: Numerics, t: real, iftime: real)
    ensures Eval(n, Fourth, t, iftime).high == 1.0 - 0.05 * t
    ensures iftime < 0.99 ==> Eval(n, Fourth, t, iftime).low == 1.0 - 0.1 * t
    ensures iftime >= 0.99 ==> Eval(n, Fourth, t, iftime).low == 1.0 - 0.3 * t
    ensures t >= 0.0 ==> Sane(Eval(n, Fourth, t, iftime))
  {
  }
}
