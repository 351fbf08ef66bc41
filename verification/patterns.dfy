/**
 Utility-band patterns of the main agent variant. A pattern maps the time
 fraction `t` and a mode flag `iftime` to a (high, low) band. Generated
 patterns evaluate two curves of the shape `1 - a*t (op) |trig(b*t)|`; the
 fourth pattern is written out by hand. A generator hands out patterns
 according to its type, from fixed catalogs or from random coefficients.
 */
module Patterns {
  import opened Common

  datatype GeneratorType = Standard | Opponent | Random | Mutation | Operation | Unrecognised

  /** The binary operators of Python's `operator` module the curves combine with. */
  datatype Op = Mul | Sub | Add | Pow

  datatype TrigFn = Sin | Cos | Tan

  /** One curve: the linear coefficient `a`, the frequency `b`, the combining operator and the oscillation. */
  datatype Curve = Curve(a: real, b: real, op: Op, trig: TrigFn)

  /** A generated pattern (high curve, low curve), or the hand-written fourth pattern. */
  datatype Pattern = Generated(one: Curve, two: Curve) | Fourth

  function Trig(n: Numerics, f: TrigFn, x: real): real {
    match f
    case Sin => n.sin(x)
    case Cos => n.cos(x)
    case Tan => n.tan(x)
  }

  /** `operator.mul`, `sub`, `add` and `pow` applied to `x` and `y`. */
  function Apply(n: Numerics, op: Op, x: real, y: real): real {
    match op
    case Mul => x * y
    case Sub => x - y
    case Add => x + y
    case Pow => n.pow(x, y)
  }

  /** The oscillation term `|trig(b*t)|` of a curve with oscillation `f` and frequency `b`. */
  function Oscillation(n: Numerics, f: TrigFn, b: real, t: real): (r: real)
    ensures r >= 0.0
  {
    Abs(Trig(n, f, b * t))
  }

  /** `_generate_value(a, b, op, trig)(t)`: `sub` and `add` are special-cased, any other operator is applied. */
  function Value(n: Numerics, c: Curve, t: real): real {
    var osc := Oscillation(n, c.trig, c.b, t);
    match c.op
    case Sub => 1.0 - c.a * t - osc
    case Add => 1.0 - c.a * t + osc
    case _ => 1.0 - Apply(n, c.op, c.a * t, osc)
  }

  /** Evaluates a pattern at time `t` with mode flag `iftime`. */
  function Eval(n: Numerics, p: Pattern, t: real, iftime: real): Band {
    match p
    case Generated(one, two) => Band(Value(n, one, t), Value(n, two, t))
    case Fourth => Band(1.0 - 0.05 * t, if iftime <= 0.99 then 1.0 - 0.1 * t else 1.0 - 0.3 * t)
  }

  /** The coefficient pairs ((a, b), (c, d)) of the four catalog patterns. */
  const PatternValues: seq<((real, real), (real, real))> :=
    [((0.1, 0.0), (0.1, 40.0)), ((0.1, 0.0), (0.22, 0.0)),
     ((0.1, 0.0), (0.15, 20.0)), ((0.15, 20.0), (0.21, 20.0))]

  /** `_generate_pattern(one, two, op_one, op_two, trig_one, trig_two)`. */
  function GeneratePattern(one: (real, real), two: (real, real), opOne: Op, opTwo: Op,
                           trigOne: TrigFn, trigTwo: TrigFn): Pattern {
    Generated(Curve(one.0, one.1, opOne, trigOne), Curve(two.0, two.1, opTwo, trigTwo))
  }

  /** `_generate_pattern` with its default operators `sub` and oscillations `sin`. */
  function DefaultPattern(one: (real, real), two: (real, real)): Pattern {
    GeneratePattern(one, two, Sub, Sub, Sin, Sin)
  }

  const Pattern1: Pattern := DefaultPattern(PatternValues[0].0, PatternValues[0].1)
  const Pattern2: Pattern := DefaultPattern(PatternValues[1].0, PatternValues[1].1)
  const Pattern3: Pattern := DefaultPattern(PatternValues[2].0, PatternValues[2].1)
  const Pattern5: Pattern := GeneratePattern(PatternValues[3].0, PatternValues[3].1, Mul, Mul, Sin, Sin)
  const HardlinerPattern1: Pattern := DefaultPattern((0.01, 0.0), (0.01, 25.0))
  const ConcederPattern1: Pattern := DefaultPattern((0.25, 0.0), (0.25, 25.0))

  /** `Patterns._patterns`; the fourth pattern is not in it. */
  const Catalog: seq<Pattern> := [Pattern1, Pattern2, Pattern3, Pattern5]
  const ConcederCatalog: seq<Pattern> := [ConcederPattern1]
  const HardlinerCatalog: seq<Pattern> := [HardlinerPattern1]

  /** The generator: its type, the last catalog index it chose, and the opponent label it adapts to. */
  datatype Generator = Generator(kind: GeneratorType, index: int, opponent: string)

  /** `Patterns(type_)` */
  function NewGenerator(kind: GeneratorType): Generator {
    Generator(kind, 0, "")
  }

  /**
   The random choices one call of `__next__` may make: `pick` answers every
   randint(0, n - 1), `a`, `b`, `c`, `d` are the uniform/randint coefficients,
   and the operators and oscillations are what `sample` returns.
   */
  datatype Draw = Draw(pick: nat -> nat, a: real, b: int, c: real, d: int,
                       opOne: Op, opTwo: Op, trigOne: TrigFn, trigTwo: TrigFn)

  ghost predicate ValidDraw(d: Draw) {
    && ValidPick(d.pick)
    && 0.01 <= d.a <= 0.15 && 0 <= d.b <= 20
    && 0.01 <= d.c <= 0.35 && 0 <= d.d <= 80
  }

  /** The coefficient ranges of Random and Mutation patterns. */
  predicate RandomCoefficients(p: Pattern) {
    && p.Generated?
    && 0.01 <= p.one.a <= 0.15 && p.one.b.Floor as real == p.one.b && 0.0 <= p.one.b <= 20.0
    && 0.01 <= p.two.a <= 0.35 && p.two.b.Floor as real == p.two.b && 0.0 <= p.two.b <= 80.0
  }

  /** Picks an entry of a non-empty list, recording the index as `_index`. */
  function PickFrom(g: Generator, list: seq<Pattern>, pick: nat -> nat): (r: (Generator, Option<Pattern>))
    requires ValidPick(pick) && 0 < |list|
    ensures 0 <= r.0.index < |list| && r.1 == Some(list[r.0.index])
    ensures r.0 == g.(index := r.0.index)
  {
    var i := pick(|list|);
    (g.(index := i), Some(list[i]))
  }

  /** `_mutate_pattern(one, two)` with the operators and oscillations `sample` chose. */
  function Mutate(one: (real, real), two: (real, real), d: Draw): Pattern {
    GeneratePattern(one, two, d.opOne, d.opTwo, d.trigOne, d.trigTwo)
  }

  /** `Patterns.__next__`: the generator's next state and the pattern it returns (None when no branch matches). */
  function Next(g: Generator, d: Draw): (r: (Generator, Option<Pattern>))
    requires ValidDraw(d)
    ensures r.1.None? <==> g.kind == Unrecognised
    ensures g.kind == Standard ==> 0 <= r.0.index < 4 && r.1 == Some(Catalog[r.0.index])
    ensures g.kind == Opponent && g.opponent == "hardliner" ==> r.1.Some? && r.1.value in ConcederCatalog
    ensures g.kind == Opponent && g.opponent == "conceder" ==> r.1.Some? && r.1.value in HardlinerCatalog
    ensures g.kind == Opponent && g.opponent != "hardliner" && g.opponent != "conceder" ==>
              0 <= r.0.index < 4 && r.1 == Some(Catalog[r.0.index])
    ensures g.kind == Random ==> (r.0 == g && r.1.Some? && RandomCoefficients(r.1.value) &&
                                  r.1.value.one.op == Sub && r.1.value.two.op == Sub &&
                                  r.1.value.one.trig == Sin && r.1.value.two.trig == Sin)
    ensures g.kind == Mutation ==> r.0 == g && r.1.Some? && RandomCoefficients(r.1.value)
    ensures g.kind == Operation ==> (0 <= r.0.index < 4 && r.1.Some? && r.1.value.Generated? &&
                                     (r.1.value.one.a, r.1.value.one.b) == PatternValues[r.0.index].0 &&
                                     (r.1.value.two.a, r.1.value.two.b) == PatternValues[r.0.index].1)
    ensures g.kind == Unrecognised ==> r.0 == g
    ensures r.0.kind == g.kind && r.0.opponent == g.opponent
  {
    var one := (d.a, d.b as real);
    var two := (d.c, d.d as real);
    match g.kind
    case Standard => PickFrom(g, Catalog, d.pick)
    case Opponent =>
      if g.opponent == "hardliner" then PickFrom(g, ConcederCatalog, d.pick)
      else if g.opponent == "conceder" then PickFrom(g, HardlinerCatalog, d.pick)
      else PickFrom(g, Catalog, d.pick)
    case Random => (g, Some(DefaultPattern(one, two)))
    case Mutation => (g, Some(Mutate(one, two, d)))
    case Operation =>
      var i := d.pick(|PatternValues|);
      (g.(index := i), Some(Mutate(PatternValues[i].0, PatternValues[i].1, d)))
    case Unrecognised => (g, None)
  }

  /** Every entry of the standard catalog can come out of a Standard generator. */
  lemma StandardReachesEveryEntry(g: Generator, i: nat)
    requires g.kind == Standard && i < |Catalog|
    ensures exists d :: ValidDraw(d) && Next(g, d).1 == Some(Catalog[i])
  {
    var d := Draw(n => if i < n then i else 0, 0.01, 0, 0.01, 0, Sub, Sub, Sin, Sin);
    assert ValidDraw(d);
    assert Next(g, d).1 == Some(Catalog[i]);
  }

  /** The `sub` curve stays at or below utility 1 once `a` and `t` are non-negative. */
  lemma SubValueAtMostOne(n: Numerics, c: Curve, t: real)
    requires c.op == Sub && c.a >= 0.0 && t >= 0.0
    ensures Value(n, c, t) <= 1.0
  {
  }

  /**
   `sub` and `add` bracket the linear part: the same curve lies at or below
   `1 - a*t` with `sub` and at or above it with `add`, and the two are
   exactly twice the oscillation apart.
   */
  lemma SubAddGap(n: Numerics, c: Curve, t: real)
    requires c.op == Sub
    ensures Value(n, c, t) <= 1.0 - c.a * t <= Value(n, c.(op := Add), t)
    ensures Value(n, c.(op := Add), t) - Value(n, c, t) == 2.0 * Oscillation(n, c.trig, c.b, t)
  {
  }

  /** A generated pattern ignores its mode flag: every flag gives the same band. */
  lemma GeneratedIgnoresFlag(n: Numerics, p: Pattern, t: real, flag1: real, flag2: real)
    requires p.Generated?
    ensures Eval(n, p, t, flag1) == Eval(n, p, t, flag2)
  {
  }

  /**
   Each catalog, hardliner and conceder pattern gives `low <= high <= 1` for
   `t >= 0`, whatever the flag, provided `sin 0 = 0`.
   */
  lemma NamedPatternsSane(n: Numerics, t: real, flag: real)
    requires SinZero(n) && t >= 0.0
    ensures forall p :: p in Catalog ==> Sane(Eval(n, p, t, flag))
    ensures Sane(Eval(n, HardlinerPattern1, t, flag))
    ensures Sane(Eval(n, ConcederPattern1, t, flag))
  {
    assert 0.0 * t == 0.0;
    var s20 := Abs(n.sin(20.0 * t));
    assert t * s20 >= 0.0;
    assert (0.15 * t) * s20 == 0.15 * (t * s20);
    assert (0.21 * t) * s20 == 0.21 * (t * s20);
    assert Sane(Eval(n, Pattern5, t, flag));
  }

  /**
   The fourth pattern: high is `1 - 0.05t`; low is `1 - 0.1t` up to and
   including flag 0.99 and `1 - 0.3t` above it; the band is sane for `t >= 0`;
   and the standard catalog does not contain it.
   */
  lemma FourthPattern(n: Numerics, t: real, iftime: real)
    ensures Eval(n, Fourth, t, iftime).high == 1.0 - 0.05 * t
    ensures iftime <= 0.99 ==> Eval(n, Fourth, t, iftime).low == 1.0 - 0.1 * t
    ensures iftime > 0.99 ==> Eval(n, Fourth, t, iftime).low == 1.0 - 0.3 * t
    ensures t >= 0.0 ==> Sane(Eval(n, Fourth, t, iftime))
    ensures Fourth !in Catalog
  {
  }
}
