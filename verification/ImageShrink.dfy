// Shrinking an image to a byte budget: lower the quality, then the size, and try again.
module ImageShrink {
  import opened Wrappers

  function MinQuality(): nat { 35 }

  function MinLongSide(): nat { 256 }

  function UsizeMax(): nat { 0xFFFF_FFFF_FFFF_FFFF }

  // The budget test on the encoded size.
  predicate Fits(size: nat, maxBytes: nat) {
    (if size * 4 > UsizeMax() then UsizeMax() else size * 4) / 3 <= maxBytes
  }

  function LowerQuality(q: nat): nat {
    var less := if q < 10 then 0 else q - 10;
    if less < MinQuality() then MinQuality() else less
  }

  // How the source takes four fifths of a long side, in single precision: some step that makes a
  // side above the floor smaller.
  type Step = nat -> nat

  ghost predicate Lowers(step: Step) {
    forall c :: c > MinLongSide() ==> step(c) < c
  }

  function LowerSide(c: nat, step: Step): nat {
    if step(c) < MinLongSide() then MinLongSide() else step(c)
  }

  // The qualities tried for one size, and the sizes tried, in order.
  function Qualities(q: nat): (r: seq<nat>)
    ensures r != [] && r[0] == q
  {
    if q <= MinQuality() then [q] else [q] + Qualities(LowerQuality(q))
  }

  ghost function Sides(c: nat, step: Step): (r: seq<nat>)
    requires Lowers(step)
    ensures r != [] && r[0] == c
    decreases c
  {
    if c <= MinLongSide() then [c] else [c] + Sides(LowerSide(c, step), step)
  }

  lemma {:induction false} SidesStep(c: nat, step: Step, i: nat)
    requires Lowers(step) && i < |Sides(c, step)|
    ensures i + 1 < |Sides(c, step)| <==> Sides(c, step)[i] > MinLongSide()
    ensures i + 1 < |Sides(c, step)| ==> Sides(c, step)[i + 1] == LowerSide(Sides(c, step)[i], step)
    decreases i
  {
    if c > MinLongSide() && i > 0 {
      SidesStep(LowerSide(c, step), step, i - 1);
    }
  }

  lemma {:induction false} QualitiesStep(q: nat, j: nat)
    requires j < |Qualities(q)|
    ensures j + 1 < |Qualities(q)| <==> Qualities(q)[j] > MinQuality()
    ensures j + 1 < |Qualities(q)| ==> Qualities(q)[j + 1] == LowerQuality(Qualities(q)[j])
    decreases j
  {
    if q > MinQuality() && j > 0 {
      QualitiesStep(LowerQuality(q), j - 1);
    }
  }

  // What the search settled on, after `count` encodings.
  datatype Shrunk = Shrunk(size: nat, longSide: nat, quality: nat, count: nat)

  // The encoded size of the image at a long side and a quality, or a failure.
  type Encoder = (nat, nat) -> Result<nat, string>

  // No rung before (i, j) meets the budget.
  ghost predicate NoneBefore(encode: Encoder, sides: seq<nat>, qualities: seq<nat>, i: nat, j: nat, maxBytes: nat)
    requires i < |sides| && j <= |qualities|
  {
    && (forall k, l :: 0 <= k < i && 0 <= l < |qualities| ==> Misses(encode, sides[k], qualities[l], maxBytes))
    && (forall l :: 0 <= l < j ==> Misses(encode, sides[i], qualities[l], maxBytes))
  }

  predicate Misses(encode: Encoder, side: nat, quality: nat, maxBytes: nat) {
    var r := encode(side, quality);
    r.Ok? && !Fits(r.value, maxBytes)
  }

  // The side the search begins with: the image's long side or the cap, whichever is smaller.
  function FirstSide(longInitial: nat, maxLongSide: nat): (side: nat)
    ensures side >= 1
    ensures longInitial >= 1 && maxLongSide >= 1 ==>
      side <= longInitial && side <= maxLongSide && (side == longInitial || side == maxLongSide)
  {
    var capped := if longInitial < maxLongSide then longInitial else maxLongSide;
    if capped < 1 then 1 else capped
  }

  // The search fails at rung (i, j): the encoder does, and no rung before meets the budget.
  ghost predicate FailsAt(encode: Encoder, sides: seq<nat>, qualities: seq<nat>, i: nat, j: nat, maxBytes: nat,
                          reason: string)
  {
    && i < |sides| && j < |qualities|
    && encode(sides[i], qualities[j]) == Err(reason)
    && NoneBefore(encode, sides, qualities, i, j, maxBytes)
  }

  // The search stops at rung (i, j): the first that meets the budget, or the last of both.
  ghost predicate StopsAt(encode: Encoder, sides: seq<nat>, qualities: seq<nat>, i: nat, j: nat, maxBytes: nat,
                          s: Shrunk)
  {
    && i < |sides| && j < |qualities|
    && s.longSide == sides[i] && s.quality == qualities[j]
    && encode(s.longSide, s.quality) == Ok(s.size)
    && s.count == i * |qualities| + j + 1 <= |sides| * |qualities|
    && NoneBefore(encode, sides, qualities, i, j, maxBytes)
    && (Fits(s.size, maxBytes) || (i == |sides| - 1 && j == |qualities| - 1
                                   && s.longSide <= 256 && s.quality <= 35))
  }

  method Shrink(encode: Encoder, step: Step, longInitial: nat, maxLongSide: nat, jpegQuality: nat, maxBytes: nat)
    returns (r: Result<Shrunk, string>)
    requires Lowers(step)
    ensures r.Ok? ==> exists i: nat, j: nat ::
      StopsAt(encode, Sides(FirstSide(longInitial, maxLongSide), step), Qualities(jpegQuality), i, j, maxBytes, r.value)
    ensures r.Err? ==> exists i: nat, j: nat ::
      FailsAt(encode, Sides(FirstSide(longInitial, maxLongSide), step), Qualities(jpegQuality), i, j, maxBytes, r.error)
  {
    hide Fits, LowerSide, LowerQuality;
    var curLong := FirstSide(longInitial, maxLongSide);
    ghost var sides, qualities := Sides(curLong, step), Qualities(jpegQuality);
    ghost var first := curLong;
    var count: nat := 0;
    ghost var i: nat := 0;
    while true
      invariant i < |sides| && curLong == sides[i]
      invariant count == i * |qualities|
      invariant NoneBefore(encode, sides, qualities, i, 0, maxBytes)
      decreases |sides| - i
    {
      var quality := jpegQuality;
      ghost var j: nat := 0;
      var out: nat := 0;
      while true
        invariant j < |qualities| && quality == qualities[j]
        invariant count == i * |qualities| + j
        invariant NoneBefore(encode, sides, qualities, i, j, maxBytes)
        decreases |qualities| - j
      {
        var e := encode(curLong, quality);
        if e.Err? {
          assert FailsAt(encode, sides, qualities, i, j, maxBytes, e.error);
          return Err(e.error);
        }
        out := e.value;
        count := count + 1;
        QualitiesStep(jpegQuality, j);
        if Fits(out, maxBytes) || quality <= MinQuality() {
          break;
        }
        assert Misses(encode, sides[i], qualities[j], maxBytes);
        quality := LowerQuality(quality);
        j := j + 1;
      }
      SidesStep(first, step, i);
      if Fits(out, maxBytes) || curLong <= MinLongSide() {
        CountBounded(i, j, |sides|, |qualities|);
        var s := Shrunk(out, curLong, quality, count);
        assert StopsAt(encode, sides, qualities, i, j, maxBytes, s);
        return Ok(s);
      }
      assert Misses(encode, sides[i], qualities[j], maxBytes);
      curLong := LowerSide(curLong, step);
      NextRow(i, |qualities|);
      i := i + 1;
    }
  }

  lemma NextRow(i: nat, n: nat)
    ensures i * n + n == (i + 1) * n
  {
  }

  // The encodings never exceed quality rungs times size rungs.
  lemma {:induction false} CountBounded(i: nat, j: nat, sides: nat, qualities: nat)
    requires i < sides && j < qualities
    ensures i * qualities + j + 1 <= sides * qualities
  {
    assert (i + 1) * qualities <= sides * qualities;
    NextRow(i, qualities);
  }

  // ----- how many rungs there are -----

  // One rung per ten points above the floor of 35, each ten below the one before or at the floor.
  lemma {:induction false} QualityRungs(q: nat)
    ensures |Qualities(q)| == if q <= 35 then 1 else 1 + (q - 35 + 9) / 10
    ensures forall j :: 0 < j < |Qualities(q)| ==>
      Qualities(q)[j] == if q - 10 * j >= 35 then q - 10 * j else 35
    decreases q
  {
    if q > MinQuality() {
      QualityRungs(LowerQuality(q));
    }
  }

  // The sizes begin with the first side, and each next is the step of the one before or the floor.
  lemma SizesFollow(c: nat, step: Step, i: nat)
    requires Lowers(step) && i + 1 < |Sides(c, step)|
    ensures Sides(c, step)[0] == c && Sides(c, step)[i] > 256
    ensures Sides(c, step)[i + 1] == if step(Sides(c, step)[i]) < 256 then 256 else step(Sides(c, step)[i])
    ensures Sides(c, step)[i + 1] < Sides(c, step)[i]
  {
    SidesStep(c, step, i);
  }

  // So the search never enlarges the image and never goes over the cap.
  lemma {:induction false} SizesAtMost(c: nat, step: Step, i: nat)
    requires Lowers(step) && i < |Sides(c, step)|
    ensures Sides(c, step)[i] <= c
  {
    if i > 0 {
      SizesAtMost(c, step, i - 1);
      SizesFollow(c, step, i - 1);
    }
  }

  function Pow(b: nat, n: nat): nat {
    if n == 0 then 1 else b * Pow(b, n - 1)
  }

  // The step takes at most a / b of a side above the floor.
  ghost predicate TakesAtMost(step: Step, a: nat, b: nat) {
    forall c :: c > MinLongSide() ==> b * step(c) <= a * c
  }

  // Then a side of at most 256 * (b / a)^n has at most n + 1 size rungs. Four fifths exactly is
  // a = 4 and b = 5.
  lemma {:induction false} SizeRungs(c: nat, step: Step, a: nat, b: nat, n: nat)
    requires 0 < a < b && Lowers(step) && TakesAtMost(step, a, b)
    requires c * Pow(a, n) <= MinLongSide() * Pow(b, n)
    ensures |Sides(c, step)| <= n + 1
    decreases n
  {
    if c > MinLongSide() && n > 0 {
      OneRung(c, step, a, b, Pow(a, n - 1), Pow(b, n - 1), n);
      SizeRungs(LowerSide(c, step), step, a, b, n - 1);
    } else if c > MinLongSide() {
      assert c * 1 <= MinLongSide() * 1;
    }
  }

  lemma {:induction false} OneRung(c: nat, step: Step, a: nat, b: nat, pa: nat, pb: nat, n: nat)
    requires 0 < a < b && c > MinLongSide() && TakesAtMost(step, a, b)
    requires n > 0 && pa == Pow(a, n - 1) && pb == Pow(b, n - 1)
    requires c * Pow(a, n) <= MinLongSide() * Pow(b, n)
    ensures LowerSide(c, step) * pa <= MinLongSide() * pb
  {
    SmallerPower(a, b, n - 1);
    Scaled(MinLongSide(), pa, pb);
    var d := step(c);
    assert b * d <= a * c;
    StepPower(c, d, a, b, pa, pb);
  }

  lemma Scaled(k: nat, x: nat, y: nat)
    requires x <= y
    ensures k * x <= k * y
  {
  }

  lemma StepPower(c: nat, d: nat, a: nat, b: nat, pa: nat, pb: nat)
    requires 0 < b && b * d <= a * c && c * (a * pa) <= MinLongSide() * (b * pb)
    ensures d * pa <= MinLongSide() * pb
  {
    Times(b * d, a * c, pa);
    assert b * d * pa == b * (d * pa);
    assert a * c * pa == c * (a * pa);
    assert MinLongSide() * (b * pb) == b * (MinLongSide() * pb);
    Cancel(b, d * pa, MinLongSide() * pb);
  }

  lemma Times(x: nat, y: nat, k: nat)
    requires x <= y
    ensures x * k <= y * k
  {
  }

  lemma Cancel(b: nat, x: nat, y: nat)
    requires b > 0 && b * x <= b * y
    ensures x <= y
  {
    if x > y {
      Scaled(b, y + 1, x);
    }
  }

  lemma {:induction false} SmallerPower(a: nat, b: nat, n: nat)
    requires a <= b
    ensures Pow(a, n) <= Pow(b, n)
  {
    if n > 0 {
      SmallerPower(a, b, n - 1);
      Times(a, b, Pow(a, n - 1));
      Scaled(b, Pow(a, n - 1), Pow(b, n - 1));
    }
  }

  // ----- base64 -----

  // Section 4 of RFC 4648: four characters for each started group of three bytes.
  function Base64Length(size: nat): nat {
    4 * ((size + 2) / 3)
  }

  // A passing budget test bounds the base64 text to three characters over the budget.
  lemma FitsBounds(size: nat, maxBytes: nat)
    requires size * 4 <= UsizeMax() && Fits(size, maxBytes)
    ensures Base64Length(size) <= maxBytes + 3
  {
  }

  // Below an eighth of the address space saturation never matters: the test is on four thirds of the
  // size.
  lemma FitsIff(size: nat, maxBytes: nat)
    requires maxBytes < 0x2000_0000_0000_0000
    ensures Fits(size, maxBytes) <==> size * 4 / 3 <= maxBytes
  {
  }

  // The test guarantees the budget itself exactly when the budget is a multiple of four.
  lemma BudgetExactIff(maxBytes: nat)
    requires maxBytes * 3 + 16 <= UsizeMax()
    ensures (forall size: nat :: size * 4 <= UsizeMax() && Fits(size, maxBytes) ==> Base64Length(size) <= maxBytes)
        <==> maxBytes % 4 == 0
  {
    hide Fits, Base64Length, UsizeMax;
    if maxBytes % 4 == 0 {
      forall size: nat | size * 4 <= UsizeMax() && Fits(size, maxBytes) ensures Base64Length(size) <= maxBytes {
        FitsBounds(size, maxBytes);
        InFours(size);
      }
    } else {
      var size := 3 * (maxBytes / 4) + 1;
      OverBudget(maxBytes, size);
    }
  }

  lemma InFours(size: nat)
    ensures Base64Length(size) % 4 == 0
  {
  }

  lemma OverBudget(maxBytes: nat, size: nat)
    requires maxBytes * 3 + 16 <= UsizeMax() && maxBytes % 4 != 0 && size == 3 * (maxBytes / 4) + 1
    ensures size * 4 <= UsizeMax() && Fits(size, maxBytes) && Base64Length(size) > maxBytes
  {
    var k := maxBytes / 4;
    assert size * 4 == 12 * k + 4 && Base64Length(size) == 4 * k + 4;
  }
}
