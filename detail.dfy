/**
 * The detail page's screenshot carousel (`nextScreenshot`, `prevScreenshot` over
 * `currentScreenshotIndex`) and the star display of `starRating`.
 */
module Detail {
  import opened Common

  // ---------------------------------------------------------------------------
  // The carousel.

  lemma MulAtLeast(n: int, d: int)
    requires n > 0 && d >= 1
    ensures n * d >= n
  {
    if d > 1 {
      MulAtLeast(n, d - 1);
      assert n * d == n * (d - 1) + n;
    }
  }

  /** The remainder is the one `r` with `x == n * q + r` and `0 <= r < n`. */
  lemma ModUnique(x: int, n: int, q: int, r: int)
    requires n > 0 && 0 <= r < n && x == n * q + r
    ensures x % n == r
  {
    var q', r' := x / n, x % n;
    assert x == n * q' + r';
    var d := q - q';
    assert n * d == r' - r;
    if d >= 1 { MulAtLeast(n, d); }
    if d <= -1 { MulAtLeast(n, -d); }
  }

  /** JavaScript's `%` for a positive divisor: the remainder takes the sign of the dividend. */
  function JsRem(a: int, b: int): (r: int)
    requires b > 0
    ensures a >= 0 ==> 0 <= r < b
    ensures a < 0 ==> -b < r <= 0
    ensures 0 <= a < b ==> r == a
    ensures b <= a < 2 * b ==> r == a - b
    ensures (a - r) % b == 0
  {
    if 0 <= a < b then ModUnique(a, b, 0, a); RemLeavesMultiple(a, b); a % b
    else if b <= a < 2 * b then ModUnique(a, b, 1, a - b); RemLeavesMultiple(a, b); a % b
    else if a >= 0 then RemLeavesMultiple(a, b); a % b
    else RemLeavesMultiple(-a, b); -((-a) % b)
  }

  /** Taking off the remainder, or adding it to the negated dividend, leaves a multiple of the divisor. */
  lemma RemLeavesMultiple(a: int, b: int)
    requires b > 0
    ensures (a - a % b) % b == 0
    ensures (-a + a % b) % b == 0
  {
    ModUnique(a - a % b, b, a / b, 0);
    ModUnique(-a + a % b, b, -(a / b), 0);
  }

  /**
   * The index after `nextScreenshot`; None stands for the `NaN` index, which is what
   * a remainder by zero screenshots gives and what stays after it.
   */
  function NextIndex(i: Option<int>, n: nat): (r: Option<int>)
    ensures n == 0 || i.None? ==> r == None
    ensures n > 0 && i.Some? && 0 <= i.value < n ==> r == Some(if i.value == n - 1 then 0 else i.value + 1)
  {
    if n == 0 || i.None? then None else Some(JsRem(i.value + 1, n))
  }

  /** The index after `prevScreenshot`. */
  function PrevIndex(i: Option<int>, n: nat): (r: Option<int>)
    ensures n == 0 || i.None? ==> r == None
    ensures n > 0 && i.Some? && 0 <= i.value < n ==> r == Some(if i.value == 0 then n - 1 else i.value - 1)
  {
    if n == 0 || i.None? then None else Some(JsRem(i.value - 1 + n, n))
  }

  /** Forward and back undo each other on a valid index. */
  lemma NextPrevInverse(i: int, n: nat)
    requires 0 <= i < n
    ensures PrevIndex(NextIndex(Some(i), n), n) == Some(i)
    ensures NextIndex(PrevIndex(Some(i), n), n) == Some(i)
  {
  }

  /** The index after `k` presses of next. */
  function NextTimes(i: Option<int>, n: nat, k: nat): Option<int>
    decreases k
  {
    if k == 0 then i else NextTimes(NextIndex(i, n), n, k - 1)
  }

  /** `k` presses of next advance the index by `k` around the carousel, so `n` presses come back. */
  lemma {:induction false} NextTimesWraps(i: int, n: nat, k: nat)
    requires 0 <= i < n && k <= n
    ensures NextTimes(Some(i), n, k) == Some(if i + k < n then i + k else i + k - n)
    ensures k == n ==> NextTimes(Some(i), n, k) == Some(i)
    decreases k
  {
    if k > 0 {
      var j := if i == n - 1 then 0 else i + 1;
      assert NextIndex(Some(i), n) == Some(j);
      NextTimesWraps(j, n, k - 1);
    }
  }

  /** With no screenshots the index becomes `NaN` at the first press and stays so. */
  lemma NoScreenshotsLosesIndex(i: Option<int>, k: nat)
    requires k > 0
    ensures NextTimes(i, 0, k) == None
    decreases k
  {
    if k > 1 {
      NoScreenshotsLosesIndex(NextIndex(i, 0), k - 1);
    }
  }

  /** The screenshot carousel of one rendered detail page. */
  class Carousel {
    const screenshots: seq<string>
    var index: Option<int>

    /** The index stays on a screenshot while there are screenshots. */
    ghost predicate Valid()
      reads this
    {
      |screenshots| > 0 ==> index.Some? && 0 <= index.value < |screenshots|
    }

    constructor (screenshots: seq<string>)
      ensures this.screenshots == screenshots && index == Some(0) && Valid()
    {
      this.screenshots := screenshots;
      index := Some(0);
    }

    /** The URL shown: None when the index has no screenshot or the URL is empty, and the placeholder is shown. */
    function Current(): (url: Option<string>)
      reads this
      ensures url.Some? ==> index.Some? && 0 <= index.value < |screenshots| && url.value == screenshots[index.value]
      ensures url.Some? ==> url.value in screenshots && url.value != ""
      ensures Valid() && |screenshots| > 0 && screenshots[index.value] != "" ==> url == Some(screenshots[index.value])
    {
      if index.Some? && 0 <= index.value < |screenshots| && screenshots[index.value] != ""
      then Some(screenshots[index.value])
      else None
    }

    method Next()
      modifies this
      ensures index == NextIndex(old(index), |screenshots|)
      ensures old(Valid()) ==> Valid()
    {
      index := NextIndex(index, |screenshots|);
    }

    method Prev()
      modifies this
      ensures index == PrevIndex(old(index), |screenshots|)
      ensures old(Valid()) ==> Valid()
    {
      index := PrevIndex(index, |screenshots|);
    }
  }

  // ---------------------------------------------------------------------------
  // Stars.

  datatype Star = Full | Half | Empty

  function Repeat(s: Star, n: nat): (r: seq<Star>)
    ensures |r| == n && forall k :: 0 <= k < n ==> r[k] == s
  {
    if n == 0 then [] else Repeat(s, n - 1) + [s]
  }

  function Ceil(r: real): int {
    -((-r).Floor)
  }

  /** JavaScript's `rating % 1`: the fractional part, carrying the sign of the rating. */
  function JsFrac(r: real): (f: real)
    ensures 0.0 <= r ==> 0.0 <= f < 1.0 && r == r.Floor as real + f
    ensures r < 0.0 ==> -1.0 < f <= 0.0
    ensures (r - f).Floor as real == r - f
  {
    if r >= 0.0 then r - r.Floor as real else r - Ceil(r) as real
  }

  function CountOf(s: Star, stars: seq<Star>): nat {
    multiset(stars)[s]
  }

  function Max0(n: int): nat {
    if n < 0 then 0 else n
  }

  /** The stars shown for a rating: its floor in full stars, a half star from a fraction of one half on, empty stars up to five. */
  function StarsFor(rating: real): seq<Star> {
    var full := rating.Floor;
    var half := if JsFrac(rating) >= 0.5 then 1 else 0;
    Repeat(Full, Max0(full)) + Repeat(Half, half) + Repeat(Empty, Max0(5 - full - half))
  }

  /** `starRating`: the three counting loops. */
  method StarRating(rating: real) returns (stars: seq<Star>)
    ensures stars == StarsFor(rating)
  {
    var fullStars := rating.Floor;
    var halfStar := if JsFrac(rating) >= 0.5 then 1 else 0;
    var emptyStars := 5 - fullStars - halfStar;
    stars := [];
    var i := 0;
    while i < fullStars
      invariant 0 <= i <= Max0(fullStars)
      invariant stars == Repeat(Full, i)
    {
      stars := stars + [Full];
      i := i + 1;
    }
    if halfStar == 1 {
      stars := stars + [Half];
    }
    ghost var prefix := stars;
    assert prefix == Repeat(Full, Max0(fullStars)) + Repeat(Half, halfStar);
    i := 0;
    while i < emptyStars
      invariant 0 <= i <= Max0(emptyStars)
      invariant stars == prefix + Repeat(Empty, i)
    {
      stars := stars + [Empty];
      i := i + 1;
    }
  }

  /** The full and half counts for a rating between 0 and 5: the rating rounded down to a half. */
  lemma HalfSteps(rating: real)
    requires 0.0 <= rating <= 5.0
    ensures var full := rating.Floor;
            var half := if JsFrac(rating) >= 0.5 then 1 else 0;
            0 <= full <= 5 && (full == 5 ==> half == 0)
            && full as real + 0.5 * half as real <= rating < full as real + 0.5 * half as real + 0.5
  {
  }

  /** Full stars, then half stars, then empty stars: the counts of each. */
  lemma StarCounts(f: nat, h: nat, e: nat)
    ensures var stars := Repeat(Full, f) + Repeat(Half, h) + Repeat(Empty, e);
            |stars| == f + h + e && CountOf(Full, stars) == f && CountOf(Half, stars) == h
  {
    var a, b, c := Repeat(Full, f), Repeat(Half, h), Repeat(Empty, e);
    RepeatCount(Full, f);
    RepeatCount(Half, h);
    RepeatCount(Empty, e);
    assert multiset(a + b + c) == multiset(a) + multiset(b) + multiset(c);
  }

  /**
   * For a rating between 0 and 5 there are five stars, and the full stars plus half a
   * star for the half one are the rating rounded down to a half.
   */
  lemma FiveStarsForRating(rating: real)
    requires 0.0 <= rating <= 5.0
    ensures |StarsFor(rating)| == 5
    ensures var shown := CountOf(Full, StarsFor(rating)) as real + 0.5 * CountOf(Half, StarsFor(rating)) as real;
            shown <= rating < shown + 0.5
  {
    HalfSteps(rating);
    var full := rating.Floor;
    var half := if JsFrac(rating) >= 0.5 then 1 else 0;
    StarCounts(full, half, 5 - full - half);
  }

  lemma {:induction false} RepeatCount(s: Star, n: nat)
    ensures multiset(Repeat(s, n))[s] == n
    ensures forall t :: t != s ==> multiset(Repeat(s, n))[t] == 0
  {
    if n > 0 {
      RepeatCount(s, n - 1);
      assert Repeat(s, n) == Repeat(s, n - 1) + [s];
    }
  }
}
