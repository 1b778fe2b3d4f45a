/**
 * Python's numeric text conversions, kept abstract. The codecs only ever
 * call these six conversions; what they compute is a property of Python's
 * `int`, `float`, `str` and format specifications, and the facts the round
 * trips need are collected in `Sound` as explicit assumptions.
 * Floating-point values are modelled as reals (no NaN, no infinities).
 */
module Numerals {
  import opened Outcomes
  import opened Text

  datatype Numerals = Numerals(
    parseInt: string -> Option<int>,    // int(s); None where Python raises ValueError
    parseFloat: string -> Option<real>, // float(s); None where Python raises ValueError
    showInt: int -> string,             // str(i), also f"{i}"
    showFloat: real -> string,          // str(x), also f"{x}"
    fixed10: real -> string,            // f"{x:.10f}"
    sci1: real -> string,               // f"{x:.1e}"
    isFloat: real -> bool)              // the reals a Python float (an IEEE double) holds

  /**
   * The assumptions behind every round trip (stated, not proved):
   * each rendering is a single whitespace-free word; `str` of an int reads
   * back exactly, and so does `str` of a float value (Python's `repr` is
   * shortest-round-trip); the `.1e` and `.10f` renderings read back as some
   * number (not necessarily the one rendered). `SoundMet` shows that one
   * choice of conversions meets all of them.
   */
  ghost predicate Sound(num: Numerals) {
    && (forall i: int :: IsToken(num.showInt(i)) && num.parseInt(num.showInt(i)) == Some(i))
    && (forall x: real :: IsToken(num.showFloat(x)))
    && (forall x: real :: num.isFloat(x) ==> num.parseFloat(num.showFloat(x)) == Some(x))
    && (forall x: real :: IsToken(num.sci1(x)) && num.parseFloat(num.sci1(x)).Some?)
    && (forall x: real :: IsToken(num.fixed10(x)) && num.parseFloat(num.fixed10(x)).Some?)
  }

  /** Integers written in unary: `n + 1` ones for `n >= 0`, `-n` zeros for `n < 0`. */
  function UnaryText(i: int): (r: string)
    ensures |r| > 0
  {
    if i >= 0 then seq(i + 1, _ => '1') else seq(-i, _ => '0')
  }

  function UnaryValue(s: string): Option<int> {
    if |s| > 0 && forall k :: 0 <= k < |s| ==> s[k] == '1' then Some(|s| - 1)
    else if |s| > 0 && forall k :: 0 <= k < |s| ==> s[k] == '0' then Some(-|s|)
    else None
  }

  /**
   * Conversions under which only whole numbers are floats, all written in
   * unary: a model of `Sound`, so that the assumptions are not contradictory.
   */
  function Unary(): Numerals {
    Numerals(UnaryValue,
             s => match UnaryValue(s) case Some(i) => Some(i as real) case None => None,
             UnaryText,
             (x: real) => UnaryText(x.Floor),
             (x: real) => UnaryText(x.Floor),
             (x: real) => UnaryText(x.Floor),
             (x: real) => x == x.Floor as real)
  }

  lemma UnaryRoundTrip(i: int)
    ensures IsToken(UnaryText(i)) && UnaryValue(UnaryText(i)) == Some(i)
  {
    var s := UnaryText(i);
    assert NoSpace(s) by {
      forall k | 0 <= k < |s| ensures !IsSpace(s[k]) {
        assert s[k] == '1' || s[k] == '0';
      }
    }
    if i < 0 {
      assert s[0] == '0' && s[0] != '1';
    }
  }

  /** `Sound` can be met: the unary conversions meet it. */
  lemma SoundMet()
    ensures Sound(Unary())
  {
    var num := Unary();
    forall i: int ensures IsToken(num.showInt(i)) && num.parseInt(num.showInt(i)) == Some(i) {
      UnaryRoundTrip(i);
    }
    forall x: real
      ensures IsToken(num.showFloat(x)) && IsToken(num.sci1(x)) && IsToken(num.fixed10(x))
      ensures num.parseFloat(num.sci1(x)).Some? && num.parseFloat(num.fixed10(x)).Some?
      ensures num.isFloat(x) ==> num.parseFloat(num.showFloat(x)) == Some(x)
    {
      UnaryRoundTrip(x.Floor);
    }
  }

  /** The value `float(f"{x:.1e}")`: what the `.1e` text of x reads back as (x rounded to one mantissa digit, a rounding left abstract). */
  function SciValue(num: Numerals, x: real): real {
    match num.parseFloat(num.sci1(x))
    case Some(v) => v
    case None => x
  }

  /** The value `float(f"{x:.10f}")`: what the `.10f` text of x reads back as (x rounded to ten decimals, a rounding left abstract). */
  function FixedValue(num: Numerals, x: real): real {
    match num.parseFloat(num.fixed10(x))
    case Some(v) => v
    case None => x
  }

  /** `len(range(n))`: the number of passes of `for _ in range(n)`, none for a negative `n`. */
  function Count(n: int): nat {
    if n < 0 then 0 else n
  }

  /** `float` accepts every word. */
  predicate AllFloats(num: Numerals, words: seq<string>) {
    forall k :: 0 <= k < |words| ==> num.parseFloat(words[k]).Some?
  }

  /** Word `k` is the first word `float` rejects. */
  predicate FirstNonFloat(num: Numerals, words: seq<string>, k: int) {
    0 <= k < |words| && num.parseFloat(words[k]).None? && forall j :: 0 <= j < k ==> num.parseFloat(words[j]).Some?
  }

  /** `int` accepts every word. */
  predicate AllInts(num: Numerals, words: seq<string>) {
    forall k :: 0 <= k < |words| ==> num.parseInt(words[k]).Some?
  }

  /** Word `k` is the first word `int` rejects. */
  predicate FirstNonInt(num: Numerals, words: seq<string>, k: int) {
    0 <= k < |words| && num.parseInt(words[k]).None? && forall j :: 0 <= j < k ==> num.parseInt(words[j]).Some?
  }

  /** `[float(x) for x in words]`: all the values, or the first word `float` rejects. */
  function ParseFloats(num: Numerals, words: seq<string>): (r: Result<seq<real>, string>)
    ensures r.Success? ==> |r.value| == |words|
    ensures r.Success? ==> forall k :: 0 <= k < |words| ==> num.parseFloat(words[k]) == Some(r.value[k])
    ensures r.Success? <==> AllFloats(num, words)
    ensures r.Failure? ==> exists k :: FirstNonFloat(num, words, k) && r.error == words[k]
  {
    if |words| == 0 then Success([])
    else match num.parseFloat(words[0])
      case None => Failure(words[0])
      case Some(v) =>
        var rest :- ParseFloats(num, words[1..]);
        Success([v] + rest)
  }

  /** `int(str(i)) == i`, and `str(i)` is one word. */
  lemma IntRoundTrip(num: Numerals, i: int)
    requires Sound(num)
    ensures IsToken(num.showInt(i)) && num.parseInt(num.showInt(i)) == Some(i)
  {
  }

  /** `float(str(x)) == x` for a float value `x`, and `str(x)` is one word. */
  lemma FloatRoundTrip(num: Numerals, x: real)
    requires Sound(num) && num.isFloat(x)
    ensures IsToken(num.showFloat(x)) && num.parseFloat(num.showFloat(x)) == Some(x)
  {
  }

  /** `f"{x:.10f}"` is one word and reads back as `FixedValue`. */
  lemma FixedRoundTrip(num: Numerals, x: real)
    requires Sound(num)
    ensures IsToken(num.fixed10(x)) && num.parseFloat(num.fixed10(x)) == Some(FixedValue(num, x))
  {
    assert IsToken(num.fixed10(x)) && num.parseFloat(num.fixed10(x)).Some?;
  }
}
