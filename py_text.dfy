/**
 * The parts of Python's string semantics the log scanners rely on:
 * slicing with negative and out-of-range indices, and reading a
 * base-10 integer with `int(...)`.
 */
module PyText {
  import opened Common

  /** Python's normalisation of a slice bound against a string of length `len`:
      a negative bound counts from the end, and the result is clamped to [0, len]. */
  function SliceBound(i: int, len: nat): (r: nat)
    ensures r <= len
    ensures 0 <= i <= len ==> r == i
    ensures i < 0 && -i <= len ==> r == len + i
    ensures i < 0 && -i > len ==> r == 0
    ensures i > len ==> r == len
  {
    if i < 0 then (if i + len < 0 then 0 else i + len)
    else if i > len then len
    else i
  }

  /** `s[start:stop]` in Python: never fails, empty when the bounds cross. */
  function Slice(s: string, start: int, stop: int): (r: string)
    ensures SliceBound(start, |s|) + |r| <= |s|
    ensures SliceBound(start, |s|) <= SliceBound(stop, |s|) ==>
              |r| == SliceBound(stop, |s|) - SliceBound(start, |s|)
    ensures SliceBound(start, |s|) > SliceBound(stop, |s|) ==> r == []
    ensures forall k :: 0 <= k < |r| ==> r[k] == s[SliceBound(start, |s|) + k]
  {
    var a, b := SliceBound(start, |s|), SliceBound(stop, |s|);
    if a <= b then s[a..b] else []
  }

  predicate IsDigit(c: char) { '0' <= c <= '9' }

  predicate AllDigits(s: string) { forall k :: 0 <= k < |s| ==> IsDigit(s[k]) }

  /** `k` copies of `v` added up. Digit values are shifted with this rather
      than with `10 * v`, so that facts about lines whose digits play no part
      stay in linear arithmetic; `ScaleIsProduct` gives the product back. */
  function Scale(v: nat, k: nat): nat {
    if k == 0 then 0 else v + Scale(v, k - 1)
  }

  lemma {:induction false} ScaleIsProduct(v: nat, k: nat)
    ensures Scale(v, k) == v * k
  {
    if k > 0 {
      ScaleIsProduct(v, k - 1);
    }
  }

  /** The value of a string of decimal digits, most significant digit first. */
  function DigitsValue(s: string): nat
    requires AllDigits(s)
    decreases |s|
  {
    if s == [] then 0
    else Scale(DigitsValue(s[..|s| - 1]), 10) + (s[|s| - 1] as int - '0' as int)
  }

  /** `int(text)` for the strict form this model accepts: one or more ASCII digits.
      Any other text is what makes `int` raise `ValueError` here. */
  function ParseDecimal(text: string): (r: Option<nat>)
    ensures r.Some? <==> |text| > 0 && AllDigits(text)
  {
    if |text| > 0 && AllDigits(text) then Some(DigitsValue(text)) else None
  }

  /** The value is exactly what the digits spell: appending a digit multiplies by ten and adds it. */
  lemma DigitsValueAppend(s: string, c: char)
    requires AllDigits(s) && IsDigit(c)
    ensures AllDigits(s + [c])
    ensures DigitsValue(s + [c]) == 10 * DigitsValue(s) + (c as int - '0' as int)
  {
    assert (s + [c])[..|s|] == s;
    ScaleIsProduct(DigitsValue(s), 10);
  }

  function Pow10(n: nat): (r: nat)
    ensures r >= 1
  {
    if n == 0 then 1 else 10 * Pow10(n - 1)
  }

  /** The `width`-digit, zero-padded decimal text of `v` (the low `width` digits). */
  function DecimalText(v: nat, width: nat): (s: string)
    ensures |s| == width && AllDigits(s)
  {
    if width == 0 then "" else DecimalText(v / 10, width - 1) + [('0' as int + v % 10) as char]
  }

  /** Reading back a zero-padded decimal text gives the number it was made from. */
  lemma {:induction false} DecimalTextRoundTrip(v: nat, width: nat)
    requires v < Pow10(width)
    ensures DigitsValue(DecimalText(v, width)) == v
  {
    if width > 0 {
      var c := ('0' as int + v % 10) as char;
      DecimalTextRoundTrip(v / 10, width - 1);
      DigitsValueAppend(DecimalText(v / 10, width - 1), c);
    }
  }
}
