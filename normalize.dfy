/**
 * `clean_int`: the total parser that turns a price or review-count text into
 * a non-negative integer, the value of the text's first run of digits.
 */
module Normalize {
  import opened Wrappers

  /**
   * The longest digit string `int()` accepts under CPython's default
   * `sys.get_int_max_str_digits()` (Python 3.11 on); a longer one raises
   * `ValueError`, which `clean_int` catches and turns into 0.
   */
  const IntMaxStrDigits := 4300

  /** The digits `\d` matches, restricted to ASCII. */
  predicate IsDigit(c: char) {
    '0' <= c <= '9'
  }

  predicate AllDigits(s: string) {
    forall k :: 0 <= k < |s| ==> IsDigit(s[k])
  }

  predicate NoDigits(s: string) {
    forall k :: 0 <= k < |s| ==> !IsDigit(s[k])
  }

  /** `int(run)` for a run of decimal digits, most significant digit first. */
  function DigitsValue(run: string): nat
    requires AllDigits(run)
  {
    if run == [] then 0
    else DigitsValue(run[..|run| - 1]) * 10 + (run[|run| - 1] - '0') as nat
  }

  /** Where the first digit of `s` is, or `|s|` if it has none. */
  function FirstDigitAt(s: string): (i: nat)
    ensures i <= |s| && NoDigits(s[..i])
    ensures i < |s| ==> IsDigit(s[i])
  {
    if s == [] || IsDigit(s[0]) then 0
    else
      var i := 1 + FirstDigitAt(s[1..]);
      assert s[..i] == [s[0]] + s[1..][..i - 1];
      i
  }

  /** Where the run of digits that starts at `i` ends: the run is maximal. */
  function RunEnd(s: string, i: nat): (j: nat)
    requires i <= |s|
    ensures i <= j <= |s| && AllDigits(s[i..j])
    ensures j < |s| ==> !IsDigit(s[j])
    decreases |s| - i
  {
    if i < |s| && IsDigit(s[i]) then RunEnd(s, i + 1) else i
  }

  /**
   * `clean_int(text)`: 0 for `None` and for the empty string; otherwise the value
   * of the first maximal run of digits, or 0 when there is no digit or when
   * `int()` rejects the run as longer than `IntMaxStrDigits`.
   */
  function CleanInt(text: Option<string>): (r: nat)
    ensures text == None || text == Some("") ==> r == 0
    ensures text.Some? && NoDigits(text.value) ==> r == 0
  {
    match text
    case None => 0
    case Some(s) =>
      if s == "" then 0
      else
        var i := FirstDigitAt(s);
        if i == |s| then 0
        else
          var j := RunEnd(s, i);
          if j - i > IntMaxStrDigits then 0 else DigitsValue(s[i..j])
  }

  /**
   * The run `clean_int` reads is the first maximal one: whatever `s[i..j]`
   * is preceded only by non-digits, consists of digits and is not followed by
   * a digit gives the result: its value, or 0 when it is too long for `int()`.
   */
  lemma {:induction false} CleanIntIsFirstRun(s: string, i: nat, j: nat)
    requires i < j <= |s|
    requires NoDigits(s[..i]) && AllDigits(s[i..j])
    requires j == |s| || !IsDigit(s[j])
    ensures j - i <= IntMaxStrDigits ==> CleanInt(Some(s)) == DigitsValue(s[i..j])
    ensures j - i > IntMaxStrDigits ==> CleanInt(Some(s)) == 0
  {
    var f := FirstDigitAt(s);
    assert s[i] == s[i..j][0];
    assert f == i;
    var e := RunEnd(s, i);
    assert forall k :: i <= k < j ==> s[k] == s[i..j][k - i];
    assert forall k :: i <= k < e ==> s[k] == s[i..e][k - i];
  }

  /** `str(n)`: the decimal rendering of a natural number. */
  function Decimal(n: nat): (s: string)
    ensures s != [] && AllDigits(s)
  {
    if n < 10 then ['0' + n as char]
    else Decimal(n / 10) + ['0' + (n % 10) as char]
  }

  /** `int(str(n)) == n`. */
  lemma {:induction false} DigitsValueDecimal(n: nat)
    ensures DigitsValue(Decimal(n)) == n
  {
    var s := Decimal(n);
    if n >= 10 {
      DigitsValueDecimal(n / 10);
      assert s[..|s| - 1] == Decimal(n / 10);
    }
  }

  /**
   * A number written in decimal, after a prefix without digits and before
   * anything that does not continue it with a digit, is read back exactly:
   * `clean_int("Rs. 499 only") == 499`; a number of more than
   * `IntMaxStrDigits` digits gives 0 instead.
   */
  lemma CleanIntReadsDecimal(prefix: string, n: nat, suffix: string)
    requires NoDigits(prefix)
    requires suffix == [] || !IsDigit(suffix[0])
    ensures |Decimal(n)| <= IntMaxStrDigits ==> CleanInt(Some(prefix + Decimal(n) + suffix)) == n
    ensures |Decimal(n)| > IntMaxStrDigits ==> CleanInt(Some(prefix + Decimal(n) + suffix)) == 0
  {
    var d := Decimal(n);
    var s := prefix + d + suffix;
    var i, j := |prefix|, |prefix| + |d|;
    assert s[..i] == prefix;
    assert s[i..j] == d;
    DigitsValueDecimal(n);
    CleanIntIsFirstRun(s, i, j);
  }

  /** A thousands separator ends the run: `clean_int("Rs. 1,234") == 1`. */
  lemma SeparatorEndsRun()
    ensures CleanInt(Some("Rs. 1,234")) == 1
  {
    var s := "Rs. 1,234";
    assert NoDigits(s[..4]);
    assert s[4..5] == "1";
    CleanIntIsFirstRun(s, 4, 5);
  }

  /** A run of 4301 digits is past `int()`'s limit, so `clean_int` gives 0. */
  lemma OverlongRunIsZero()
    ensures CleanInt(Some(seq(IntMaxStrDigits + 1, k => '1'))) == 0
  {
    var s := seq(IntMaxStrDigits + 1, k => '1');
    assert s[..0] == [];
    assert s[0..|s|] == s;
    CleanIntIsFirstRun(s, 0, |s|);
  }
}
