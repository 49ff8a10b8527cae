/**
 * `ParseProgressPercentage` of the main window (MainWindow.axaml.cs:300-308):
 * the leftmost match of the pattern `(\d+(\.\d+)?)%` in one output line.
 * The value is kept as the matched decimal text, split at the point.
 */
module ProgressParser {
  import opened Wrappers

  /** `\d`, restricted to the ASCII digits. */
  predicate IsDigit(c: char) {
    '0' <= c <= '9'
  }

  predicate AllDigits(s: string) {
    forall i :: 0 <= i < |s| ==> IsDigit(s[i])
  }

  /** A progress value: the digits before the point and the digits after it ("" when there is no point). */
  datatype Percent = Percent(whole: string, fraction: string) {

    predicate WellFormed() {
      whole != [] && AllDigits(whole) && AllDigits(fraction)
    }

    /** The decimal text the value was read from. */
    function Text(): string {
      if fraction == [] then whole else whole + "." + fraction
    }
  }

  /** The value the progress bar is reset to before a download (MainWindow.axaml.cs:145). */
  const ZeroPercent := Percent("0", "")

  /** `t` is matched in full by `\d+(\.\d+)?`: digits at both ends, and at most one point in between. */
  predicate IsNumber(t: string) {
    && t != [] && IsDigit(t[0]) && IsDigit(t[|t| - 1])
    && (forall i :: 0 <= i < |t| ==> IsDigit(t[i]) || t[i] == '.')
    && (forall i, j :: 0 <= i < j < |t| && t[i] == '.' ==> t[j] != '.')
  }

  /** The pattern matches `line` with the number at [start, end) and the percent sign at `end`. */
  predicate MatchAt(line: string, start: int, end: int) {
    0 <= start < end < |line| && line[end] == '%' && IsNumber(line[start..end])
  }

  /** The match at [start, end) is the one a left-to-right regex search finds first. */
  ghost predicate IsLeftmostMatch(line: string, start: int, end: int) {
    MatchAt(line, start, end) && forall i, e :: 0 <= i < start ==> !MatchAt(line, i, e)
  }

  /** The end of the run of digits that begins at `i`. */
  function DigitRunEnd(s: string, i: nat): (j: nat)
    requires i <= |s|
    ensures i <= j <= |s|
    ensures forall k :: i <= k < j ==> IsDigit(s[k])
    ensures j == |s| || !IsDigit(s[j])
    decreases |s| - i
  {
    if i < |s| && IsDigit(s[i]) then DigitRunEnd(s, i + 1) else i
  }

  /** Where a match that starts at `i` ends: greedy digits, then an optional point and digits, then '%'. */
  function MatchEndFrom(s: string, i: nat): Option<nat>
    requires i <= |s|
  {
    var j := DigitRunEnd(s, i);
    if j == i || j == |s| then None
    else if s[j] == '%' then Some(j)
    else if s[j] == '.' then
      var k := DigitRunEnd(s, j + 1);
      if j + 1 < k < |s| && s[k] == '%' then Some(k) else None
    else None
  }

  /** From a given start the pattern has at most one match, and MatchEndFrom finds exactly it. */
  lemma MatchEndFromCorrect(s: string, i: nat)
    requires i <= |s|
    ensures MatchEndFrom(s, i).Some? ==> MatchAt(s, i, MatchEndFrom(s, i).value)
    ensures forall e :: MatchAt(s, i, e) ==> MatchEndFrom(s, i) == Some(e)
  {
    var j := DigitRunEnd(s, i);
    if MatchEndFrom(s, i).Some? {
      var e := MatchEndFrom(s, i).value;
      var t := s[i..e];
      if s[j] == '.' {
        forall x, y | 0 <= x < y < |t| && t[x] == '.' ensures t[y] != '.' {
          assert t[x] == s[i + x] && t[y] == s[i + y];
          assert i + x == j;
        }
      }
      assert IsNumber(t);
    }
    forall e | MatchAt(s, i, e) ensures MatchEndFrom(s, i) == Some(e) {
      var t := s[i..e];
      assert forall x :: 0 <= x < |t| ==> t[x] == s[i + x];
      if forall x :: 0 <= x < |t| ==> IsDigit(t[x]) {
        assert j == e;
      } else {
        var d :| 0 <= d < |t| && !IsDigit(t[d]);
        assert t[d] == '.';
        forall k | i <= k < i + d ensures IsDigit(s[k]) {
          assert t[k - i] != '.';
        }
        assert j == i + d;
        assert 0 < d < |t| - 1;
        forall k | i + d < k < e ensures IsDigit(s[k]) {
          assert t[k - i] != '.';
        }
        assert DigitRunEnd(s, j + 1) == e;
      }
    }
  }

  /** The leftmost match that starts at `from` or later, as (start, end). */
  function FindMatch(s: string, from: nat): (r: Option<(nat, nat)>)
    requires from <= |s|
    ensures r.Some? ==> from <= r.value.0 && MatchAt(s, r.value.0, r.value.1)
    ensures forall i, e :: from <= i && (r.None? || i < r.value.0) ==> !MatchAt(s, i, e)
    decreases |s| - from
  {
    MatchEndFromCorrect(s, from);
    if from == |s| then None
    else match MatchEndFrom(s, from)
      case Some(e) => Some((from, e))
      case None => FindMatch(s, from + 1)
  }

  /** Splits a matched number at its point. */
  function ToPercent(t: string): (p: Percent)
    requires IsNumber(t)
    ensures p.WellFormed() && p.Text() == t
  {
    var d := DigitRunEnd(t, 0);
    if d == |t| then Percent(t, "")
    else
      assert t[d] == '.';
      assert forall x :: d < x < |t| ==> t[x] != '.';
      assert t[..d] + "." + t[d + 1..] == t;
      Percent(t[..d], t[d + 1..])
  }

  /**
   * `ParseProgressPercentage`: some value exactly when the line holds a match
   * of `(\d+(\.\d+)?)%`, and then the number of the leftmost match.
   */
  function ParseProgressPercentage(line: string): (r: Option<Percent>)
    ensures r.None? <==> forall i, e :: !MatchAt(line, i, e)
    ensures r.Some? ==> r.value.WellFormed()
    ensures r.Some? ==> exists i, e :: IsLeftmostMatch(line, i, e) && r.value.Text() == line[i..e]
  {
    match FindMatch(line, 0)
    case None => None
    case Some((i, e)) =>
      assert IsLeftmostMatch(line, i, e);
      Some(ToPercent(line[i..e]))
  }

  /** A value is recovered from its own text: the matched text determines the value. */
  lemma {:induction false} PercentTextRoundTrip(p: Percent)
    requires p.WellFormed()
    ensures IsNumber(p.Text()) && ToPercent(p.Text()) == p
  {
    var t := p.Text();
    if p.fraction == [] {
      assert DigitRunEnd(t, 0) == |t|;
    } else {
      assert t[|p.whole|] == '.';
      assert forall x :: 0 <= x < |t| && x != |p.whole| ==> IsDigit(t[x]);
      assert DigitRunEnd(t, 0) == |p.whole|;
      assert t[..|p.whole|] == p.whole && t[|p.whole| + 1..] == p.fraction;
    }
  }

  /** Lines without a percent sign never yield a value, so the source's `Contains("%")` test loses nothing. */
  lemma NoPercentSignNoValue(line: string)
    requires '%' !in line
    ensures ParseProgressPercentage(line) == None
  {
    forall i, e ensures !MatchAt(line, i, e) {
      if 0 <= e < |line| { assert line[e] in line; }
    }
  }

  /** The leftmost match alone decides the value. */
  lemma LeftmostMatchDecides(line: string, start: nat, end: nat)
    requires IsLeftmostMatch(line, start, end)
    ensures ParseProgressPercentage(line) == Some(ToPercent(line[start..end]))
  {
    var r := ParseProgressPercentage(line);
    var i, e :| IsLeftmostMatch(line, i, e) && r.value.Text() == line[i..e];
    assert i == start;
    MatchEndFromCorrect(line, start);
    PercentTextRoundTrip(r.value);
  }

  /**
   * A number that follows a digit-free prefix and is followed by '%' is the
   * value of the line, whatever comes after it.
   */
  lemma ParseAfterText(line: string, prefix: string, number: string, rest: string)
    requires line == prefix + number + rest
    requires forall i :: 0 <= i < |prefix| ==> !IsDigit(prefix[i])
    requires IsNumber(number) && rest != [] && rest[0] == '%'
    ensures ParseProgressPercentage(line) == Some(ToPercent(number))
  {
    var start, end := |prefix|, |prefix| + |number|;
    assert line[start..end] == number;
    assert MatchAt(line, start, end);
    forall i, e | 0 <= i < start ensures !MatchAt(line, i, e) {
      assert line[i] == prefix[i];
    }
    LeftmostMatchDecides(line, start, end);
  }

  /** A line that is just a number and a percent sign, as in "50%". */
  lemma ParseBarePercentage(number: string)
    requires IsNumber(number)
    ensures ParseProgressPercentage(number + "%") == Some(ToPercent(number))
  {
    ParseAfterText(number + "%", "", number, "%");
  }
}
