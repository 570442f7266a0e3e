/**
 * The small rules shared by every version of form submission: the email
 * address pattern, the form hash, the control keys kept out of the
 * notification and the monthly counter key.
 */
module EmailRules {
  import opened Wrappers
  import opened Text
  import opened Numerals

  predicate AtFree(t: string) {
    '@' !in t
  }

  /**
   * A match of the pattern [^@]+@[^@]+\.[^@]+ at the start of s that ends
   * at k, with the '@' at i and the '.' at j.
   */
  predicate MatchesAt(s: string, i: nat, j: nat, k: nat) {
    0 < i && i + 1 < j && j + 1 < k <= |s| &&
    AtFree(s[..i]) && s[i] == '@' && AtFree(s[i + 1..j]) && s[j] == '.' && AtFree(s[j + 1..k])
  }

  /** What re.match of the pattern accepts: a match anchored at the start, with any text after it. */
  ghost predicate PatternMatches(s: string) {
    exists i: nat, j: nat, k: nat :: MatchesAt(s, i, j, k)
  }

  /** The end of the '@'-free run of s that starts at `from`. */
  function RunEnd(s: string, from: nat): (e: nat)
    requires from <= |s|
    ensures from <= e <= |s| && AtFree(s[from..e]) && (e < |s| ==> s[e] == '@')
  {
    match IndexOfChar(s[from..], '@')
    case Some(p) => from + p
    case None => |s|
  }

  /** A '.' that is neither the first nor the last character of t. */
  predicate HasInnerDot(t: string) {
    |t| >= 3 && '.' in t[1..|t| - 1]
  }

  /**
   * IS_VALID_EMAIL: the text before the first '@' is not empty, and the
   * '@'-free run after it has an inner '.'.
   */
  predicate IsValidEmail(s: string) {
    match IndexOfChar(s, '@')
    case None => false
    case Some(i) => i > 0 && HasInnerDot(s[i + 1..RunEnd(s, i + 1)])
  }

  /** The scan accepts exactly the strings the anchored pattern matches. */
  lemma {:induction false} IsValidEmailMatchesPattern(s: string)
    ensures IsValidEmail(s) <==> PatternMatches(s)
  {
    if IsValidEmail(s) {
      ValidEmailMatches(s);
    }
    if PatternMatches(s) {
      var i: nat, j: nat, k: nat :| MatchesAt(s, i, j, k);
      MatchIsValidEmail(s, i, j, k);
    }
  }

  /** An accepted address has a match: the first '@', an inner '.' of the run after it, and the run's end. */
  lemma ValidEmailMatches(s: string)
    requires IsValidEmail(s)
    ensures PatternMatches(s)
  {
    var i := IndexOfChar(s, '@').value;
    RunMatches(s, i, RunEnd(s, i + 1));
  }

  /** The first '@' at i and an '@'-free run after it with an inner '.' give a match ending with the run. */
  lemma RunMatches(s: string, i: nat, e: nat)
    requires 0 < i < e <= |s| && s[i] == '@' && AtFree(s[..i])
    requires AtFree(s[i + 1..e]) && HasInnerDot(s[i + 1..e])
    ensures PatternMatches(s)
  {
    var run := s[i + 1..e];
    var inner := run[1..|run| - 1];
    var d :| 0 <= d < |inner| && inner[d] == '.';
    var j := i + 2 + d;
    assert s[j] == inner[d];
    AtFreeSlice(s, i + 1, e, i + 1, j);
    AtFreeSlice(s, i + 1, e, j + 1, e);
    assert MatchesAt(s, i, j, e);
  }

  /** A match makes the scan accept: its '@' is the first, and its '.' lies inside the run after it. */
  lemma MatchIsValidEmail(s: string, i: nat, j: nat, k: nat)
    requires MatchesAt(s, i, j, k)
    ensures IsValidEmail(s)
  {
    IndexOfCharAt(s, '@', i);
    var e := RunEnd(s, i + 1);
    AtFreeSplit(s, i + 1, j, k);
    RunReaches(s, i + 1, k);
    var run := s[i + 1..e];
    assert run[j - i - 1] == '.';
    assert run[1..|run| - 1][j - i - 2] == '.';
  }

  lemma AtFreeSlice(s: string, a: nat, b: nat, c: nat, d: nat)
    requires a <= c <= d <= b <= |s| && AtFree(s[a..b])
    ensures AtFree(s[c..d])
  {
    forall t | 0 <= t < d - c ensures s[c..d][t] != '@' {
      assert s[c..d][t] == s[a..b][c + t - a];
    }
  }

  lemma AtFreeSplit(s: string, a: nat, j: nat, k: nat)
    requires a <= j < k <= |s| && AtFree(s[a..j]) && s[j] == '.' && AtFree(s[j + 1..k])
    ensures AtFree(s[a..k])
  {
    assert s[a..k] == s[a..j] + [s[j]] + s[j + 1..k];
  }

  lemma RunReaches(s: string, from: nat, k: nat)
    requires from <= k <= |s| && AtFree(s[from..k])
    ensures k <= RunEnd(s, from)
  {
    assert forall t :: from <= t < k ==> s[from..k][t - from] == s[t];
  }

  /** Text after a match, further '@' included, never turns a valid address invalid. */
  lemma {:induction false} ValidEmailIgnoresSuffix(s: string, tail: string)
    requires IsValidEmail(s)
    ensures IsValidEmail(s + tail)
  {
    IsValidEmailMatchesPattern(s);
    var i: nat, j: nat, k: nat :| MatchesAt(s, i, j, k);
    assert (s + tail)[..i] == s[..i];
    assert (s + tail)[i + 1..j] == s[i + 1..j];
    assert (s + tail)[j + 1..k] == s[j + 1..k];
    assert MatchesAt(s + tail, i, j, k);
    IsValidEmailMatchesPattern(s + tail);
  }

  /** HASH(x, y): the hex digest of x + y + secret, for an abstract digest function. */
  function Hash(digest: string -> string, secret: string, x: string, y: string): string {
    digest(x + y + secret)
  }

  /** The hash sees only the concatenation of its two arguments. */
  lemma HashOfConcatenation(digest: string -> string, secret: string, x1: string, y1: string, x2: string, y2: string)
    requires x1 + y1 == x2 + y2
    ensures Hash(digest, secret, x1, y1) == Hash(digest, secret, x2, y2)
  {
  }

  /** The control keys kept out of the notification (formspree/forms/helpers.py). */
  const ExcludeKeys: seq<string> := ["_gotcha", "_next", "_subject", "_cc", "_bcc"]

  /** The control keys of the older versions, which have no "_bcc". */
  const LegacyExcludeKeys: seq<string> := ["_gotcha", "_next", "_subject", "_cc"]

  lemma LegacyKeysDifference()
    ensures "_bcc" in ExcludeKeys && "_bcc" !in LegacyExcludeKeys
    ensures forall k :: k in LegacyExcludeKeys ==> k in ExcludeKeys
  {
  }

  /** MONTHLY_COUNTER_KEY(form_id, month). */
  function MonthlyCounterKey(formId: int, month: int): (r: string)
    ensures StartsWith(r, "monthly_")
  {
    "monthly_" + (IntToDecimal(formId) + "_" + IntToDecimal(month))
  }

  /** Different (form, month) pairs never share a counter key. */
  lemma {:induction false} MonthlyCounterKeyInjective(a: int, m: int, b: int, n: int)
    requires MonthlyCounterKey(a, m) == MonthlyCounterKey(b, n)
    ensures a == b && m == n
  {
    var x, y := IntToDecimal(a) + "_" + IntToDecimal(m), IntToDecimal(b) + "_" + IntToDecimal(n);
    assert x == ("monthly_" + x)[8..] == ("monthly_" + y)[8..] == y;
    NoUnderscore(a);
    NoUnderscore(b);
    UnderscoreSplit(IntToDecimal(a), IntToDecimal(m), IntToDecimal(b), IntToDecimal(n));
    IntToDecimalInjective(a, b);
    IntToDecimalInjective(m, n);
  }

  lemma NoUnderscore(i: int)
    ensures '_' !in IntToDecimal(i)
  {
    var d := IntToDecimal(i);
    forall t | 0 <= t < |d| ensures d[t] != '_' {
      assert IsDigit(d[t]) || d[t] == '-';
    }
  }

  /** Two texts joined by '_' split back apart at the first '_' when the first part has none. */
  lemma UnderscoreSplit(x: string, y: string, x2: string, y2: string)
    requires '_' !in x && '_' !in x2 && x + "_" + y == x2 + "_" + y2
    ensures x == x2 && y == y2
  {
    var s := x + "_" + y;
    assert s == x + ("_" + y);
    assert s == x2 + ("_" + y2);
    IndexOfCharAppend(x, "_" + y, '_');
    IndexOfCharAppend(x2, "_" + y2, '_');
    IndexOfCharAt("_" + y, '_', 0);
    IndexOfCharAt("_" + y2, '_', 0);
    assert |x| == |x2|;
    assert x == s[..|x|] == x2;
    assert y == s[|x| + 1..] == y2;
  }
}
