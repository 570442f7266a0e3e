/** String helpers with the semantics of the Python str methods the source uses. */
module Text {
  import opened Wrappers

  /** s.startswith(p) */
  predicate StartsWith(s: string, p: string) {
    |p| <= |s| && s[..|p|] == p
  }

  /** `sub in s` for strings: a substring test. */
  predicate Contains(s: string, sub: string) {
    exists i: nat | i <= |s| :: OccursAt(s, sub, i)
  }

  /** s.find(c) for one character, as an Option: the first index holding c. */
  function IndexOfChar(s: string, c: char): (r: Option<nat>)
    ensures r.None? <==> c !in s
    ensures r.Some? ==> r.value < |s| && s[r.value] == c && c !in s[..r.value]
  {
    if |s| == 0 then None
    else if s[0] == c then Some(0)
    else match IndexOfChar(s[1..], c)
      case None => None
      case Some(i) => assert s[1..][..i] == s[1..i + 1]; Some(i + 1)
  }

  /** An index holding c with no c before it is the one s.find(c) gives. */
  lemma IndexOfCharAt(s: string, c: char, i: nat)
    requires i < |s| && s[i] == c && c !in s[..i]
    ensures IndexOfChar(s, c) == Some(i)
  {
    assert forall t :: 0 <= t < i ==> s[..i][t] == s[t];
  }

  /** Searching a concatenation whose first part lacks c searches the second part. */
  lemma IndexOfCharAppend(a: string, b: string, c: char)
    requires c !in a
    ensures IndexOfChar(a + b, c) == match IndexOfChar(b, c) case None => None case Some(k) => Some(|a| + k)
  {
    match IndexOfChar(b, c)
    case None =>
      assert forall t :: 0 <= t < |a + b| ==> (a + b)[t] == if t < |a| then a[t] else b[t - |a|];
    case Some(k) =>
      assert (a + b)[..|a| + k] == a + b[..k];
      IndexOfCharAt(a + b, c, |a| + k);
  }

  /** True when pat occurs in s with its first character at index i. */
  predicate OccursAt(s: string, pat: string, i: nat) {
    i + |pat| <= |s| && s[i..i + |pat|] == pat
  }

  /** Past index 0, an occurrence in s is an occurrence in s[1..], one place earlier. */
  lemma OccursShift(s: string, pat: string)
    requires |s| > 0
    ensures forall j: nat :: j > 0 ==> (OccursAt(s, pat, j) <==> OccursAt(s[1..], pat, j - 1))
  {
    forall j: nat | j > 0 ensures OccursAt(s, pat, j) <==> OccursAt(s[1..], pat, j - 1) {
      if j + |pat| <= |s| {
        assert s[1..][j - 1..j - 1 + |pat|] == s[j..j + |pat|];
      }
    }
  }

  /** s.find(pat): the first index at which pat occurs. */
  function IndexOf(s: string, pat: string): (r: Option<nat>)
    ensures r.Some? ==> OccursAt(s, pat, r.value)
    ensures r.Some? ==> forall j: nat :: j < r.value ==> !OccursAt(s, pat, j)
    ensures r.None? ==> forall j: nat :: !OccursAt(s, pat, j)
    decreases |s|
  {
    if |pat| > |s| then None
    else if s[..|pat|] == pat then Some(0)
    else
      OccursShift(s, pat);
      match IndexOf(s[1..], pat)
      case None => None
      case Some(i) => Some(i + 1)
  }

  /** s.replace(old, new, 1): only the first occurrence is replaced. */
  function ReplaceFirst(s: string, pat: string, repl: string): (r: string)
    ensures IndexOf(s, pat).None? ==> r == s
    ensures IndexOf(s, pat).Some? ==>
              var i := IndexOf(s, pat).value; r == s[..i] + repl + s[i + |pat|..]
  {
    match IndexOf(s, pat)
    case None => s
    case Some(i) => s[..i] + repl + s[i + |pat|..]
  }

  /** s.replace(a, b) for single characters: every occurrence is replaced. */
  function ReplaceChar(s: string, a: char, b: char): (r: string)
    ensures |r| == |s|
    ensures forall i :: 0 <= i < |s| ==> r[i] == (if s[i] == a then b else s[i])
  {
    if |s| == 0 then [] else [if s[0] == a then b else s[0]] + ReplaceChar(s[1..], a, b)
  }

  lemma {:induction false} ReplaceCharAppend(s: string, t: string, a: char, b: char)
    ensures ReplaceChar(s + t, a, b) == ReplaceChar(s, a, b) + ReplaceChar(t, a, b)
  {
    var l, r := ReplaceChar(s + t, a, b), ReplaceChar(s, a, b) + ReplaceChar(t, a, b);
    assert |l| == |r|;
    forall i | 0 <= i < |l| ensures l[i] == r[i] {
      if i < |s| { assert (s + t)[i] == s[i]; } else { assert (s + t)[i] == t[i - |s|]; }
    }
  }

  /** Replacing a by b and then b by a gives back any string that held no b. */
  lemma ReplaceCharInverse(s: string, a: char, b: char)
    requires b !in s
    ensures ReplaceChar(ReplaceChar(s, a, b), b, a) == s
  {
    var r := ReplaceChar(ReplaceChar(s, a, b), b, a);
    assert |r| == |s|;
    forall i | 0 <= i < |s| ensures r[i] == s[i] {
      assert s[i] != b;
    }
  }

  /** s.rstrip(chars): every trailing character that is in chars is removed. */
  function RStrip(s: string, chars: set<char>): (r: string)
    ensures |r| <= |s| && r == s[..|r|]
    ensures forall i :: |r| <= i < |s| ==> s[i] in chars
    ensures |r| > 0 ==> r[|r| - 1] !in chars
  {
    if |s| == 0 then s
    else if s[|s| - 1] in chars then RStrip(s[..|s| - 1], chars)
    else s
  }

  /** A string with any run of the stripped characters appended strips to the same string. */
  lemma {:induction false} RStripAppend(s: string, tail: string, chars: set<char>)
    requires forall i :: 0 <= i < |tail| ==> tail[i] in chars
    ensures RStrip(s + tail, chars) == RStrip(s, chars)
    decreases |tail|
  {
    if |tail| > 0 {
      var shorter := tail[..|tail| - 1];
      assert (s + tail)[..|s + tail| - 1] == s + shorter;
      RStripAppend(s, shorter, chars);
    } else {
      assert s + tail == s;
    }
  }

  /** RStrip is the only way to split s into a kept part not ending in chars and a stripped tail. */
  lemma {:induction false} RStripUnique(s: string, keep: string, chars: set<char>)
    requires |keep| <= |s| && s[..|keep|] == keep
    requires forall i :: |keep| <= i < |s| ==> s[i] in chars
    requires |keep| > 0 ==> keep[|keep| - 1] !in chars
    ensures RStrip(s, chars) == keep
    decreases |s|
  {
    if |s| > |keep| {
      assert s[..|s| - 1][..|keep|] == keep;
      RStripUnique(s[..|s| - 1], keep, chars);
    } else {
      assert s == keep;
    }
  }

  /** The whitespace characters that Python's str.strip() removes, restricted to ASCII. */
  const Whitespace: set<char> := {' ', '\t', '\n', '\r', '\U{B}', '\U{C}'}

  /** s.lstrip() */
  function LStripSpace(s: string): (r: string)
    ensures |r| <= |s| && r == s[|s| - |r|..]
    ensures |r| > 0 ==> r[0] !in Whitespace
  {
    if |s| == 0 then s
    else if s[0] in Whitespace then LStripSpace(s[1..])
    else s
  }

  /** s.strip() */
  function Strip(s: string): (r: string)
    ensures |r| <= |s|
    ensures |r| > 0 ==> r[0] !in Whitespace && r[|r| - 1] !in Whitespace
  {
    RStrip(LStripSpace(s), Whitespace)
  }

  /** s.lower(), restricted to the ASCII letters. */
  function ToLower(s: string): (r: string)
    ensures |r| == |s|
    ensures forall i :: 0 <= i < |s| ==>
              r[i] == (if 'A' <= s[i] <= 'Z' then (s[i] as int + 32) as char else s[i])
  {
    if |s| == 0 then []
    else [if 'A' <= s[0] <= 'Z' then (s[0] as int + 32) as char else s[0]] + ToLower(s[1..])
  }

  /** sep.join(parts) */
  function Join(sep: string, parts: seq<string>): (r: string)
    ensures |parts| == 1 ==> r == parts[0]
    ensures |parts| == 0 ==> r == ""
  {
    if |parts| == 0 then ""
    else if |parts| == 1 then parts[0]
    else parts[0] + sep + Join(sep, parts[1..])
  }
}
