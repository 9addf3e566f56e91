/** The JavaScript string operations the controllers and the middleware rely on. */
module Text {
  import opened Outcomes

  /** White space and line terminators, the characters `String.prototype.trim` removes. */
  predicate IsSpace(ch: char) {
    || ch == ' ' || ch == '\t' || ch == '\n' || ch == '\r'
    || ch == '\U{000B}' || ch == '\U{000C}' || ch == '\U{00A0}' || ch == '\U{1680}'
    || ('\U{2000}' <= ch <= '\U{200A}')
    || ch == '\U{2028}' || ch == '\U{2029}' || ch == '\U{202F}' || ch == '\U{205F}'
    || ch == '\U{3000}' || ch == '\U{FEFF}'
  }

  predicate AllSpace(s: string) {
    forall i :: 0 <= i < |s| ==> IsSpace(s[i])
  }

  /** Neither end of `s` is white space. */
  predicate IsTrimmed(s: string) {
    s == [] || (!IsSpace(s[0]) && !IsSpace(s[|s| - 1]))
  }

  /** `s.trimStart()`: the suffix left after dropping the leading white space. */
  function TrimStart(s: string): string {
    if |s| > 0 && IsSpace(s[0]) then TrimStart(s[1..]) else s
  }

  /** `s.trimEnd()`: the prefix left after dropping the trailing white space. */
  function TrimEnd(s: string): string {
    if |s| > 0 && IsSpace(s[|s| - 1]) then TrimEnd(s[..|s| - 1]) else s
  }

  /** `s.trim()` */
  function Trim(s: string): string {
    TrimEnd(TrimStart(s))
  }

  /** `value?.trim() === ""`: a present string made only of white space. An absent value is not blank. */
  predicate IsBlank(v: Option<string>) {
    v.Some? && Trim(v.value) == ""
  }

  predicate IsUpper(ch: char) {
    'A' <= ch <= 'Z'
  }

  /** Lower-cases one character (ASCII letters only). */
  function LowerChar(ch: char): (c: char)
    ensures !IsUpper(c)
    ensures IsSpace(c) <==> IsSpace(ch)
  {
    if IsUpper(ch) then (ch as int + 32) as char else ch
  }

  /** `s.toLowerCase()` */
  function Lower(s: string): (r: string)
    ensures |r| == |s| && IsLowerCase(r)
    ensures IsLowerCase(s) ==> r == s
    ensures AllSpace(r) <==> AllSpace(s)
  {
    var r := seq(|s|, i requires 0 <= i < |s| => LowerChar(s[i]));
    assert forall i :: 0 <= i < |s| ==> r[i] == LowerChar(s[i]);
    r
  }

  predicate IsLowerCase(s: string) {
    forall i :: 0 <= i < |s| ==> !IsUpper(s[i])
  }

  /** What a schema path declared `lowercase: true, trim: true` stores for `s`. */
  function Normalize(s: string): string {
    Trim(Lower(s))
  }

  /** The position of the first occurrence of `pat` in `s` at or after `from`. */
  predicate OccursAt(s: string, pat: string, j: int) {
    0 <= j && j + |pat| <= |s| && s[j..j + |pat|] == pat
  }

  function IndexOfFrom(s: string, pat: string, from: nat): (r: Option<nat>)
    decreases |s| - from
    ensures r.Some? ==> from <= r.value && OccursAt(s, pat, r.value)
    ensures r.Some? ==> forall j :: from <= j < r.value ==> !OccursAt(s, pat, j)
    ensures r.None? ==> forall j :: from <= j ==> !OccursAt(s, pat, j)
  {
    if OccursAt(s, pat, from) then Some(from)
    else if from + |pat| >= |s| then None
    else IndexOfFrom(s, pat, from + 1)
  }

  /** `s.indexOf(pat)`, with `None` for -1. */
  function IndexOf(s: string, pat: string): Option<nat> {
    IndexOfFrom(s, pat, 0)
  }

  /** `s.replace(pat, rep)` with a string pattern: only the FIRST occurrence is replaced, wherever it is.
      (`rep` is taken literally; the model only ever passes the empty replacement.) */
  function ReplaceFirst(s: string, pat: string, rep: string): string {
    match IndexOf(s, pat)
    case None => s
    case Some(j) => s[..j] + rep + s[j + |pat|..]
  }

  // ---------------------------------------------------------------------------
  // Properties

  /** `trimStart` drops a run of leading white space and stops at the first other character. */
  lemma {:induction false} TrimStartSpec(s: string)
    ensures |TrimStart(s)| <= |s| && TrimStart(s) == s[|s| - |TrimStart(s)|..]
    ensures forall i :: 0 <= i < |s| - |TrimStart(s)| ==> IsSpace(s[i])
    ensures TrimStart(s) == [] || !IsSpace(TrimStart(s)[0])
  {
    if |s| > 0 && IsSpace(s[0]) {
      TrimStartSpec(s[1..]);
    }
  }

  /** `trimEnd` drops a run of trailing white space and stops at the last other character. */
  lemma {:induction false} TrimEndSpec(s: string)
    ensures |TrimEnd(s)| <= |s| && TrimEnd(s) == s[..|TrimEnd(s)|]
    ensures forall i :: |TrimEnd(s)| <= i < |s| ==> IsSpace(s[i])
    ensures TrimEnd(s) == [] || !IsSpace(TrimEnd(s)[|TrimEnd(s)| - 1])
  {
    if |s| > 0 && IsSpace(s[|s| - 1]) {
      TrimEndSpec(s[..|s| - 1]);
    }
  }

  /** `trim` leaves no white space at either end, and leaves nothing exactly when there was nothing else. */
  lemma TrimSpec(s: string)
    ensures IsTrimmed(Trim(s))
    ensures Trim(s) == [] <==> AllSpace(s)
  {
    var t := TrimStart(s);
    TrimStartSpec(s);
    TrimEndSpec(t);
    if Trim(s) != [] {
      assert Trim(s)[0] == t[0];
    }
  }

  /** A string is blank after trimming exactly when every character is white space. */
  lemma BlankIffAllSpace(s: string)
    ensures IsBlank(Some(s)) <==> AllSpace(s)
  {
    TrimSpec(s);
  }

  /** A string that is not all white space, lower-cased or not, keeps a non-empty normal form. */
  lemma NormalizeNonEmpty(s: string)
    requires !AllSpace(s)
    ensures Lower(s) != [] && !AllSpace(Lower(s))
    ensures Normalize(s) != ""
  {
    TrimSpec(Lower(s));
  }

  /** Trimming keeps exactly a contiguous run of the original characters. */
  lemma TrimIsSlice(s: string) returns (lo: nat, hi: nat)
    ensures lo <= hi <= |s| && Trim(s) == s[lo..hi]
  {
    var t := TrimStart(s);
    TrimStartSpec(s);
    TrimEndSpec(t);
    lo := |s| - |t|;
    hi := lo + |TrimEnd(t)|;
    assert t == s[lo..];
  }

  /** The normal form is lower case and trimmed: what the schema promises of stored usernames and emails. */
  lemma NormalizeIsNormal(s: string)
    ensures IsLowerCase(Normalize(s)) && IsTrimmed(Normalize(s))
  {
    var l := Lower(s);
    TrimSpec(l);
    var lo, hi := TrimIsSlice(l);
    forall i | 0 <= i < |Normalize(s)|
      ensures !IsUpper(Normalize(s)[i])
    {
      assert Normalize(s)[i] == l[lo + i];
    }
  }

  /** A string already lower case and trimmed is its own normal form. */
  lemma NormalizeFixesNormal(s: string)
    requires IsLowerCase(s) && IsTrimmed(s)
    ensures Normalize(s) == s
  {
    assert Lower(s) == s;
    assert TrimStart(s) == s;
    assert TrimEnd(s) == s;
  }

  /** Normalising twice is normalising once. */
  lemma NormalizeIdempotent(s: string)
    ensures Normalize(Normalize(s)) == Normalize(s)
  {
    NormalizeIsNormal(s);
    NormalizeFixesNormal(Normalize(s));
  }

  /** `replace` removes the first occurrence, wherever it sits: the result is everything before it and everything after it. */
  lemma ReplaceFirstAt(s: string, pat: string, rep: string, j: nat)
    requires OccursAt(s, pat, j)
    requires forall k :: 0 <= k < j ==> !OccursAt(s, pat, k)
    ensures ReplaceFirst(s, pat, rep) == s[..j] + rep + s[j + |pat|..]
  {
    var r := IndexOf(s, pat);
    assert r.Some?;
    assert !(r.value < j);
  }

  /** A string that does not contain `pat` is returned unchanged. */
  lemma ReplaceFirstAbsent(s: string, pat: string, rep: string)
    requires forall k :: 0 <= k ==> !OccursAt(s, pat, k)
    ensures ReplaceFirst(s, pat, rep) == s
  {
    match IndexOf(s, pat)
    case None =>
    case Some(j) => assert false;
  }

  /** Replacing a leading `pat` with nothing gives back what followed it. */
  lemma ReplaceFirstLeading(pat: string, t: string)
    ensures ReplaceFirst(pat + t, pat, "") == t
  {
    var s := pat + t;
    assert s[0..|pat|] == pat;
    ReplaceFirstAt(s, pat, "", 0);
    assert s[|pat|..] == t;
  }
}
