/** ASCII readings of the string functions the service calls. */
module Text {

  predicate IsSpace(c: char) {
    c == ' ' || '\t' <= c <= '\r'
  }

  /** No white space at either end. */
  predicate Trimmed(s: string) {
    s == "" || (!IsSpace(s[0]) && !IsSpace(s[|s| - 1]))
  }

  function TrimLeft(s: string): string {
    if s != "" && IsSpace(s[0]) then TrimLeft(s[1..]) else s
  }

  function TrimRight(s: string): string {
    if s != "" && IsSpace(s[|s| - 1]) then TrimRight(s[..|s| - 1]) else s
  }

  function Trim(s: string): string {
    TrimRight(TrimLeft(s))
  }

  lemma {:induction false} TrimLeftHead(s: string)
    ensures TrimLeft(s) == "" || !IsSpace(TrimLeft(s)[0])
  {
    if s != "" && IsSpace(s[0]) {
      TrimLeftHead(s[1..]);
    }
  }

  lemma {:induction false} TrimRightEnds(s: string)
    requires s == "" || !IsSpace(s[0])
    ensures Trimmed(TrimRight(s))
  {
    if s != "" && IsSpace(s[|s| - 1]) {
      TrimRightEnds(s[..|s| - 1]);
    }
  }

  lemma TrimYieldsTrimmed(s: string)
    ensures Trimmed(Trim(s))
  {
    TrimLeftHead(s);
    TrimRightEnds(TrimLeft(s));
  }

  lemma TrimIdempotent(s: string)
    ensures Trim(Trim(s)) == Trim(s)
  {
    TrimYieldsTrimmed(s);
  }

  predicate AllSpace(s: string) {
    forall i | 0 <= i < |s| :: IsSpace(s[i])
  }

  lemma {:induction false} TrimLeftExact(s: string) returns (left: string)
    ensures s == left + TrimLeft(s) && AllSpace(left)
  {
    left := "";
    if s != "" && IsSpace(s[0]) {
      var rest := TrimLeftExact(s[1..]);
      left := [s[0]] + rest;
      assert s == [s[0]] + s[1..];
    }
  }

  lemma {:induction false} TrimRightExact(s: string) returns (right: string)
    ensures s == TrimRight(s) + right && AllSpace(right)
  {
    right := "";
    if s != "" && IsSpace(s[|s| - 1]) {
      var rest := TrimRightExact(s[..|s| - 1]);
      right := rest + [s[|s| - 1]];
      assert s == s[..|s| - 1] + [s[|s| - 1]];
    }
  }

  /** Trimming takes white space from both ends and nothing else, until none is left there. */
  lemma TrimExact(s: string) returns (left: string, right: string)
    ensures s == left + Trim(s) + right && AllSpace(left) && AllSpace(right) && Trimmed(Trim(s))
  {
    left := TrimLeftExact(s);
    right := TrimRightExact(TrimLeft(s));
    TrimYieldsTrimmed(s);
    assert left + (Trim(s) + right) == left + Trim(s) + right;
  }

  function LowerChar(c: char): char {
    if 'A' <= c <= 'Z' then c + 32 as char else c
  }

  function UpperChar(c: char): char {
    if 'a' <= c <= 'z' then c - 32 as char else c
  }

  function ToLower(s: string): (r: string)
    ensures |r| == |s|
  {
    seq(|s|, i requires 0 <= i < |s| => LowerChar(s[i]))
  }

  function ToUpper(s: string): (r: string)
    ensures |r| == |s|
  {
    seq(|s|, i requires 0 <= i < |s| => UpperChar(s[i]))
  }

  /** Each case folding undoes the other and leaves no letter of the other case. */
  lemma CaseFolding(s: string)
    ensures ToLower(ToUpper(s)) == ToLower(s) && ToUpper(ToLower(s)) == ToUpper(s)
    ensures forall i | 0 <= i < |s| :: !('A' <= ToLower(s)[i] <= 'Z') && !('a' <= ToUpper(s)[i] <= 'z')
    ensures forall i | 0 <= i < |s| :: s[i] in {ToLower(s)[i], ToUpper(s)[i]}
  {
  }

  /** Lower-casing a trimmed string gives a fixed point of both steps. */
  lemma LowerTrimStable(s: string)
    ensures ToLower(Trim(ToLower(Trim(s)))) == ToLower(Trim(s))
    ensures Trimmed(ToLower(Trim(s)))
  {
    var t := ToLower(Trim(s));
    TrimYieldsTrimmed(s);
    assert Trimmed(t);
    assert Trim(t) == t;
    assert ToLower(t) == t;
  }

  lemma UpperTrimStable(s: string)
    ensures ToUpper(Trim(ToUpper(Trim(s)))) == ToUpper(Trim(s))
    ensures Trim(ToUpper(Trim(s))) == ToUpper(Trim(s))
  {
    var t := ToUpper(Trim(s));
    TrimYieldsTrimmed(s);
    assert Trimmed(t);
    assert Trim(t) == t;
    assert ToUpper(t) == t;
  }

  predicate HasPrefix(s: string, prefix: string) {
    prefix <= s
  }

  predicate HasSuffix(s: string, suffix: string) {
    |suffix| <= |s| && s[|s| - |suffix|..] == suffix
  }

  function TrimPrefix(s: string, prefix: string): string {
    if HasPrefix(s, prefix) then s[|prefix|..] else s
  }

  predicate ContainsAny(s: string, chars: set<char>) {
    exists i | 0 <= i < |s| :: s[i] in chars
  }

  /** The text before the first separator, the text after it, and whether it occurs. */
  function Cut(s: string, sep: char): (r: (string, string, bool))
    ensures r.2 <==> sep in s
    ensures r.2 ==> s == r.0 + [sep] + r.1 && sep !in r.0
    ensures !r.2 ==> r == (s, "", false)
  {
    if s == "" then ("", "", false)
    else if s[0] == sep then ("", s[1..], true)
    else
      assert s == [s[0]] + s[1..];
      var (before, after, found) := Cut(s[1..], sep);
      ([s[0]] + before, after, found)
  }

  /** Cutting at a known first separator. */
  lemma {:induction false} CutAt(before: string, sep: char, after: string)
    requires sep !in before
    ensures Cut(before + [sep] + after, sep) == (before, after, true)
  {
    var s := before + [sep] + after;
    if before == "" {
      assert s[1..] == after;
    } else {
      assert s[1..] == before[1..] + [sep] + after;
      CutAt(before[1..], sep, after);
      assert before == [before[0]] + before[1..];
    }
  }
}
