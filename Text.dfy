/**
  The few pieces of Python's `str` that the planner relies on: `isspace`,
  `strip`, `lower`, `startswith`, `in`, `split(sep, 1)`, `replace(old, "")`,
  `split()` and `" ".join`, each as a function over `string`.
 */
module Text {
  import opened Wrappers

  /** The characters Python's `str.isspace()` accepts. */
  predicate IsSpace(c: char) {
    || c == ' '
    || ('\t' <= c <= '\r')
    || ('\U{1C}' <= c <= '\U{1F}')
    || c == '\U{85}' || c == '\U{A0}' || c == '\U{1680}'
    || ('\U{2000}' <= c <= '\U{200A}')
    || c == '\U{2028}' || c == '\U{2029}' || c == '\U{202F}' || c == '\U{205F}' || c == '\U{3000}'
  }

  predicate NoSpace(s: string) {
    forall i :: 0 <= i < |s| ==> !IsSpace(s[i])
  }

  /** No whitespace at either end: what `strip()` leaves. */
  predicate Trimmed(s: string) {
    s == [] || (!IsSpace(s[0]) && !IsSpace(s[|s| - 1]))
  }

  /** Python's `lstrip()`. */
  function TrimStart(s: string): (r: string)
    ensures |r| <= |s| && r == s[|s| - |r|..]
    ensures r == [] || !IsSpace(r[0])
    ensures forall i :: 0 <= i < |s| - |r| ==> IsSpace(s[i])
  {
    if s != [] && IsSpace(s[0]) then TrimStart(s[1..]) else s
  }

  /** Python's `rstrip()`. */
  function TrimEnd(s: string): (r: string)
    ensures |r| <= |s| && r == s[..|r|]
    ensures r == [] || !IsSpace(r[|r| - 1])
    ensures forall i :: |r| <= i < |s| ==> IsSpace(s[i])
  {
    if s != [] && IsSpace(s[|s| - 1]) then TrimEnd(s[..|s| - 1]) else s
  }

  /** Python's `strip()` with no argument. */
  function Strip(s: string): (r: string)
    ensures Trimmed(r)
    ensures |r| <= |s|
    ensures r == [] <==> forall i :: 0 <= i < |s| ==> IsSpace(s[i])
    ensures Trimmed(s) ==> r == s
  {
    var t := TrimStart(s);
    assert t != [] ==> t[0] == s[|s| - |t|];
    TrimEnd(t)
  }

  /** `strip()` keeps a slice of the text, starting where `lstrip()` stops. */
  lemma StripIsSlice(s: string)
    ensures var k := |s| - |TrimStart(s)|; k + |Strip(s)| <= |s| && Strip(s) == s[k..k + |Strip(s)|]
  {
    var t := TrimStart(s);
    var k := |s| - |t|;
    var r := TrimEnd(t);
    assert Strip(s) == r;
    var m := s[k..k + |r|];
    forall j | 0 <= j < |r| ensures r[j] == m[j] {
      assert r[j] == t[j];
      assert t[j] == s[k + j];
    }
  }

  /** Everything `strip()` drops is whitespace. */
  lemma StripDropsSpace(s: string)
    ensures var k := |s| - |TrimStart(s)|;
      forall i :: 0 <= i < |s| && !(k <= i < k + |Strip(s)|) ==> IsSpace(s[i])
  {
    var t := TrimStart(s);
    var k := |s| - |t|;
    var r := TrimEnd(t);
    assert Strip(s) == r;
    forall i | k + |r| <= i < |s| ensures IsSpace(s[i]) {
      assert t == s[k..];
      assert s[i] == t[i - k];
    }
  }

  function LowerChar(c: char): char {
    if 'A' <= c <= 'Z' then (c as int + 32) as char else c
  }

  /** Text already trimmed is its own `strip()`. */
  lemma StripOfTrimmed(s: string)
    requires Trimmed(s)
    ensures Strip(s) == s
  {
  }

  /** Text whose first character differs from the prefix's does not start with it. */
  lemma FirstCharDiffers(s: string, p: string)
    requires s != [] && p != [] && s[0] != p[0]
    ensures !StartsWith(s, p)
  {
    if |p| <= |s| {
      assert s[..|p|][0] == s[0];
    }
  }

  /** Python's `lower()`, on the ASCII letters. */
  function Lower(s: string): (r: string)
    ensures |r| == |s|
    ensures forall i :: 0 <= i < |s| ==> r[i] == LowerChar(s[i])
  {
    if s == [] then [] else [LowerChar(s[0])] + Lower(s[1..])
  }

  predicate StartsWith(s: string, p: string) {
    |p| <= |s| && s[..|p|] == p
  }

  /** `p` occurs in `s` at position `j`. */
  predicate MatchAt(s: string, p: string, j: nat) {
    j + |p| <= |s| && s[j..j + |p|] == p
  }

  lemma MatchAtTail(s: string, p: string, j: nat)
    requires 1 <= j && s != []
    ensures MatchAt(s, p, j) == MatchAt(s[1..], p, j - 1)
  {
    if j + |p| <= |s| {
      var u, v := s[j..j + |p|], s[1..][j - 1..j - 1 + |p|];
      forall k | 0 <= k < |p| ensures u[k] == v[k] {
        assert u[k] == s[j + k];
      }
      assert u == v;
    }
  }

  /** The first position where `p` occurs, or `None`: what `p in s` tests for and where `s.split(p, 1)` cuts. */
  function IndexOf(s: string, p: string): (r: Option<nat>)
    ensures r.Some? ==> MatchAt(s, p, r.value)
    ensures forall j: nat :: (r.None? || j < r.value) ==> !MatchAt(s, p, j)
  {
    if StartsWith(s, p) then Some(0)
    else if s == [] then None
    else
      var r := IndexOf(s[1..], p);
      forall j: nat | 1 <= j ensures MatchAt(s, p, j) == MatchAt(s[1..], p, j - 1) {
        MatchAtTail(s, p, j);
      }
      if r.Some? then Some(r.value + 1) else None
  }

  /** Python's `p in s` on strings. */
  predicate Contains(s: string, p: string) {
    IndexOf(s, p).Some?
  }

  /** An occurrence anywhere means `Contains`. */
  lemma ContainsAt(s: string, p: string, j: nat)
    requires MatchAt(s, p, j)
    ensures Contains(s, p)
  {
  }

  /** Python's `s.replace(o, "")`: removes the occurrences of `o` found left to right. */
  function RemoveAll(s: string, o: string): (r: string)
    requires o != []
    ensures |r| <= |s|
    ensures !Contains(s, o) ==> r == s
    decreases |s|
  {
    if |s| < |o| then s
    else if StartsWith(s, o) then RemoveAll(s[|o|..], o)
    else
      forall j: nat | 1 <= j ensures MatchAt(s, o, j) == MatchAt(s[1..], o, j - 1) {
        MatchAtTail(s, o, j);
      }
      [s[0]] + RemoveAll(s[1..], o)
  }

  /** An occurrence of `o` at the very start is removed, and the removal goes on after it. */
  lemma RemoveAllPrefix(o: string, s: string)
    requires o != []
    ensures RemoveAll(o + s, o) == RemoveAll(s, o)
  {
    assert StartsWith(o + s, o);
    assert (o + s)[|o|..] == s;
  }

  /** A character that does not begin an occurrence of `o` is kept, and the removal goes on after it. */
  lemma RemoveAllKeeps(c: char, s: string, o: string)
    requires o != [] && !StartsWith([c] + s, o)
    ensures RemoveAll([c] + s, o) == [c] + RemoveAll(s, o)
  {
    assert ([c] + s)[1..] == s;
    if |[c] + s| < |o| {
      assert RemoveAll(s, o) == s;
    }
  }

  /** The longest prefix of `s` without whitespace. */
  function Word(s: string): (w: string)
    ensures |w| <= |s| && w == s[..|w|] && NoSpace(w)
    ensures |w| < |s| ==> IsSpace(s[|w|])
  {
    if s == [] || IsSpace(s[0]) then [] else [s[0]] + Word(s[1..])
  }

  /** Text that starts with a non-space is its own `lstrip()`. */
  lemma TrimStartKeeps(s: string)
    ensures s != [] && !IsSpace(s[0]) ==> TrimStart(s) == s
  {
  }

  /** Python's `split()` with no argument: the maximal runs of non-whitespace. */
  function Split(s: string): (parts: seq<string>)
    ensures Words(parts)
    ensures s != [] && !IsSpace(s[0]) ==> parts != [] && parts[0] == Word(s)
    decreases |s|
  {
    var t := TrimStart(s);
    TrimStartKeeps(s);
    if t == [] then []
    else
      var w := Word(t);
      assert w != [] by { assert !IsSpace(t[0]); }
      var rest := Split(t[|w|..]);
      WordsConcat([w], rest);
      [w] + rest
  }

  /** Whitespace before the text is all skipped by `lstrip()`. */
  lemma {:induction false} TrimStartAfterSpace(ws: string, rest: string)
    requires forall i :: 0 <= i < |ws| ==> IsSpace(ws[i])
    ensures TrimStart(ws + rest) == TrimStart(rest)
  {
    if ws != [] {
      assert (ws + rest)[1..] == ws[1..] + rest;
      TrimStartAfterSpace(ws[1..], rest);
    } else {
      assert ws + rest == rest;
    }
  }

  /** `split()` ignores leading whitespace, however much there is. */
  lemma SplitAfterSpace(ws: string, rest: string)
    requires forall i :: 0 <= i < |ws| ==> IsSpace(ws[i])
    ensures Split(ws + rest) == Split(rest)
  {
    TrimStartAfterSpace(ws, rest);
  }

  /** A word followed by any run of whitespace is one token: `split()` goes on after the run. */
  lemma SplitWordThenSpace(w: string, ws: string, rest: string)
    requires w != [] && NoSpace(w)
    requires ws != [] && forall i :: 0 <= i < |ws| ==> IsSpace(ws[i])
    ensures Split(w + ws + rest) == [w] + Split(rest)
  {
    var s := w + ws + rest;
    assert s == w + (ws + rest);
    assert s[0] == w[0];
    assert TrimStart(s) == s;
    WordStopsAtSpace(w, ws + rest);
    assert s[|w|..] == ws + rest;
    SplitAfterSpace(ws, rest);
  }

  /** Python's `" ".join(parts)`. */
  function Join(parts: seq<string>): (s: string)
  {
    if parts == [] then ""
    else if |parts| == 1 then parts[0]
    else parts[0] + " " + Join(parts[1..])
  }

  /** Tokens fit for `Join`: non-empty, no whitespace inside. */
  predicate Words(parts: seq<string>) {
    forall i :: 0 <= i < |parts| ==> parts[i] != [] && NoSpace(parts[i])
  }

  lemma {:induction false} WordStopsAtSpace(w: string, rest: string)
    requires NoSpace(w)
    requires rest == [] || IsSpace(rest[0])
    ensures Word(w + rest) == w
  {
    if w != [] {
      assert (w + rest)[1..] == w[1..] + rest;
      WordStopsAtSpace(w[1..], rest);
    } else {
      assert w + rest == rest;
    }
  }

  lemma {:induction false} JoinAppend(parts: seq<string>, last: string)
    requires parts != []
    ensures Join(parts + [last]) == Join(parts) + " " + last
  {
    if |parts| > 1 {
      assert (parts + [last])[1..] == parts[1..] + [last];
      JoinAppend(parts[1..], last);
    }
  }

  /** Joining two non-empty lists of parts is joining their joins with one space. */
  lemma {:induction false} JoinConcat(a: seq<string>, b: seq<string>)
    requires a != [] && b != []
    ensures Join(a + b) == Join(a) + " " + Join(b)
  {
    if |a| > 1 {
      assert (a + b)[1..] == a[1..] + b;
      JoinConcat(a[1..], b);
    }
  }

  /** A join of words begins and ends with a word character. */
  lemma {:induction false} JoinTrimmed(parts: seq<string>)
    requires Words(parts) && parts != []
    ensures Join(parts) != [] && Join(parts)[0] == parts[0][0]
    ensures Join(parts)[|Join(parts)| - 1] == parts[|parts| - 1][|parts[|parts| - 1]| - 1]
    ensures Trimmed(Join(parts))
  {
    if |parts| > 1 {
      JoinTrimmed(parts[1..]);
    }
  }

  /** `split()` undoes `" ".join` on words. */
  lemma {:induction false} SplitJoin(parts: seq<string>)
    requires Words(parts)
    ensures Split(Join(parts)) == parts
  {
    if parts == [] {
    } else if |parts| == 1 {
      var w := parts[0];
      assert TrimStart(w) == w;
      WordStopsAtSpace(w, []);
      assert w + [] == w;
      assert Split(w[|w|..]) == [];
    } else {
      var w, rest := parts[0], Join(parts[1..]);
      var s := Join(parts);
      assert s == w + (" " + rest);
      assert TrimStart(s) == s;
      WordStopsAtSpace(w, " " + rest);
      assert s[|w|..] == " " + rest;
      JoinTrimmed(parts[1..]);
      assert TrimStart(" " + rest) == TrimStart(rest) == rest by {
        assert (" " + rest)[1..] == rest;
      }
      SplitJoin(parts[1..]);
    }
  }

  lemma MatchedChar(s: string, p: string, j: nat, k: nat)
    requires MatchAt(s, p, j) && k < |p|
    ensures p[k] == s[j + k]
  {
    assert s[j..j + |p|][k] == s[j + k];
  }

  /** A one-character pattern is found only where that character is. */
  lemma AbsentChar(s: string, c: char)
    requires forall i :: 0 <= i < |s| ==> s[i] != c
    ensures !Contains(s, [c])
  {
    forall j: nat | j < |s| ensures !MatchAt(s, [c], j) {
      assert s[j..j + 1][0] == s[j];
    }
  }

  /** A pattern with a character that `s` lacks does not occur in `s`. */
  lemma LacksChar(s: string, p: string, k: nat)
    requires k < |p|
    requires forall i :: 0 <= i < |s| ==> s[i] != p[k]
    ensures !Contains(s, p)
  {
    forall j: nat ensures !MatchAt(s, p, j) {
      if MatchAt(s, p, j) {
        MatchedChar(s, p, j, k);
      }
    }
  }

  /** A pattern without whitespace never straddles a space. */
  lemma ContainsAcrossSpace(a: string, b: string, o: string)
    requires o != [] && NoSpace(o)
    requires Contains(a + " " + b, o)
    ensures Contains(a, o) || Contains(b, o)
  {
    var s := a + " " + b;
    var i := IndexOf(s, o).value;
    if i + |o| <= |a| {
      var u := a[i..i + |o|];
      forall k | 0 <= k < |o| ensures u[k] == o[k] {
        MatchedChar(s, o, i, k);
      }
      assert u == o;
      ContainsAt(a, o, i);
    } else if i > |a| {
      var j := i - |a| - 1;
      var u := b[j..j + |o|];
      forall k | 0 <= k < |o| ensures u[k] == o[k] {
        MatchedChar(s, o, i, k);
      }
      assert u == o;
      ContainsAt(b, o, j);
    } else {
      MatchedChar(s, o, i, |a| - i);
      assert false;
    }
  }

  /** No part contains `o`. */
  predicate Avoid(parts: seq<string>, o: string) {
    forall i :: 0 <= i < |parts| ==> !Contains(parts[i], o)
  }

  lemma WordsAppend(parts: seq<string>, w: string)
    requires Words(parts) && w != [] && NoSpace(w)
    ensures Words(parts + [w])
  {
    forall i | 0 <= i < |parts| + 1 ensures (parts + [w])[i] != [] && NoSpace((parts + [w])[i]) {
      if i < |parts| {
        assert (parts + [w])[i] == parts[i];
      }
    }
  }

  lemma WordsConcat(a: seq<string>, b: seq<string>)
    requires Words(a) && Words(b)
    ensures Words(a + b)
  {
    forall i | 0 <= i < |a| + |b| ensures (a + b)[i] != [] && NoSpace((a + b)[i]) {
      if i < |a| {
        assert (a + b)[i] == a[i];
      } else {
        assert (a + b)[i] == b[i - |a|];
      }
    }
  }

  lemma AvoidConcat(a: seq<string>, b: seq<string>, o: string)
    requires Avoid(a, o) && Avoid(b, o)
    ensures Avoid(a + b, o)
  {
    forall i | 0 <= i < |a| + |b| ensures !Contains((a + b)[i], o) {
      if i < |a| {
        assert (a + b)[i] == a[i];
      } else {
        assert (a + b)[i] == b[i - |a|];
      }
    }
  }

  lemma AvoidAppend(parts: seq<string>, w: string, o: string)
    requires Avoid(parts, o) && !Contains(w, o)
    ensures Avoid(parts + [w], o)
  {
    forall i | 0 <= i < |parts| + 1 ensures !Contains((parts + [w])[i], o) {
      if i < |parts| {
        assert (parts + [w])[i] == parts[i];
      }
    }
  }

  lemma {:induction false} JoinAvoids(parts: seq<string>, o: string)
    requires o != [] && NoSpace(o)
    requires Avoid(parts, o)
    ensures !Contains(Join(parts), o)
  {
    if parts == [] {
      assert !MatchAt("", o, 0);
    } else if |parts| > 1 {
      JoinAvoids(parts[1..], o);
      if Contains(Join(parts), o) {
        ContainsAcrossSpace(parts[0], Join(parts[1..]), o);
      }
    }
  }

  lemma LowerSlice(s: string, i: nat, j: nat)
    requires i <= j <= |s|
    ensures Lower(s[i..j]) == Lower(s)[i..j]
  {
    var a, b := Lower(s[i..j]), Lower(s)[i..j];
    forall k | 0 <= k < |a| ensures a[k] == b[k] {
      assert a[k] == LowerChar(s[i..j][k]);
      assert s[i..j][k] == s[i + k];
    }
  }

  lemma LowerSuffix(s: string, k: nat)
    requires k <= |s|
    ensures Lower(s[k..]) == Lower(s)[k..]
  {
    var a, b := Lower(s[k..]), Lower(s)[k..];
    forall i | 0 <= i < |a| ensures a[i] == b[i] {
      assert a[i] == LowerChar(s[k..][i]);
      assert b[i] == LowerChar(s[k + i]);
    }
  }

  lemma {:induction false} LowerTrimStart(s: string)
    ensures Lower(TrimStart(s)) == TrimStart(Lower(s))
  {
    var l := Lower(s);
    if s != [] {
      assert IsSpace(l[0]) == IsSpace(s[0]);
    }
    if s != [] && IsSpace(s[0]) {
      LowerSlice(s, 1, |s|);
      assert TrimStart(l) == TrimStart(l[1..]);
      LowerTrimStart(s[1..]);
    } else {
      assert TrimStart(s) == s;
      assert TrimStart(l) == l;
    }
  }

  lemma {:induction false} LowerTrimEnd(s: string)
    ensures Lower(TrimEnd(s)) == TrimEnd(Lower(s))
  {
    var l := Lower(s);
    if s != [] {
      assert IsSpace(l[|s| - 1]) == IsSpace(s[|s| - 1]);
    }
    if s != [] && IsSpace(s[|s| - 1]) {
      LowerSlice(s, 0, |s| - 1);
      assert TrimEnd(l) == TrimEnd(l[..|s| - 1]);
      LowerTrimEnd(s[..|s| - 1]);
    } else {
      assert TrimEnd(s) == s;
      assert TrimEnd(l) == l;
    }
  }

  /** Lower-casing does not move whitespace, so it commutes with `strip()`. */
  lemma LowerStrip(s: string)
    ensures Lower(Strip(s)) == Strip(Lower(s))
  {
    LowerTrimStart(s);
    LowerTrimEnd(TrimStart(s));
  }

  /** `l` is the lower case of `u` when they agree character by character. */
  lemma LowerIs(u: string, l: string)
    requires |u| == |l| && forall i :: 0 <= i < |u| ==> LowerChar(u[i]) == l[i]
    ensures Lower(u) == l
  {
  }

  /** Text without capital letters is its own lower case. */
  lemma LowerOfLower(s: string)
    requires forall i :: 0 <= i < |s| ==> !('A' <= s[i] <= 'Z')
    ensures Lower(s) == s
  {
  }
}
