/**
 * The string built-ins the core relies on, on strings of code points:
 * `indexOf`/`includes`, `split` and `join` on a separator, `trim`, and
 * `replace` of a single character by nothing.
 */
module Text {
  import opened Wrappers

  /** `t` occurs in `s` starting at index `i`. */
  predicate OccursAt(s: string, t: string, i: nat)
  {
    i + |t| <= |s| && s[i..i + |t|] == t
  }

  /** Index of the first occurrence of the non-empty `t` in `s` at or after `from`, if any. */
  function IndexFrom(s: string, t: string, from: nat): (r: Option<nat>)
    requires |t| > 0
    ensures r.Some? ==> from <= r.value && OccursAt(s, t, r.value)
    ensures r.Some? ==> forall j :: from <= j < r.value ==> !OccursAt(s, t, j)
    ensures r.None? ==> forall j :: from <= j <= |s| ==> !OccursAt(s, t, j)
    decreases |s| - from
  {
    if from + |t| > |s| then None
    else if OccursAt(s, t, from) then Some(from)
    else IndexFrom(s, t, from + 1)
  }

  /** `s.indexOf(t)` for a non-empty `t`, with a missing `t` as `None`. */
  function IndexOf(s: string, t: string): (r: Option<nat>)
    requires |t| > 0
    ensures r.Some? ==> OccursAt(s, t, r.value) && forall j :: 0 <= j < r.value ==> !OccursAt(s, t, j)
    ensures r.None? ==> forall j :: 0 <= j <= |s| ==> !OccursAt(s, t, j)
  {
    IndexFrom(s, t, 0)
  }

  /** `s.includes(t)`. */
  predicate Contains(s: string, t: string)
    requires |t| > 0
  {
    IndexOf(s, t).Some?
  }

  /** `s.split(sep)` for a non-empty separator: the pieces between the occurrences, left to right. */
  function Split(s: string, sep: string): (parts: seq<string>)
    requires |sep| > 0
    ensures |parts| >= 1
    ensures |parts| >= 2 <==> Contains(s, sep)
    ensures |parts| == 1 ==> parts[0] == s
    decreases |s|
  {
    match IndexOf(s, sep)
    case None => [s]
    case Some(i) => [s[..i]] + Split(s[i + |sep|..], sep)
  }

  /** `sep.join(parts)` (and JavaScript's `parts.join(sep)`). */
  function Join(parts: seq<string>, sep: string): string
  {
    if |parts| == 0 then ""
    else if |parts| == 1 then parts[0]
    else parts[0] + sep + Join(parts[1..], sep)
  }

  /** The characters `String.prototype.trim` removes: white space and line terminators. */
  predicate IsSpace(c: char)
  {
    c == '\t' || c == '\n' || c == '\U{000B}' || c == '\U{000C}' || c == '\r' || c == ' ' ||
    c == '\U{00A0}' || c == '\U{1680}' || ('\U{2000}' <= c <= '\U{200A}') ||
    c == '\U{2028}' || c == '\U{2029}' || c == '\U{202F}' || c == '\U{205F}' ||
    c == '\U{3000}' || c == '\U{FEFF}'
  }

  predicate Blank(s: string)
  {
    forall k :: 0 <= k < |s| ==> IsSpace(s[k])
  }

  function TrimStart(s: string): (r: string)
    ensures |r| <= |s| && r == s[|s| - |r|..]
    ensures Blank(s[..|s| - |r|])
    ensures r != [] ==> !IsSpace(r[0])
  {
    if s != [] && IsSpace(s[0]) then
      var r := TrimStart(s[1..]);
      assert s[..|s| - |r|] == [s[0]] + s[1..][..|s| - 1 - |r|];
      r
    else s
  }

  function TrimEnd(s: string): (r: string)
    ensures |r| <= |s| && r == s[..|r|]
    ensures Blank(s[|r|..])
    ensures r != [] ==> !IsSpace(r[|r| - 1])
  {
    if s != [] && IsSpace(s[|s| - 1]) then
      var r := TrimEnd(s[..|s| - 1]);
      assert s[|r|..] == s[..|s| - 1][|r|..] + [s[|s| - 1]];
      r
    else s
  }

  /**
   * `s.trim()`: the slice of `s` left once the white space at both ends is
   * gone; it is empty exactly when `s` is blank.
   */
  function Trim(s: string): (r: string)
    ensures exists i :: 0 <= i && i + |r| <= |s| && r == s[i..i + |r|] && Blank(s[..i]) && Blank(s[i + |r|..])
    ensures r != [] ==> !IsSpace(r[0]) && !IsSpace(r[|r| - 1])
    ensures r == [] <==> Blank(s)
  {
    var t := TrimStart(s);
    var r := TrimEnd(t);
    TrimSlice(s, |s| - |t|, r);
    r
  }

  /**
   * What is left of `s` after `i` blank characters and the trailing white
   * space: a slice with blank surroundings, empty only when `s` is blank.
   */
  lemma TrimSlice(s: string, i: nat, r: string)
    requires i <= |s| && Blank(s[..i]) && r == TrimEnd(s[i..])
    ensures i + |r| <= |s| && r == s[i..i + |r|] && Blank(s[..i]) && Blank(s[i + |r|..])
    ensures r == [] <==> Blank(s)
  {
    var t := s[i..];
    assert s[i + |r|..] == t[|r|..];
    if r == [] {
      assert t[0..] == t;
      BlankAppend(s[..i], t);
      assert s[..i] + t == s;
    } else {
      assert s[i] == r[0];
    }
  }

  lemma BlankAppend(a: string, b: string)
    requires Blank(a) && Blank(b)
    ensures Blank(a + b)
  {
    forall k | 0 <= k < |a + b|
      ensures IsSpace((a + b)[k])
    {
      if k >= |a| {
        assert (a + b)[k] == b[k - |a|];
      }
    }
  }

  /** `s.replace(c, '')` for a single character: the first occurrence of `c` is removed. */
  function RemoveFirst(s: string, c: char): (r: string)
    ensures c !in s ==> r == s
    ensures c in s ==> exists i :: 0 <= i < |s| && s[i] == c && c !in s[..i] && r == s[..i] + s[i + 1..]
  {
    match IndexOf(s, [c])
    case None =>
      assert forall j :: 0 <= j < |s| ==> !OccursAt(s, [c], j) && s[j..j + 1] == [s[j]];
      s
    case Some(i) =>
      assert s[i..i + 1] == [s[i]];
      assert forall j :: 0 <= j < i ==> !OccursAt(s, [c], j) && s[j..j + 1] == [s[j]];
      s[..i] + s[i + 1..]
  }

  // ---------------------------------------------------------------------
  // Lemmas
  // ---------------------------------------------------------------------

  /** Joining the pieces of a split with its separator gives back the string. */
  lemma {:induction false} SplitJoin(s: string, sep: string)
    requires |sep| > 0
    ensures Join(Split(s, sep), sep) == s
    decreases |s|
  {
    var r := IndexOf(s, sep);
    if r.Some? {
      var i := r.value;
      var rest := s[i + |sep|..];
      SplitJoin(rest, sep);
      JoinCons(s[..i], Split(rest, sep), sep);
      AroundOccurrence(s, sep, i);
    }
  }

  /** A string is what precedes an occurrence, the occurrence, and what follows. */
  lemma AroundOccurrence(s: string, t: string, i: nat)
    requires OccursAt(s, t, i)
    ensures s == s[..i] + t + s[i + |t|..]
  {
    assert s == s[..i] + s[i..i + |t|] + s[i + |t|..];
  }

  lemma JoinCons(p: string, tail: seq<string>, sep: string)
    requires |tail| >= 1
    ensures Join([p] + tail, sep) == p + sep + Join(tail, sep)
  {
    assert ([p] + tail)[1..] == tail;
  }

  /** Whatever occurs in a prefix occurs in the whole string. */
  lemma PrefixContains(s: string, t: string, n: nat)
    requires |t| > 0 && n <= |s| && Contains(s[..n], t)
    ensures exists j :: 0 <= j && j + |t| <= n && OccursAt(s, t, j)
  {
    var j := IndexOf(s[..n], t).value;
    assert s[..n][j..j + |t|] == s[j..j + |t|];
    assert OccursAt(s, t, j);
  }

  /** No piece of a split holds the separator. */
  lemma {:induction false} SplitPiecesLackSeparator(s: string, sep: string)
    requires |sep| > 0
    ensures forall k :: 0 <= k < |Split(s, sep)| ==> !Contains(Split(s, sep)[k], sep)
    decreases |s|
  {
    match IndexOf(s, sep)
    case None =>
    case Some(i) =>
      SplitPiecesLackSeparator(s[i + |sep|..], sep);
      if Contains(s[..i], sep) {
        PrefixContains(s, sep, i);
      }
  }

  /** A separator whose first character does not occur again in it. */
  predicate Unbordered(sep: string)
  {
    |sep| > 0 && forall k :: 0 < k < |sep| ==> sep[k] != sep[0]
  }

  /**
   * Splitting at the first occurrence: text without the separator, the
   * separator, then anything.  Needs a separator that cannot overlap itself.
   */
  lemma SplitAtFirst(a: string, sep: string, b: string)
    requires Unbordered(sep) && !Contains(a, sep)
    ensures Contains(a + sep + b, sep)
    ensures Split(a + sep + b, sep) == [a] + Split(b, sep)
  {
    var s := a + sep + b;
    assert s[|a|..|a| + |sep|] == sep;
    assert OccursAt(s, sep, |a|);
    forall j | 0 <= j < |a|
      ensures !OccursAt(s, sep, j)
    {
      if j + |sep| <= |a| {
        assert a[j..j + |sep|] == s[j..j + |sep|];
        assert !OccursAt(a, sep, j);
      } else {
        assert s[|a|] == sep[0];
      }
    }
    var i := IndexOf(s, sep).value;
    assert i == |a|;
    assert s[..|a|] == a;
    assert s[|a| + |sep|..] == b;
  }

  /** Every piece of a split of a blank string is blank. */
  lemma {:induction false} SplitOfBlank(s: string, sep: string)
    requires |sep| > 0 && Blank(s)
    ensures forall k :: 0 <= k < |Split(s, sep)| ==> Blank(Split(s, sep)[k])
    decreases |s|
  {
    match IndexOf(s, sep)
    case None =>
    case Some(i) =>
      var rest := s[i + |sep|..];
      assert Blank(rest) by {
        forall j | 0 <= j < |rest|
          ensures IsSpace(rest[j])
        {
          assert rest[j] == s[i + |sep| + j];
        }
      }
      SplitOfBlank(rest, sep);
      assert Blank(s[..i]) by {
        forall j | 0 <= j < i
          ensures IsSpace(s[..i][j])
        {
          assert s[..i][j] == s[j];
        }
      }
  }
}
