/**
 * The JavaScript string built-ins the wizard relies on: `trim`, the `\s`
 * character class, `startsWith`, `endsWith`, `Array.prototype.join` and
 * `replace(/\s+/g, ...)`. Strings are sequences of characters.
 */
module Text {

  /**
   * ECMAScript's WhiteSpace and LineTerminator characters: the set that
   * `String.prototype.trim` removes and that `\s` matches. The space
   * separators are those of Unicode 15.
   */
  const SpaceChars: seq<char> := [
    '\t', '\n', '\U{B}', '\U{C}', '\r', ' ', '\U{A0}', '\U{1680}',
    '\U{2000}', '\U{2001}', '\U{2002}', '\U{2003}', '\U{2004}', '\U{2005}',
    '\U{2006}', '\U{2007}', '\U{2008}', '\U{2009}', '\U{200A}',
    '\U{2028}', '\U{2029}', '\U{202F}', '\U{205F}', '\U{3000}', '\U{FEFF}'
  ]

  /**
   * `c` is white space. The range test comes first so that, for the
   * ordinary printable characters, the solver settles the question without
   * unfolding the list of white-space characters.
   */
  predicate IsSpace(c: char) {
    (c <= ' ' || '\U{A0}' <= c) && Occurs(c, SpaceChars)
  }

  /** `c` is one of `cs`. */
  predicate Occurs(c: char, cs: seq<char>) {
    cs != [] && (cs[0] == c || Occurs(c, cs[1..]))
  }

  /** No character of `s` is white space. */
  predicate SpaceFree(s: string) {
    forall i :: 0 <= i < |s| ==> !IsSpace(s[i])
  }

  /** `s` neither begins nor ends with white space. */
  predicate Trimmed(s: string) {
    s == [] || (!IsSpace(s[0]) && !IsSpace(s[|s| - 1]))
  }

  /** `s` occurs in `t` as a contiguous slice starting at `k`. */
  predicate SliceAt(s: string, t: string, k: int) {
    0 <= k && k + |s| <= |t| && t[k..k + |s|] == s
  }

  /** `String.prototype.trimStart`: the suffix left after dropping the leading white space. */
  function TrimStart(s: string): (r: string)
    ensures |r| <= |s| && r == s[|s| - |r|..]
    ensures r == [] || !IsSpace(r[0])
  {
    if s != [] && IsSpace(s[0]) then
      var r := TrimStart(s[1..]);
      assert s[1..][|s| - 1 - |r|..] == s[|s| - |r|..];
      r
    else s
  }

  /** What `TrimStart` drops is white space. */
  lemma {:induction false} TrimStartDropsSpace(s: string)
    ensures forall i :: 0 <= i < |s| - |TrimStart(s)| ==> IsSpace(s[i])
  {
    if s != [] && IsSpace(s[0]) {
      TrimStartDropsSpace(s[1..]);
      forall i | 1 <= i < |s| - |TrimStart(s)|
        ensures IsSpace(s[i])
      {
        assert s[i] == s[1..][i - 1];
      }
    }
  }

  /** `String.prototype.trimEnd`: the prefix left after dropping the trailing white space. */
  function TrimEnd(s: string): (r: string)
    ensures |r| <= |s| && r == s[..|r|]
  {
    if s == [] then s
    else if IsSpace(s[|s| - 1]) then
      var t := s[..|s| - 1];
      var r := TrimEnd(t);
      assert forall i :: 0 <= i < |r| ==> t[i] == s[i];
      r
    else s
  }

  /** What `TrimEnd` leaves does not end in white space. */
  lemma {:induction false} TrimEndStopsAtWord(s: string)
    ensures TrimEnd(s) == [] || !IsSpace(TrimEnd(s)[|TrimEnd(s)| - 1])
  {
    if s != [] && IsSpace(s[|s| - 1]) {
      TrimEndStopsAtWord(s[..|s| - 1]);
    }
  }

  /** What `TrimEnd` drops is white space. */
  lemma {:induction false} TrimEndDropsSpace(s: string)
    ensures forall i :: |TrimEnd(s)| <= i < |s| ==> IsSpace(s[i])
  {
    if s != [] && IsSpace(s[|s| - 1]) {
      TrimEndDropsSpace(s[..|s| - 1]);
      forall i | |TrimEnd(s)| <= i < |s| - 1
        ensures IsSpace(s[i])
      {
        assert s[i] == s[..|s| - 1][i];
      }
    }
  }

  /**
   * `String.prototype.trim`: drops the leading and the trailing white space;
   * what is left neither begins nor ends with it.
   */
  function Trim(s: string): (r: string)
    ensures Trimmed(r)
  {
    var t := TrimStart(s);
    var r := TrimEnd(t);
    TrimEndStopsAtWord(t);
    assert r != [] ==> r[0] == t[0];
    r
  }

  /** What `Trim` leaves is the slice of `s` that starts where `TrimStart` stops. */
  lemma TrimIsSlice(s: string)
    ensures SliceAt(Trim(s), s, |s| - |TrimStart(s)|)
  {
    var t := TrimStart(s);
    var k := |s| - |t|;
    assert Trim(s) == s[k..][..|Trim(s)|];
  }

  /**
   * Everything `Trim` removes is white space, so a string trims to nothing
   * exactly when it is all white space.
   */
  lemma TrimRemovesOnlySpace(s: string)
    ensures forall i :: 0 <= i < |s| - |TrimStart(s)| ==> IsSpace(s[i])
    ensures forall i :: |s| - |TrimStart(s)| + |Trim(s)| <= i < |s| ==> IsSpace(s[i])
    ensures Trim(s) == [] <==> forall i :: 0 <= i < |s| ==> IsSpace(s[i])
  {
    var t := TrimStart(s);
    var k := |s| - |t|;
    TrimStartDropsSpace(s);
    TrimEndDropsSpace(t);
    TrimIsSlice(s);
    forall i | k + |Trim(s)| <= i < |s|
      ensures IsSpace(s[i])
    {
      assert s[i] == t[i - k];
    }
  }

  /** A slice of a slice of `t` is a slice of `t`. */
  lemma SliceOfSlice(s: string, t: string, i: int, j: int, k: int)
    requires 0 <= i <= j <= |t|
    requires SliceAt(s, t[i..j], k)
    ensures SliceAt(s, t, i + k) && i + k + |s| <= j
  {
    assert forall m :: i + k <= m < i + k + |s| ==> t[m] == t[i..j][m - i];
    assert t[i..j][k..k + |s|] == t[i + k..i + k + |s|];
  }

  /** Trimming changes nothing exactly when there is nothing to trim. */
  lemma TrimIdentity(s: string)
    ensures Trim(s) == s <==> Trimmed(s)
  {
    if Trimmed(s) && s != [] {
      assert TrimStart(s) == s;
      assert TrimEnd(s) == s;
    }
  }

  /** `s.startsWith(p)`. */
  predicate StartsWith(s: string, p: string) {
    |p| <= |s| && s[..|p|] == p
  }

  /** `s.endsWith(p)`. */
  predicate EndsWith(s: string, p: string) {
    |p| <= |s| && s[|s| - |p|..] == p
  }

  /**
   * `Array.prototype.join(sep)` on strings: the items in order with `sep`
   * between neighbours and nowhere else.
   */
  function Join(items: seq<string>, sep: string): (r: string)
    ensures items == [] ==> r == ""
    ensures |items| == 1 ==> r == items[0]
    decreases |items|
  {
    if items == [] then ""
    else if |items| == 1 then items[0]
    else Join(items[..|items| - 1], sep) + sep + items[|items| - 1]
  }

  /** Total length of a list of strings. */
  function TotalLength(items: seq<string>): nat {
    if items == [] then 0 else |items[0]| + TotalLength(items[1..])
  }

  lemma {:induction false} TotalLengthSnoc(items: seq<string>, x: string)
    ensures TotalLength(items + [x]) == TotalLength(items) + |x|
  {
    if items != [] {
      assert (items + [x])[1..] == items[1..] + [x];
      TotalLengthSnoc(items[1..], x);
    }
  }

  /**
   * A joined list is the items plus one separator per gap: nothing is
   * dropped, nothing extra is inserted.
   */
  lemma {:induction false} JoinLength(items: seq<string>, sep: string)
    requires items != []
    ensures |Join(items, sep)| == TotalLength(items) + (|items| - 1) * |sep|
    decreases |items|
  {
    if |items| == 1 {
      assert items == [] + [items[0]];
      TotalLengthSnoc([], items[0]);
    } else {
      var init := items[..|items| - 1];
      assert items == init + [items[|items| - 1]];
      JoinLength(init, sep);
      TotalLengthSnoc(init, items[|items| - 1]);
    }
  }

  /**
   * Joining a prefix of the list gives a prefix of the joined string; with
   * the definition of `Join`, item `k` follows the join of the items before
   * it and one separator, so the items keep their order.
   */
  lemma {:induction false} JoinPrefix(items: seq<string>, sep: string, k: nat)
    requires 1 <= k <= |items|
    ensures StartsWith(Join(items, sep), Join(items[..k], sep))
    decreases |items| - k
  {
    if k < |items| {
      var n := |items| - 1;
      var init := items[..n];
      assert init[..k] == items[..k];
      JoinPrefix(init, sep, k);
      assert Join(items, sep) == Join(init, sep) + sep + items[n];
    } else {
      assert items[..k] == items;
    }
  }

  /**
   * `s.replace(/\s+/g, sub)` for a one-character replacement: every maximal
   * run of white space becomes one `sub`, everything else is kept.
   */
  function ReplaceSpaceRuns(s: string, sub: char): (r: string)
    requires !IsSpace(sub)
    ensures SpaceFree(r)
    ensures |r| <= |s|
    decreases |s|
  {
    if s == [] then []
    else if IsSpace(s[0]) then [sub] + ReplaceSpaceRuns(TrimStart(s), sub)
    else [s[0]] + ReplaceSpaceRuns(s[1..], sub)
  }

  /** A character that is not white space is copied and the rest replaced after it. */
  lemma ReplaceCons(c: char, rest: string, sub: char)
    requires !IsSpace(sub) && !IsSpace(c)
    ensures ReplaceSpaceRuns([c] + rest, sub) == [c] + ReplaceSpaceRuns(rest, sub)
  {
    var s := [c] + rest;
    assert s[0] == c && s[1..] == rest;
  }

  /** Text without white space passes through unchanged in front of the rest. */
  lemma {:induction false} ReplaceAppendWord(a: string, b: string, sub: char)
    requires !IsSpace(sub) && SpaceFree(a)
    ensures ReplaceSpaceRuns(a + b, sub) == a + ReplaceSpaceRuns(b, sub)
    decreases |a|
  {
    if a == [] {
      assert a + b == b;
    } else {
      assert a + b == [a[0]] + (a[1..] + b);
      assert !IsSpace(a[0]);
      ReplaceCons(a[0], a[1..] + b, sub);
      ReplaceAppendWord(a[1..], b, sub);
      assert [a[0]] + (a[1..] + ReplaceSpaceRuns(b, sub)) == a + ReplaceSpaceRuns(b, sub);
    }
  }

  /** Text without white space is left as it is. */
  lemma ReplaceSpaceFree(s: string, sub: char)
    requires !IsSpace(sub) && SpaceFree(s)
    ensures ReplaceSpaceRuns(s, sub) == s
  {
    ReplaceAppendWord(s, [], sub);
    assert s + [] == s;
  }

  /** Trimming the start of a white-space run followed by a word leaves the word. */
  lemma {:induction false} DropLeadingRun(run: string, b: string)
    requires forall i :: 0 <= i < |run| ==> IsSpace(run[i])
    requires b == [] || !IsSpace(b[0])
    ensures TrimStart(run + b) == b
    decreases |run|
  {
    if run != [] {
      assert (run + b)[0] == run[0];
      assert (run + b)[1..] == run[1..] + b;
      DropLeadingRun(run[1..], b);
    } else {
      assert run + b == b;
    }
  }

  /**
   * A run of white space between two words is replaced by exactly one `sub`,
   * however long the run.
   */
  lemma ReplaceRunBetweenWords(a: string, run: string, b: string, sub: char)
    requires !IsSpace(sub) && SpaceFree(a)
    requires run != [] && forall i :: 0 <= i < |run| ==> IsSpace(run[i])
    requires b == [] || !IsSpace(b[0])
    ensures ReplaceSpaceRuns(a + run + b, sub) == a + [sub] + ReplaceSpaceRuns(b, sub)
  {
    var rb := run + b;
    assert a + run + b == a + rb;
    ReplaceAppendWord(a, rb, sub);
    assert ReplaceSpaceRuns(rb, sub) == [sub] + ReplaceSpaceRuns(b, sub) by {
      assert rb[0] == run[0];
      DropLeadingRun(run, b);
    }
  }
}
