/** The Python `str` operations the training-data extractor relies on:
    `startswith`, `split(sep, maxsplit)` (with the `find` scan it performs),
    `strip()` and `replace` of one character by another; `join` states the
    split round-trip. Strings are sequences of code points, as in Python 3. */
module PyStr {

  datatype Option<+T> = None | Some(value: T)

  /** `sep` occurs in `s` starting at index `i`. */
  predicate OccursAt(s: string, sep: string, i: nat)
  {
    i + |sep| <= |s| && s[i..i + |sep|] == sep
  }

  /** Python's `sep in s`. */
  ghost predicate Contains(s: string, sep: string)
  {
    exists i: nat :: OccursAt(s, sep, i)
  }

  /** Python's `s.startswith(prefix)`. */
  predicate StartsWith(s: string, prefix: string)
    ensures StartsWith(s, prefix) <==>
            |prefix| <= |s| && forall i :: 0 <= i < |prefix| ==> s[i] == prefix[i]
  {
    |prefix| <= |s| && s[..|prefix|] == prefix
  }

  /** Python's `s.find(sep, start)`, with `None` for -1: scan from `start`
      for the first index where `sep` occurs. */
  function Find(s: string, sep: string, start: nat): (r: Option<nat>)
    requires |sep| > 0
    ensures r.Some? ==> start <= r.value && r.value + |sep| <= |s|
    decreases |s| - start
  {
    if start + |sep| > |s| then None
    else if OccursAt(s, sep, start) then Some(start)
    else Find(s, sep, start + 1)
  }

  /** `Find` returns the leftmost occurrence at or after `start`, and
      `None` only when there is none. */
  lemma {:induction false} FindLeftmost(s: string, sep: string, start: nat)
    requires |sep| > 0
    ensures var r := Find(s, sep, start);
            && (r.Some? ==> OccursAt(s, sep, r.value))
            && (forall j: nat :: start <= j && (r.None? || j < r.value) ==> !OccursAt(s, sep, j))
    decreases |s| - start
  {
    if start + |sep| <= |s| && !OccursAt(s, sep, start) {
      FindLeftmost(s, sep, start + 1);
    }
  }

  /** An occurrence inside a prefix of `s` is an occurrence in `s`. */
  lemma OccursInPrefix(s: string, sep: string, n: nat, j: nat)
    requires n <= |s|
    ensures OccursAt(s[..n], sep, j) <==> j + |sep| <= n && OccursAt(s, sep, j)
  {
    if j + |sep| <= n {
      assert s[..n][j..j + |sep|] == s[j..j + |sep|];
    }
  }

  /** Occurrences in a suffix of `s` are occurrences in `s`, shifted. */
  lemma OccursInSuffix(s: string, sep: string, n: nat, j: nat)
    requires n <= |s|
    ensures OccursAt(s[n..], sep, j) <==> OccursAt(s, sep, n + j)
  {
    if n + j + |sep| <= |s| {
      assert s[n..][j..j + |sep|] == s[n + j..n + j + |sep|];
    }
  }

  /** Python's `s.split(sep, maxsplit)` for a non-empty `sep` (Python raises
      ValueError on an empty one): cut at the leftmost occurrence of `sep`,
      at most `maxsplit` times, scanning on after each cut, so occurrences
      never overlap. */
  function Split(s: string, sep: string, maxsplit: nat): (parts: seq<string>)
    requires |sep| > 0
    ensures 1 <= |parts| <= maxsplit + 1
    decreases maxsplit
  {
    if maxsplit == 0 then [s]
    else match Find(s, sep, 0)
      case None => [s]
      case Some(i) => [s[..i]] + Split(s[i + |sep|..], sep, maxsplit - 1)
  }

  /** `Find` finds nothing exactly when `sep` does not occur. */
  lemma FindNoneIff(s: string, sep: string)
    requires |sep| > 0
    ensures Find(s, sep, 0).None? <==> !Contains(s, sep)
  {
    FindLeftmost(s, sep, 0);
  }

  /** What `Find` skips over, before the occurrence it finds, is free of
      `sep`. */
  lemma FindSkipsFree(s: string, sep: string, i: nat)
    requires |sep| > 0 && Find(s, sep, 0) == Some(i)
    ensures Find(s[..i], sep, 0).None?
  {
    FindLeftmost(s, sep, 0);
    forall j: nat ensures !OccursAt(s[..i], sep, j) {
      OccursInPrefix(s, sep, i, j);
    }
    FindNoneIff(s[..i], sep);
  }

  /** Searching a piece other than the last for `sep` finds nothing. */
  lemma {:induction false} SplitPieceUnfound(s: string, sep: string, maxsplit: nat, k: nat)
    requires |sep| > 0 && k < |Split(s, sep, maxsplit)| - 1
    ensures Find(Split(s, sep, maxsplit)[k], sep, 0).None?
    decreases maxsplit
  {
    var i := Find(s, sep, 0).value;
    SplitCut(s, sep, maxsplit, i);
    if k == 0 {
      FindSkipsFree(s, sep, i);
    } else {
      SplitPieceUnfound(s[i + |sep|..], sep, maxsplit - 1, k - 1);
    }
  }

  /** Searching the last piece for `sep` finds nothing unless the cuts ran
      out. */
  lemma {:induction false} SplitLastUnfound(s: string, sep: string, maxsplit: nat)
    requires |sep| > 0 && |Split(s, sep, maxsplit)| <= maxsplit
    ensures var parts := Split(s, sep, maxsplit); Find(parts[|parts| - 1], sep, 0).None?
    decreases maxsplit
  {
    match Find(s, sep, 0)
    case None =>
    case Some(i) =>
      SplitCut(s, sep, maxsplit, i);
      SplitLastUnfound(s[i + |sep|..], sep, maxsplit - 1);
  }

  /** Every piece but the last is free of `sep`, and so is the last unless
      the cuts ran out. */
  lemma SplitPiecesFree(s: string, sep: string, maxsplit: nat)
    requires |sep| > 0
    ensures var parts := Split(s, sep, maxsplit);
            && (forall k :: 0 <= k < |parts| - 1 ==> !Contains(parts[k], sep))
            && (|parts| <= maxsplit ==> !Contains(parts[|parts| - 1], sep))
  {
    var parts := Split(s, sep, maxsplit);
    forall k | 0 <= k < |parts| - 1
      ensures !Contains(parts[k], sep)
    {
      SplitPieceUnfound(s, sep, maxsplit, k);
      FindNoneIff(parts[k], sep);
    }
    if |parts| <= maxsplit {
      SplitLastUnfound(s, sep, maxsplit);
      FindNoneIff(parts[|parts| - 1], sep);
    }
  }

  /** Python's `sep.join(parts)`. */
  function Join(parts: seq<string>, sep: string): (r: string)
  {
    if |parts| == 0 then ""
    else if |parts| == 1 then parts[0]
    else parts[0] + sep + Join(parts[1..], sep)
  }

  /** Joining a list of at least two pieces puts the separator after the
      first. */
  lemma JoinCons(head: string, tail: seq<string>, sep: string)
    requires tail != []
    ensures Join([head] + tail, sep) == head + sep + Join(tail, sep)
  {
    assert ([head] + tail)[1..] == tail;
  }

  /** A string is what comes before a slice, the slice, and what follows. */
  lemma CutAround(s: string, i: nat, n: nat)
    requires i + n <= |s|
    ensures s == s[..i] + s[i..i + n] + s[i + n..]
  {
    assert s[..i] + s[i..i + n] == s[..i + n];
  }

  /** Cutting `s` at an occurrence of `sep` and joining the two sides with
      `sep` gives `s` back. */
  lemma JoinAfterCut(s: string, sep: string, i: nat, tail: seq<string>)
    requires OccursAt(s, sep, i) && tail != []
    requires Join(tail, sep) == s[i + |sep|..]
    ensures Join([s[..i]] + tail, sep) == s
  {
    JoinCons(s[..i], tail, sep);
    CutAround(s, i, |sep|);
  }

  /** Splitting loses nothing: joining the pieces with the separator gives
      back the original string. */
  lemma {:induction false} SplitJoin(s: string, sep: string, maxsplit: nat)
    requires |sep| > 0
    ensures Join(Split(s, sep, maxsplit), sep) == s
    decreases maxsplit
  {
    if maxsplit == 0 {
      assert Split(s, sep, maxsplit) == [s];
    } else {
      match Find(s, sep, 0)
      case None =>
        assert Split(s, sep, maxsplit) == [s];
      case Some(i) =>
        SplitJoin(s[i + |sep|..], sep, maxsplit - 1);
        SplitJoinStep(s, sep, maxsplit, i);
    }
  }

  /** The inductive step of `SplitJoin`: a cut at the first occurrence. */
  lemma SplitJoinStep(s: string, sep: string, maxsplit: nat, i: nat)
    requires |sep| > 0 && maxsplit > 0 && Find(s, sep, 0) == Some(i)
    requires Join(Split(s[i + |sep|..], sep, maxsplit - 1), sep) == s[i + |sep|..]
    ensures Join(Split(s, sep, maxsplit), sep) == s
  {
    FindLeftmost(s, sep, 0);
    SplitCut(s, sep, maxsplit, i);
    JoinAfterCut(s, sep, i, Split(s[i + |sep|..], sep, maxsplit - 1));
  }

  /** With a cut left and an occurrence found at `i`, the first piece is
      what precedes `i` and the rest is split from after the separator. */
  lemma SplitCut(s: string, sep: string, maxsplit: nat, i: nat)
    requires |sep| > 0 && maxsplit > 0 && Find(s, sep, 0) == Some(i)
    ensures i + |sep| <= |s|
    ensures Split(s, sep, maxsplit) == [s[..i]] + Split(s[i + |sep|..], sep, maxsplit - 1)
  {
  }

  /** Python's `str.isspace` for one character: the Unicode characters whose
      bidirectional class is WS, B or S, or whose category is Zs. */
  predicate IsSpace(c: char)
    ensures c == ' ' || c == '\t' || c == '\n' || c == '\r' ==> IsSpace(c)
    ensures 'a' <= c <= 'z' || 'A' <= c <= 'Z' || '0' <= c <= '9' || c == '-' ==> !IsSpace(c)
  {
    var n := c as int;
    (0x09 <= n <= 0x0D) || (0x1C <= n <= 0x20) || n == 0x85 || n == 0xA0 ||
    n == 0x1680 || (0x2000 <= n <= 0x200A) || n == 0x2028 || n == 0x2029 ||
    n == 0x202F || n == 0x205F || n == 0x3000
  }

  predicate AllSpace(s: string)
  {
    forall i :: 0 <= i < |s| ==> IsSpace(s[i])
  }

  /** The index of the first non-whitespace character at or after `i`
      (`|s|` when there is none): `strip`'s scan from the left. */
  function SpaceEnd(s: string, i: nat): (k: nat)
    requires i <= |s|
    ensures i <= k <= |s|
    ensures forall j :: i <= j < k ==> IsSpace(s[j])
    ensures k == |s| || !IsSpace(s[k])
    decreases |s| - i
  {
    if i < |s| && IsSpace(s[i]) then SpaceEnd(s, i + 1) else i
  }

  /** The index just past the last non-whitespace character before `j`,
      stopping at `lo`: `strip`'s scan from the right. */
  function SpaceStart(s: string, lo: nat, j: nat): (k: nat)
    requires lo <= j <= |s|
    ensures lo <= k <= j
    ensures forall m :: k <= m < j ==> IsSpace(s[m])
    ensures k == lo || !IsSpace(s[k - 1])
    decreases j
  {
    if j > lo && IsSpace(s[j - 1]) then SpaceStart(s, lo, j - 1) else j
  }

  /** Python's `s.strip()`: skip whitespace from the left, then from the
      right down to where the left scan stopped, and keep what is between.
      The result neither starts nor ends with whitespace. */
  function Strip(s: string): (r: string)
    ensures |r| <= |s|
    ensures r == [] || (!IsSpace(r[0]) && !IsSpace(r[|r| - 1]))
  {
    var lo := SpaceEnd(s, 0);
    s[lo..SpaceStart(s, lo, |s|)]
  }

  /** `s.strip()` is a slice of `s`, and everything cut away on either side
      of it is whitespace. */
  lemma StripTrims(s: string)
    ensures exists lo, hi :: 0 <= lo <= hi <= |s| && Strip(s) == s[lo..hi] && AllSpace(s[..lo]) && AllSpace(s[hi..])
  {
    var lo := SpaceEnd(s, 0);
    var hi := SpaceStart(s, lo, |s|);
    assert AllSpace(s[..lo]);
    assert AllSpace(s[hi..]);
    assert Strip(s) == s[lo..hi];
  }

  /** Python's `s.replace(from, to)` where both are single characters: every
      `from` becomes `to`, every other character stays where it was. */
  function ReplaceAll(s: string, from: char, to: char): (r: string)
    ensures |r| == |s|
    ensures forall i :: 0 <= i < |s| ==> r[i] == (if s[i] == from then to else s[i])
    decreases |s|
  {
    if s == [] then []
    else ReplaceAll(s[..|s| - 1], from, to) + [if s[|s| - 1] == from then to else s[|s| - 1]]
  }

  /** After the replacement no `from` is left (when `from` differs from `to`). */
  lemma ReplaceAllRemoves(s: string, from: char, to: char)
    requires from != to
    ensures from !in ReplaceAll(s, from, to)
  {
  }

  /** A string without `from` is left unchanged. */
  lemma {:induction false} ReplaceAllAbsent(s: string, from: char, to: char)
    requires from !in s
    ensures ReplaceAll(s, from, to) == s
    decreases |s|
  {
    if s != [] {
      ReplaceAllAbsent(s[..|s| - 1], from, to);
      assert s == s[..|s| - 1] + [s[|s| - 1]];
    }
  }

  /** Replacing twice is replacing once. */
  lemma ReplaceAllIdempotent(s: string, from: char, to: char)
    ensures ReplaceAll(ReplaceAll(s, from, to), from, to) == ReplaceAll(s, from, to)
  {
    if from != to {
      ReplaceAllRemoves(s, from, to);
      ReplaceAllAbsent(ReplaceAll(s, from, to), from, to);
    } else {
      assert ReplaceAll(s, from, to) == s;
    }
  }
}
