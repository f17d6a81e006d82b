/**
 * The JavaScript string operations that turn a feed entry into a video
 * record, on Dafny strings: `indexOf`, `replace` with a string pattern
 * and a replacement without `$` (which replaces the first occurrence
 * only) and `split` on a one-character separator, with `join` as its
 * inverse.
 */
module Text {
  import opened Wrappers

  /** `pat` occurs in `s` starting at index `i`. */
  predicate OccursAt(s: string, pat: string, i: nat)
  {
    i + |pat| <= |s| && s[i..i + |pat|] == pat
  }

  /** The search `replace` performs: the first index at or after `from` where `pat` occurs, if any. */
  function IndexOfFrom(s: string, pat: string, from: nat): (r: Option<nat>)
    ensures r.Some? ==> from <= r.value && OccursAt(s, pat, r.value)
    ensures r.Some? ==> forall j: nat :: from <= j < r.value ==> !OccursAt(s, pat, j)
    ensures r.None? ==> forall j: nat :: from <= j ==> !OccursAt(s, pat, j)
    decreases |s| - from
  {
    if from + |pat| > |s| then None
    else if s[from..from + |pat|] == pat then Some(from)
    else IndexOfFrom(s, pat, from + 1)
  }

  /**
   * `s.replace(pat, rep)` with a string pattern and a `rep` that contains
   * no `$` (both calls pass `''`): only the first occurrence of `pat` is
   * replaced.
   */
  function ReplaceFirst(s: string, pat: string, rep: string): (r: string)
    ensures IndexOfFrom(s, pat, 0).Some? ==> |r| == |s| - |pat| + |rep|
    ensures IndexOfFrom(s, pat, 0).None? ==> r == s
  {
    match IndexOfFrom(s, pat, 0)
    case None => s
    case Some(i) => s[..i] + rep + s[i + |pat|..]
  }

  /** `replace` rewrites the first occurrence of the pattern and keeps the text around it. */
  lemma ReplaceFirstFirst(s: string, pat: string, rep: string, i: nat)
    requires OccursAt(s, pat, i)
    requires forall j: nat :: j < i ==> !OccursAt(s, pat, j)
    ensures ReplaceFirst(s, pat, rep) == s[..i] + rep + s[i + |pat|..]
  {
    assert IndexOfFrom(s, pat, 0) == Some(i);
  }

  /** A pattern that begins the string is the occurrence `replace` rewrites. */
  lemma ReplaceFirstAtStart(pat: string, rest: string, rep: string)
    ensures ReplaceFirst(pat + rest, pat, rep) == rep + rest
  {
    var s := pat + rest;
    assert s[0..|pat|] == pat;
    assert s[|pat|..] == rest;
  }

  /** A pattern that occurs nowhere leaves the string as it is. */
  lemma ReplaceFirstAbsent(s: string, pat: string, rep: string)
    requires forall j: nat :: !OccursAt(s, pat, j)
    ensures ReplaceFirst(s, pat, rep) == s
  {
  }

  /**
   * When the first character of `pat` does not occur in `t`, the first
   * occurrence of `pat` in `t + pat` is the appended one, and removing it
   * gives `t` back.
   */
  lemma ReplaceFirstAtEnd(t: string, pat: string)
    requires |pat| > 0 && pat[0] !in t
    ensures ReplaceFirst(t + pat, pat, "") == t
  {
    var s := t + pat;
    assert OccursAt(s, pat, |t|) by {
      assert s[|t|..|t| + |pat|] == pat;
    }
    forall j: nat | j < |t|
      ensures !OccursAt(s, pat, j)
    {
      assert s[j] == t[j];
    }
    assert IndexOfFrom(s, pat, 0) == Some(|t|);
    assert s[..|t|] == t;
  }

  /** `s.split(sep)` for a one-character separator: the maximal runs of `s` between separators. */
  function Split(s: string, sep: char): (parts: seq<string>)
    ensures |parts| >= 1
    ensures forall k :: 0 <= k < |parts| ==> sep !in parts[k]
    decreases |s|
  {
    if |s| == 0 then [""]
    else
      var rest := Split(s[1..], sep);
      if s[0] == sep then [""] + rest
      else [[s[0]] + rest[0]] + rest[1..]
  }

  /** `parts.join(sep)`. */
  function Join(parts: seq<string>, sep: char): string
  {
    if |parts| == 0 then ""
    else if |parts| == 1 then parts[0]
    else parts[0] + [sep] + Join(parts[1..], sep)
  }

  /** Joining the pieces of a split with the same separator restores the string. */
  lemma {:induction false} JoinSplit(s: string, sep: char)
    ensures Join(Split(s, sep), sep) == s
    decreases |s|
  {
    if |s| > 0 {
      var rest := Split(s[1..], sep);
      JoinSplit(s[1..], sep);
      if s[0] == sep {
        assert ([""] + rest)[1..] == rest;
      } else if |rest| > 1 {
        var parts := [[s[0]] + rest[0]] + rest[1..];
        assert parts[1..] == rest[1..];
        assert Join(rest, sep) == rest[0] + [sep] + Join(rest[1..], sep);
      }
      assert s == [s[0]] + s[1..];
    }
  }

  /** A string without the separator is split into itself alone. */
  lemma {:induction false} SplitWithout(t: string, sep: char)
    requires sep !in t
    ensures Split(t, sep) == [t]
    decreases |t|
  {
    if |t| > 0 {
      SplitWithout(t[1..], sep);
      assert [t[0]] + t[1..] == t;
    }
  }

  /** A separator-free head `d` before the first separator is the first piece. */
  lemma {:induction false} SplitAt(d: string, t: string, sep: char)
    requires sep !in d
    ensures Split(d + [sep] + t, sep) == [d] + Split(t, sep)
    decreases |d|
  {
    var s := d + [sep] + t;
    if |d| == 0 {
      assert s[1..] == t;
    } else {
      assert s[1..] == d[1..] + [sep] + t;
      SplitAt(d[1..], t, sep);
      assert [d[0]] + d[1..] == d;
    }
  }

  /** Splitting a join of separator-free pieces gives the pieces back. */
  lemma {:induction false} SplitJoin(parts: seq<string>, sep: char)
    requires |parts| >= 1
    requires forall k :: 0 <= k < |parts| ==> sep !in parts[k]
    ensures Split(Join(parts, sep), sep) == parts
    decreases |parts|
  {
    if |parts| == 1 {
      SplitWithout(parts[0], sep);
    } else {
      SplitJoin(parts[1..], sep);
      SplitAt(parts[0], Join(parts[1..], sep), sep);
      assert [parts[0]] + parts[1..] == parts;
    }
  }

  /** `s.split(sep)[1]` exists exactly when the separator occurs in `s`. */
  lemma {:induction false} SplitHasSecond(s: string, sep: char)
    ensures |Split(s, sep)| >= 2 <==> sep in s
    decreases |s|
  {
    if |s| > 0 {
      SplitHasSecond(s[1..], sep);
      assert s == [s[0]] + s[1..];
    }
  }
}
