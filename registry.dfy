/** The channel list operations: `filter` out one id, and the reference definitions about it. */
module Registry {

  /** No channel id occurs twice. */
  predicate Distinct(s: seq<string>)
  {
    forall i, j :: 0 <= i < j < |s| ==> s[i] != s[j]
  }

  /** Appending an id not yet in the list keeps it free of repeats. */
  lemma DistinctSnoc(s: seq<string>, x: string)
    requires Distinct(s) && x !in s
    ensures Distinct(s + [x])
  {
    var t := s + [x];
    forall i, j | 0 <= i < j < |t| ensures t[i] != t[j] {
      if j == |s| {
        assert t[i] == s[i];
      } else {
        assert t[i] == s[i] && t[j] == s[j];
      }
    }
  }

  /** `s.filter(x => x !== id)`: every occurrence of `id` dropped, the rest in order. */
  function Without(s: seq<string>, id: string): (r: seq<string>)
    ensures id !in r
    ensures forall x :: x != id ==> (x in r <==> x in s)
    ensures |r| <= |s|
    decreases |s|
  {
    if |s| == 0 then []
    else (if s[0] == id then [] else [s[0]]) + Without(s[1..], id)
  }

  /** The elements of `s` that are not in `ids`, in their order in `s`. */
  function Keep(s: seq<string>, ids: seq<string>): (r: seq<string>)
    ensures forall x :: x in r <==> x in s && x !in ids
    decreases |s|
  {
    if |s| == 0 then []
    else (if s[0] in ids then [] else [s[0]]) + Keep(s[1..], ids)
  }

  /** Filtering out an id that is not there changes nothing. */
  lemma {:induction false} WithoutAbsent(s: seq<string>, id: string)
    requires id !in s
    ensures Without(s, id) == s
    decreases |s|
  {
    if |s| > 0 {
      WithoutAbsent(s[1..], id);
      assert [s[0]] + s[1..] == s;
    }
  }

  /** Filtering distributes over concatenation, so the relative order of the others is kept. */
  lemma {:induction false} WithoutAppend(a: seq<string>, b: seq<string>, id: string)
    ensures Without(a + b, id) == Without(a, id) + Without(b, id)
    decreases |a|
  {
    if |a| > 0 {
      assert (a + b)[1..] == a[1..] + b;
      WithoutAppend(a[1..], b, id);
    } else {
      assert a + b == b;
    }
  }

  /** Every other id keeps its number of occurrences. */
  lemma {:induction false} WithoutCount(s: seq<string>, id: string, x: string)
    ensures multiset(Without(s, id))[x] == if x == id then 0 else multiset(s)[x]
    decreases |s|
  {
    if |s| > 0 {
      WithoutCount(s[1..], id, x);
      assert s == [s[0]] + s[1..];
    }
  }

  /** Filtering an id out of a list that never repeats one gives such a list. */
  lemma {:induction false} WithoutDistinct(s: seq<string>, id: string)
    requires Distinct(s)
    ensures Distinct(Without(s, id))
    decreases |s|
  {
    if |s| > 0 {
      assert Distinct(s[1..]) by {
        forall i, j | 0 <= i < j < |s[1..]| ensures s[1..][i] != s[1..][j] {
          assert s[1..][i] == s[i + 1] && s[1..][j] == s[j + 1];
        }
      }
      WithoutDistinct(s[1..], id);
      assert s[0] !in s[1..];
    }
  }

  /** Removing one more id from what is kept is keeping against one more id. */
  lemma {:induction false} KeepWithout(s: seq<string>, ids: seq<string>, id: string)
    ensures Without(Keep(s, ids), id) == Keep(s, ids + [id])
    decreases |s|
  {
    if |s| > 0 {
      KeepWithout(s[1..], ids, id);
      var head := if s[0] in ids then [] else [s[0]];
      WithoutAppend(head, Keep(s[1..], ids), id);
      assert s[0] in ids + [id] <==> s[0] in ids || s[0] == id;
    }
  }

  /** Keeping against no id keeps everything. */
  lemma {:induction false} KeepNothing(s: seq<string>)
    ensures Keep(s, []) == s
    decreases |s|
  {
    if |s| > 0 {
      KeepNothing(s[1..]);
      assert [s[0]] + s[1..] == s;
    }
  }
}
