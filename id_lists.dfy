/**
 * Lists of user or group ids as the pages keep them in component state,
 * and the array operations the handlers apply to them: `filter`, append,
 * `[...new Set(...)]` and `includes`.
 */
module IdLists {
  predicate NoDuplicates(s: seq<string>)
  {
    forall i, j :: 0 <= i < j < |s| ==> s[i] != s[j]
  }

  /** `r` is `s` with some elements dropped and the rest in their order. */
  predicate IsSubsequence(r: seq<string>, s: seq<string>)
  {
    if |r| == 0 then true
    else if |s| == 0 then false
    else if r[|r| - 1] == s[|s| - 1] then IsSubsequence(r[..|r| - 1], s[..|s| - 1])
    else IsSubsequence(r, s[..|s| - 1])
  }

  /** `s.filter(keep)`. */
  function Filter(s: seq<string>, keep: string -> bool): (r: seq<string>)
    ensures |r| <= |s|
    ensures forall x :: x in r <==> x in s && keep(x)
    ensures NoDuplicates(s) ==> NoDuplicates(r)
  {
    if |s| == 0 then []
    else
      var init := Filter(s[..|s| - 1], keep);
      var last := s[|s| - 1];
      assert forall x :: x in s <==> x in s[..|s| - 1] || x == last by {
        assert s == s[..|s| - 1] + [last];
      }
      if keep(last) then init + [last] else init
  }

  lemma {:induction false} FilterIsSubsequence(s: seq<string>, keep: string -> bool)
    ensures IsSubsequence(Filter(s, keep), s)
  {
    if |s| > 0 {
      var init := Filter(s[..|s| - 1], keep);
      FilterIsSubsequence(s[..|s| - 1], keep);
      if keep(s[|s| - 1]) {
        assert (init + [s[|s| - 1]])[..|init|] == init;
      } else {
        SubsequenceOfLonger(init, s[..|s| - 1], s[|s| - 1]);
      }
    }
  }

  lemma {:induction false} SubsequenceOfLonger(r: seq<string>, s: seq<string>, x: string)
    requires IsSubsequence(r, s)
    ensures IsSubsequence(r, s + [x])
    decreases |s|, 1
  {
    var t := s + [x];
    assert t[..|t| - 1] == s;
    if |r| > 0 && r[|r| - 1] == x {
      SubsequenceDropLast(r, s);
    }
  }

  /** A subsequence stays one when its last element is dropped. */
  lemma {:induction false} SubsequenceDropLast(r: seq<string>, s: seq<string>)
    requires |r| > 0 && IsSubsequence(r, s)
    ensures IsSubsequence(r[..|r| - 1], s)
    decreases |s|, 0
  {
    if |s| > 0 && r[|r| - 1] != s[|s| - 1] {
      SubsequenceDropLast(r, s[..|s| - 1]);
      SubsequenceOfLonger(r[..|r| - 1], s[..|s| - 1], s[|s| - 1]);
      assert s[..|s| - 1] + [s[|s| - 1]] == s;
    } else if |s| > 0 {
      SubsequenceOfLonger(r[..|r| - 1], s[..|s| - 1], s[|s| - 1]);
      assert s[..|s| - 1] + [s[|s| - 1]] == s;
    }
  }

  /** A filter every element passes changes nothing. */
  lemma {:induction false} FilterKeepsAll(s: seq<string>, keep: string -> bool)
    requires forall x :: x in s ==> keep(x)
    ensures Filter(s, keep) == s
  {
    if |s| > 0 {
      FilterKeepsAll(s[..|s| - 1], keep);
      assert s[..|s| - 1] + [s[|s| - 1]] == s;
    }
  }

  /** `s.filter(x => x !== id)`. */
  function Without(s: seq<string>, id: string): (r: seq<string>)
    ensures forall x :: x in r <==> x in s && x != id
    ensures NoDuplicates(s) ==> NoDuplicates(r)
  {
    Filter(s, x => x != id)
  }

  /** Dropping an id that is not there changes nothing. */
  lemma {:induction false} WithoutAbsent(s: seq<string>, id: string)
    requires id !in s
    ensures Without(s, id) == s
  {
    if |s| > 0 {
      WithoutAbsent(s[..|s| - 1], id);
      assert s[..|s| - 1] + [s[|s| - 1]] == s;
    }
  }

  /** Dropping an id from a list that ends with it, where it occurs once, gives the rest. */
  lemma WithoutAppended(s: seq<string>, id: string)
    requires id !in s
    ensures Without(s + [id], id) == s
  {
    var t := s + [id];
    assert t[..|t| - 1] == s;
    WithoutAbsent(s, id);
  }

  /** The avatar click: an id in the list is removed everywhere, any other id is appended. */
  function Toggle(s: seq<string>, id: string): (r: seq<string>)
    ensures id in r <==> id !in s
    ensures forall x :: x != id ==> (x in r <==> x in s)
  {
    if id in s then Without(s, id) else s + [id]
  }

  /** Toggling an unselected id twice restores the list. */
  lemma ToggleTwice(s: seq<string>, id: string)
    requires id !in s
    ensures Toggle(Toggle(s, id), id) == s
  {
    WithoutAppended(s, id);
  }

  lemma ToggleKeepsNoDuplicates(s: seq<string>, id: string)
    requires NoDuplicates(s)
    ensures NoDuplicates(Toggle(s, id))
  {
  }

  /** `[...new Set(s)]`: the first occurrence of each id, in order. */
  function Distinct(s: seq<string>): (r: seq<string>)
    ensures NoDuplicates(r)
    ensures forall x :: x in r <==> x in s
  {
    if |s| == 0 then []
    else
      var init := Distinct(s[..|s| - 1]);
      var last := s[|s| - 1];
      assert forall x :: x in s <==> x in s[..|s| - 1] || x == last by {
        assert s == s[..|s| - 1] + [last];
      }
      if last in init then init else init + [last]
  }

  /** A list that already has no duplicates is its own set. */
  lemma {:induction false} DistinctOfDistinct(s: seq<string>)
    requires NoDuplicates(s)
    ensures Distinct(s) == s
  {
    if |s| > 0 {
      DistinctOfDistinct(s[..|s| - 1]);
      assert s[..|s| - 1] + [s[|s| - 1]] == s;
    }
  }

  /** Adding ids after a duplicate-free list keeps that list in front, in order. */
  lemma {:induction false} DistinctKeepsPrefix(a: seq<string>, b: seq<string>)
    requires NoDuplicates(a)
    ensures |a| <= |Distinct(a + b)| && Distinct(a + b)[..|a|] == a
  {
    if |b| == 0 {
      assert a + b == a;
      DistinctOfDistinct(a);
    } else {
      var t := a + b;
      DistinctKeepsPrefix(a, b[..|b| - 1]);
      assert t[..|t| - 1] == a + b[..|b| - 1];
    }
  }

  /** `page.filter(id => selected.includes(id)).length`. */
  function CountIn(page: seq<string>, selected: seq<string>): (n: nat)
    ensures n <= |page|
  {
    if |page| == 0 then 0
    else CountIn(page[..|page| - 1], selected) + (if page[|page| - 1] in selected then 1 else 0)
  }

  /** The count is the page length exactly when every page id is selected, and positive exactly when one is. */
  lemma {:induction false} CountInSpec(page: seq<string>, selected: seq<string>)
    ensures CountIn(page, selected) == |page| <==> forall i :: 0 <= i < |page| ==> page[i] in selected
    ensures CountIn(page, selected) > 0 <==> exists i :: 0 <= i < |page| && page[i] in selected
  {
    if |page| > 0 {
      var init := page[..|page| - 1];
      CountInSpec(init, selected);
      assert forall i :: 0 <= i < |init| ==> init[i] == page[i];
      if CountIn(page, selected) > 0 && page[|page| - 1] !in selected {
        var i :| 0 <= i < |init| && init[i] in selected;
        assert page[i] in selected;
      }
    }
  }
}
