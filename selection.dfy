/** Selection lists edited through check buttons: the platform chips of the two post
    composers (`togglePlatform`) and the target-language check boxes of the
    multilingual generator. */
module Selection {

  /** No element occurs twice. */
  predicate NoDup(s: seq<string>)
  {
    forall i, j :: 0 <= i < j < |s| ==> s[i] != s[j]
  }

  /** `s.filter(p => p !== x)`: every occurrence of `x` removed, the rest in order. */
  function Remove(s: seq<string>, x: string): (r: seq<string>)
    ensures x !in r
    ensures x !in s ==> r == s
    ensures |r| <= |s|
  {
    if s == [] then [] else (if s[0] == x then [] else [s[0]]) + Remove(s[1..], x)
  }

  /** Removing `x` keeps every other element. */
  lemma {:induction false} RemoveKeepsOthers(s: seq<string>, x: string, y: string)
    requires y != x
    ensures y in Remove(s, x) <==> y in s
    decreases |s|
  {
    if s != [] {
      RemoveKeepsOthers(s[1..], x, y);
      assert y in s <==> y == s[0] || y in s[1..];
    }
  }

  lemma {:induction false} RemoveAppend(s: seq<string>, t: seq<string>, x: string)
    ensures Remove(s + t, x) == Remove(s, x) + Remove(t, x)
    decreases |s|
  {
    if s == [] {
      assert s + t == t;
    } else {
      assert (s + t)[1..] == s[1..] + t;
      RemoveAppend(s[1..], t, x);
    }
  }

  lemma {:induction false} RemoveKeepsNoDup(s: seq<string>, x: string)
    requires NoDup(s)
    ensures NoDup(Remove(s, x))
    decreases |s|
  {
    if s != [] {
      RemoveKeepsNoDup(s[1..], x);
      var rest := Remove(s[1..], x);
      assert s[0] !in s[1..];
      if s[0] != x {
        RemoveKeepsOthers(s[1..], x, s[0]);
      }
    }
  }

  lemma RemoveKeepsAllOthers(s: seq<string>, x: string)
    ensures forall y :: y != x ==> (y in Remove(s, x) <==> y in s)
  {
    forall y | y != x ensures y in Remove(s, x) <==> y in s {
      RemoveKeepsOthers(s, x, y);
    }
  }

  /** `togglePlatform`: remove `x` when it is selected, otherwise append it at the end. */
  function Toggle(s: seq<string>, x: string): (r: seq<string>)
  {
    if x in s then Remove(s, x) else s + [x]
  }

  /** Toggling flips the membership of `x` and of nothing else. */
  lemma ToggleFlipsMembership(s: seq<string>, x: string)
    ensures x in Toggle(s, x) <==> x !in s
    ensures forall y :: y != x ==> (y in Toggle(s, x) <==> y in s)
  {
    RemoveKeepsAllOthers(s, x);
  }

  /** Toggling keeps a selection free of duplicates. */
  lemma ToggleKeepsNoDup(s: seq<string>, x: string)
    requires NoDup(s)
    ensures NoDup(Toggle(s, x))
  {
    if x in s {
      RemoveKeepsNoDup(s, x);
    }
  }

  /** Toggling the same id twice restores the set of selected ids. */
  lemma ToggleTwiceSameMembers(s: seq<string>, x: string)
    ensures forall y :: y in Toggle(Toggle(s, x), x) <==> y in s
  {
    ToggleFlipsMembership(s, x);
    ToggleFlipsMembership(Toggle(s, x), x);
  }

  /** Selecting an absent id and unselecting it again restores the list itself. */
  lemma ToggleTwiceRestoresAbsent(s: seq<string>, x: string)
    requires x !in s
    ensures Toggle(Toggle(s, x), x) == s
  {
    RemoveAppend(s, [x], x);
    RemoveSingle(x);
  }

  lemma RemoveSingle(x: string)
    ensures Remove([x], x) == []
  {
    assert [x][1..] == [];
  }

  /** Unselecting a present id and selecting it again moves it to the end, so the
      list is restored only when the id was the last element. */
  lemma {:induction false} ToggleTwiceMovesToEnd(p: seq<string>, q: seq<string>, x: string)
    requires x !in p && x !in q
    ensures Toggle(Toggle(p + [x] + q, x), x) == p + q + [x]
  {
    var px := p + [x];
    assert px[|p|] == x;
    RemoveAppend(px, q, x);
    assert Remove(px + q, x) == Remove(px, x) + Remove(q, x);
    RemoveAppend(p, [x], x);
    assert Remove(px, x) == Remove(p, x) + Remove([x], x);
    RemoveSingle(x);
    assert Remove(px, x) == p;
    assert Toggle(px + q, x) == p + q;
  }

  /** The language check box handler: append when checked, remove every occurrence
      when unchecked. */
  function SetChecked(s: seq<string>, x: string, checked: bool): (r: seq<string>)
    ensures checked ==> r == s + [x]
    ensures !checked ==> x !in r && forall y :: y != x ==> (y in r <==> y in s)
  {
    if checked then s + [x] else RemoveKeepsAllOthers(s, x); Remove(s, x)
  }
}
