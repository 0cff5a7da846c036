/** Caption rewriting (backend/app/services/ai_services.py, `rewrite_caption`): three
    templated variations of the original caption, each with a predicted engagement,
    sorted in place from the highest engagement down. The hook choice and the three
    engagement predictions are random draws in the service and are parameters here. */
module Caption {
  import opened Text

  /** One entry of the `styles` table. */
  datatype StyleConfig = StyleConfig(prefix: string, suffix: string, hooks: seq<string>)

  const Engaging := StyleConfig("\U{2728} ", "\n\n\U{1F447} What do you think?",
    ["Here's why this matters:", "Most people don't know this:", "The secret is:"])
  const Professional := StyleConfig("", "\n\n#professional #insights",
    ["Key insight:", "Important update:", "Industry perspective:"])
  const Casual := StyleConfig("Hey everyone! ", " \U{1F64C}",
    ["So basically,", "Real talk:", "Here's the thing:"])
  const Viral := StyleConfig("\U{1F525} ", "\n\nRT if you agree! \U{1F504}",
    ["THREAD:", "This will blow your mind:", "Stop scrolling!"])

  /** `styles.get(style, styles["engaging"])`: the four named styles, and "engaging"
      for every other name. */
  function StyleFor(style: string): (c: StyleConfig)
    ensures |c.hooks| == 3
    ensures style == "professional" ==> c == Professional
    ensures style == "casual" ==> c == Casual
    ensures style == "viral" ==> c == Viral
    ensures style !in {"professional", "casual", "viral"} ==> c == Engaging
  {
    if style == "professional" then Professional
    else if style == "casual" then Casual
    else if style == "viral" then Viral
    else Engaging
  }

  datatype Variation = Variation(text: string, engagement: int, style: string)

  /** Variation 1: the style's prefix, the hook, a space, the caption, the suffix. */
  function HookVariation(c: StyleConfig, hook: string, original: string): string
  {
    c.prefix + hook + " " + original + c.suffix
  }

  /** Variation 2: the question format. */
  function QuestionVariation(original: string): string
  {
    "Did you know? " + original + "\n\nDrop a \U{1F525} if this resonates!"
  }

  /** Variation 3: the story format. */
  function StoryVariation(original: string): string
  {
    "Here's something interesting:\n\n" + original + "\n\nSave this for later! \U{1F4CC}"
  }

  /** The three variations in the order they are built. The first carries the
      requested style name as given, even when it fell back to "engaging". */
  function Variations(original: string, style: string, hookIndex: nat, e1: int, e2: int, e3: int)
    : (vs: seq<Variation>)
    requires hookIndex < 3
    ensures |vs| == 3
    ensures vs[0].style == style && vs[1].style == "question" && vs[2].style == "story"
    ensures vs[0].engagement == e1 && vs[1].engagement == e2 && vs[2].engagement == e3
    ensures forall i :: 0 <= i < 3 ==> Contains(vs[i].text, original)
  {
    var c := StyleFor(style);
    var hook := c.hooks[hookIndex];
    ContainsMiddle(c.prefix + hook + " ", original, c.suffix);
    ContainsMiddle("Did you know? ", original, "\n\nDrop a \U{1F525} if this resonates!");
    ContainsMiddle("Here's something interesting:\n\n", original, "\n\nSave this for later! \U{1F4CC}");
    [Variation(HookVariation(c, hook, original), e1, style),
     Variation(QuestionVariation(original), e2, "question"),
     Variation(StoryVariation(original), e3, "story")]
  }

  /** From the highest predicted engagement down. */
  predicate SortedDesc(s: seq<Variation>)
  {
    forall i, j :: 0 <= i < j < |s| ==> s[i].engagement >= s[j].engagement
  }

  /** One insertion step: `x` moves left past every element of strictly smaller
      engagement at the end of `s`, and stops behind one that is not smaller. */
  function Insert(s: seq<Variation>, x: Variation): (r: seq<Variation>)
    ensures |r| == |s| + 1
  {
    if s == [] || s[|s| - 1].engagement >= x.engagement then s + [x]
    else Insert(s[..|s| - 1], x) + [s[|s| - 1]]
  }

  /** Inserting adds `x` and loses nothing. */
  lemma {:induction false} InsertPerm(s: seq<Variation>, x: Variation)
    ensures multiset(Insert(s, x)) == multiset(s) + multiset{x}
  {
    if s != [] && s[|s| - 1].engagement < x.engagement {
      var init, last := s[..|s| - 1], s[|s| - 1];
      assert s == init + [last];
      InsertPerm(init, x);
    }
  }

  /** `variations.sort(key=..., reverse=True)` as insertion sort: each element in
      turn is inserted into the sorted prefix before it. */
  function SortDesc(s: seq<Variation>): (r: seq<Variation>)
    ensures |r| == |s|
  {
    if s == [] then [] else Insert(SortDesc(s[..|s| - 1]), s[|s| - 1])
  }

  /** The sort is a permutation of its input. */
  lemma {:induction false} SortDescPerm(s: seq<Variation>)
    ensures multiset(SortDesc(s)) == multiset(s)
  {
    if s != [] {
      var init, last := s[..|s| - 1], s[|s| - 1];
      assert s == init + [last];
      SortDescPerm(init);
      InsertPerm(SortDesc(init), last);
    }
  }

  lemma {:induction false} InsertSorted(s: seq<Variation>, x: Variation)
    requires SortedDesc(s)
    ensures SortedDesc(Insert(s, x))
  {
    if s == [] || s[|s| - 1].engagement >= x.engagement {
    } else {
      var init, last := s[..|s| - 1], s[|s| - 1];
      InsertSorted(init, x);
      var r := Insert(init, x);
      InsertPerm(init, x);
      forall y | y in r ensures y.engagement >= last.engagement {
        assert y in multiset(r);
        if y != x {
          assert y in multiset(init);
          var k :| 0 <= k < |init| && init[k] == y;
          assert s[k] == y;
        }
      }
      assert forall i :: 0 <= i < |r| ==> r[i] in r;
    }
  }

  /** The result of the sort runs from the highest engagement down. */
  lemma {:induction false} SortDescSorted(s: seq<Variation>)
    ensures SortedDesc(SortDesc(s))
  {
    if s != [] {
      SortDescSorted(s[..|s| - 1]);
      InsertSorted(SortDesc(s[..|s| - 1]), s[|s| - 1]);
    }
  }

  /** The elements with engagement `k`, in order. */
  function WithEngagement(s: seq<Variation>, k: int): seq<Variation>
  {
    if s == [] then []
    else WithEngagement(s[..|s| - 1], k) + (if s[|s| - 1].engagement == k then [s[|s| - 1]] else [])
  }

  lemma {:induction false} WithEngagementAppend(s: seq<Variation>, t: seq<Variation>, k: int)
    ensures WithEngagement(s + t, k) == WithEngagement(s, k) + WithEngagement(t, k)
    decreases |t|
  {
    if t == [] {
      assert s + t == s;
    } else {
      var t0 := t[..|t| - 1];
      assert (s + t)[..|s + t| - 1] == s + t0;
      assert (s + t)[|s + t| - 1] == t[|t| - 1];
      WithEngagementAppend(s, t0, k);
    }
  }

  lemma WithEngagementSingle(x: Variation, k: int)
    ensures WithEngagement([x], k) == if x.engagement == k then [x] else []
  {
    assert [x][..0] == [];
  }

  lemma {:induction false} InsertKeepsTies(s: seq<Variation>, x: Variation, k: int)
    ensures WithEngagement(Insert(s, x), k)
            == WithEngagement(s, k) + (if x.engagement == k then [x] else [])
  {
    if s == [] || s[|s| - 1].engagement >= x.engagement {
      assert Insert(s, x) == s + [x];
      WithEngagementAppend(s, [x], k);
      WithEngagementSingle(x, k);
    } else {
      var init, last := s[..|s| - 1], s[|s| - 1];
      assert Insert(s, x) == Insert(init, x) + [last];
      assert WithEngagement(s, k) == WithEngagement(init, k) + (if last.engagement == k then [last] else []);
      InsertKeepsTies(init, x, k);
      WithEngagementAppend(Insert(init, x), [last], k);
      WithEngagementSingle(last, k);
    }
  }

  /** The sort is stable: variations with equal engagement keep their relative order. */
  lemma {:induction false} SortDescStable(s: seq<Variation>, k: int)
    ensures WithEngagement(SortDesc(s), k) == WithEngagement(s, k)
  {
    if s != [] {
      SortDescStable(s[..|s| - 1], k);
      InsertKeepsTies(SortDesc(s[..|s| - 1]), s[|s| - 1], k);
    }
  }

  /** One swap of the inner loop keeps its invariant: `x` moves one place left, past
      a neighbour of strictly smaller engagement. */
  lemma SwapStep(b: seq<Variation>, j: int, i: int, sorted: seq<Variation>, x: Variation)
    requires 0 < j <= i < |b|
    requires b[j] == x && b[j - 1].engagement < x.engagement
    requires b[..j] + b[j + 1..i + 1] == sorted
    requires Insert(sorted, x) == Insert(b[..j], x) + b[j + 1..i + 1]
    ensures var c := b[j - 1 := b[j]][j := b[j - 1]];
            c[j - 1] == x && c[..j - 1] + c[j..i + 1] == sorted
            && Insert(sorted, x) == Insert(c[..j - 1], x) + c[j..i + 1]
            && c[i + 1..] == b[i + 1..]
  {
    var c := b[j - 1 := b[j]][j := b[j - 1]];
    assert c[..j - 1] == b[..j - 1];
    assert c[j..i + 1] == [b[j - 1]] + b[j + 1..i + 1];
    assert b[..j] == b[..j - 1] + [b[j - 1]];
    assert b[..j][..j - 1] == b[..j - 1];
    assert Insert(b[..j], x) == Insert(b[..j - 1], x) + [b[j - 1]];
  }

  /** When the inner loop stops, the prefix up to `i` is the insertion of `x`. */
  lemma InsertStops(b: seq<Variation>, j: int, i: int, sorted: seq<Variation>, x: Variation)
    requires 0 <= j <= i < |b|
    requires b[j] == x && (j == 0 || b[j - 1].engagement >= x.engagement)
    requires b[..j] + b[j + 1..i + 1] == sorted
    requires Insert(sorted, x) == Insert(b[..j], x) + b[j + 1..i + 1]
    ensures b[..i + 1] == Insert(sorted, x)
  {
    assert Insert(b[..j], x) == b[..j] + [x];
    assert b[..i + 1] == b[..j] + [x] + b[j + 1..i + 1];
  }

  /** The outer loop's step: sorting one more element is one more insertion. */
  lemma SortDescStep(s: seq<Variation>, i: int)
    requires 0 <= i < |s|
    ensures SortDesc(s[..i + 1]) == Insert(SortDesc(s[..i]), s[i])
  {
    assert s[..i + 1][..i] == s[..i];
  }

  method Swap(a: array<Variation>, p: int, q: int)
    requires 0 <= p < a.Length && 0 <= q < a.Length
    modifies a
    ensures a[..] == old(a[..])[p := old(a[q])][q := old(a[p])]
  {
    a[p], a[q] := a[q], a[p];
  }

  /** The inner loop: `a[i]` moves left by adjacent swaps while its left neighbour
      has strictly smaller engagement. */
  method InsertInPlace(a: array<Variation>, i: int)
    requires 0 <= i < a.Length
    modifies a
    ensures a[..i + 1] == Insert(old(a[..i]), old(a[i]))
    ensures a[i + 1..] == old(a[i + 1..])
  {
    ghost var sorted := a[..i];
    ghost var x := a[i];
    assert a[..i + 1] == sorted + [x];
    var j := i;
    while j > 0 && a[j - 1].engagement < a[j].engagement
      invariant 0 <= j <= i
      invariant a[j] == x
      invariant a[..j] + a[j + 1..i + 1] == sorted
      invariant Insert(sorted, x) == Insert(a[..j], x) + a[j + 1..i + 1]
      invariant a[i + 1..] == old(a[i + 1..])
    {
      SwapStep(a[..], j, i, sorted, x);
      Swap(a, j - 1, j);
      j := j - 1;
    }
    InsertStops(a[..], j, i, sorted, x);
  }

  /** The in-place sort (`variations.sort(key=..., reverse=True)`): insertion sort,
      one element at a time. */
  method SortVariations(a: array<Variation>)
    modifies a
    ensures a[..] == SortDesc(old(a[..]))
  {
    ghost var orig := a[..];
    var i := 0;
    while i < a.Length
      invariant 0 <= i <= a.Length
      invariant a[..i] == SortDesc(orig[..i])
      invariant a[i..] == orig[i..]
    {
      InsertInPlace(a, i);
      SortDescStep(orig, i);
      i := i + 1;
    }
    assert orig[..a.Length] == orig;
  }

  const Improvements: seq<string> :=
    ["Added engagement hook", "Included call-to-action", "Optimized for algorithm visibility"]

  datatype Rewrite = Rewrite(original: string, recommended: string, variations: seq<Variation>,
                             improvements: seq<string>)

  /** `rewrite_caption`: the variations sorted from the highest predicted engagement
      down, and the recommended text is the first of them. */
  method RewriteCaption(original: string, style: string, hookIndex: nat, e1: int, e2: int, e3: int)
    returns (r: Rewrite)
    requires hookIndex < 3
    ensures r.variations == SortDesc(Variations(original, style, hookIndex, e1, e2, e3))
    ensures |r.variations| == 3 && r.recommended == r.variations[0].text
    ensures SortedDesc(r.variations)
    ensures forall i :: 0 <= i < 3 ==> r.variations[0].engagement >= [e1, e2, e3][i]
    ensures forall i :: 0 <= i < 3 ==> Contains(r.variations[i].text, original)
    ensures r.original == original && r.improvements == Improvements
  {
    var vs := Variations(original, style, hookIndex, e1, e2, e3);
    var a := new Variation[3](i requires 0 <= i < 3 => vs[i]);
    assert a[..] == vs;
    SortVariations(a);
    SortDescSorted(vs);
    SortDescFirstIsBest(vs);
    forall i | 0 <= i < 3 ensures Contains(a[..][i].text, original) {
      SortDescFromInput(vs, i);
    }
    r := Rewrite(original, a[0].text, a[..], Improvements);
  }

  /** The first element of the sorted sequence is one of the inputs, and no input
      has a higher engagement. */
  lemma SortDescFirstIsBest(s: seq<Variation>)
    requires s != []
    ensures SortDesc(s)[0] in s
    ensures forall i :: 0 <= i < |s| ==> SortDesc(s)[0].engagement >= s[i].engagement
  {
    var r := SortDesc(s);
    SortDescSorted(s);
    SortDescPerm(s);
    assert r[0] in multiset(s);
    forall i | 0 <= i < |s| ensures r[0].engagement >= s[i].engagement {
      assert s[i] in multiset(r);
      var k :| 0 <= k < |r| && r[k] == s[i];
    }
  }

  /** Every element of the sorted sequence is one of the inputs. */
  lemma SortDescFromInput(s: seq<Variation>, i: int)
    requires 0 <= i < |s|
    ensures SortDesc(s)[i] in s
  {
    SortDescPerm(s);
    assert SortDesc(s)[i] in multiset(SortDesc(s));
  }
}
