/** The shape of the AT list: the original tasks in order, each immediately preceded by
    its branches fix1..fixk (internal/coding/intervene.go). */
module ChainShape {
  import opened Text
  import opened CodingTypes
  import opened ChainMachine

  function Keys(ats: seq<ATRecord>): (ks: seq<Key>)
    ensures |ks| == |ats|
    ensures forall i :: 0 <= i < |ats| ==> ks[i] == KeyOf(ats[i])
  {
    seq(|ats|, i requires 0 <= i < |ats| => KeyOf(ats[i]))
  }

  function Branches(slug: string, k: nat): (keys: seq<Key>)
    ensures |keys| == k
    ensures forall i :: 0 <= i < k ==> keys[i] == Key(BranchSlug(slug, i + 1), slug, i + 1)
  {
    if k == 0 then [] else Branches(slug, k - 1) + [Key(BranchSlug(slug, k), slug, k)]
  }

  function Group(slug: string, k: nat): seq<Key> { Branches(slug, k) + [Key(slug, "", 0)] }

  /** Task `i` preceded by its `counts[i]` branches, for every task in order. */
  function Layout(slugs: seq<string>, counts: seq<nat>): seq<Key>
    requires |slugs| == |counts|
  {
    if slugs == [] then []
    else Group(slugs[0], counts[0]) + Layout(slugs[1..], counts[1..])
  }

  ghost predicate Shaped(slugs: seq<string>, ats: seq<ATRecord>) {
    exists counts: seq<nat> :: |counts| == |slugs| && Keys(ats) == Layout(slugs, counts)
  }

  function TaskSlugs(tasks: seq<AtomicTask>): (slugs: seq<string>)
    ensures |slugs| == |tasks|
    ensures forall i :: 0 <= i < |tasks| ==> slugs[i] == tasks[i].slug
  {
    seq(|tasks|, i requires 0 <= i < |tasks| => tasks[i].slug)
  }

  // --------------------------------------------------------------- start shape

  lemma {:induction false} LayoutStart(slugs: seq<string>)
    ensures Layout(slugs, seq(|slugs|, _ => 0)) == seq(|slugs|, i requires 0 <= i < |slugs| => Key(slugs[i], "", 0))
  {
    if slugs != [] {
      LayoutStart(slugs[1..]);
      assert seq(|slugs|, _ => 0)[1..] == seq(|slugs[1..]|, _ => 0);
    }
  }

  // ------------------------------------------------------------- branching

  function ParentCount(keys: seq<Key>, parent: string): nat {
    if keys == [] then 0
    else (if keys[0].parent == parent then 1 else 0) + ParentCount(keys[1..], parent)
  }

  lemma {:induction false} BranchCount(ats: seq<ATRecord>, target: string)
    ensures |BranchSlugs(ats, target)| == ParentCount(Keys(ats), target)
  {
    if ats != [] {
      BranchCount(ats[1..], target);
      assert Keys(ats)[1..] == Keys(ats[1..]);
    }
  }

  lemma {:induction false} ParentCountConcat(a: seq<Key>, b: seq<Key>, parent: string)
    ensures ParentCount(a + b, parent) == ParentCount(a, parent) + ParentCount(b, parent)
  {
    if a == [] {
      assert a + b == b;
    } else {
      ParentCountConcat(a[1..], b, parent);
      assert (a + b)[1..] == a[1..] + b;
    }
  }

  lemma {:induction false} GroupCount(slug: string, k: nat, parent: string)
    requires parent != ""
    ensures ParentCount(Group(slug, k), parent) == if parent == slug then k else 0
  {
    var last := [Key(slug, "", 0)];
    assert ParentCount(last, parent) == 0 by { assert last[1..] == []; }
    ParentCountConcat(Branches(slug, k), last, parent);
    BranchesCount(slug, k, parent);
  }

  lemma {:induction false} BranchesCount(slug: string, k: nat, parent: string)
    ensures ParentCount(Branches(slug, k), parent) == if parent == slug then k else 0
  {
    if k > 0 {
      var last := [Key(BranchSlug(slug, k), slug, k)];
      BranchesCount(slug, k - 1, parent);
      ParentCountConcat(Branches(slug, k - 1), last, parent);
      assert last[1..] == [];
    }
  }

  lemma {:induction false} LayoutCount(slugs: seq<string>, counts: seq<nat>, i: nat)
    requires |slugs| == |counts| && Distinct(slugs) && i < |slugs| && slugs[i] != ""
    ensures ParentCount(Layout(slugs, counts), slugs[i]) == counts[i]
  {
    var rest := Layout(slugs[1..], counts[1..]);
    ParentCountConcat(Group(slugs[0], counts[0]), rest, slugs[i]);
    GroupCount(slugs[0], counts[0], slugs[i]);
    if i == 0 {
      LayoutNone(slugs[1..], counts[1..], slugs[0]);
    } else {
      LayoutCount(slugs[1..], counts[1..], i - 1);
    }
  }

  lemma {:induction false} LayoutNone(slugs: seq<string>, counts: seq<nat>, x: string)
    requires |slugs| == |counts| && x !in slugs && x != ""
    ensures ParentCount(Layout(slugs, counts), x) == 0
  {
    if slugs != [] {
      ParentCountConcat(Group(slugs[0], counts[0]), Layout(slugs[1..], counts[1..]), x);
      GroupCount(slugs[0], counts[0], x);
      LayoutNone(slugs[1..], counts[1..], x);
    }
  }

  lemma {:induction false} InsertLeft<T>(a: seq<T>, b: seq<T>, t: nat, x: T)
    requires t <= |a|
    ensures InsertAt(a, t, x) + b == InsertAt(a + b, t, x)
  {
    assert (a + b)[..t] == a[..t] && (a + b)[t..] == a[t..] + b;
  }

  lemma {:induction false} InsertRight<T>(a: seq<T>, b: seq<T>, t: nat, x: T)
    requires t <= |b|
    ensures a + InsertAt(b, t, x) == InsertAt(a + b, |a| + t, x)
  {
    assert (a + b)[..|a| + t] == a + b[..t] && (a + b)[|a| + t..] == b[t..];
  }

  lemma {:induction false} GroupInsert(slug: string, k: nat)
    ensures Group(slug, k + 1) == InsertAt(Group(slug, k), k, Key(BranchSlug(slug, k + 1), slug, k + 1))
  {}

  function NextBranch(slug: string, count: nat): Key {
    Key(BranchSlug(slug, count + 1), slug, count + 1)
  }

  /** Index `t` holds task `i` itself, and one more branch of it goes right there. */
  ghost predicate BranchesAt(slugs: seq<string>, counts: seq<nat>, t: nat, i: nat) {
    && |slugs| == |counts| && i < |slugs| && t < |Layout(slugs, counts)|
    && slugs[i] == Layout(slugs, counts)[t].slug
    && Layout(slugs, counts[i := counts[i] + 1]) ==
       InsertAt(Layout(slugs, counts), t, NextBranch(slugs[i], counts[i]))
  }

  lemma {:induction false} BranchesHere(slugs: seq<string>, counts: seq<nat>)
    requires |slugs| == |counts| > 0
    ensures BranchesAt(slugs, counts, counts[0], 0)
  {
    var k, rest := counts[0], Layout(slugs[1..], counts[1..]);
    var g, x := Group(slugs[0], k), NextBranch(slugs[0], k);
    GroupInsert(slugs[0], k);
    InsertLeft(g, rest, k, x);
    assert counts[0 := k + 1][1..] == counts[1..];
  }

  lemma {:induction false} LayoutSplit(slugs: seq<string>, counts: seq<nat>)
    requires |slugs| == |counts| > 0
    ensures Layout(slugs, counts) == Group(slugs[0], counts[0]) + Layout(slugs[1..], counts[1..])
  {}

  lemma {:induction false} LayoutLater(slugs: seq<string>, counts: seq<nat>, counts': seq<nat>, t: nat, x: Key)
    requires |slugs| == |counts| == |counts'| > 0 && counts'[0] == counts[0]
    requires t < |Layout(slugs[1..], counts[1..])|
    requires Layout(slugs[1..], counts'[1..]) == InsertAt(Layout(slugs[1..], counts[1..]), t, x)
    ensures var at := |Group(slugs[0], counts[0])| + t;
      && at < |Layout(slugs, counts)| && Layout(slugs, counts)[at] == Layout(slugs[1..], counts[1..])[t]
      && Layout(slugs, counts') == InsertAt(Layout(slugs, counts), at, x)
  {
    GroupBefore(Group(slugs[0], counts[0]), Layout(slugs[1..], counts[1..]), Layout(slugs[1..], counts'[1..]), t, x);
  }

  lemma {:induction false} BranchesLater(slugs: seq<string>, counts: seq<nat>, t: nat, i: nat)
    requires |slugs| == |counts| > 0 && BranchesAt(slugs[1..], counts[1..], t, i)
    ensures BranchesAt(slugs, counts, |Group(slugs[0], counts[0])| + t, i + 1)
  {
    CountsTail(counts, i, counts[i + 1] + 1);
    LayoutLater(slugs, counts, counts[i + 1 := counts[i + 1] + 1], t, NextBranch(slugs[i + 1], counts[i + 1]));
  }

  lemma {:induction false} CountsTail(counts: seq<nat>, i: nat, n: nat)
    requires i + 1 < |counts|
    ensures counts[i + 1 := n][1..] == counts[1..][i := n] && counts[i + 1 := n][0] == counts[0]
  {}

  lemma {:induction false} GroupBefore(g: seq<Key>, rest: seq<Key>, rest': seq<Key>, t: nat, x: Key)
    requires t < |rest| && rest' == InsertAt(rest, t, x)
    ensures g + rest' == InsertAt(g + rest, |g| + t, x) && (g + rest)[|g| + t] == rest[t]
  {
    InsertRight(g, rest, t, x);
  }

  lemma {:induction false} GroupOriginal(slug: string, k: nat, t: nat)
    requires t < |Group(slug, k)| && Group(slug, k)[t].index == 0
    ensures t == k
  {}

  /** The task an original key belongs to, and what one more branch in front of it
      does to the layout. */
  lemma {:induction false} LayoutInsert(slugs: seq<string>, counts: seq<nat>, t: nat) returns (i: nat)
    requires |slugs| == |counts| && t < |Layout(slugs, counts)|
    requires Layout(slugs, counts)[t].index == 0
    ensures BranchesAt(slugs, counts, t, i)
  {
    var g, rest := Group(slugs[0], counts[0]), Layout(slugs[1..], counts[1..]);
    LayoutSplit(slugs, counts);
    if t < |g| {
      GroupOriginal(slugs[0], counts[0], t);
      BranchesHere(slugs, counts);
      i := 0;
    } else {
      assert rest[t - |g|] == (g + rest)[t];
      var j := LayoutInsert(slugs[1..], counts[1..], t - |g|);
      BranchesLater(slugs, counts, t - |g|, j);
      i := j + 1;
    }
  }

  // --------------------------------------------------------------- distinctness

  /** No task is named like a branch of another. */
  ghost predicate NoCollision(slugs: seq<string>) {
    forall i, j, n: nat :: 0 <= i < |slugs| && 0 <= j < |slugs| && n >= 1 ==>
      slugs[i] != BranchSlug(slugs[j], n)
  }

  /** A branch slug determines its target and its index. */
  lemma {:induction false} BranchSlugInjective(a: string, m: nat, b: string, n: nat)
    requires BranchSlug(a, m) == BranchSlug(b, n)
    ensures a == b && m == n
  {
    var s, p, q := BranchSlug(a, m), Decimal(m), Decimal(n);
    DashAt(a, m);
    DashAt(b, n);
    assert |a| == |b|;
    assert s[..|a|] == a && s[..|b|] == b;
    assert s[|a| + 4..] == p && s[|b| + 4..] == q;
    DecimalRoundTrip(m);
    DecimalRoundTrip(n);
  }

  /** The last dash of a branch slug is the one of "-fix". */
  lemma {:induction false} DashAt(a: string, n: nat)
    ensures BranchSlug(a, n)[|a|] == '-'
    ensures forall i :: |a| < i < |BranchSlug(a, n)| ==> BranchSlug(a, n)[i] != '-'
  {
    var s, p := BranchSlug(a, n), Decimal(n);
    assert s == a + ("-fix" + p);
    forall i | |a| < i < |s| ensures s[i] != '-' {
      if i >= |a| + 4 { assert s[i] == p[i - |a| - 4]; }
    }
  }

  function Owner(k: Key): string { if k.index == 0 then k.slug else k.parent }

  /** A key is an original or a named branch of its owner. */
  predicate Proper(k: Key) {
    if k.index == 0 then k.parent == "" else k.slug == BranchSlug(k.parent, k.index)
  }

  lemma {:induction false} LayoutProper(slugs: seq<string>, counts: seq<nat>, i: nat)
    requires |slugs| == |counts| && i < |Layout(slugs, counts)|
    ensures Proper(Layout(slugs, counts)[i]) && Owner(Layout(slugs, counts)[i]) in slugs
  {
    var g := Group(slugs[0], counts[0]);
    if i >= |g| {
      LayoutProper(slugs[1..], counts[1..], i - |g|);
      assert Layout(slugs, counts)[i] == Layout(slugs[1..], counts[1..])[i - |g|];
    } else {
      assert Layout(slugs, counts)[i] == g[i];
      assert Owner(g[i]) == slugs[0];
    }
  }

  lemma {:induction false} LayoutKeysDistinct(slugs: seq<string>, counts: seq<nat>, i: nat, j: nat)
    requires |slugs| == |counts| && Distinct(slugs) && i < j < |Layout(slugs, counts)|
    ensures Layout(slugs, counts)[i] != Layout(slugs, counts)[j]
  {
    var g, rest := Group(slugs[0], counts[0]), Layout(slugs[1..], counts[1..]);
    var l := Layout(slugs, counts);
    if i >= |g| {
      LayoutKeysDistinct(slugs[1..], counts[1..], i - |g|, j - |g|);
      assert l[i] == rest[i - |g|] && l[j] == rest[j - |g|];
    } else if j >= |g| {
      LayoutProper(slugs[1..], counts[1..], j - |g|);
      assert l[i] == g[i] && l[j] == rest[j - |g|];
      assert Owner(g[i]) == slugs[0];
    } else {
      assert l[i] == g[i] && l[j] == g[j];
    }
  }

  /** With no colliding task names, all slugs of a shaped list are distinct. */
  lemma {:induction false} ShapedDistinct(slugs: seq<string>, ats: seq<ATRecord>)
    requires Distinct(slugs) && NoCollision(slugs) && Shaped(slugs, ats)
    ensures Distinct(Slugs(ats))
  {
    var counts: seq<nat> :| |counts| == |slugs| && Keys(ats) == Layout(slugs, counts);
    forall i, j | 0 <= i < j < |ats| ensures Slugs(ats)[i] != Slugs(ats)[j] {
      LayoutKeysDistinct(slugs, counts, i, j);
      LayoutProper(slugs, counts, i);
      LayoutProper(slugs, counts, j);
      var a, b := KeyOf(ats[i]), KeyOf(ats[j]);
      assert a == Keys(ats)[i] && b == Keys(ats)[j];
      if a.slug == b.slug { KeysBySlug(slugs, a, b); }
    }
  }

  lemma {:induction false} KeysBySlug(slugs: seq<string>, a: Key, b: Key)
    requires NoCollision(slugs) && Proper(a) && Proper(b) && a.slug == b.slug
    requires Owner(a) in slugs && Owner(b) in slugs
    ensures a == b
  {
    if a.index > 0 && b.index > 0 {
      BranchSlugInjective(a.parent, a.index, b.parent, b.index);
    } else if a.index > 0 {
      Collides(slugs, b.slug, a.parent, a.index);
    } else if b.index > 0 {
      Collides(slugs, a.slug, b.parent, b.index);
    }
  }

  lemma {:induction false} Collides(slugs: seq<string>, x: string, y: string, n: nat)
    requires NoCollision(slugs) && x in slugs && y in slugs && n >= 1
    ensures x != BranchSlug(y, n)
  {
    var i :| 0 <= i < |slugs| && slugs[i] == x;
    var j :| 0 <= j < |slugs| && slugs[j] == y;
    assert slugs[i] != BranchSlug(slugs[j], n);
  }

  /** A shaped list has its tasks plus their branches, no more. */
  lemma {:induction false} LayoutSize(slugs: seq<string>, counts: seq<nat>, b: nat)
    requires |slugs| == |counts| && forall i :: 0 <= i < |counts| ==> counts[i] <= b
    ensures |Layout(slugs, counts)| <= |slugs| * (1 + b)
  {
    if slugs != [] {
      LayoutSize(slugs[1..], counts[1..], b);
      assert |slugs| * (1 + b) == (1 + b) + |slugs[1..]| * (1 + b);
    }
  }
}
