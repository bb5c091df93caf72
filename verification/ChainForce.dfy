/** What force_advance reopens (internal/coding/intervene.go). */
module ChainForce {
  import opened CodingTypes
  import opened ChainMachine
  import opened ChainShape
  import opened ChainStanding
  import opened ChainTheorems
  import opened ChainEffort

  // --------------------------------------------- older branches lie behind

  /** A branch that a later branch of the same target has superseded. */
  predicate Older(keys: seq<Key>, i: nat)
    requires i < |keys|
  {
    0 < keys[i].index < ParentCount(keys, keys[i].parent)
  }

  ghost predicate OlderBehind(keys: seq<Key>, position: int) {
    forall i :: 0 <= i < |keys| && Older(keys, i) ==> i < position
  }

  lemma {:induction false} PositionStep(m: Machine, cap: nat, step: Step)
    requires !step.BranchFix?
    ensures Apply(m, cap, step).run.position >= m.run.position
  {}

  /** A branch stands before its target. */
  lemma {:induction false} BranchBeforeTarget(slugs: seq<string>, counts: seq<nat>, p: nat, t: nat)
    requires |slugs| == |counts| && Named(slugs)
    requires p < |Layout(slugs, counts)| && t < |Layout(slugs, counts)|
    requires Layout(slugs, counts)[t].index == 0
    requires Layout(slugs, counts)[p].parent == Layout(slugs, counts)[t].slug
    ensures p < t && Layout(slugs, counts)[p].index > 0
  {
    var l, g, rest := Layout(slugs, counts), Group(slugs[0], counts[0]), Layout(slugs[1..], counts[1..]);
    LayoutProper(slugs, counts, p);
    LayoutProper(slugs, counts, t);
    assert t < |g| ==> l[t] == g[t];
    if p >= |g| {
      assert l[p] == rest[p - |g|];
      LayoutProper(slugs[1..], counts[1..], p - |g|);
      if t >= |g| {
        assert l[t] == rest[t - |g|];
        BranchBeforeTarget(slugs[1..], counts[1..], p - |g|, t - |g|);
      }
    } else {
      assert l[p] == g[p];
      if t < |g| { assert l[t] == g[t] && t == counts[0]; }
    }
  }

  lemma {:induction false} OlderInserted(slugs: seq<string>, ats: seq<ATRecord>, t: nat, k: Key, position: int, j: nat)
    requires Named(slugs) && Shaped(slugs, ats) && t < |ats| && ats[t].branchIndex == 0
    requires k == NextBranch(ats[t].slug, ParentCount(Keys(ats), ats[t].slug))
    requires OlderBehind(Keys(ats), position) && position <= t + 1
    requires j <= |ats| && Older(InsertAt(Keys(ats), t, k), j)
    ensures j < t
  {
    var keys := Keys(ats);
    assert keys[t] == KeyOf(ats[t]);
    NewestInserted(keys, t, ats[t].slug);
    if j > t {
      assert InsertAt(keys, t, k)[j] == keys[j - 1];
      if keys[j - 1].parent == keys[t].slug {
        TargetBehind(slugs, ats, t, j - 1);
      } else {
        OlderKept(keys, t, k, j);
      }
    }
  }

  lemma {:induction false} NewestInserted(keys: seq<Key>, t: nat, slug: string)
    requires t <= |keys|
    ensures !Older(InsertAt(keys, t, NextBranch(slug, ParentCount(keys, slug))), t)
  {
    ParentCountInsert(keys, t, NextBranch(slug, ParentCount(keys, slug)), slug);
  }

  lemma {:induction false} TargetBehind(slugs: seq<string>, ats: seq<ATRecord>, t: nat, j: nat)
    requires Named(slugs) && Shaped(slugs, ats) && t < |ats| && j < |ats|
    requires ats[t].branchIndex == 0 && ats[j].parentSlug == ats[t].slug
    ensures j < t
  {
    var counts: seq<nat> :| |counts| == |slugs| && Keys(ats) == Layout(slugs, counts);
    assert Keys(ats)[t] == KeyOf(ats[t]) && Keys(ats)[j] == KeyOf(ats[j]);
    BranchBeforeTarget(slugs, counts, j, t);
  }

  lemma {:induction false} OlderKept(keys: seq<Key>, t: nat, k: Key, j: nat)
    requires t < j <= |keys| && keys[j - 1].parent != k.parent && Older(InsertAt(keys, t, k), j)
    ensures Older(keys, j - 1)
  {
    assert InsertAt(keys, t, k)[j] == keys[j - 1];
    ParentCountInsert(keys, t, k, keys[j - 1].parent);
  }

  lemma {:induction false} OlderBranch(s: RunState, slugs: seq<string>, target: string, maxBranches: int, goal: string)
    requires Named(slugs) && Shaped(slugs, s.ats) && BranchAllowed(s, target, maxBranches)
    requires OlderBehind(Keys(s.ats), s.position)
    ensures var t := TargetIndex(s.ats, target); OlderBehind(Keys(BranchedATs(s, target, t, goal)), t)
  {
    var t := TargetIndex(s.ats, target);
    var sup, br := Supersede(s, target, t), NewBranch(s, target, t, goal);
    SupersededKeys(s, target, t);
    KeysInsert(sup, t, br);
    BranchCount(s.ats, target);
    assert s.position <= t + 1 by { TargetNear(s, slugs, target, maxBranches); }
    forall j | 0 <= j <= |s.ats| && Older(InsertAt(Keys(s.ats), t, KeyOf(br)), j) ensures j < t {
      OlderInserted(slugs, s.ats, t, KeyOf(br), s.position, j);
    }
  }

  lemma {:induction false} TargetNear(s: RunState, slugs: seq<string>, target: string, maxBranches: int)
    requires Named(slugs) && Shaped(slugs, s.ats) && BranchAllowed(s, target, maxBranches)
    ensures s.position <= TargetIndex(s.ats, target) + 1
  {
    var t := TargetIndex(s.ats, target);
    if HasCurrent(s) && Current(s).parentSlug == target { TargetBehind(slugs, s.ats, t, s.position); }
  }

  lemma {:induction false} OlderStep(m: Machine, slugs: seq<string>, cap: nat, step: Step)
    requires Standing(m, slugs) && Named(slugs) && OlderBehind(Keys(m.run.ats), m.run.position)
    ensures OlderBehind(Keys(Apply(m, cap, step).run.ats), Apply(m, cap, step).run.position)
  {
    if step.BranchFix? {
      if Staging(m) && BranchAllowed(m.run, step.target, step.maxBranches) {
        OlderBranch(m.run, slugs, step.target, step.maxBranches, step.goal);
      }
    } else {
      KeysStep(m, cap, step);
      PositionStep(m, cap, step);
    }
  }

  lemma {:induction false} OlderAfter(c: Chain, steps: seq<Step>)
    requires c.Valid()
    ensures OlderBehind(Keys(c.After(steps).run.ats), c.After(steps).run.position)
  {
    if steps == [] {
      assert forall i :: 0 <= i < |c.tasks| ==> Keys(c.After(steps).run.ats)[i].index == 0;
    } else {
      var before := steps[..|steps| - 1];
      OlderAfter(c, before);
      AfterStanding(c, before);
      OlderStep(c.After(before), TaskSlugs(c.tasks), c.cap, steps[|steps| - 1]);
    }
  }

  // -------------------------------------------- right behind the newest branch

  lemma {:induction false} NewestThenTarget(slugs: seq<string>, counts: seq<nat>, p: nat)
    requires |slugs| == |counts| && Named(slugs) && p < |Layout(slugs, counts)|
    requires Layout(slugs, counts)[p].index > 0 && !Older(Layout(slugs, counts), p)
    ensures p + 1 < |Layout(slugs, counts)|
    ensures Layout(slugs, counts)[p + 1] == Key(Layout(slugs, counts)[p].parent, "", 0)
  {
    var l, g, rest := Layout(slugs, counts), Group(slugs[0], counts[0]), Layout(slugs[1..], counts[1..]);
    var parent := l[p].parent;
    LayoutProper(slugs, counts, p);
    if p < |g| {
      assert l[p] == g[p] && parent == slugs[0];
      LayoutCount(slugs, counts, 0);
      assert l[p + 1] == g[p + 1];
    } else {
      assert l[p] == rest[p - |g|];
      LayoutProper(slugs[1..], counts[1..], p - |g|);
      ParentCountConcat(g, rest, parent);
      GroupCount(slugs[0], counts[0], parent);
      NewestThenTarget(slugs[1..], counts[1..], p - |g|);
      assert l[p + 1] == rest[p + 1 - |g|];
    }
  }

  // ------------------------------------------------------------ force_advance

  /** The step turns a resolved record open. */
  predicate Reopens(m: Machine, m': Machine, i: nat) {
    i < |m.run.ats| && i < |m'.run.ats| && m.run.ats[i].Resolved() && !m'.run.ats[i].Resolved()
  }

  lemma {:induction false} ForceEffect(m: Machine, m': Machine, cap: nat, force: Step)
    requires force.ForceAdvance? && m' == Apply(m, cap, force)
    requires ForceAllowed(m, force.sha, force.justification, force.refused)
    ensures var p := m.run.position;
      && m'.run.position == p + 1 && |m'.run.ats| == |m.run.ats|
      && m'.run.ats[p] == Forced(Current(m.run), force.sha, force.justification)
      && (p + 1 < |m.run.ats| ==> m'.run.ats[p + 1] == m.run.ats[p + 1].Reset())
      && forall i :: 0 <= i < |m.run.ats| && i != p && i != p + 1 ==> m'.run.ats[i] == m.run.ats[i]
  {}

  /** An accepted force_advance reopens a resolved record exactly when the one right
      behind the current one is resolved, and then that one. */
  lemma {:induction false} ForceReopensExactly(m: Machine, m': Machine, cap: nat, force: Step, i: nat)
    requires force.ForceAdvance? && m' == Apply(m, cap, force)
    requires ForceAllowed(m, force.sha, force.justification, force.refused)
    ensures Reopens(m, m', i) <==> i == m.run.position + 1 < |m.run.ats| && m.run.ats[i].Resolved()
  {
    ForceEffect(m, m', cap, force);
  }

  /** Whenever a run stands at a branch and the branch is forced, the record reset behind
      it is the target the branch was to replace: a skipped target is open again. */
  lemma {:induction false} ForceReopensTarget(c: Chain, steps: seq<Step>, force: Step)
    requires c.Valid() && force.ForceAdvance?
    ensures var m, m' := c.After(steps), c.After(steps + [force]);
      var p := m.run.position;
      ForceAllowed(m, force.sha, force.justification, force.refused) && Current(m.run).branchIndex > 0 ==>
        && p + 1 < |m.run.ats| && KeyOf(m.run.ats[p + 1]) == Key(Current(m.run).parentSlug, "", 0)
        && (Reopens(m, m', p + 1) <==> m.run.ats[p + 1].Resolved())
  {
    var m, slugs := c.After(steps), TaskSlugs(c.tasks);
    var p := m.run.position;
    assert (steps + [force])[..|steps|] == steps;
    if ForceAllowed(m, force.sha, force.justification, force.refused) && Current(m.run).branchIndex > 0 {
      AfterStanding(c, steps);
      OlderAfter(c, steps);
      var counts: seq<nat> :| |counts| == |slugs| && Keys(m.run.ats) == Layout(slugs, counts);
      assert Keys(m.run.ats)[p] == KeyOf(Current(m.run));
      NewestThenTarget(slugs, counts, p);
      assert Keys(m.run.ats)[p + 1] == KeyOf(m.run.ats[p + 1]);
      ForceReopensExactly(m, c.After(steps + [force]), c.cap, force, p + 1);
    }
  }
}
