/** How much work all resumes and interventions of a run can cause together
    (the per-duty respawn cap of internal/coding/orchestrator.go). */
module ChainEffort {
  import opened CodingTypes
  import opened WorkerGate
  import opened ChainMachine
  import opened ChainShape
  import opened ChainStanding
  import opened ChainTheorems

  function Respawns(ats: seq<ATRecord>): nat {
    if ats == [] then 0 else ats[0].respawns + Respawns(ats[1..])
  }

  lemma {:induction false} RespawnsConcat(a: seq<ATRecord>, b: seq<ATRecord>)
    ensures Respawns(a + b) == Respawns(a) + Respawns(b)
  {
    if a == [] {
      assert a + b == b;
    } else {
      RespawnsConcat(a[1..], b);
      assert (a + b)[1..] == a[1..] + b;
    }
  }

  lemma {:induction false} RespawnsUpdate(ats: seq<ATRecord>, i: nat, r: ATRecord)
    requires i < |ats|
    ensures Respawns(ats[i := r]) == Respawns(ats) - ats[i].respawns + r.respawns
  {
    RespawnsConcat(ats[..i], ats[i..]);
    RespawnsConcat(ats[..i], [r] + ats[i + 1..]);
    assert ats == ats[..i] + ats[i..] && ats[i..][1..] == ats[i + 1..];
    assert ats[i := r] == ats[..i] + ([r] + ats[i + 1..]);
    assert ([r] + ats[i + 1..])[1..] == ats[i + 1..];
  }

  lemma {:induction false} RespawnsSame(a: seq<ATRecord>, b: seq<ATRecord>)
    requires |a| == |b| && forall i :: 0 <= i < |a| ==> a[i].respawns == b[i].respawns
    ensures Respawns(a) == Respawns(b)
  {
    if a != [] { RespawnsSame(a[1..], b[1..]); }
  }

  lemma {:induction false} RespawnsInsert(ats: seq<ATRecord>, t: nat, r: ATRecord)
    requires t <= |ats|
    ensures Respawns(Renumber(InsertAt(ats, t, r))) == Respawns(ats) + r.respawns
  {
    RespawnsSame(Renumber(InsertAt(ats, t, r)), InsertAt(ats, t, r));
    RespawnsConcat(ats[..t], ats[t..]);
    assert ats == ats[..t] + ats[t..];
    RespawnsConcat(ats[..t] + [r], ats[t..]);
    RespawnsConcat(ats[..t], [r]);
    assert [r][1..] == [];
  }

  /** Every entry into the worker loop is counted on exactly one record, within the
      cap, and buys at most `ceiling` attempts. */
  ghost predicate Accounted(m: Machine, cap: nat, ceiling: nat) {
    Balanced(m.run.ats, m.entries, m.attempts, cap, ceiling)
  }

  ghost predicate Balanced(ats: seq<ATRecord>, entries: nat, attempts: nat, cap: nat, ceiling: nat) {
    && entries == Respawns(ats)
    && attempts <= entries * ceiling
    && forall i :: 0 <= i < |ats| ==> Capped(ats[i], cap, ceiling)
  }

  predicate Capped(r: ATRecord, cap: nat, ceiling: nat) {
    (cap > 0 ==> r.respawns <= cap) && AttemptBudget(r.spec) <= ceiling
  }

  /** One record replaced, entered or not. */
  lemma {:induction false} BalancedPut(ats: seq<ATRecord>, entries: nat, attempts: nat, cap: nat, ceiling: nat,
                                       i: nat, r: ATRecord, entered: bool, spent: nat)
    requires Balanced(ats, entries, attempts, cap, ceiling) && i < |ats|
    requires r.respawns == ats[i].respawns + (if entered then 1 else 0)
    requires entered ==> cap == 0 || ats[i].respawns < cap
    requires AttemptBudget(r.spec) == AttemptBudget(ats[i].spec)
    requires spent <= if entered then AttemptBudget(ats[i].spec) else 0
    ensures Balanced(ats[i := r], entries + (if entered then 1 else 0), attempts + spent, cap, ceiling)
  {
    RespawnsUpdate(ats, i, r);
    assert Capped(ats[i], cap, ceiling);
    if entered { assert (entries + 1) * ceiling == entries * ceiling + ceiling; }
  }

  lemma {:induction false} AccountedPut(m: Machine, cap: nat, ceiling: nat, i: nat, r: ATRecord)
    requires Accounted(m, cap, ceiling) && i < |m.run.ats|
    requires r.respawns == m.run.ats[i].respawns && AttemptBudget(r.spec) == AttemptBudget(m.run.ats[i].spec)
    ensures Accounted(PutAT(m, i, r), cap, ceiling)
  {
    BalancedPut(m.run.ats, m.entries, m.attempts, cap, ceiling, i, r, false, 0);
  }

  lemma {:induction false} AccountedPerform(m: Machine, cap: nat, ceiling: nat, input: RunInput)
    requires Accounted(m, cap, ceiling) && HasCurrent(m.run)
    ensures Accounted(PerformStep(m, cap, input), cap, ceiling)
  {
    var e := Execute(Current(m.run), m.repo, cap, input);
    ExecuteSound(Current(m.run), m.repo, cap, input);
    BalancedPut(m.run.ats, m.entries, m.attempts, cap, ceiling, m.run.position, e.record, e.entered, e.attempts);
  }

  /** A fresh record inserted among records that spent what they spent before. */
  lemma {:induction false} BalancedInsert(ats: seq<ATRecord>, entries: nat, attempts: nat, cap: nat, ceiling: nat,
                                          sup: seq<ATRecord>, t: nat, br: ATRecord)
    requires Balanced(ats, entries, attempts, cap, ceiling) && |sup| == |ats| && t < |ats|
    requires forall i :: 0 <= i < |ats| ==> sup[i].respawns == ats[i].respawns && sup[i].spec == ats[i].spec
    requires br.respawns == 0 && AttemptBudget(br.spec) == AttemptBudget(ats[t].spec)
    ensures Balanced(Renumber(InsertAt(sup, t, br)), entries, attempts, cap, ceiling)
  {
    RespawnsSame(sup, ats);
    RespawnsInsert(sup, t, br);
    var live := Renumber(InsertAt(sup, t, br));
    assert Capped(ats[t], cap, ceiling);
    forall i | 0 <= i < |live| ensures Capped(live[i], cap, ceiling) {
      if i != t {
        var k := if i < t then i else i - 1;
        assert live[i] == sup[k].(position := i) && Capped(ats[k], cap, ceiling);
      }
    }
  }

  lemma {:induction false} AccountedBranch(m: Machine, cap: nat, ceiling: nat, target: string, goal: string,
                                           rewound: bool)
    requires Accounted(m, cap, ceiling) && TargetIndex(m.run.ats, target) < |m.run.ats|
    ensures Accounted(BranchFixStep(m, target, goal, rewound), cap, ceiling)
  {
    var s, t := m.run, TargetIndex(m.run.ats, target);
    BalancedInsert(s.ats, m.entries, m.attempts, cap, ceiling, Supersede(s, target, t), t,
                   NewBranch(s, target, t, goal));
  }

  lemma {:induction false} AccountedForce(m: Machine, cap: nat, ceiling: nat, sha: Sha, justification: string)
    requires Accounted(m, cap, ceiling) && HasCurrent(m.run)
    ensures Accounted(ForceAdvanceStep(m, sha, justification), cap, ceiling)
  {
    var p := m.run.position;
    var m1 := PutAT(m, p, Forced(Current(m.run), sha, justification));
    AccountedPut(m, cap, ceiling, p, Forced(Current(m.run), sha, justification));
    if p + 1 < |m1.run.ats| { AccountedPut(m1, cap, ceiling, p + 1, m1.run.ats[p + 1].Reset()); }
  }

  lemma {:induction false} AccountedStep(m: Machine, cap: nat, ceiling: nat, step: Step)
    requires Accounted(m, cap, ceiling)
    ensures Accounted(Apply(m, cap, step), cap, ceiling)
  {
    var p := m.run.position;
    if HasCurrent(m.run) {
      var r := Current(m.run);
      match step {
        case Look(_) => AccountedPut(m, cap, ceiling, p, r.(status := ATRunning));
        case Perform(input) => AccountedPerform(m, cap, ceiling, input);
        case Retry => AccountedPut(m, cap, ceiling, p, r.Reset());
        case Skip => AccountedPut(m, cap, ceiling, p, r.(status := ATSkipped));
        case Edit(goal, workspace) => AccountedPut(m, cap, ceiling, p, Edited(r, goal, workspace));
        case ForceAdvance(sha, justification, _) => AccountedForce(m, cap, ceiling, sha, justification);
        case _ =>
      }
    }
    if step.BranchFix? && BranchAllowed(m.run, step.target, step.maxBranches) {
      AccountedBranch(m, cap, ceiling, step.target, step.goal, step.rewound);
    }
  }

  // ------------------------------------------------- how long the list can get

  /** Every branch_fix in the run asks for at most `b` branches per target. */
  predicate BranchesWithin(steps: seq<Step>, b: nat) {
    forall i :: 0 <= i < |steps| && steps[i].BranchFix? ==> BranchLimit(steps[i].maxBranches) <= b
  }

  ghost predicate Within(ats: seq<ATRecord>, slugs: seq<string>, b: nat) {
    forall i :: 0 <= i < |slugs| ==> ParentCount(Keys(ats), slugs[i]) <= b
  }

  lemma {:induction false} ParentCountInsert(keys: seq<Key>, t: nat, k: Key, parent: string)
    requires t <= |keys|
    ensures ParentCount(InsertAt(keys, t, k), parent) ==
            ParentCount(keys, parent) + if k.parent == parent then 1 else 0
  {
    ParentCountConcat(keys[..t], keys[t..], parent);
    assert keys == keys[..t] + keys[t..];
    ParentCountConcat(keys[..t] + [k], keys[t..], parent);
    ParentCountConcat(keys[..t], [k], parent);
    assert [k][1..] == [];
  }

  lemma {:induction false} WithinBranch(s: RunState, slugs: seq<string>, b: nat, target: string, maxBranches: int,
                                        goal: string)
    requires Within(s.ats, slugs, b) && BranchAllowed(s, target, maxBranches) && BranchLimit(maxBranches) <= b
    ensures Within(BranchedATs(s, target, TargetIndex(s.ats, target), goal), slugs, b)
  {
    var t := TargetIndex(s.ats, target);
    var sup, br := Supersede(s, target, t), NewBranch(s, target, t, goal);
    SupersededKeys(s, target, t);
    KeysInsert(sup, t, br);
    BranchCount(s.ats, target);
    forall i | 0 <= i < |slugs|
      ensures ParentCount(InsertAt(Keys(s.ats), t, KeyOf(br)), slugs[i]) <= b
    {
      ParentCountInsert(Keys(s.ats), t, KeyOf(br), slugs[i]);
    }
  }

  lemma {:induction false} WithinStep(m: Machine, slugs: seq<string>, b: nat, cap: nat, step: Step)
    requires Within(m.run.ats, slugs, b)
    requires step.BranchFix? ==> BranchLimit(step.maxBranches) <= b
    ensures Within(Apply(m, cap, step).run.ats, slugs, b)
  {
    if step.BranchFix? {
      if BranchAllowed(m.run, step.target, step.maxBranches) {
        WithinBranch(m.run, slugs, b, step.target, step.maxBranches, step.goal);
      }
    } else {
      KeysStep(m, cap, step);
    }
  }

  // ------------------------------------------------------------- the theorem

  lemma {:induction false} AccountedAfter(c: Chain, steps: seq<Step>, ceiling: nat, b: nat)
    requires c.Valid() && BranchesWithin(steps, b)
    requires forall i :: 0 <= i < |c.tasks| ==> AttemptBudget(c.tasks[i]) <= ceiling
    ensures Accounted(c.After(steps), c.cap, ceiling)
    ensures Within(c.After(steps).run.ats, TaskSlugs(c.tasks), b)
  {
    var slugs := TaskSlugs(c.tasks);
    if steps == [] {
      var m := c.After(steps);
      NoRespawns(m.run.ats);
      forall i | 0 <= i < |slugs| ensures ParentCount(Keys(m.run.ats), slugs[i]) <= b {
        ValidNames(c.tasks);
        NoParents(m.run.ats, slugs[i]);
      }
    } else {
      var before, step := steps[..|steps| - 1], steps[|steps| - 1];
      AccountedAfter(c, before, ceiling, b);
      AccountedStep(c.After(before), c.cap, ceiling, step);
      WithinStep(c.After(before), slugs, b, c.cap, step);
    }
  }

  lemma {:induction false} NoRespawns(ats: seq<ATRecord>)
    requires forall i :: 0 <= i < |ats| ==> ats[i].respawns == 0
    ensures Respawns(ats) == 0
  {
    if ats != [] { NoRespawns(ats[1..]); }
  }

  lemma {:induction false} NoParents(ats: seq<ATRecord>, x: string)
    requires x != "" && forall i :: 0 <= i < |ats| ==> ats[i].parentSlug == ""
    ensures ParentCount(Keys(ats), x) == 0
  {
    if ats != [] {
      NoParents(ats[1..], x);
      assert Keys(ats)[1..] == Keys(ats[1..]);
    }
  }

  lemma {:induction false} RespawnsBound(ats: seq<ATRecord>, cap: nat)
    requires forall i :: 0 <= i < |ats| ==> ats[i].respawns <= cap
    ensures Respawns(ats) <= |ats| * cap
  {
    if ats != [] {
      RespawnsBound(ats[1..], cap);
      assert |ats| * cap == cap + |ats[1..]| * cap;
    }
  }

  lemma {:induction false} ListBound(slugs: seq<string>, ats: seq<ATRecord>, b: nat)
    requires Named(slugs) && Shaped(slugs, ats) && Within(ats, slugs, b)
    ensures |ats| <= |slugs| * (1 + b)
  {
    var counts: seq<nat> :| |counts| == |slugs| && Keys(ats) == Layout(slugs, counts);
    forall i | 0 <= i < |counts| ensures counts[i] <= b { LayoutCount(slugs, counts, i); }
    LayoutSize(slugs, counts, b);
  }

  lemma {:induction false} MulMonotone(a: nat, b: nat, c: nat)
    requires a <= b
    ensures a * c <= b * c
  {}

  /** With respawn cap `c.cap`, at most `b` branches per target and an iteration
      ceiling, a run of any length enters the worker loop at most
      tasks * (1 + b) * cap times and makes at most that times the ceiling attempts. */
  lemma {:induction false} EffortBound(c: Chain, steps: seq<Step>, ceiling: nat, b: nat)
    requires c.Valid() && c.cap > 0 && BranchesWithin(steps, b)
    requires forall i :: 0 <= i < |c.tasks| ==> AttemptBudget(c.tasks[i]) <= ceiling
    ensures c.After(steps).entries <= |c.tasks| * (1 + b) * c.cap
    ensures c.After(steps).attempts <= |c.tasks| * (1 + b) * c.cap * ceiling
  {
    var m, slugs := c.After(steps), TaskSlugs(c.tasks);
    AccountedAfter(c, steps, ceiling, b);
    AfterStanding(c, steps);
    ListBound(slugs, m.run.ats, b);
    forall i | 0 <= i < |m.run.ats| ensures m.run.ats[i].respawns <= c.cap {
      assert Capped(m.run.ats[i], c.cap, ceiling);
    }
    RespawnsBound(m.run.ats, c.cap);
    MulMonotone(|m.run.ats|, |c.tasks| * (1 + b), c.cap);
    MulMonotone(m.entries, |c.tasks| * (1 + b) * c.cap, ceiling);
  }
}
