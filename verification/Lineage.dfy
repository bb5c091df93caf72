/** Every credited commit stays on the integration branch (internal/coding/intervene.go,
    orchestrator.go, repo_git.go), and what that takes. */
module Lineage {
  import opened CodingTypes
  import opened WorkerGate
  import opened ChainMachine
  import opened ChainShape
  import opened ChainStanding
  import opened ChainTheorems
  import opened ChainForce

  // ------------------------------------------------------------ the commit graph

  /** Parents are older than their children. */
  predicate Acyclic(parents: seq<Sha>) { forall i :: 0 <= i < |parents| ==> parents[i] <= i }

  lemma {:induction false} AncestorAppend(parents: seq<Sha>, tip: Sha, a: Sha, d: Sha)
    requires d <= |parents| && Acyclic(parents) && AncestorOrEqual(parents, a, d)
    ensures AncestorOrEqual(parents + [tip], a, d)
    decreases d
  {
    if a != d {
      assert (parents + [tip])[d - 1] == parents[d - 1];
      AncestorAppend(parents, tip, a, parents[d - 1]);
    }
  }

  /** Whatever the tip descends from, the commit made on it descends from. */
  lemma {:induction false} AncestorCommit(parents: seq<Sha>, tip: Sha, a: Sha)
    requires tip <= |parents| && Acyclic(parents) && AncestorOrEqual(parents, a, tip)
    ensures AncestorOrEqual(parents + [tip], a, |parents| + 1)
  {
    AncestorAppend(parents, tip, a, tip);
    assert (parents + [tip])[|parents|] == tip;
  }

  // ------------------------------------------------------------------ lineage

  predicate Landed(r: ATRecord) { r.status == ATSuccess && r.commit != 0 }

  /** Every landed commit is on the line ending in `d`. */
  predicate AllOn(parents: seq<Sha>, ats: seq<ATRecord>, d: Sha) {
    forall i :: 0 <= i < |ats| && Landed(ats[i]) ==> AncestorOrEqual(parents, ats[i].commit, d)
  }

  /** A fork point from which every landed commit can be reached; 0 forks off HEAD. */
  predicate GoodFork(parents: seq<Sha>, ats: seq<ATRecord>, fork: Sha) {
    fork == 0 || AllOn(parents, ats, fork)
  }

  /** No commit is recorded that the graph does not hold. */
  predicate InGraph(repo: Repo, ats: seq<ATRecord>) {
    && Acyclic(repo.parents) && 1 <= repo.head <= |repo.parents|
    && forall i :: 0 <= i < |ats| ==> ats[i].parentSha <= |repo.parents| && ats[i].commit <= |repo.parents|
  }

  /** Landed records lie behind the current one, each forked from the ones before it. */
  predicate Ordered(parents: seq<Sha>, ats: seq<ATRecord>) {
    forall i, j :: 0 <= j < i < |ats| && Landed(ats[i]) && Landed(ats[j]) && ats[i].parentSha != 0 ==>
      AncestorOrEqual(parents, ats[j].commit, ats[i].parentSha)
  }

  /** Ahead of the current record only resolved records carry a fork point or are
      branches. */
  predicate Untouched(ats: seq<ATRecord>, p: int) {
    forall j :: 0 <= j < |ats| && j > p && !ats[j].Resolved() ==>
      ats[j].parentSha == 0 && ats[j].branchIndex == 0
  }

  predicate LandedBehind(ats: seq<ATRecord>, p: int) {
    forall i :: 0 <= i < |ats| && ats[i].status == ATSuccess ==> i < p
  }

  predicate OnlyLandedCommit(ats: seq<ATRecord>) {
    forall i :: 0 <= i < |ats| && ats[i].status != ATSuccess ==> ats[i].commit == 0
  }

  /** The open current record forks well, and so does the target of an open branch. */
  predicate ForksWell(parents: seq<Sha>, ats: seq<ATRecord>, p: int) {
    0 <= p < |ats| && !ats[p].Resolved() ==>
      && GoodFork(parents, ats, ats[p].parentSha)
      && forall t :: 0 <= t < |ats| && ats[p].branchIndex > 0 && ats[t].branchIndex == 0
                     && ats[t].slug == ats[p].parentSlug ==>
           GoodFork(parents, ats, ats[t].parentSha)
  }

  /** The facts about records and graph that every disciplined step keeps. `p` is the
      first index no AT has landed at. */
  ghost predicate Line(repo: Repo, ats: seq<ATRecord>, p: int) {
    && InGraph(repo, ats)
    && AllOn(repo.parents, ats, repo.head)
    && Ordered(repo.parents, ats)
    && Untouched(ats, p)
    && LandedBehind(ats, p)
    && OnlyLandedCommit(ats)
    && ForksWell(repo.parents, ats, p)
  }

  /** A landed AT whose position has not been left yet counts as passed. */
  function Frontier(m: Machine): int {
    if m.phase.Settled? && HasCurrent(m.run) && Current(m.run).status == ATSuccess
    then m.run.position + 1 else m.run.position
  }

  ghost predicate OnLine(m: Machine) { Line(m.repo, m.run.ats, Frontier(m)) }

  // -------------------------------------------------------------- discipline

  /** What the operator and git must respect, checkable before each step:
      no force_advance; interventions only on an open current AT; a branch in front of
      the prior AT only while that AT holds its commit and nothing to its right was
      branched; and the branch ref really moves when an AT lands. */
  ghost predicate Disciplined(m: Machine, step: Step) {
    match step
    case ForceAdvance(_, _, _) => false
    case Retry => OpenCurrent(m.run)
    case Skip => OpenCurrent(m.run)
    case Edit(_, _) => OpenCurrent(m.run)
    case BranchFix(target, _, _, _) =>
      var s, t := m.run, TargetIndex(m.run.ats, target);
      && OpenCurrent(s)
      && (t == s.position - 1 && t < |s.ats| ==>
            s.ats[t].commit != 0 && forall j :: t < j < |s.ats| ==> s.ats[j].branchIndex == 0)
    case Perform(input) => input.commit.Committed? ==> input.commit.forwarded
    case _ => true
  }

  predicate OpenCurrent(s: RunState) { HasCurrent(s) ==> !Current(s).Resolved() }

  // ---------------------------------------------------------- steps of the line

  /** Moving on to the next index: what lies there is untouched. */
  lemma {:induction false} LineNext(repo: Repo, ats: seq<ATRecord>, p: int)
    requires Line(repo, ats, p) && 0 <= p < |ats| && ats[p].Resolved()
    ensures Line(repo, ats, p + 1)
  {}

  /** Replacing the open current record by one that is still open, with the same fork
      point. */
  lemma {:induction false} LineKeep(repo: Repo, ats: seq<ATRecord>, p: nat, r: ATRecord)
    requires Line(repo, ats, p) && p < |ats| && !ats[p].Resolved()
    requires KeyOf(r) == KeyOf(ats[p]) && r.parentSha == ats[p].parentSha
    requires r.status != ATSuccess && r.commit == 0
    ensures Line(repo, ats[p := r], p)
  {
    var ats' := ats[p := r];
    AllOnReplace(repo.parents, ats, p, r, repo.head);
    if !r.Resolved() {
      assert GoodFork(repo.parents, ats, ats[p].parentSha);
      forall d | GoodFork(repo.parents, ats, d) ensures GoodFork(repo.parents, ats', d) {
        AllOnReplace(repo.parents, ats, p, r, d);
      }
      forall t | 0 <= t < |ats'| && r.branchIndex > 0 && ats'[t].branchIndex == 0 && ats'[t].slug == r.parentSlug
        ensures GoodFork(repo.parents, ats', ats'[t].parentSha)
      {
        assert ats'[t] == ats[t];
      }
    }
  }

  lemma {:induction false} AllOnReplace(parents: seq<Sha>, ats: seq<ATRecord>, p: nat, r: ATRecord, d: Sha)
    requires p < |ats| && !Landed(r)
    ensures AllOn(parents, ats, d) ==> AllOn(parents, ats[p := r], d)
  {}

  // ----------------------------------------------------- running one AT

  predicate Sane(repo: Repo) { Acyclic(repo.parents) && 1 <= repo.head <= |repo.parents| }

  lemma {:induction false} AncestorPrefix(parents: seq<Sha>, parents': seq<Sha>, a: Sha, d: Sha)
    requires parents <= parents' && d <= |parents| && Acyclic(parents) && AncestorOrEqual(parents, a, d)
    ensures AncestorOrEqual(parents', a, d)
    decreases d
  {
    if a != d {
      assert parents'[d - 1] == parents[d - 1];
      AncestorPrefix(parents, parents', a, parents[d - 1]);
    }
  }

  /** A commit on `tip` grows the graph, and every ancestor of `tip` is below it. */
  lemma {:induction false} CommitGrows(repo: Repo, tip: Sha, a: Sha)
    requires Sane(repo) && tip <= |repo.parents|
    ensures var repo' := CommitOn(repo, tip);
      && Sane(repo') && repo.parents <= repo'.parents && |repo'.parents| == |repo.parents| + 1
      && (AncestorOrEqual(repo.parents, a, tip) ==> AncestorOrEqual(repo'.parents, a, |repo.parents| + 1))
  {
    if AncestorOrEqual(repo.parents, a, tip) { AncestorCommit(repo.parents, tip, a); }
  }

  /** What an AT run does to the graph, seen from one commit `a`: the graph only grows;
      the fork point it leaves and the new HEAD stay above whatever was below the
      worktree's start (and, for HEAD, below the old HEAD). */
  ghost predicate Keeps(repo: Repo, tip: Sha, fork': Sha, repo': Repo, a: Sha) {
    && Sane(repo') && repo.parents <= repo'.parents && fork' <= |repo'.parents|
    && (AncestorOrEqual(repo.parents, a, tip) && fork' != 0 ==> AncestorOrEqual(repo'.parents, a, fork'))
    && (AncestorOrEqual(repo.parents, a, tip) && AncestorOrEqual(repo.parents, a, repo.head) ==>
          AncestorOrEqual(repo'.parents, a, repo'.head))
  }

  lemma {:induction false} KeepsSame(repo: Repo, fork: Sha, a: Sha)
    requires Sane(repo) && fork <= |repo.parents|
    ensures Keeps(repo, Tip(repo, fork), fork, repo, a)
  {}

  lemma {:induction false} LandKeeps(r: ATRecord, repo: Repo, inp: RunInput, a: Sha)
    requires Sane(repo) && r.parentSha <= |repo.parents| && r.commit == 0
    requires inp.commit.Committed? ==> inp.commit.forwarded
    ensures var (q, repo') := Land(r, repo, Tip(repo, r.parentSha), inp);
      && Keeps(repo, Tip(repo, r.parentSha), q.parentSha, repo', a)
      && q.commit <= |repo'.parents|
      && (q.status != ATSuccess ==> q.commit == 0)
      && (q.commit != 0 ==> AncestorOrEqual(repo'.parents, q.commit, repo'.head))
  {
    var tip := Tip(repo, r.parentSha);
    KeepsSame(repo, r.parentSha, a);
    CommitGrows(repo, tip, a);
    var repo' := CommitOn(repo, tip);
    if r.parentSha != 0 && AncestorOrEqual(repo.parents, a, tip) {
      AncestorPrefix(repo.parents, repo'.parents, a, r.parentSha);
    }
  }

  lemma {:induction false} WorkAndLandKeeps(r: ATRecord, repo: Repo, cap: nat, inp: RunInput, a: Sha)
    requires Sane(repo) && r.parentSha <= |repo.parents| && r.commit == 0
    requires inp.commit.Committed? ==> inp.commit.forwarded
    ensures var e := WorkAndLand(r, repo, cap, inp);
      && Keeps(repo, Tip(repo, r.parentSha), e.record.parentSha, e.repo, a)
      && e.record.commit <= |e.repo.parents|
      && (e.record.status != ATSuccess ==> e.record.commit == 0)
      && (e.record.commit != 0 ==> AncestorOrEqual(e.repo.parents, e.record.commit, e.repo.head))
  {
    var (end, entered) := Work(r, cap, inp);
    LandKeeps(AfterWork(r, end, entered), repo, inp, a);
  }

  /** Two growing stages in a row: the seed commit, then the work. */
  lemma {:induction false} KeepsThen(repo: Repo, tip: Sha, mid: Repo, tip': Sha, fork': Sha, repo': Repo, a: Sha)
    requires Sane(repo) && repo.parents <= mid.parents && mid.head == repo.head
    requires AncestorOrEqual(repo.parents, a, tip) ==> AncestorOrEqual(mid.parents, a, tip')
    requires Keeps(mid, tip', fork', repo', a)
    ensures Keeps(repo, tip, fork', repo', a)
  {
    if AncestorOrEqual(repo.parents, a, repo.head) {
      AncestorPrefix(repo.parents, mid.parents, a, repo.head);
    }
  }

  lemma {:induction false} SeededKeeps(r: ATRecord, repo: Repo, cap: nat, inp: RunInput, a: Sha)
    requires Sane(repo) && r.parentSha <= |repo.parents| && r.commit == 0
    requires inp.commit.Committed? ==> inp.commit.forwarded
    ensures var e := WorkAndLand(SeedRecord(r, repo, inp), SeedRepo(r, repo, inp), cap, inp);
      && Keeps(repo, Tip(repo, r.parentSha), e.record.parentSha, e.repo, a)
      && e.record.commit <= |e.repo.parents|
      && (e.record.status != ATSuccess ==> e.record.commit == 0)
      && (e.record.commit != 0 ==> AncestorOrEqual(e.repo.parents, e.record.commit, e.repo.head))
  {
    var tip := Tip(repo, r.parentSha);
    var q, mid := SeedRecord(r, repo, inp), SeedRepo(r, repo, inp);
    var e := WorkAndLand(q, mid, cap, inp);
    CommitGrows(repo, tip, a);
    WorkAndLandKeeps(q, mid, cap, inp, a);
    KeepsThen(repo, tip, mid, Tip(mid, q.parentSha), e.record.parentSha, e.repo, a);
  }

  lemma {:induction false} ExecuteKeeps(r: ATRecord, repo: Repo, cap: nat, inp: RunInput, a: Sha)
    requires Sane(repo) && r.parentSha <= |repo.parents| && r.commit == 0
    requires r.status == ATRunning && (inp.commit.Committed? ==> inp.commit.forwarded)
    ensures var e := Execute(r, repo, cap, inp);
      && Keeps(repo, Tip(repo, r.parentSha), e.record.parentSha, e.repo, a)
      && e.record.commit <= |e.repo.parents|
      && (e.record.status != ATSuccess ==> e.record.commit == 0)
      && (e.record.commit != 0 ==> AncestorOrEqual(e.repo.parents, e.record.commit, e.repo.head))
  {
    var forked := CaptureFork(r, repo, inp);
    assert Tip(repo, forked.parentSha) == Tip(repo, r.parentSha);
    KeepsSame(repo, r.parentSha, a);
    KeepsSame(repo, forked.parentSha, a);
    SeededKeeps(forked.(worktree := inp.dir), repo, cap, inp, a);
  }

  /** Running the open current AT keeps the line; a landed AT is passed. */
  lemma {:induction false} LinePerform(repo: Repo, ats: seq<ATRecord>, p: nat, cap: nat, inp: RunInput)
    requires Line(repo, ats, p) && p < |ats| && ats[p].status == ATRunning
    requires inp.commit.Committed? ==> inp.commit.forwarded
    ensures var e := Execute(ats[p], repo, cap, inp);
      Line(e.repo, ats[p := e.record], if e.record.status == ATSuccess then p + 1 else p)
  {
    var e := Execute(ats[p], repo, cap, inp);
    ExecuteSound(ats[p], repo, cap, inp);
    forall a ensures Keeps(repo, Tip(repo, ats[p].parentSha), e.record.parentSha, e.repo, a) {
      ExecuteKeeps(ats[p], repo, cap, inp, a);
    }
    ExecuteKeeps(ats[p], repo, cap, inp, 0);
    LineGrown(repo, ats, p, e.record, e.repo);
  }

  /** The line after one record was replaced and the graph grew around it. */
  lemma {:induction false} LineGrown(repo: Repo, ats: seq<ATRecord>, p: nat, r: ATRecord, repo': Repo)
    requires Line(repo, ats, p) && p < |ats| && !ats[p].Resolved() && KeyOf(r) == KeyOf(ats[p])
    requires r.status == ATSuccess || r.status == ATFailed
    requires forall a :: Keeps(repo, Tip(repo, ats[p].parentSha), r.parentSha, repo', a)
    requires r.commit <= |repo'.parents| && (r.status != ATSuccess ==> r.commit == 0)
    requires r.commit != 0 ==> AncestorOrEqual(repo'.parents, r.commit, repo'.head)
    ensures Line(repo', ats[p := r], if r.status == ATSuccess then p + 1 else p)
  {
    var ats', tip := ats[p := r], Tip(repo, ats[p].parentSha);
    assert Keeps(repo, tip, r.parentSha, repo', 0);
    forall i | 0 <= i < |ats| && i != p && Landed(ats[i])
      ensures AncestorOrEqual(repo'.parents, ats[i].commit, repo'.head)
      ensures r.parentSha != 0 ==> AncestorOrEqual(repo'.parents, ats[i].commit, r.parentSha)
    {
      assert AncestorOrEqual(repo.parents, ats[i].commit, tip);
      assert Keeps(repo, tip, r.parentSha, repo', ats[i].commit);
    }
    forall i, j | 0 <= j < i < |ats'| && Landed(ats'[i]) && Landed(ats'[j]) && ats'[i].parentSha != 0
      ensures AncestorOrEqual(repo'.parents, ats'[j].commit, ats'[i].parentSha)
    {
      if i != p {
        AncestorPrefix(repo.parents, repo'.parents, ats[j].commit, ats[i].parentSha);
      }
    }
    if r.status == ATFailed {
      forall d: Sha | d <= |repo.parents| && AllOn(repo.parents, ats, d) ensures AllOn(repo'.parents, ats', d) {
        forall i | 0 <= i < |ats'| && Landed(ats'[i]) ensures AncestorOrEqual(repo'.parents, ats'[i].commit, d) {
          AncestorPrefix(repo.parents, repo'.parents, ats[i].commit, d);
        }
      }
      forall t | 0 <= t < |ats'| && r.branchIndex > 0 && ats'[t].branchIndex == 0 && ats'[t].slug == r.parentSlug
        ensures GoodFork(repo'.parents, ats', ats'[t].parentSha)
      {
        assert GoodFork(repo.parents, ats, ats[t].parentSha);
      }
    }
  }

  // -------------------------------------------------------------- branch_fix

  /** What superseding does to one record: it lands no more, keeps its key, and keeps
      its fork point or forgets it. */
  predicate Superseded(q: ATRecord, r: ATRecord) {
    && KeyOf(q) == KeyOf(r)
    && (q.status == ATSuccess ==> q == r)
    && (q.status != ATSuccess ==> q.commit == 0)
    && (q.parentSha == r.parentSha || q.parentSha == 0)
  }

  predicate AllSuperseded(sup: seq<ATRecord>, ats: seq<ATRecord>) {
    |sup| == |ats| && forall k :: 0 <= k < |ats| ==> Superseded(sup[k], ats[k])
  }

  lemma {:induction false} AllOnInsert(parents: seq<Sha>, sup: seq<ATRecord>, t: nat, br: ATRecord, d: Sha)
    requires t <= |sup| && !Landed(br) && AllOn(parents, sup, d)
    ensures AllOn(parents, Renumber(InsertAt(sup, t, br)), d)
  {
    var live := Renumber(InsertAt(sup, t, br));
    forall j | 0 <= j < |live| && Landed(live[j]) ensures AncestorOrEqual(parents, live[j].commit, d) {
      InsertedAt(sup, t, br, j);
    }
  }

  /** A branch of the record at `t`, not yet run, forking where that record forked. */
  predicate BranchOf(br: ATRecord, r: ATRecord) {
    && br.status == ATPending && br.commit == 0 && br.parentSha == r.parentSha
    && br.branchIndex > 0 && br.parentSlug == r.slug
  }

  lemma {:induction false} InsertFields(repo: Repo, ats: seq<ATRecord>, sup: seq<ATRecord>, t: nat, br: ATRecord)
    requires InGraph(repo, ats) && AllSuperseded(sup, ats) && t < |ats| && BranchOf(br, ats[t])
    requires LandedBehind(sup, t) && Untouched(sup, t) && sup[t].Resolved()
    ensures var live := Renumber(InsertAt(sup, t, br));
      InGraph(repo, live) && LandedBehind(live, t) && OnlyLandedCommit(live) && Untouched(live, t)
  {
    var live := Renumber(InsertAt(sup, t, br));
    forall j | 0 <= j < |live| ensures
      && live[j].parentSha <= |repo.parents| && live[j].commit <= |repo.parents|
      && (live[j].status == ATSuccess ==> j < t)
      && (live[j].status != ATSuccess ==> live[j].commit == 0)
      && (j > t && !live[j].Resolved() ==> live[j].parentSha == 0 && live[j].branchIndex == 0)
    {
      InsertedAt(sup, t, br, j);
      if j != t {
        var k := if j < t then j else j - 1;
        assert Superseded(sup[k], ats[k]);
      }
    }
  }

  lemma {:induction false} InsertOrdered(parents: seq<Sha>, ats: seq<ATRecord>, sup: seq<ATRecord>, t: nat,
                                         br: ATRecord)
    requires Ordered(parents, ats) && AllSuperseded(sup, ats) && t < |ats| && !Landed(br)
    ensures Ordered(parents, Renumber(InsertAt(sup, t, br)))
  {
    var live := Renumber(InsertAt(sup, t, br));
    forall i, j | 0 <= j < i < |live| && Landed(live[i]) && Landed(live[j]) && live[i].parentSha != 0
      ensures AncestorOrEqual(parents, live[j].commit, live[i].parentSha)
    {
      InsertedAt(sup, t, br, i);
      InsertedAt(sup, t, br, j);
      var a, b := if i < t then i else i - 1, if j < t then j else j - 1;
      assert Superseded(sup[a], ats[a]) && Superseded(sup[b], ats[b]);
    }
  }

  lemma {:induction false} InsertForks(parents: seq<Sha>, ats: seq<ATRecord>, sup: seq<ATRecord>, t: nat, br: ATRecord)
    requires AllSuperseded(sup, ats) && t < |ats| && BranchOf(br, ats[t]) && Identified(ats) && ats[t].branchIndex == 0
    requires GoodFork(parents, sup, br.parentSha) && sup[t].parentSha == ats[t].parentSha
    ensures ForksWell(parents, Renumber(InsertAt(sup, t, br)), t)
  {
    var live := Renumber(InsertAt(sup, t, br));
    InsertedAt(sup, t, br, t);
    if br.parentSha != 0 { AllOnInsert(parents, sup, t, br, br.parentSha); }
    forall u | 0 <= u < |live| && live[u].branchIndex == 0 && live[u].slug == br.parentSlug
      ensures live[u].parentSha == br.parentSha
    {
      InsertedAt(sup, t, br, u);
      TargetOnly(ats, sup, t, if u < t then u else u - 1);
    }
  }

  lemma {:induction false} TargetOnly(ats: seq<ATRecord>, sup: seq<ATRecord>, t: nat, k: nat)
    requires AllSuperseded(sup, ats) && t < |ats| && k < |ats| && Identified(ats)
    requires sup[k].slug == ats[t].slug && sup[k].branchIndex == ats[t].branchIndex == 0
    ensures k == t
  {
    assert Superseded(sup[k], ats[k]);
    assert Keys(ats)[k] == KeyOf(ats[k]) && Keys(ats)[t] == KeyOf(ats[t]);
  }

  /** The line with a branch inserted at `t`, given that nothing lands from `t` on and
      that the target's fork point is good for what is left. */
  lemma {:induction false} LineInsert(repo: Repo, ats: seq<ATRecord>, sup: seq<ATRecord>, t: nat, br: ATRecord)
    requires InGraph(repo, ats) && Ordered(repo.parents, ats) && AllSuperseded(sup, ats) && t < |ats|
    requires AllOn(repo.parents, sup, repo.head) && GoodFork(repo.parents, sup, ats[t].parentSha)
    requires LandedBehind(sup, t) && Untouched(sup, t) && sup[t].Resolved()
    requires sup[t].parentSha == ats[t].parentSha && Identified(ats) && ats[t].branchIndex == 0 && BranchOf(br, ats[t])
    ensures Line(repo, Renumber(InsertAt(sup, t, br)), t)
  {
    AllOnInsert(repo.parents, sup, t, br, repo.head);
    InsertFields(repo, ats, sup, t, br);
    InsertOrdered(repo.parents, ats, sup, t, br);
    InsertForks(repo.parents, ats, sup, t, br);
  }

  lemma {:induction false} SupersedeAll(s: RunState, target: string, t: nat)
    requires t < |s.ats| && s.ats[t].slug == target && OnlyLandedCommit(s.ats)
    ensures AllSuperseded(Supersede(s, target, t), s.ats)
  {}

  lemma {:induction false} AllOnSuperseded(parents: seq<Sha>, sup: seq<ATRecord>, ats: seq<ATRecord>, d: Sha)
    requires AllSuperseded(sup, ats) && AllOn(parents, ats, d)
    ensures AllOn(parents, sup, d)
  {
    forall i | 0 <= i < |sup| && Landed(sup[i]) ensures AncestorOrEqual(parents, sup[i].commit, d) {
      assert Superseded(sup[i], ats[i]);
    }
  }

  /** What is left landed after the prior AT `t` is superseded was below its fork. */
  lemma {:induction false} PriorFork(parents: seq<Sha>, ats: seq<ATRecord>, sup: seq<ATRecord>, t: nat)
    requires AllSuperseded(sup, ats) && Ordered(parents, ats) && LandedBehind(ats, t + 1)
    requires t < |ats| && Landed(ats[t]) && !Landed(sup[t])
    ensures GoodFork(parents, sup, ats[t].parentSha)
  {
    if ats[t].parentSha != 0 {
      forall i | 0 <= i < |sup| && Landed(sup[i])
        ensures AncestorOrEqual(parents, sup[i].commit, ats[t].parentSha)
      {
        assert Superseded(sup[i], ats[i]);
      }
    }
  }

  /** Nothing lands from the branch point on, and nothing open behind it was run. */
  lemma {:induction false} BranchFrontier(s: RunState, target: string, t: nat)
    requires t < |s.ats| && s.ats[t].slug == target && t >= s.position - 1
    requires OnlyLandedCommit(s.ats) && LandedBehind(s.ats, s.position) && Untouched(s.ats, s.position)
    requires t == s.position - 1 ==>
      s.ats[t].commit != 0 && forall j :: t < j < |s.ats| ==> s.ats[j].branchIndex == 0
    ensures var sup := Supersede(s, target, t);
      && LandedBehind(sup, t) && Untouched(sup, t) && sup[t].Resolved()
      && sup[t].parentSha == s.ats[t].parentSha
  {
    var sup := Supersede(s, target, t);
    SupersedeAll(s, target, t);
    forall j | t < j < |sup| && !sup[j].Resolved() ensures sup[j].parentSha == 0 && sup[j].branchIndex == 0 {
      assert Superseded(sup[j], s.ats[j]);
    }
    forall i | 0 <= i < |sup| && sup[i].status == ATSuccess ensures i < t {
      assert Superseded(sup[i], s.ats[i]);
    }
  }

  /** The fork point a disciplined branch copies is good for what stays landed, and so
      is the HEAD it leaves. */
  lemma {:induction false} BranchForkGood(repo: Repo, s: RunState, target: string, t: nat)
    requires t < |s.ats| && s.ats[t].slug == target && s.ats[t].branchIndex == 0
    requires Line(repo, s.ats, s.position) && OpenCurrent(s) && 0 <= s.position
    requires t == s.position - 1 ==> s.ats[t].commit != 0
    requires t != s.position - 1 ==>
      t == s.position || (HasCurrent(s) && Current(s).parentSlug == target && Current(s).branchIndex > 0)
    requires t >= s.position - 1
    ensures GoodFork(repo.parents, Supersede(s, target, t), s.ats[t].parentSha)
    ensures AllOn(repo.parents, Supersede(s, target, t), repo.head)
    ensures t != s.position - 1 ==> !Rewinds(s, t)
  {
    var sup := Supersede(s, target, t);
    SupersedeAll(s, target, t);
    AllOnSuperseded(repo.parents, sup, s.ats, repo.head);
    if t == s.position - 1 {
      PriorFork(repo.parents, s.ats, sup, t);
    } else {
      assert GoodFork(repo.parents, s.ats, s.ats[t].parentSha);
      if s.ats[t].parentSha != 0 { AllOnSuperseded(repo.parents, sup, s.ats, s.ats[t].parentSha); }
    }
  }

  /** The branch is allowed and disciplined, seen on the run state alone. */
  predicate GoodBranch(s: RunState, target: string, t: nat) {
    && t < |s.ats| && s.ats[t].slug == target && s.ats[t].branchIndex == 0
    && OpenCurrent(s) && 0 <= s.position && t >= s.position - 1
    && (t == s.position - 1 ==>
          s.ats[t].commit != 0 && forall j :: t < j < |s.ats| ==> s.ats[j].branchIndex == 0)
    && (t > s.position ==> HasCurrent(s) && Current(s).parentSlug == target && Current(s).branchIndex > 0)
  }

  lemma {:induction false} LineBranched(repo: Repo, s: RunState, target: string, t: nat, goal: string, head: Sha)
    requires Line(repo, s.ats, s.position) && Identified(s.ats) && GoodBranch(s, target, t)
    requires head == repo.head || (t == s.position - 1 && head == s.ats[t].parentSha != 0)
    ensures Line(repo.(head := head), BranchedATs(s, target, t, goal), t)
  {
    BranchForkGood(repo, s, target, t);
    BranchFrontier(s, target, t);
    SupersedeAll(s, target, t);
    LineInsert(repo.(head := head), s.ats, Supersede(s, target, t), t, NewBranch(s, target, t, goal));
  }

  /** A disciplined branch_fix keeps the line. */
  lemma {:induction false} LineBranch(m: Machine, target: string, goal: string, rewound: bool)
    requires OnLine(m) && m.phase.Idle? && Identified(m.run.ats)
    requires GoodBranch(m.run, target, TargetIndex(m.run.ats, target))
    ensures OnLine(BranchFixStep(m, target, goal, rewound))
  {
    var s, t := m.run, TargetIndex(m.run.ats, target);
    assert t != s.position - 1 ==> !Rewinds(s, t) by { BranchForkGood(m.repo, s, target, t); }
    var m' := BranchFixStep(m, target, goal, rewound);
    LineBranched(m.repo, s, target, t, goal, m'.repo.head);
  }

  lemma {:induction false} GoodBranchOf(m: Machine, slugs: seq<string>, step: Step)
    requires Standing(m, slugs) && Named(slugs) && step.BranchFix? && Disciplined(m, step)
    requires BranchAllowed(m.run, step.target, step.maxBranches)
    ensures GoodBranch(m.run, step.target, TargetIndex(m.run.ats, step.target))
  {
    var s, t := m.run, TargetIndex(m.run.ats, step.target);
    if HasCurrent(s) && Current(s).parentSlug == step.target {
      var counts: seq<nat> :| |counts| == |slugs| && Keys(s.ats) == Layout(slugs, counts);
      assert Keys(s.ats)[t] == KeyOf(s.ats[t]) && Keys(s.ats)[s.position] == KeyOf(Current(s));
      BranchBeforeTarget(slugs, counts, s.position, t);
    }
  }

  // ------------------------------------------------------------- the theorem

  lemma {:induction false} LineLook(m: Machine, pause: bool)
    requires OnLine(m) && m.phase.Driving? && Progress(m)
    ensures OnLine(LookStep(m, pause))
  {
    var s, p := m.run, m.run.position;
    if HasCurrent(s) && !pause {
      if Current(s).Resolved() {
        LineNext(m.repo, s.ats, p);
      } else {
        LineKeep(m.repo, s.ats, p, Current(s).(status := ATRunning));
      }
    }
  }

  lemma {:induction false} LineStaged(m: Machine, r: ATRecord, position: int)
    requires OnLine(m) && m.phase.Idle? && HasCurrent(m.run) && !Current(m.run).Resolved()
    requires KeyOf(r) == KeyOf(Current(m.run)) && r.parentSha == Current(m.run).parentSha
    requires r.status != ATSuccess && r.commit == 0
    requires position == m.run.position || (position == m.run.position + 1 && r.Resolved())
    ensures OnLine(PutChain(PutAT(m, m.run.position, r), ChainPending, "", position))
  {
    var s, p := m.run, m.run.position;
    LineKeep(m.repo, s.ats, p, r);
    if position == p + 1 { LineNext(m.repo, s.ats[p := r], p); }
  }

  lemma {:induction false} LineSettle(m: Machine)
    requires OnLine(m) && m.phase.Settled? && Progress(m)
    ensures OnLine(SettleStep(m))
  {}

  lemma {:induction false} LineLoop(m: Machine, cap: nat, step: Step)
    requires Progress(m) && OnLine(m) && Disciplined(m, step)
    requires step.Resume? || step.Look? || step.Perform? || step.Settle?
    ensures OnLine(Apply(m, cap, step))
  {
    match step {
      case Resume =>
      case Look(pause) => if m.phase.Driving? { LineLook(m, pause); }
      case Perform(input) =>
        if m.phase.Executing? { LinePerform(m.repo, m.run.ats, m.run.position, cap, input); }
      case Settle => if m.phase.Settled? { LineSettle(m); }
    }
  }

  lemma {:induction false} LineSimple(m: Machine, cap: nat, step: Step)
    requires OnLine(m) && Disciplined(m, step) && (step.Retry? || step.Skip? || step.Edit? || step.Abort?)
    ensures OnLine(Apply(m, cap, step))
  {
    var s, p := m.run, m.run.position;
    if Staging(m) && HasCurrent(s) {
      match step {
        case Retry => LineStaged(m, Current(s).Reset(), p);
        case Edit(goal, workspace) => LineStaged(m, Edited(Current(s), goal, workspace), p);
        case Skip => LineStaged(m, Current(s).(status := ATSkipped), p + 1);
        case Abort =>
      }
    }
  }

  lemma {:induction false} AllOnGrows(parents: seq<Sha>, tip: Sha, ats: seq<ATRecord>, d: Sha)
    requires Acyclic(parents) && d <= |parents| && AllOn(parents, ats, d)
    ensures AllOn(parents + [tip], ats, d)
  {
    forall i | 0 <= i < |ats| && Landed(ats[i]) ensures AncestorOrEqual(parents + [tip], ats[i].commit, d) {
      AncestorAppend(parents, tip, ats[i].commit, d);
    }
  }

  /** A commit beside the run leaves the line alone. */
  lemma {:induction false} LineOutside(repo: Repo, ats: seq<ATRecord>, p: int, parent: Sha)
    requires Line(repo, ats, p) && parent <= |repo.parents|
    ensures Line(CommitOn(repo, parent), ats, p)
  {
    var parents := repo.parents;
    AllOnGrows(parents, parent, ats, repo.head);
    forall i, j | 0 <= j < i < |ats| && Landed(ats[i]) && Landed(ats[j]) && ats[i].parentSha != 0
      ensures AncestorOrEqual(parents + [parent], ats[j].commit, ats[i].parentSha)
    {
      AncestorAppend(parents, parent, ats[j].commit, ats[i].parentSha);
    }
    forall t | 0 <= t < |ats| && GoodFork(parents, ats, ats[t].parentSha)
      ensures GoodFork(parents + [parent], ats, ats[t].parentSha)
    {
      if ats[t].parentSha != 0 { AllOnGrows(parents, parent, ats, ats[t].parentSha); }
    }
  }

  lemma {:induction false} LineBranchFix(m: Machine, slugs: seq<string>, cap: nat, step: Step)
    requires Standing(m, slugs) && Named(slugs) && OnLine(m) && Disciplined(m, step) && step.BranchFix?
    ensures OnLine(Apply(m, cap, step))
  {
    if Staging(m) && BranchAllowed(m.run, step.target, step.maxBranches) {
      ShapedIdentified(slugs, m.run.ats);
      GoodBranchOf(m, slugs, step);
      LineBranch(m, step.target, step.goal, step.rewound);
    }
  }

  lemma {:induction false} LineStep(m: Machine, slugs: seq<string>, cap: nat, step: Step)
    requires Standing(m, slugs) && Named(slugs) && OnLine(m) && Disciplined(m, step)
    ensures OnLine(Apply(m, cap, step))
  {
    if step.Resume? || step.Look? || step.Perform? || step.Settle? {
      LineLoop(m, cap, step);
    } else if step.BranchFix? {
      LineBranchFix(m, slugs, cap, step);
    } else if step.OutsideCommit? {
      if step.parent <= |m.repo.parents| { LineOutside(m.repo, m.run.ats, Frontier(m), step.parent); }
    } else {
      LineSimple(m, cap, step);
    }
  }

  /** Every step of the run respects the discipline in the state it meets. */
  ghost predicate DisciplinedRun(c: Chain, steps: seq<Step>) {
    forall k :: 0 <= k < |steps| ==> Disciplined(c.After(steps[..k]), steps[k])
  }

  lemma {:induction false} LineAfter(c: Chain, steps: seq<Step>)
    requires c.Valid() && DisciplinedRun(c, steps) && Sane(c.repo)
    ensures OnLine(c.After(steps))
  {
    if steps != [] {
      var n := |steps| - 1;
      var before := steps[..n];
      forall k | 0 <= k < n ensures Disciplined(c.After(before[..k]), before[k]) {
        assert before[..k] == steps[..k];
      }
      LineAfter(c, before);
      AfterStanding(c, before);
      LineStep(c.After(before), TaskSlugs(c.tasks), c.cap, steps[n]);
    }
  }

  /** In every state of a disciplined run, each credited commit is an ancestor of the
      integration HEAD, or that HEAD itself. */
  lemma {:induction false} IntegrationLineage(c: Chain, steps: seq<Step>, i: nat)
    requires c.Valid() && DisciplinedRun(c, steps) && Sane(c.repo)
    requires i < |c.After(steps).run.ats|
    ensures var m := c.After(steps);
      var r := m.run.ats[i];
      r.status == ATSuccess && r.commit != 0 ==> AncestorOrEqual(m.repo.parents, r.commit, m.repo.head)
  {
    LineAfter(c, steps);
  }

  // ------------------------------------------------------- below a new commit

  lemma {:induction false} AncestorOfCommit(parents: seq<Sha>, tip: Sha, a: Sha)
    requires tip <= |parents| && Acyclic(parents) && a <= |parents|
    ensures AncestorOrEqual(parents + [tip], a, |parents| + 1) <==> AncestorOrEqual(parents, a, tip)
  {
    var p' := parents + [tip];
    assert p'[|parents|] == tip;
    if AncestorOrEqual(parents, a, tip) { AncestorCommit(parents, tip, a); }
    if AncestorOrEqual(p', a, |parents| + 1) { AncestorShrink(parents, tip, a, tip); }
  }

  lemma {:induction false} AncestorShrink(parents: seq<Sha>, tip: Sha, a: Sha, d: Sha)
    requires d <= |parents| && Acyclic(parents) && AncestorOrEqual(parents + [tip], a, d)
    ensures AncestorOrEqual(parents, a, d)
    decreases d
  {
    if a != d {
      assert (parents + [tip])[d - 1] == parents[d - 1];
      AncestorShrink(parents, tip, a, parents[d - 1]);
    }
  }
}
