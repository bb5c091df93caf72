/** Resuming from the log after a crash inside the run loop (internal/coding/events.go,
    orchestrator.go). */
module CrashResume {
  import opened CodingTypes
  import opened EventLog
  import opened ChainMachine
  import opened ChainTheorems
  import opened WorkerGate
  import opened Lineage
  import opened HeadLine

  /** The first open AT from `position` on, or the end of the list. */
  function NextOpen(ats: seq<ATRecord>, position: nat): (p: nat)
    decreases |ats| - position
  {
    if position < |ats| && ats[position].Resolved() then NextOpen(ats, position + 1) else position
  }

  lemma {:induction false} NextOpenSkips(ats: seq<ATRecord>, p: nat, q: nat)
    requires p <= q && forall i :: p <= i < q && i < |ats| ==> ats[i].Resolved()
    requires q <= |ats|
    ensures NextOpen(ats, p) == NextOpen(ats, q)
    decreases q - p
  {
    if p < q { NextOpenSkips(ats, p + 1, q); }
  }

  /** The run loop has just marked the AT at `q` running, having run nothing; or, with
      nothing open, the chain has ended in success. */
  ghost predicate Reached(m: Machine, m': Machine, q: nat) {
    && m'.repo == m.repo && m'.entries == m.entries && m'.attempts == m.attempts && m'.run.position == q
    && if q < |m.run.ats|
       then m'.phase.Executing? && m'.run.ats == m.run.ats[q := m.run.ats[q].(status := ATRunning)]
       else m'.phase.Idle? && m'.run.status == ChainSuccess && m'.run.ats == m.run.ats
  }

  predicate OnlyLooks(steps: seq<Step>) { forall k :: 0 <= k < |steps| ==> steps[k] == Look(false) }

  /** Unpaused looks skip to the next open AT, and run nothing on the way. */
  lemma {:induction false} LooksReach(m: Machine, cap: nat) returns (looks: seq<Step>)
    requires m.phase.Driving? && 0 <= m.run.position <= |m.run.ats|
    ensures OnlyLooks(looks)
    ensures Reached(m, Run(m, cap, looks), NextOpen(m.run.ats, m.run.position))
    decreases |m.run.ats| - m.run.position
  {
    var look := Look(false);
    var m1 := Apply(m, cap, look);
    if HasCurrent(m.run) && Current(m.run).Resolved() {
      var rest := LooksReach(m1, cap);
      RunThen(m, cap, look, rest);
      looks := [look] + rest;
    } else {
      RunOne(m, cap, look);
      looks := [look];
    }
  }

  /** The machine a process starts from that finds only this log and this repository. */
  ghost function Rebuilt(m: Machine, repo: Repo): Machine { m.(run := FoldLog(m.log), repo := repo, phase := Idle) }

  /** Stop the process anywhere in a run: between two steps, or inside an AT run, whose
      commit and ref may then have moved with nothing yet in the log. Whatever repository
      is left behind, the log folds to the live records, at a position that lags over
      resolved ATs only; and a resume from the two reaches the very AT the live run was at,
      having run nothing. */
  lemma {:induction false} ResumeFromLog(c: Chain, steps: seq<Step>, left: Repo) returns (looks: seq<Step>)
    requires c.Valid() && c.Unambiguous()
    ensures var m, f := c.After(steps), FoldLog(c.After(steps).log);
      && f.ats == m.run.ats && 0 <= f.position <= m.run.position <= |f.ats|
      && forall i :: f.position <= i < m.run.position ==> f.ats[i].Resolved()
    ensures OnlyLooks(looks)
    ensures var m := c.After(steps);
      var q := NextOpen(m.run.ats, m.run.position);
      && Reached(Rebuilt(m, left), Run(Rebuilt(m, left), c.cap, [Resume] + looks), q)
      && (m.phase.Executing? ==> q == m.run.position)
  {
    AfterStanding(c, steps);
    AfterLogged(c, steps);
    var m := c.After(steps);
    var rebuilt := Rebuilt(m, left);
    NextOpenSkips(m.run.ats, FoldLog(m.log).position, m.run.position);
    looks := LooksReach(Apply(rebuilt, c.cap, Resume), c.cap);
    RunThen(rebuilt, c.cap, Resume, looks);
  }

  /** In particular the repository of an AT run that was cut off behind its fast-forward:
      its commit stays in the graph, and the AT is run again. */
  lemma {:induction false} CutOffRun(c: Chain, steps: seq<Step>, input: RunInput) returns (looks: seq<Step>)
    requires c.Valid() && c.Unambiguous() && Sane(c.repo) && c.After(steps).phase.Executing?
    ensures OnlyLooks(looks)
    ensures var m, left := c.After(steps), c.After(steps + [Perform(input)]).repo;
      && m.repo.parents <= left.parents && m.run.position >= 0
      && Reached(Rebuilt(m, left), Run(Rebuilt(m, left), c.cap, [Resume] + looks), m.run.position)
  {
    var m, perform := c.After(steps), Perform(input);
    GraphAfter(c, steps);
    ExecuteLanding(Current(m.run), m.repo, c.cap, input, 0);
    AfterMore(c, steps, perform);
    looks := ResumeFromLog(c, steps, c.After(steps + [perform]).repo);
  }
}
