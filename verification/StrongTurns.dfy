/** The rung a router serves, and the strong turns a spawn tree serves from one pool
    (internal/router/router.go, internal/cost/cost.go). */
module StrongTurns {
  import opened Text
  import opened TreeBudget

  // ------------------------------------------------------------------ ladders

  /** The rungs from cheap to strong, the rung a worker rests on, its own bound on strong
      turns (0 for none), and the availabilities the rungs can show when asked. */
  datatype Rungs = Rungs(size: nat, floor: nat, bound: nat, shows: set<seq<bool>>)

  predicate Proper(l: Rungs) {
    l.size >= 2 && l.floor < l.size && forall up :: up in l.shows ==> |up| == l.size
  }

  type Ladder = l: Rungs | Proper(l) witness Rungs(2, 0, 0, {})

  /** The strong rung. */
  function Top(l: Ladder): nat { l.size - 1 }

  /** The lowest available rung from `i` up, or the end. */
  function FirstUp(up: seq<bool>, i: nat): (j: nat)
    requires i <= |up|
    ensures i <= j <= |up| && (j < |up| ==> up[j]) && forall k :: i <= k < j ==> !up[k]
    decreases |up| - i
  {
    if i < |up| && !up[i] then FirstUp(up, i + 1) else i
  }

  /** The place behind the highest available rung below `i`, or 0. */
  function LastUp(up: seq<bool>, i: nat): (j: nat)
    requires i <= |up|
    ensures j <= i && (j > 0 ==> up[j - 1]) && forall k :: j <= k < i ==> !up[k]
  {
    if i > 0 && !up[i - 1] then LastUp(up, i - 1) else i
  }

  /** The rung that serves a turn aimed at `aim`: itself, else above the floor the next one
      down, else the next one up; itself again when no other is available. */
  function Chosen(l: Ladder, aim: nat, up: seq<bool>): (rung: nat)
    requires aim < l.size && |up| == l.size
    ensures rung < l.size
  {
    if up[aim] then aim
    else if aim > l.floor then
      var j := LastUp(up, aim);
      if j > 0 then j - 1 else aim
    else
      var j := FirstUp(up, aim + 1);
      if j < l.size then j else aim
  }

  /** What that rung is, whatever computes it: an available rung with none closer in the
      direction asked for, or `aim` when there is none at all. */
  predicate Nearest(l: Ladder, aim: nat, up: seq<bool>, rung: nat)
    requires aim < l.size && |up| == l.size
  {
    if up[aim] then rung == aim
    else if aim > l.floor then
      if rung == aim then forall i :: 0 <= i < aim ==> !up[i]
      else rung < aim && up[rung] && forall i :: rung < i < aim ==> !up[i]
    else
      if rung == aim then forall i :: aim < i < l.size ==> !up[i]
      else aim < rung < l.size && up[rung] && forall i :: aim < i < rung ==> !up[i]
  }

  lemma {:induction false} ChosenExactly(l: Ladder, aim: nat, up: seq<bool>, rung: nat)
    requires aim < l.size && |up| == l.size
    ensures Nearest(l, aim, up, rung) <==> rung == Chosen(l, aim, up)
  {
    if !up[aim] {
      var low, high := LastUp(up, aim), FirstUp(up, aim + 1);
      assert low > 0 ==> up[low - 1];
      assert high < l.size ==> up[high];
    }
  }

  // ------------------------------------------------------------------ workers

  /** A router: where it is, whether it sticks to the top, how many strong turns it has
      served, and the rung it is about to serve. */
  datatype Worker = Worker(ladder: Ladder, cur: nat, sticky: bool, served: nat, aim: Option<nat>)

  predicate Placed(w: Worker) {
    && w.ladder.floor <= w.cur < w.ladder.size
    && (w.aim.Some? ==> w.aim.value == w.cur || (w.cur == Top(w.ladder) && w.aim.value == w.cur - 1))
  }

  function Fresh(l: Ladder): Worker { Worker(l, l.floor, false, 0, None) }

  /** `topBounce` for a worker at the top. */
  predicate Bounces(w: Worker, exhausted: bool) {
    w.cur == Top(w.ladder) && ((w.ladder.bound > 0 && w.served >= w.ladder.bound && !w.sticky) || exhausted)
  }

  /** The first half of `NextAdapter`: aim at the current rung, or one below a spent top. */
  function Aimed(w: Worker, exhausted: bool): Worker
    requires Placed(w)
  {
    w.(aim := Some(if Bounces(w, exhausted) then w.cur - 1 else w.cur))
  }

  /** The second half: serve a rung, and count it when it is the top. */
  function Served(w: Worker, rung: nat): Worker {
    w.(aim := None, served := if rung == Top(w.ladder) && w.ladder.bound > 0 then w.served + 1 else w.served)
  }

  // --------------------------------------------------------------- the router

  class Router {
    const ladder: Ladder
    const budget: StrongTurnBudget
    var cur: nat
    var highest: nat
    var sticky: bool
    var boundServed: nat

    constructor (ladder: Ladder, budget: StrongTurnBudget)
      ensures this.ladder == ladder && this.budget == budget
      ensures View() == Fresh(ladder) && highest == ladder.floor
    {
      this.ladder, this.budget := ladder, budget;
      cur, highest, sticky, boundServed := ladder.floor, ladder.floor, false, 0;
    }

    function View(): Worker reads this { Worker(ladder, cur, sticky, boundServed, None) }

    /** The top is not to be aimed at: the worker's own bound or the tree's is spent. */
    predicate Spent() reads this, budget {
      && cur == ladder.size - 1
      && ((ladder.bound > 0 && boundServed >= ladder.bound && !sticky)
          || (budget.cap > 0 && budget.count >= budget.cap))
    }

    method TopBounce(i: nat) returns (bounce: bool)
      requires i == cur
      ensures bounce <==> Bounces(View(), Reached(budget.cap, budget.count))
      ensures bounce <==> Spent()
    {
      if i != ladder.size - 1 { return false; }
      if ladder.bound > 0 && boundServed >= ladder.bound && !sticky { return true; }
      bounce := budget.Exhausted();
    }

    method AvailableNeighbour(target: nat, up: seq<bool>) returns (rung: nat, ok: bool)
      requires target < ladder.size == |up| && !up[target]
      ensures Chosen(ladder, target, up) == if ok then rung else target
    {
      if target > ladder.floor {
        rung := target;
        while rung > 0
          invariant rung <= target && LastUp(up, target) == LastUp(up, rung)
        {
          rung := rung - 1;
          if up[rung] { return rung, true; }
        }
        return 0, false;
      }
      rung := target + 1;
      while rung < ladder.size
        invariant target < rung <= ladder.size && FirstUp(up, target + 1) == FirstUp(up, rung)
      {
        if up[rung] { return rung, true; }
        rung := rung + 1;
      }
      return 0, false;
    }

    method Pick(target: nat, up: seq<bool>) returns (rung: nat)
      requires target < ladder.size == |up|
      ensures rung == Chosen(ladder, target, up) && Nearest(ladder, target, up, rung)
    {
      rung := target;
      if !up[target] {
        var alt, ok := AvailableNeighbour(target, up);
        if ok { rung := alt; }
      }
      ChosenExactly(ladder, target, up, rung);
    }

    /** One turn, with nobody between the peek and the take. */
    method NextAdapter(up: seq<bool>) returns (rung: nat)
      requires Placed(View()) && |up| == ladder.size
      modifies this, budget
      ensures Placed(View())
      ensures var w := Aimed(old(View()), Reached(budget.cap, old(budget.count)));
        && rung == Chosen(ladder, w.aim.value, up)
        && View() == Served(w, rung)
      ensures budget.count == old(budget.count) + if rung == Top(ladder) then 1 else 0
      ensures highest == if rung > old(highest) then rung else old(highest)
      ensures cur == old(cur) && sticky == old(sticky)
      ensures boundServed == old(boundServed) + if rung == ladder.size - 1 && ladder.bound > 0 then 1 else 0
      ensures Nearest(ladder, if old(Spent()) then cur - 1 else cur, up, rung)
    {
      var target := cur;
      var bounce := TopBounce(target);
      if bounce { target := target - 1; }
      rung := Pick(target, up);
      if rung == ladder.size - 1 {
        if ladder.bound > 0 { boundServed := boundServed + 1; }
        budget.Take();
      }
      if rung > highest { highest := rung; }
    }

    /** The escalations, of which those of last resort stick to the top. */
    method Escalate(stick: bool) returns (lifted: bool)
      requires Placed(View())
      modifies this
      ensures Placed(View()) && View() == Moved(old(View()), Climb(0, stick))
      ensures lifted <==> old(cur) < ladder.size - 1
      ensures cur == (if lifted then old(cur) + 1 else old(cur)) && boundServed == old(boundServed)
      ensures sticky <==> old(sticky) || (stick && lifted && cur == ladder.size - 1)
    {
      if cur >= ladder.size - 1 { return false; }
      cur := cur + 1;
      if stick && cur == ladder.size - 1 { sticky := true; }
      lifted := true;
    }

    /** A prompt too long for the floor: climb, or stick to a top whose own bound is spent. */
    method EscalateForOverflow() returns (lifted: bool)
      requires Placed(View())
      modifies this
      ensures Placed(View())
      ensures View() == Moved(old(View()), if old(cur) < Top(ladder) then Climb(0, true) else Stick(0))
      ensures cur == (if old(cur) < ladder.size - 1 then old(cur) + 1 else old(cur)) && boundServed == old(boundServed)
      ensures lifted <==>
        old(cur) < ladder.size - 1 || (ladder.bound > 0 && boundServed >= ladder.bound && !old(sticky))
      ensures sticky <==> old(sticky) || (lifted && cur == ladder.size - 1)
    {
      if cur < ladder.size - 1 {
        lifted := Escalate(true);
        return;
      }
      lifted := ladder.bound > 0 && boundServed >= ladder.bound && !sticky;
      if lifted { sticky := true; }
    }

    /** A row of clean turns goes down one rung, a rate limit all the way to the floor. */
    method DeEscalate(all: bool) returns (lowered: bool)
      requires Placed(View())
      modifies this
      ensures Placed(View()) && View() == Moved(old(View()), Descend(0, all))
      ensures lowered <==> old(cur) > ladder.floor
      ensures cur == (if !lowered then old(cur) else if all then ladder.floor else old(cur) - 1)
      ensures sticky == (old(sticky) && !lowered) && boundServed == old(boundServed)
    {
      lowered := cur > ladder.floor;
      if lowered { cur, sticky := if all then ladder.floor else cur - 1, false; }
    }
  }

  // ------------------------------------------------------- a tree of workers

  /** The strong turns taken, and the workers that exist. */
  datatype Crew = Crew(count: nat, workers: map<nat, Worker>)

  /** A worker starts in a free place; peeks; serves; climbs, sticking to the top or not;
      sticks at the top; goes down after a recovery or a rate limit. */
  datatype Step =
    | Spawn(id: nat, ladder: Ladder)
    | Peek(id: nat)
    | Serve(id: nat, up: seq<bool>)
    | Climb(id: nat, stick: bool)
    | Stick(id: nat)
    | Descend(id: nat, all: bool)

  /** What all workers of a tree share. */
  datatype Budget = Budget(cap: int, k: nat, fleet: set<Ladder>)

  predicate Between(t: Crew, id: nat) { id in t.workers && t.workers[id].aim.None? && Placed(t.workers[id]) }

  function Moved(w: Worker, step: Step): Worker {
    match step
    case Climb(_, stick) =>
      if w.cur < Top(w.ladder)
      then w.(cur := w.cur + 1, sticky := w.sticky || (stick && w.cur + 1 == Top(w.ladder))) else w
    case Stick(_) =>
      if w.cur == Top(w.ladder) && w.ladder.bound > 0 && w.served >= w.ladder.bound then w.(sticky := true) else w
    case Descend(_, all) =>
      if w.cur > w.ladder.floor then w.(cur := if all then w.ladder.floor else w.cur - 1, sticky := false) else w
    case _ => w
  }

  /** Peeking and serving are apart, so the workers interleave in between. */
  function Apply(t: Crew, b: Budget, step: Step): Crew {
    match step
    case Spawn(id, l) =>
      if id < b.k && l in b.fleet && (id in t.workers ==> Between(t, id))
      then t.(workers := t.workers[id := Fresh(l)]) else t
    case Peek(id) =>
      if Between(t, id)
      then t.(workers := t.workers[id := Aimed(t.workers[id], Reached(b.cap, t.count))]) else t
    case Serve(id, up) =>
      if id in t.workers && Ready(t.workers[id]) && up in t.workers[id].ladder.shows then
        var w := t.workers[id];
        var rung := Chosen(w.ladder, w.aim.value, up);
        Crew(if rung == Top(w.ladder) then t.count + 1 else t.count, t.workers[id := Served(w, rung)])
      else t
    case _ =>
      if Between(t, step.id) then t.(workers := t.workers[step.id := Moved(t.workers[step.id], step)]) else t
  }

  predicate Ready(w: Worker) { Placed(w) && w.aim.Some? }

  function Run(b: Budget, steps: seq<Step>): Crew {
    if steps == [] then Crew(0, map[])
    else Apply(Run(b, steps[..|steps| - 1]), b, steps[|steps| - 1])
  }

  // -------------------------------------------------------------- cold starts

  /** The lowest rung a turn can be aimed at. */
  function Lowest(l: Ladder): nat { if l.floor == Top(l) then l.floor - 1 else l.floor }

  /** Nothing from there up to the top is available, but the top is. */
  predicate ColdAt(l: Ladder, up: seq<bool>) {
    |up| == l.size && up[Top(l)] && forall i :: Lowest(l) <= i < Top(l) ==> !up[i]
  }

  predicate Cold(l: Ladder) { exists up :: up in l.shows && ColdAt(l, up) }

  predicate NoneCold(fleet: set<Ladder>) { forall l :: l in fleet ==> !Cold(l) }

  /** A turn aimed below the top is served by the top exactly in a cold start, when it was
      aimed as low as it can be. */
  lemma {:induction false} ClimbsExactly(l: Ladder, aim: nat, up: seq<bool>)
    requires Lowest(l) <= aim < Top(l) && |up| == l.size
    ensures Chosen(l, aim, up) == Top(l) <==> aim == Lowest(l) && ColdAt(l, up)
  {}

  // ---------------------------------------------------------------- the bound

  predicate AimsTop(w: Worker) { w.aim == Some(Top(w.ladder)) }

  function Aiming(t: Crew): set<nat> { set id | id in t.workers && AimsTop(t.workers[id]) }

  /** Every worker is of the fleet; and the turns served, with those about to be, pass the
      cap by less than the number of places. */
  ghost predicate Bounded(t: Crew, b: Budget) {
    && (forall id :: id in t.workers ==> id < b.k && t.workers[id].ladder in b.fleet && Placed(t.workers[id]))
    && t.count + |Aiming(t)| <= b.cap + b.k - 1
  }

  /** One worker put in place `id`. */
  lemma {:induction false} AimingPut(t: Crew, id: nat, w: Worker, count: nat)
    ensures Aiming(Crew(count, t.workers[id := w])) ==
            if AimsTop(w) then Aiming(t) + {id} else Aiming(t) - {id}
  {}

  lemma {:induction false} BoundedPut(t: Crew, b: Budget, id: nat, w: Worker, count: nat)
    requires Bounded(t, b) && id < b.k && w.ladder in b.fleet && Placed(w)
    requires AimsTop(w) ==> count < b.cap
    requires !AimsTop(w) ==> count <= t.count + if id in Aiming(t) then 1 else 0
    ensures Bounded(Crew(count, t.workers[id := w]), b)
  {
    AimingPut(t, id, w, count);
    FewAim(Aiming(t), id, b.k);
  }

  lemma {:induction false} FewAim(aiming: set<nat>, id: nat, k: nat)
    requires id < k && forall i :: i in aiming ==> i < k
    ensures |aiming + {id}| <= k
    ensures |aiming - {id}| == |aiming| - if id in aiming then 1 else 0
  {
    SubsetSize(aiming + {id}, Ids(k));
    if id !in aiming { assert aiming - {id} == aiming; }
  }

  lemma {:induction false} BoundedStep(t: Crew, b: Budget, step: Step)
    requires Bounded(t, b) && b.cap > 0 && NoneCold(b.fleet)
    ensures Bounded(Apply(t, b, step), b)
  {
    var t' := Apply(t, b, step);
    if t' != t {
      match step {
        case Spawn(id, l) => BoundedPut(t, b, id, Fresh(l), t.count);
        case Peek(id) => BoundedPut(t, b, id, t'.workers[id], t.count);
        case Serve(id, up) =>
          var w := t.workers[id];
          if !AimsTop(w) { ClimbsExactly(w.ladder, w.aim.value, up); }
          BoundedPut(t, b, id, t'.workers[id], t'.count);
        case _ => BoundedPut(t, b, step.id, t'.workers[step.id], t.count);
      }
    }
  }

  /** The peek and the take are apart, so `k` workers can serve up to `k - 1` strong turns
      more than the cap, if no ladder can start cold; */
  lemma {:induction false} StrongTurnBound(b: Budget, steps: seq<Step>)
    requires b.cap > 0 && b.k > 0 && NoneCold(b.fleet)
    ensures Bounded(Run(b, steps), b)
    ensures Run(b, steps).count <= b.cap + b.k - 1
  {
    if steps == [] {
      assert Aiming(Run(b, [])) == {};
    } else {
      StrongTurnBound(b, steps[..|steps| - 1]);
      BoundedStep(Run(b, steps[..|steps| - 1]), b, steps[|steps| - 1]);
    }
  }

  // -------------------------------------------------------- the bound is lost

  /** No worker is told to stick to the top. */
  predicate NeverSticks(steps: seq<Step>) {
    forall i :: 0 <= i < |steps| ==> !steps[i].Stick? && (steps[i].Climb? ==> !steps[i].stick)
  }

  lemma {:induction false} RunOne(b: Budget, steps: seq<Step>, step: Step)
    ensures Run(b, steps + [step]) == Apply(Run(b, steps), b, step)
  {
    assert (steps + [step])[..|steps|] == steps;
  }

  /** The worker at 0 rests on its floor, and serves a turn cold. */
  lemma {:induction false} ColdTurn(b: Budget, t: Crew, l: Ladder, up: seq<bool>)
    requires 0 in t.workers && t.workers[0].ladder == l && t.workers[0].cur == l.floor && t.workers[0].aim.None?
    requires up in l.shows && ColdAt(l, up)
    ensures var t' := Apply(Apply(t, b, Peek(0)), b, Serve(0, up));
      && 0 in t'.workers && t'.workers[0].ladder == l && t'.workers[0].cur == l.floor && t'.workers[0].aim.None?
      && t'.count == t.count + 1
      && t'.workers[0].served == t.workers[0].served + if l.bound > 0 then 1 else 0
  {
    var w := Aimed(t.workers[0], Reached(b.cap, t.count));
    assert Apply(t, b, Peek(0)).workers[0] == w;
    if w.aim.value < Top(l) { ClimbsExactly(l, w.aim.value, up); }
  }

  lemma {:induction false} ColdRun(b: Budget, l: Ladder, up: seq<bool>, n: nat) returns (steps: seq<Step>)
    requires b.k > 0 && l in b.fleet && up in l.shows && ColdAt(l, up)
    ensures NeverSticks(steps)
    ensures var t := Run(b, steps);
      && 0 in t.workers && t.workers[0].ladder == l && t.workers[0].cur == l.floor && t.workers[0].aim.None?
      && t.count == n && t.workers[0].served == if l.bound > 0 then n else 0
  {
    if n == 0 {
      steps := [Spawn(0, l)];
      RunOne(b, [], Spawn(0, l));
      assert [] + [Spawn(0, l)] == steps;
    } else {
      var before := ColdRun(b, l, up, n - 1);
      ColdTurn(b, Run(b, before), l, up);
      RunOne(b, before, Peek(0));
      RunOne(b, before + [Peek(0)], Serve(0, up));
      steps := before + [Peek(0)] + [Serve(0, up)];
    }
  }

  /** while with one that can, one worker alone serves any number of strong turns. */
  lemma {:induction false} ColdUnbounded(b: Budget, l: Ladder, n: nat) returns (steps: seq<Step>)
    requires b.k > 0 && l in b.fleet && Cold(l)
    ensures NeverSticks(steps) && Run(b, steps).count == n
  {
    var up :| up in l.shows && ColdAt(l, up);
    steps := ColdRun(b, l, up, n);
  }

  ghost predicate AlwaysWithin(b: Budget, most: int) { forall steps :: Run(b, steps).count <= most }

  /** So the bound holds of all interleavings exactly when no ladder can start cold. */
  lemma {:induction false} StrongTurnsExactly(b: Budget)
    requires b.cap > 0 && b.k > 0
    ensures AlwaysWithin(b, b.cap + b.k - 1) <==> NoneCold(b.fleet)
  {
    if NoneCold(b.fleet) {
      forall steps ensures Run(b, steps).count <= b.cap + b.k - 1 { StrongTurnBound(b, steps); }
    } else {
      var l :| l in b.fleet && Cold(l);
      var steps := ColdUnbounded(b, l, b.cap + b.k);
    }
  }

  // ------------------------------------------------------------ a worker's own

  /** The strong turns a worker has served, with the one it aims at. */
  function OwnTurns(w: Worker): nat { w.served + if AimsTop(w) then 1 else 0 }

  predicate OwnWithin(w: Worker) { w.ladder.bound > 0 ==> OwnTurns(w) <= w.ladder.bound }

  /** Every worker is of the fleet, and within its own bound. */
  ghost predicate EachWithin(t: Crew, b: Budget) {
    forall id :: id in t.workers ==>
      t.workers[id].ladder in b.fleet && Placed(t.workers[id]) && !t.workers[id].sticky && OwnWithin(t.workers[id])
  }

  lemma {:induction false} OwnStep(t: Crew, b: Budget, step: Step)
    requires EachWithin(t, b) && NeverSticks([step])
    requires forall l :: l in b.fleet && l.bound > 0 ==> !Cold(l)
    ensures EachWithin(Apply(t, b, step), b)
  {
    assert [step][0] == step;
    if step.Serve? && Apply(t, b, step) != t {
      var w := t.workers[step.id];
      if !AimsTop(w) && w.ladder.bound > 0 { ClimbsExactly(w.ladder, w.aim.value, step.up); }
    }
  }

  lemma {:induction false} OwnBound(b: Budget, steps: seq<Step>)
    requires NeverSticks(steps) && forall l :: l in b.fleet && l.bound > 0 ==> !Cold(l)
    ensures EachWithin(Run(b, steps), b)
  {
    if steps != [] {
      var n := |steps| - 1;
      OwnBound(b, steps[..n]);
      assert NeverSticks([steps[n]]);
      OwnStep(Run(b, steps[..n]), b, steps[n]);
    }
  }

  ghost predicate AlwaysOwn(b: Budget) {
    forall steps, id :: NeverSticks(steps) && id in Run(b, steps).workers ==> OwnWithin(Run(b, steps).workers[id])
  }

  /** Whatever the tree's cap, no worker that is never told to stick passes its own bound,
      exactly when no ladder with such a bound can start cold. */
  lemma {:induction false} OwnBoundExactly(b: Budget)
    requires b.k > 0
    ensures AlwaysOwn(b) <==> forall l :: l in b.fleet && l.bound > 0 ==> !Cold(l)
  {
    if forall l :: l in b.fleet && l.bound > 0 ==> !Cold(l) {
      forall steps, id | NeverSticks(steps) && id in Run(b, steps).workers
        ensures OwnWithin(Run(b, steps).workers[id])
      {
        OwnBound(b, steps);
      }
    } else {
      var l :| l in b.fleet && l.bound > 0 && Cold(l);
      var up :| up in l.shows && ColdAt(l, up);
      var steps := ColdRun(b, l, up, l.bound + 1);
      assert !OwnWithin(Run(b, steps).workers[0]);
    }
  }

  // --------------------------------------------------------- the bound is met

  /** The top can serve a turn aimed at it. */
  predicate CanServe(l: Ladder, up: seq<bool>) { up in l.shows && Chosen(l, Top(l), up) == Top(l) }

  /** Place `id` climbs to the top and peeks while the cap is not reached. */
  lemma {:induction false} ClimbsTo(b: Budget, before: seq<Step>, id: nat, l: Ladder, n: nat) returns (steps: seq<Step>)
    requires NeverSticks(before) && id < b.k && l in b.fleet && l.floor <= n <= Top(l)
    requires id in Run(b, before).workers ==> Between(Run(b, before), id)
    ensures NeverSticks(steps)
    ensures Run(b, steps) == Run(b, before).(workers := Run(b, before).workers[id := Fresh(l).(cur := n)])
    decreases n
  {
    if n == l.floor {
      steps := before + [Spawn(id, l)];
      RunOne(b, before, Spawn(id, l));
    } else {
      var lower := ClimbsTo(b, before, id, l, n - 1);
      steps := lower + [Climb(id, false)];
      RunOne(b, lower, Climb(id, false));
    }
  }

  function AtTop(l: Ladder): Worker { Fresh(l).(cur := Top(l), aim := Some(Top(l))) }

  lemma {:induction false} AimsAt(b: Budget, before: seq<Step>, id: nat, l: Ladder) returns (steps: seq<Step>)
    requires NeverSticks(before) && id < b.k && l in b.fleet && Run(b, before).count < b.cap
    requires id in Run(b, before).workers ==> Between(Run(b, before), id)
    ensures NeverSticks(steps)
    ensures Run(b, steps) == Run(b, before).(workers := Run(b, before).workers[id := AtTop(l)])
  {
    var there := ClimbsTo(b, before, id, l, Top(l));
    steps := there + [Peek(id)];
    RunOne(b, there, Peek(id));
  }

  lemma {:induction false} TakesTurn(b: Budget, before: seq<Step>, id: nat, l: Ladder, up: seq<bool>)
    returns (steps: seq<Step>)
    requires NeverSticks(before) && id in Run(b, before).workers && Run(b, before).workers[id] == AtTop(l)
    requires CanServe(l, up)
    ensures NeverSticks(steps)
    ensures var t, t' := Run(b, before), Run(b, steps);
      t'.count == t.count + 1 && t'.workers == t.workers[id := Served(AtTop(l), Top(l))]
  {
    steps := before + [Serve(id, up)];
    RunOne(b, before, Serve(id, up));
  }

  /** The worker in place 0 serves `n` turns alone, below the cap. */
  lemma {:induction false} Alone(b: Budget, l: Ladder, up: seq<bool>, n: nat) returns (steps: seq<Step>)
    requires b.k > 0 && l in b.fleet && CanServe(l, up) && n < b.cap
    ensures NeverSticks(steps)
    ensures var t := Run(b, steps); t.count == n && forall id :: id in t.workers ==> Between(t, id)
  {
    if n == 0 {
      steps := [];
    } else {
      var before := Alone(b, l, up, n - 1);
      var aiming := AimsAt(b, before, 0, l);
      steps := TakesTurn(b, aiming, 0, l, up);
    }
  }

  /** Then the first `n` workers aim at the top. */
  lemma {:induction false} AllAim(b: Budget, before: seq<Step>, l: Ladder, n: nat) returns (steps: seq<Step>)
    requires NeverSticks(before) && n <= b.k && l in b.fleet && Run(b, before).count < b.cap
    requires forall id :: id in Run(b, before).workers ==> Between(Run(b, before), id)
    ensures NeverSticks(steps) && Run(b, steps).count == Run(b, before).count
    ensures var t := Run(b, steps);
      && (forall id :: 0 <= id < n ==> id in t.workers && t.workers[id] == AtTop(l))
      && forall id :: id in t.workers && id >= n ==> Between(t, id)
  {
    if n == 0 {
      steps := before;
    } else {
      var fewer := AllAim(b, before, l, n - 1);
      steps := AimsAt(b, fewer, n - 1, l);
    }
  }

  /** And they all serve, whatever the count has become. */
  lemma {:induction false} AllServe(b: Budget, before: seq<Step>, l: Ladder, up: seq<bool>, n: nat)
    returns (steps: seq<Step>)
    requires NeverSticks(before) && CanServe(l, up)
    requires forall id :: 0 <= id < n ==> id in Run(b, before).workers && Run(b, before).workers[id] == AtTop(l)
    ensures NeverSticks(steps) && Run(b, steps).count == Run(b, before).count + n
    decreases n
  {
    if n == 0 {
      steps := before;
    } else {
      var one := TakesTurn(b, before, n - 1, l, up);
      steps := AllServe(b, one, l, up, n - 1);
    }
  }

  /** Whenever some top can serve at all, some interleaving serves `cap + k - 1` turns. */
  lemma {:induction false} StrongTurnBoundMet(b: Budget, l: Ladder, up: seq<bool>) returns (steps: seq<Step>)
    requires b.cap > 0 && b.k > 0 && l in b.fleet && CanServe(l, up)
    ensures NeverSticks(steps) && Run(b, steps).count == b.cap + b.k - 1
  {
    var alone := Alone(b, l, up, b.cap - 1);
    var aiming := AllAim(b, alone, l, b.k);
    steps := AllServe(b, aiming, l, up, b.k);
  }
}
