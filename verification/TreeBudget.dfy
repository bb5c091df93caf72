/** The budgets shared across a spawn tree, and how far loops that check first and pay
    later can overshoot them (internal/cost/cost.go). */
module TreeBudget {

  /** A cap that is not positive bounds nothing. */
  predicate Reached(cap: int, count: int) { cap > 0 && count >= cap }

  predicate OverCeiling(ceiling: real, total: real) { ceiling > 0.0 && total >= ceiling }

  class Meter {
    const ceiling: real
    var total: real

    constructor (ceiling: real)
      ensures this.ceiling == ceiling && total == 0.0
    {
      this.ceiling, total := ceiling, 0.0;
    }

    method Add(usd: real) returns (sum: real)
      modifies this
      ensures total == old(total) + usd && sum == total
    {
      total := total + usd;
      sum := total;
    }

    method Exceeded() returns (over: bool)
      ensures over <==> OverCeiling(ceiling, total)
    {
      if ceiling <= 0.0 { return false; }
      over := total >= ceiling;
    }
  }

  class SpawnBudget {
    const cap: int
    var count: nat

    constructor (cap: int)
      ensures this.cap == cap && count == 0
    {
      this.cap, count := cap, 0;
    }

    method Reserve() returns (ok: bool)
      modifies this
      ensures ok <==> !Reached(cap, old(count))
      ensures count == Reserved(cap, old(count))
    {
      if cap > 0 && count >= cap { return false; }
      count := count + 1;
      ok := true;
    }
  }

  class StrongTurnBudget {
    const cap: int
    var count: nat

    constructor (cap: int)
      ensures this.cap == cap && count == 0
    {
      this.cap, count := cap, 0;
    }

    method Exhausted() returns (spent: bool)
      ensures spent <==> Reached(cap, count)
    {
      if cap <= 0 { return false; }
      spent := count >= cap;
    }

    method Take()
      modifies this
      ensures count == old(count) + 1
    {
      count := count + 1;
    }
  }

  // ------------------------------------------------------ reserving is atomic

  function Reserved(cap: int, count: nat): nat { if Reached(cap, count) then count else count + 1 }

  /** The count after `n` attempts to reserve, whoever made them. */
  function Attempts(cap: int, n: nat): nat {
    if n == 0 then 0 else Reserved(cap, Attempts(cap, n - 1))
  }

  /** Every attempt up to the cap is granted, and none beyond it. */
  lemma {:induction false} SpawnsExactly(cap: int, n: nat)
    ensures Attempts(cap, n) == if cap <= 0 || n <= cap then n else cap
  {
    if n > 0 { SpawnsExactly(cap, n - 1); }
  }

  // ----------------------------------------------- loops that check, then pay

  /** `k` loops share a meter: each checks it, makes its call, and adds the cost. */
  datatype Step = Check(id: nat) | Pay(id: nat, usd: real)

  /** The costs paid so far, in order, and the loops between their check and their pay. */
  datatype Tree = Tree(costs: seq<real>, flying: set<nat>)

  function Sum(costs: seq<real>): real {
    if costs == [] then 0.0 else Sum(costs[..|costs| - 1]) + costs[|costs| - 1]
  }

  /** A loop checks only between calls, and goes on only under the ceiling. */
  function Apply(t: Tree, ceiling: real, k: nat, step: Step): Tree {
    match step
    case Check(id) =>
      if id < k && id !in t.flying && !OverCeiling(ceiling, Sum(t.costs)) then t.(flying := t.flying + {id}) else t
    case Pay(id, usd) =>
      if id in t.flying then Tree(t.costs + [usd], t.flying - {id}) else t
  }

  function Run(ceiling: real, k: nat, steps: seq<Step>): Tree {
    if steps == [] then Tree([], {})
    else Apply(Run(ceiling, k, steps[..|steps| - 1]), ceiling, k, steps[|steps| - 1])
  }

  /** All but the last `n` costs were under the ceiling, and `n` with the loops in
      flight are no more than `k`. */
  ghost predicate Late(t: Tree, ceiling: real, k: nat, n: nat) {
    n + |t.flying| <= k && n <= |t.costs| && Sum(t.costs[..|t.costs| - n]) < ceiling
  }

  function Ids(k: nat): (s: set<nat>)
    ensures forall i: nat :: i in s <==> i < k
    ensures |s| == k
  {
    if k == 0 then {} else Ids(k - 1) + {k - 1}
  }

  lemma {:induction false} SubsetSize(a: set<nat>, b: set<nat>)
    requires a <= b
    ensures |a| <= |b|
  {
    if a != {} {
      var x :| x in a;
      SubsetSize(a - {x}, b - {x});
    }
  }

  lemma {:induction false} FlyingBound(t: Tree, k: nat)
    requires forall i :: i in t.flying ==> i < k
    ensures |t.flying| <= k
  {
    SubsetSize(t.flying, Ids(k));
  }

  lemma {:induction false} LateStep(t: Tree, ceiling: real, k: nat, step: Step, n: nat) returns (n': nat)
    requires (forall i :: i in t.flying ==> i < k) && Late(t, ceiling, k, n) && ceiling > 0.0
    ensures var t' := Apply(t, ceiling, k, step);
      (forall i :: i in t'.flying ==> i < k) && Late(t', ceiling, k, n')
  {
    var t' := Apply(t, ceiling, k, step);
    n' := n;
    if t' != t {
      match step {
        case Check(id) =>
          FlyingBound(t', k);
          assert t.costs[..|t.costs| - 0] == t.costs;
          n' := 0;
        case Pay(id, usd) =>
          assert t'.costs[..|t'.costs| - (n + 1)] == t.costs[..|t.costs| - n];
          n' := n + 1;
      }
    }
  }

  lemma {:induction false} LateRun(ceiling: real, k: nat, steps: seq<Step>) returns (n: nat)
    requires ceiling > 0.0
    ensures var t := Run(ceiling, k, steps);
      (forall i :: i in t.flying ==> i < k) && Late(t, ceiling, k, n)
  {
    if steps == [] {
      n := 0;
    } else {
      var before := steps[..|steps| - 1];
      var m := LateRun(ceiling, k, before);
      n := LateStep(Run(ceiling, k, before), ceiling, k, steps[|steps| - 1], m);
    }
  }

  /** Without its last `n` calls the tree is under the ceiling. */
  ghost predicate UnderBut(costs: seq<real>, ceiling: real, n: nat) {
    n <= |costs| && Sum(costs) < ceiling + Sum(costs[|costs| - n..])
  }

  /** However the `k` loops interleave, what is spent without the last few calls, at most
      `k` of them, is under the ceiling. */
  lemma {:induction false} MeterOvershoot(ceiling: real, k: nat, steps: seq<Step>)
    requires ceiling > 0.0
    ensures exists n: nat :: n <= k && UnderBut(Run(ceiling, k, steps).costs, ceiling, n)
  {
    var n := LateRun(ceiling, k, steps);
    WithoutLast(Run(ceiling, k, steps).costs, ceiling, n);
  }

  lemma {:induction false} WithoutLast(costs: seq<real>, ceiling: real, n: nat)
    requires n <= |costs| && Sum(costs[..|costs| - n]) < ceiling
    ensures UnderBut(costs, ceiling, n)
  {
    SumConcat(costs[..|costs| - n], costs[|costs| - n..]);
    assert costs == costs[..|costs| - n] + costs[|costs| - n..];
  }

  lemma {:induction false} SumConcat(a: seq<real>, b: seq<real>)
    ensures Sum(a + b) == Sum(a) + Sum(b)
  {
    if b == [] {
      assert a + b == a;
    } else {
      SumConcat(a, b[..|b| - 1]);
      assert (a + b)[..|a + b| - 1] == a + b[..|b| - 1];
    }
  }

  lemma {:induction false} SumAtMost(costs: seq<real>, most: real)
    requires forall i :: 0 <= i < |costs| ==> costs[i] <= most
    ensures Sum(costs) <= |costs| as real * most
  {
    if costs != [] { SumAtMost(costs[..|costs| - 1], most); }
  }

  /** In money: no call costs more than `most`, so the ceiling is passed by less than
      `k` such calls; by less than one when there is one loop. */
  lemma {:induction false} MeterOvershootAmount(ceiling: real, k: nat, steps: seq<Step>, most: real)
    requires ceiling > 0.0 && most >= 0.0
    requires forall i :: 0 <= i < |Run(ceiling, k, steps).costs| ==> Run(ceiling, k, steps).costs[i] <= most
    ensures Sum(Run(ceiling, k, steps).costs) < ceiling + k as real * most
  {
    MeterOvershoot(ceiling, k, steps);
    var costs := Run(ceiling, k, steps).costs;
    var n: nat :| n <= k && UnderBut(costs, ceiling, n);
    CostOfLast(costs, ceiling, n, k, most);
  }

  lemma {:induction false} CostOfLast(costs: seq<real>, ceiling: real, n: nat, k: nat, most: real)
    requires UnderBut(costs, ceiling, n) && n <= k && most >= 0.0
    requires forall i :: 0 <= i < |costs| ==> costs[i] <= most
    ensures Sum(costs) < ceiling + k as real * most
  {
    var last := costs[|costs| - n..];
    SumAtMost(last, most);
    assert |last| == n;
    Scale(n as real, k as real, most);
  }

  lemma {:induction false} Scale(a: real, b: real, x: real)
    requires a <= b && x >= 0.0
    ensures a * x <= b * x
  {}

  lemma {:induction false} RunOne(ceiling: real, k: nat, steps: seq<Step>, step: Step)
    ensures Run(ceiling, k, steps + [step]) == Apply(Run(ceiling, k, steps), ceiling, k, step)
  {
    assert (steps + [step])[..|steps|] == steps;
  }

  lemma {:induction false} SumOne(costs: seq<real>, usd: real)
    ensures Sum(costs + [usd]) == Sum(costs) + usd
  {
    assert (costs + [usd])[..|costs|] == costs;
  }

  predicate AllWithin(costs: seq<real>, most: real) { forall i :: 0 <= i < |costs| ==> 0.0 <= costs[i] <= most }

  /** The cost of `n` equal calls. */
  function Times(n: nat, usd: real): real { if n == 0 then 0.0 else Times(n - 1, usd) + usd }

  lemma {:induction false} TimesIs(n: nat, usd: real)
    ensures Times(n, usd) == n as real * usd
  {
    if n > 0 {
      TimesIs(n - 1, usd);
      OneMore((n - 1) as real, usd);
    }
  }

  lemma {:induction false} OneMore(a: real, x: real)
    ensures (a + 1.0) * x == a * x + x
  {}

  /** One loop makes `n` calls alone, each checked while under the ceiling. */
  lemma {:induction false} Solo(ceiling: real, k: nat, usd: real, most: real, n: nat) returns (steps: seq<Step>)
    requires k > 0 && 0.0 <= usd <= most && (ceiling <= 0.0 || Times(n, usd) < ceiling)
    ensures var t := Run(ceiling, k, steps);
      t.flying == {} && AllWithin(t.costs, most) && Sum(t.costs) == Times(n, usd)
  {
    if n == 0 {
      steps := [];
    } else {
      var before := Solo(ceiling, k, usd, most, n - 1);
      RunOne(ceiling, k, before, Check(0));
      RunOne(ceiling, k, before + [Check(0)], Pay(0, usd));
      SumOne(Run(ceiling, k, before).costs, usd);
      steps := before + [Check(0)] + [Pay(0, usd)];
    }
  }

  /** All `n` first loops check while the sum is under the ceiling. */
  lemma {:induction false} AllCheck(ceiling: real, k: nat, before: seq<Step>, n: nat) returns (steps: seq<Step>)
    requires n <= k && Run(ceiling, k, before).flying == {} && !OverCeiling(ceiling, Sum(Run(ceiling, k, before).costs))
    ensures Run(ceiling, k, steps) == Tree(Run(ceiling, k, before).costs, Ids(n))
  {
    if n == 0 {
      steps := before;
    } else {
      var most := AllCheck(ceiling, k, before, n - 1);
      RunOne(ceiling, k, most, Check(n - 1));
      steps := most + [Check(n - 1)];
    }
  }

  /** Then they all pay, whatever the sum has become. */
  function AllPaid(t: Tree, n: nat, usd: real): Tree
    decreases n
  {
    if n == 0 then t else AllPaid(Tree(t.costs + [usd], t.flying - {n - 1}), n - 1, usd)
  }

  function Copies(n: nat, usd: real): (costs: seq<real>)
    ensures |costs| == n && forall i :: 0 <= i < n ==> costs[i] == usd
  {
    seq(n, _ => usd)
  }

  lemma {:induction false} CopiesSum(n: nat, usd: real)
    ensures Sum(Copies(n, usd)) == Times(n, usd)
  {
    if n > 0 {
      CopiesSum(n - 1, usd);
      assert Copies(n, usd)[..n - 1] == Copies(n - 1, usd);
    }
  }

  lemma {:induction false} AllPaidCosts(t: Tree, n: nat, usd: real)
    ensures AllPaid(t, n, usd).costs == t.costs + Copies(n, usd)
    decreases n
  {
    if n > 0 {
      AllPaidCosts(Tree(t.costs + [usd], t.flying - {n - 1}), n - 1, usd);
      assert [usd] + Copies(n - 1, usd) == Copies(n, usd);
      assert t.costs + [usd] + Copies(n - 1, usd) == t.costs + ([usd] + Copies(n - 1, usd));
    }
  }

  lemma {:induction false} AllPay(ceiling: real, k: nat, before: seq<Step>, n: nat, usd: real)
    returns (steps: seq<Step>)
    requires Run(ceiling, k, before).flying == Ids(n)
    ensures Run(ceiling, k, steps) == AllPaid(Run(ceiling, k, before), n, usd)
    decreases n
  {
    if n == 0 {
      steps := before;
    } else {
      var next := before + [Pay(n - 1, usd)];
      RunOne(ceiling, k, before, Pay(n - 1, usd));
      assert Run(ceiling, k, next).flying == Ids(n - 1);
      steps := AllPay(ceiling, k, next, n - 1, usd);
    }
  }

  /** Enough calls of `usd` reach past any amount. */
  lemma {:induction false} Enough(amount: real, usd: real) returns (n: nat)
    requires amount >= 0.0 && usd > 0.0
    ensures n > 0 && n as real * usd > amount
  {
    var q := amount / usd;
    Quotient(amount, usd, q);
    n := q.Floor + 1;
    Above(q, n as real, usd);
  }

  lemma {:induction false} Quotient(a: real, b: real, q: real)
    requires a >= 0.0 && b > 0.0 && q == a / b
    ensures q >= 0.0 && q * b == a
  {}

  lemma {:induction false} Above(a: real, b: real, x: real)
    requires a < b && x > 0.0
    ensures a * x < b * x
  {}

  lemma {:induction false} Share(n: real, usd: real, most: real)
    requires n > 0.0 && usd * n < n * most
    ensures usd < most
  {
    if usd >= most { Scale(most, usd, n); }
  }

  /** Equal calls within `most` that add up to `base`. */
  lemma {:induction false} Shares(base: real, most: real) returns (n: nat, usd: real)
    requires base >= 0.0 && most > 0.0
    ensures 0.0 <= usd <= most && Times(n, usd) == base
  {
    n := Enough(base, most);
    usd := base / n as real;
    Quotient(base, n as real, usd);
    Share(n as real, usd, most);
    TimesIs(n, usd);
  }

  /** The bound is tight: some interleaving passes the ceiling by all but an arbitrarily
      small part of `k` of the dearest calls. */
  lemma {:induction false} MeterOvershootMet(ceiling: real, k: nat, most: real, slack: real) returns (steps: seq<Step>)
    requires ceiling > 0.0 && k > 0 && most > 0.0 && slack > 0.0
    ensures var costs := Run(ceiling, k, steps).costs;
      AllWithin(costs, most) && Sum(costs) > ceiling + k as real * most - slack
  {
    var base := if ceiling > slack / 2.0 then ceiling - slack / 2.0 else 0.0;
    var n, usd := Shares(base, most);
    var alone := Solo(ceiling, k, usd, most, n);
    var checked := AllCheck(ceiling, k, alone, k);
    steps := AllPay(ceiling, k, checked, k, most);
    AllPaidCosts(Run(ceiling, k, checked), k, most);
    SumConcat(Run(ceiling, k, checked).costs, Copies(k, most));
    CopiesSum(k, most);
    TimesIs(k, most);
  }

  /** Without a ceiling some interleaving passes any amount. */
  lemma {:induction false} NoCeiling(ceiling: real, k: nat, usd: real, amount: real) returns (steps: seq<Step>)
    requires ceiling <= 0.0 && k > 0 && usd > 0.0
    ensures Sum(Run(ceiling, k, steps).costs) > amount
  {
    if amount < 0.0 {
      steps := [];
    } else {
      var n := Enough(amount, usd);
      TimesIs(n, usd);
      steps := Solo(ceiling, k, usd, usd, n);
    }
  }
}
