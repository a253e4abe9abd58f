/** Rounds of `SpiritAllocator`: one price search per VM, fallback to the last allocation, and
  the integers that are deployed. */
module Auction {
  import opened Basics
  import opened RealMath
  import opened Sweep
  import opened PriceSearch

  const MAX_ITERATION := 20
  const CONFLICT_THRESHOLD := 3

  /** Megabytes and megabits per second. */
  datatype Deployed = Deployed(cache: int, memBw: int)

  function Deploy(share: Bundle, scale: Bundle): Deployed
  {
    Deployed(Trunc(share.cache * scale.cache), Trunc(share.memBw * scale.memBw * 1024.0))
  }

  /** The VM map: every application runs on one VM, once. */
  predicate Partition(vms: seq<seq<int>>)
  {
    forall i, j, k, l :: 0 <= i < |vms| && 0 <= j < |vms| && 0 <= k < |vms[i]| && 0 <= l < |vms[j]| && vms[i][k] == vms[j][l] ==>
      i == j && k == l
  }

  predicate NonNegativeOn(users: seq<int>, alloc: map<int, Bundle>)
    requires Covers(alloc, users)
  {
    forall k :: 0 <= k < |users| ==> alloc[users[k]].cache >= 0.0 && alloc[users[k]].memBw >= 0.0
  }

  predicate Fits(users: seq<int>, alloc: map<int, Bundle>)
  {
    Covers(alloc, users) && !Over(Total(users, alloc)) && NonNegativeOn(users, alloc)
  }

  /** Shares of exactly these applications, none of them negative. */
  predicate IsFor(users: seq<int>, alloc: map<int, Bundle>)
  {
    Covers(alloc, users) && NonNegativeOn(users, alloc) && forall u :: u in alloc ==> exists k :: 0 <= k < |users| && users[k] == u
  }

  predicate AllFit(vms: seq<seq<int>>, alloc: map<int, Bundle>)
  {
    forall i :: 0 <= i < |vms| ==> Fits(vms[i], alloc)
  }

  predicate AgreesOn(users: seq<int>, a: map<int, Bundle>, b: map<int, Bundle>)
  {
    Covers(a, users) && Covers(b, users) && forall k :: 0 <= k < |users| ==> a[users[k]] == b[users[k]]
  }

  lemma {:induction false} SameTotal(users: seq<int>, a: map<int, Bundle>, b: map<int, Bundle>)
    requires AgreesOn(users, a, b)
    ensures Total(users, a) == Total(users, b)
  {
    if users != [] {
      SameTotal(users[1..], a, b);
    }
  }

  lemma SameFits(users: seq<int>, a: map<int, Bundle>, b: map<int, Bundle>)
    requires AgreesOn(users, a, b) && Fits(users, b)
    ensures Fits(users, a)
  {
    SameTotal(users, a, b);
  }

  // ----- the outcome of one price search ------------------------------------------

  /** The evaluation after which the search ends, from the n-th on. */
  function FirstStop(users: seq<int>, demand: Oracle, n: nat): (k: nat)
    requires Answers(users, demand) && 1 <= n <= MAX_ITERATION + MAXIMUM_RETRY + 1
    ensures n <= k <= MAX_ITERATION + MAXIMUM_RETRY + 1
    decreases MAX_ITERATION + MAXIMUM_RETRY + 1 - n
  {
    if StopsAt(users, demand, MAX_ITERATION, n) then n else FirstStop(users, demand, n + 1)
  }

  lemma {:induction false} FirstStopIsFirst(users: seq<int>, demand: Oracle, n: nat)
    requires Answers(users, demand) && 1 <= n <= MAX_ITERATION + MAXIMUM_RETRY + 1
    ensures StopsAt(users, demand, MAX_ITERATION, FirstStop(users, demand, n))
    ensures forall i :: n <= i < FirstStop(users, demand, n) ==> !StopsAt(users, demand, MAX_ITERATION, i)
    decreases MAX_ITERATION + MAXIMUM_RETRY + 1 - n
  {
    hide ConvergedAt, UsageAt, Over, BracketAt;
    if !StopsAt(users, demand, MAX_ITERATION, n) {
      FirstStopIsFirst(users, demand, n + 1);
    }
  }

  /** The search ends with the n-th evaluation: no earlier one converged or, from the iteration
    limit on, fitted; this one does, or the retries are used up. */
  predicate EndsWith(users: seq<int>, demand: Oracle, n: nat)
    requires Answers(users, demand) && n >= 1
  {
    && (forall i :: 1 <= i < n ==> !ConvergedAt(users, demand, i) && (i >= MAX_ITERATION ==> Over(UsageAt(users, demand, i))))
    && (|| ConvergedAt(users, demand, n)
        || (n >= MAX_ITERATION && !Over(UsageAt(users, demand, n)))
        || n == MAX_ITERATION + MAXIMUM_RETRY + 1)
  }

  lemma SearchEndsWith(users: seq<int>, demand: Oracle)
    requires Answers(users, demand)
    ensures EndsWith(users, demand, FirstStop(users, demand, 1))
  {
    hide ConvergedAt, UsageAt, Over, FirstStop;
    FirstStopIsFirst(users, demand, 1);
    var n := FirstStop(users, demand, 1);
    forall i | 1 <= i < n ensures !ConvergedAt(users, demand, i) && (i >= MAX_ITERATION ==> Over(UsageAt(users, demand, i))) {
      assert !StopsAt(users, demand, MAX_ITERATION, i);
    }
  }

  lemma StopsOrContinues(users: seq<int>, demand: Oracle, n: nat)
    requires Answers(users, demand) && 1 <= n <= MAX_ITERATION + MAXIMUM_RETRY + 1
    ensures StopsAt(users, demand, MAX_ITERATION, n) ==> FirstStop(users, demand, n) == n
    ensures !StopsAt(users, demand, MAX_ITERATION, n) ==>
              n <= MAX_ITERATION + MAXIMUM_RETRY && FirstStop(users, demand, n) == FirstStop(users, demand, n + 1)
  {
  }

  lemma StartsWhole(users: seq<int>, demand: Oracle)
    requires Answers(users, demand)
    ensures BracketAt(users, demand, 0) == WHOLE_LINE
  {
  }

  /** One pass of the loop computes the n-th evaluation. */
  lemma EvaluationAt(users: seq<int>, demand: Oracle, n: nat, price: Bundle)
    requires Answers(users, demand) && n >= 1 && price == Mid(BracketAt(users, demand, n - 1))
    ensures Covers(Ask(demand, n, price).alloc, users)
    ensures PriceAt(users, demand, n) == price && LimitsAt(users, demand, n) == Ask(demand, n, price).limits
    ensures UsageAt(users, demand, n) == Total(users, Ask(demand, n, price).alloc)
    ensures BracketAt(users, demand, n) == Moved(BracketAt(users, demand, n - 1), UsageAt(users, demand, n), LimitsAt(users, demand, n))
  {
  }

  /** The evaluation a search ends with, what was demanded in it, and whether that fits. */
  function LastAnswer(users: seq<int>, demand: Oracle): map<int, Bundle>
    requires Answers(users, demand)
  {
    var n := FirstStop(users, demand, 1);
    Ask(demand, n, PriceAt(users, demand, n)).alloc
  }

  predicate EndsFitting(users: seq<int>, demand: Oracle)
    requires Answers(users, demand)
  {
    !Over(UsageAt(users, demand, FirstStop(users, demand, 1)))
  }

  ghost predicate AnswersFor(users: seq<int>, demand: Oracle)
  {
    && Answers(users, demand)
    && forall n, p :: IsFor(users, Ask(demand, n, p).alloc)
  }

  /** Every application holds its own demand of the search's last evaluation if these demands fit,
    and its previous share otherwise. */
  ghost predicate HoldsOutcome(users: seq<int>, demand: Oracle, last: map<int, Bundle>, alloc: map<int, Bundle>)
    requires Answers(users, demand)
  {
    AgreesOn(users, alloc, if EndsFitting(users, demand) then LastAnswer(users, demand) else last)
  }

  lemma LastAnswerIs(users: seq<int>, demand: Oracle)
    requires AnswersFor(users, demand)
    ensures IsFor(users, LastAnswer(users, demand)) && (EndsFitting(users, demand) ==> Fits(users, LastAnswer(users, demand)))
  {
  }

  lemma OutcomeFits(users: seq<int>, demand: Oracle, last: map<int, Bundle>, alloc: map<int, Bundle>)
    requires AnswersFor(users, demand) && Fits(users, last) && HoldsOutcome(users, demand, last, alloc)
    ensures Fits(users, alloc)
  {
    hide LastAnswer, EndsFitting, Fits;
    LastAnswerIs(users, demand);
    SameFits(users, alloc, if EndsFitting(users, demand) then LastAnswer(users, demand) else last);
  }

  /** The search loop: it ends at the first evaluation that settles it. */
  method Search(users: seq<int>, demand: Oracle)
    returns (alloc: map<int, Bundle>, iterations: nat, bracket: Bracket, settled: bool, fits: bool)
    requires Answers(users, demand)
    ensures iterations == FirstStop(users, demand, 1) && EndsWith(users, demand, iterations)
    ensures alloc == Ask(demand, iterations, PriceAt(users, demand, iterations)).alloc
    ensures bracket == BracketAt(users, demand, iterations)
    ensures settled <==> ConvergedAt(users, demand, iterations)
    ensures fits <==> !Over(UsageAt(users, demand, iterations))
  {
    hide FirstStop, BracketAt, PriceAt, UsageAt, LimitsAt, TotalAt, Total, Moved, Mid, Over, Answers, Limited, EndsWith;
    StartsWhole(users, demand);
    bracket, iterations := WHOLE_LINE, 0;
    while true
      invariant iterations <= MAX_ITERATION + MAXIMUM_RETRY
      invariant bracket == BracketAt(users, demand, iterations)
      invariant FirstStop(users, demand, 1) == FirstStop(users, demand, iterations + 1)
      decreases MAX_ITERATION + MAXIMUM_RETRY - iterations
    {
      iterations := iterations + 1;
      var price := Mid(bracket);
      EvaluationAt(users, demand, iterations, price);
      StopsOrContinues(users, demand, iterations);
      var answer := Ask(demand, iterations, price);
      alloc := answer.alloc;
      var usage := Total(users, alloc);
      bracket := Moved(bracket, usage, answer.limits);
      settled, fits := Converged(usage, answer.limits), !Over(usage);
      if settled || (iterations >= MAX_ITERATION && fits) || iterations > MAX_ITERATION + MAXIMUM_RETRY {
        SearchEndsWith(users, demand);
        return;
      }
    }
  }

  // ----- deployed totals ----------------------------------------------------------

  function DeployedTotal(users: seq<int>, d: map<int, Deployed>): Deployed
    requires Covers(d, users)
  {
    if users == [] then Deployed(0, 0)
    else
      var rest := DeployedTotal(users[1..], d);
      Deployed(d[users[0]].cache + rest.cache, d[users[0]].memBw + rest.memBw)
  }

  predicate TotalFits(d: Deployed, scale: Bundle)
  {
    && d.cache as real <= (1.0 + FLOAT_PRECISION) * scale.cache
    && d.memBw as real <= (1.0 + FLOAT_PRECISION) * (scale.memBw * 1024.0)
  }

  /** The integers of every VM together stay within its resources, up to the precision. */
  predicate DeploymentFits(vms: seq<seq<int>>, d: map<int, Deployed>, scale: Bundle)
  {
    forall i :: 0 <= i < |vms| ==>
      && Covers(d, vms[i])
      && TotalFits(DeployedTotal(vms[i], d), scale)
  }

  /** What is deployed is the share of the resource, less a fraction of a unit. */
  lemma DeployRoundsDown(b: Bundle, scale: Bundle)
    requires b.cache >= 0.0 && b.memBw >= 0.0 && scale.cache >= 0.0 && scale.memBw >= 0.0
    ensures Deploy(b, scale).cache as real <= Times(b.cache, scale.cache) < Deploy(b, scale).cache as real + 1.0
    ensures Deploy(b, scale).memBw as real <= Times(b.memBw, scale.memBw * 1024.0) < Deploy(b, scale).memBw as real + 1.0
  {
  }

  lemma {:induction false} DeployedAtMostShares(users: seq<int>, alloc: map<int, Bundle>, d: map<int, Deployed>, scale: Bundle)
    requires Covers(alloc, users) && Covers(d, users) && scale.cache >= 0.0 && scale.memBw >= 0.0
    requires NonNegativeOn(users, alloc)
    requires forall k :: 0 <= k < |users| ==> d[users[k]] == Deploy(alloc[users[k]], scale)
    ensures DeployedTotal(users, d).cache as real <= Times(Total(users, alloc).cache, scale.cache)
    ensures DeployedTotal(users, d).memBw as real <= Times(Total(users, alloc).memBw, scale.memBw * 1024.0)
  {
    hide Deploy, Times;
    if users != [] {
      var b, rest := alloc[users[0]], Total(users[1..], alloc);
      var d0, dRest := d[users[0]], DeployedTotal(users[1..], d);
      DeployRoundsDown(b, scale);
      DeployedAtMostShares(users[1..], alloc, d, scale);
      AddScaled(d0.cache, dRest.cache, b.cache, rest.cache, scale.cache);
      AddScaled(d0.memBw, dRest.memBw, b.memBw, rest.memBw, scale.memBw * 1024.0);
    } else {
      NothingScaled(scale.cache);
      NothingScaled(scale.memBw * 1024.0);
    }
  }

  lemma NothingScaled(c: real)
    ensures Times(0.0, c) == 0.0
  {
  }

  lemma AddScaled(m: int, n: int, a: real, b: real, c: real)
    requires m as real <= Times(a, c) && n as real <= Times(b, c)
    ensures (m + n) as real <= Times(a + b, c)
  {
  }

  lemma FitsDeploys(users: seq<int>, alloc: map<int, Bundle>, d: map<int, Deployed>, scale: Bundle)
    requires Fits(users, alloc) && Covers(d, users) && scale.cache >= 0.0 && scale.memBw >= 0.0
    requires forall k :: 0 <= k < |users| ==> d[users[k]] == Deploy(alloc[users[k]], scale)
    ensures TotalFits(DeployedTotal(users, d), scale)
  {
    DeployedAtMostShares(users, alloc, d, scale);
    var t := Total(users, alloc);
    hide DeployedTotal, Total, Covers, Deploy;
    BoundScaled(DeployedTotal(users, d).cache as real, t.cache, 1.0 + FLOAT_PRECISION, scale.cache);
    BoundScaled(DeployedTotal(users, d).memBw as real, t.memBw, 1.0 + FLOAT_PRECISION, scale.memBw * 1024.0);
  }

  lemma BoundScaled(x: real, t: real, c: real, s: real)
    requires x <= Times(t, s) && t <= c && s >= 0.0
    ensures x <= Times(c, s)
  {
  }

  // ----- equal shares -------------------------------------------------------------

  function EqualShare(n: nat): Bundle
    requires n > 0
  {
    Bundle(1.0 / n as real, 1.0 / n as real)
  }

  lemma {:induction false} TotalOfEqual(users: seq<int>, alloc: map<int, Bundle>, x: real)
    requires Covers(alloc, users) && forall k :: 0 <= k < |users| ==> alloc[users[k]] == Bundle(x, x)
    ensures Total(users, alloc).cache == |users| as real * x && Total(users, alloc).memBw == |users| as real * x
  {
    if users != [] {
      TotalOfEqual(users[1..], alloc, x);
      assert (|users| - 1) as real * x + x == |users| as real * x;
    }
  }

  lemma EqualSharesFit(users: seq<int>, alloc: map<int, Bundle>)
    requires Covers(alloc, users) && forall k :: 0 <= k < |users| ==> alloc[users[k]] == EqualShare(|users|)
    ensures Fits(users, alloc)
    ensures users != [] ==> Total(users, alloc) == Bundle(1.0, 1.0)
  {
    if users != [] {
      var n := |users| as real;
      assert n * (1.0 / n) == 1.0;
      TotalOfEqual(users, alloc, 1.0 / n);
    }
  }

  // ----- the allocator ------------------------------------------------------------

  /** How a round gets its allocation. */
  datatype Round = Static | Dynamic(demands: nat -> Oracle)

  ghost predicate RoundAnswers(vms: seq<seq<int>>, round: Round)
  {
    round.Dynamic? ==> forall i :: 0 <= i < |vms| ==> AnswersFor(vms[i], DemandOf(round.demands, i))
  }

  function DemandOf(demands: nat -> Oracle, i: nat): Oracle
  {
    demands(i)
  }

  /** What is deployed, for all these VMs, is the truncation of share times scale. */
  predicate IsDeployment(vms: seq<seq<int>>, d: map<int, Deployed>, alloc: map<int, Bundle>, scale: Bundle)
  {
    && (forall u :: u in d ==> u in alloc && d[u] == Deploy(alloc[u], scale))
    && (forall i :: 0 <= i < |vms| ==> Covers(d, vms[i]))
  }

  /** The first n VMs hold the outcome of their own search, the others what they held before. */
  ghost predicate Processed(vms: seq<seq<int>>, demands: nat -> Oracle, last: map<int, Bundle>, n: nat, alloc: map<int, Bundle>)
    requires RoundAnswers(vms, Dynamic(demands)) && n <= |vms|
  {
    && alloc.Keys == last.Keys
    && (forall j :: 0 <= j < n ==> HoldsOutcome(vms[j], DemandOf(demands, j), last, alloc))
    && (forall j :: n <= j < |vms| ==> AgreesOn(vms[j], alloc, last))
  }

  /** Storing the result of VM n's search changes that VM's shares to its outcome and those of
    no other VM, also when the result is the whole last allocation. */
  lemma ProcessedNext(vms: seq<seq<int>>, demands: nat -> Oracle, last: map<int, Bundle>, n: nat, before: map<int, Bundle>, result: map<int, Bundle>)
    requires Partition(vms) && n < |vms| && RoundAnswers(vms, Dynamic(demands)) && Processed(vms, demands, last, n, before)
    requires result == if EndsFitting(vms[n], DemandOf(demands, n)) then LastAnswer(vms[n], DemandOf(demands, n)) else before
    ensures Covers(result, vms[n]) && Processed(vms, demands, last, n + 1, before + result)
  {
    hide LastAnswer, EndsFitting, Partition, AgreesOn, Covers, IsFor, Ask;
    LastAnswerIs(vms[n], DemandOf(demands, n));
    OwnVm(vms[n], before, result, last);
    forall j | 0 <= j < n ensures HoldsOutcome(vms[j], DemandOf(demands, j), last, before + result) {
      var demand := DemandOf(demands, j);
      OtherVm(vms, n, j, before, result, if EndsFitting(vms[j], demand) then LastAnswer(vms[j], demand) else last);
    }
    forall j | n < j < |vms| ensures AgreesOn(vms[j], before + result, last) {
      OtherVm(vms, n, j, before, result, last);
    }
  }

  lemma ProcessedNone(vms: seq<seq<int>>, demands: nat -> Oracle, last: map<int, Bundle>)
    requires RoundAnswers(vms, Dynamic(demands)) && AllFit(vms, last)
    ensures Processed(vms, demands, last, 0, last)
  {
  }

  lemma ProcessedAll(vms: seq<seq<int>>, demands: nat -> Oracle, last: map<int, Bundle>, alloc: map<int, Bundle>)
    requires RoundAnswers(vms, Dynamic(demands)) && AllFit(vms, last) && Processed(vms, demands, last, |vms|, alloc)
    ensures AllFit(vms, alloc)
  {
    hide HoldsOutcome, AgreesOn, Fits, IsFor, Ask;
    forall j | 0 <= j < |vms| ensures Fits(vms[j], alloc) {
      OutcomeFits(vms[j], DemandOf(demands, j), last, alloc);
    }
  }

  lemma CanAnswer(vms: seq<seq<int>>, demands: nat -> Oracle, i: nat)
    requires RoundAnswers(vms, Dynamic(demands)) && i < |vms|
    ensures Answers(vms[i], DemandOf(demands, i))
  {
  }

  lemma OwnVm(vm: seq<int>, before: map<int, Bundle>, result: map<int, Bundle>, last: map<int, Bundle>)
    requires AgreesOn(vm, before, last) && (result == before || IsFor(vm, result))
    ensures (before + result).Keys == before.Keys && Covers(result, vm)
    ensures AgreesOn(vm, before + result, result) && (result == before ==> AgreesOn(vm, before + result, last))
  {
    forall u | u in result ensures u in before {
      if result != before {
        var k :| 0 <= k < |vm| && vm[k] == u;
      }
    }
  }

  lemma OtherVm(vms: seq<seq<int>>, i: nat, j: nat, before: map<int, Bundle>, result: map<int, Bundle>, m: map<int, Bundle>)
    requires Partition(vms) && i < |vms| && j < |vms| && i != j
    requires (result == before || IsFor(vms[i], result)) && AgreesOn(vms[j], before, m)
    ensures AgreesOn(vms[j], before + result, m)
  {
  }

  lemma StartsDeployed(vms: seq<seq<int>>, alloc: map<int, Bundle>, scale: Bundle)
    requires vms == []
    ensures IsDeployment(vms, map[], alloc, scale)
  {
  }

  lemma StillDeployed(vms: seq<seq<int>>, vm: seq<int>, before: map<int, Bundle>, result: map<int, Bundle>, d: map<int, Deployed>, scale: Bundle)
    requires IsDeployment(vms, d, before, scale) && Covers(result, vm)
    ensures IsDeployment(vms + [vm], d + (map u | u in result :: Deploy(result[u], scale)), before + result, scale)
  {
  }

  lemma EmptyVm(vms: seq<seq<int>>, demands: nat -> Oracle, last: map<int, Bundle>, n: nat, alloc: map<int, Bundle>, d: map<int, Deployed>, scale: Bundle)
    requires n < |vms| && vms[n] == [] && RoundAnswers(vms, Dynamic(demands)) && Processed(vms, demands, last, n, alloc)
    requires IsDeployment(vms[..n], d, alloc, scale)
    ensures Processed(vms, demands, last, n + 1, alloc) && IsDeployment(vms[..n] + [vms[n]], d, alloc, scale)
  {
  }

  class SpiritAllocator {
    const scale: Bundle
    var lastAllocation: map<int, Bundle>
    var lastStatic: Option<map<int, Bundle>>
    var numConflict: nat

    constructor (scale: Bundle)
      ensures this.scale == scale && lastAllocation == map[] && lastStatic == None && numConflict == 0
    {
      this.scale := scale;
      lastAllocation, lastStatic, numConflict := map[], None, 0;
    }

    /** `allocate`: the demands the search ended with if they fit, else the whole last
      allocation, with the conflicts in a row counted. */
    method Allocate(users: seq<int>, demand: Oracle) returns (result: map<int, Bundle>, iterations: nat, converged: bool, bracket: Bracket)
      requires Answers(users, demand)
      modifies this`numConflict
      ensures iterations == FirstStop(users, demand, 1) && EndsWith(users, demand, iterations)
      ensures converged <==> !Over(UsageAt(users, demand, iterations))
      ensures converged ==> result == Ask(demand, iterations, PriceAt(users, demand, iterations)).alloc
      ensures !converged ==> result == lastAllocation
      ensures bracket == BracketAt(users, demand, iterations)
      ensures numConflict ==
              if ConvergedAt(users, demand, iterations) then 0
              else if converged then old(numConflict)
              else if old(numConflict) + 1 > CONFLICT_THRESHOLD then 0
              else old(numConflict) + 1
    {
      hide FirstStop, BracketAt, PriceAt, UsageAt, LimitsAt, Over, Answers, EndsWith;
      var settled;
      result, iterations, bracket, settled, converged := Search(users, demand);
      if settled {
        numConflict := 0;
      } else if !converged {
        numConflict := numConflict + 1;
        if numConflict > CONFLICT_THRESHOLD {
          numConflict := 0;
        }
        result := lastAllocation;
      }
    }

    /** The per-VM static round: equal shares on every VM. */
    method AllocateStatic(vms: seq<seq<int>>) returns (allocation: map<int, Deployed>)
      requires Partition(vms)
      modifies this
      ensures AllFit(vms, lastAllocation) && numConflict == old(numConflict)
      ensures HasEqualShares(vms, lastAllocation)
      ensures lastStatic == Some(lastAllocation)
      ensures allocation == map u | u in lastAllocation :: Deploy(lastAllocation[u], scale)
    {
      lastAllocation, allocation := map[], map[];
      for i := 0 to |vms|
        invariant numConflict == old(numConflict)
        invariant forall j, k :: 0 <= j < i && 0 <= k < |vms[j]| ==>
                    vms[j][k] in lastAllocation && lastAllocation[vms[j][k]] == EqualShare(|vms[j]|)
        invariant allocation == map u | u in lastAllocation :: Deploy(lastAllocation[u], scale)
      {
        for k := 0 to |vms[i]|
          invariant numConflict == old(numConflict)
          invariant forall j, l :: 0 <= j <= i && 0 <= l < (if j < i then |vms[j]| else k) ==>
                      vms[j][l] in lastAllocation && lastAllocation[vms[j][l]] == EqualShare(|vms[j]|)
          invariant allocation == map u | u in lastAllocation :: Deploy(lastAllocation[u], scale)
        {
          var user, n := vms[i][k], |vms[i]|;
          StaticDeploy(scale, n);
          allocation := allocation[user := Deployed(Trunc(scale.cache / n as real), Trunc(scale.memBw / n as real * 1024.0))];
          lastAllocation := lastAllocation[user := EqualShare(n)];
        }
      }
      forall i | 0 <= i < |vms| ensures Fits(vms[i], lastAllocation) {
        EqualSharesFit(vms[i], lastAllocation);
      }
      lastStatic := Some(lastAllocation);
    }

    /** The per-VM dynamic round: each VM gets the outcome of its own search, and what is
      deployed is the truncation of share times scale. */
    method AllocateDynamic(vms: seq<seq<int>>, demands: nat -> Oracle) returns (allocation: map<int, Deployed>)
      requires Partition(vms) && AllFit(vms, lastAllocation) && RoundAnswers(vms, Dynamic(demands))
      modifies this
      ensures lastStatic == old(lastStatic)
      ensures Processed(vms, demands, old(lastAllocation), |vms|, lastAllocation)
      ensures AllFit(vms, lastAllocation)
      ensures IsDeployment(vms, allocation, lastAllocation, scale)
    {
      hide *;
      ghost var last := lastAllocation;
      allocation := map[];
      ProcessedNone(vms, demands, last);
      StartsDeployed(vms[..0], last, scale);
      for i := 0 to |vms|
        invariant lastStatic == old(lastStatic)
        invariant Processed(vms, demands, last, i, lastAllocation)
        invariant IsDeployment(vms[..i], allocation, lastAllocation, scale)
      {
        assert vms[..i + 1] == vms[..i] + [vms[i]];
        if vms[i] == [] {
          EmptyVm(vms, demands, last, i, lastAllocation, allocation, scale);
          continue;
        }
        ghost var before := lastAllocation;
        CanAnswer(vms, demands, i);
        var result, iterations, converged, bracket := Allocate(vms[i], DemandOf(demands, i));
        SearchEnds(vms[i], DemandOf(demands, i));
        ProcessedNext(vms, demands, last, i, before, result);
        StillDeployed(vms[..i], vms[i], before, result, allocation, scale);
        lastAllocation := lastAllocation + result;
        allocation := allocation + map u | u in result :: Deploy(result[u], scale);
      }
      assert vms[..|vms|] == vms;
      ProcessedAll(vms, demands, last, lastAllocation);
    }

    /** `start`: a static round, then any sequence of rounds.  Every round leaves equal shares or
      the outcomes of its searches on what the round before it left, and deploys them; on every
      VM the shares and the deployed integers of every round fit. */
    method Start(vms: seq<seq<int>>, rounds: seq<Round>) returns (deployments: seq<map<int, Deployed>>, shares: seq<map<int, Bundle>>)
      requires Partition(vms) && scale.cache >= 0.0 && scale.memBw >= 0.0
      requires forall k :: 0 <= k < |rounds| ==> RoundAnswers(vms, rounds[k])
      modifies this
      ensures |deployments| == |shares| == |rounds| + 1 && lastAllocation == shares[|rounds|]
      ensures HasEqualShares(vms, shares[0])
      ensures forall k :: 0 <= k < |rounds| ==> IsRoundOf(vms, rounds[k], shares[k], shares[k + 1])
      ensures forall k :: 0 <= k <= |rounds| ==> IsDeployment(vms, deployments[k], shares[k], scale) && AllFit(vms, shares[k])
      ensures forall k :: 0 <= k <= |rounds| ==> DeploymentFits(vms, deployments[k], scale)
    {
      hide *;
      var allocation := AllocateStatic(vms);
      StaticIsDeployment(vms, lastAllocation, scale);
      FeasibleDeploys(vms, allocation, lastAllocation, scale);
      deployments, shares := [allocation], [lastAllocation];
      for i := 0 to |rounds|
        invariant |deployments| == |shares| == i + 1 && lastAllocation == shares[i] && HasEqualShares(vms, shares[0])
        invariant forall k :: 0 <= k < i ==> IsRoundOf(vms, rounds[k], shares[k], shares[k + 1])
        invariant forall k :: 0 <= k <= i ==> IsDeployment(vms, deployments[k], shares[k], scale) && AllFit(vms, shares[k])
        invariant forall k :: 0 <= k <= i ==> DeploymentFits(vms, deployments[k], scale)
      {
        ghost var before := lastAllocation;
        if rounds[i].Static? {
          allocation := AllocateStatic(vms);
          StaticIsDeployment(vms, lastAllocation, scale);
        } else {
          DynamicIs(rounds[i]);
          allocation := AllocateDynamic(vms, rounds[i].demands);
        }
        RoundIs(vms, rounds[i], before, lastAllocation);
        FeasibleDeploys(vms, allocation, lastAllocation, scale);
        deployments, shares := deployments + [allocation], shares + [lastAllocation];
      }
    }
  }

  /** The shares of a static round. */
  predicate HasEqualShares(vms: seq<seq<int>>, alloc: map<int, Bundle>)
  {
    forall i, k :: 0 <= i < |vms| && 0 <= k < |vms[i]| ==> vms[i][k] in alloc && alloc[vms[i][k]] == EqualShare(|vms[i]|)
  }

  ghost predicate IsRoundOf(vms: seq<seq<int>>, round: Round, before: map<int, Bundle>, after: map<int, Bundle>)
    requires RoundAnswers(vms, round)
  {
    if round.Static? then HasEqualShares(vms, after) else Processed(vms, round.demands, before, |vms|, after)
  }

  lemma DynamicIs(round: Round)
    requires round.Dynamic?
    ensures round == Dynamic(round.demands)
  {
  }

  lemma RoundIs(vms: seq<seq<int>>, round: Round, before: map<int, Bundle>, after: map<int, Bundle>)
    requires RoundAnswers(vms, round)
    requires if round.Static? then HasEqualShares(vms, after)
             else round == Dynamic(round.demands) && Processed(vms, round.demands, before, |vms|, after)
    ensures IsRoundOf(vms, round, before, after)
  {
  }

  lemma SearchEnds(users: seq<int>, demand: Oracle)
    requires Answers(users, demand)
    ensures EndsFitting(users, demand) <==> !Over(UsageAt(users, demand, FirstStop(users, demand, 1)))
    ensures LastAnswer(users, demand) == Ask(demand, FirstStop(users, demand, 1), PriceAt(users, demand, FirstStop(users, demand, 1))).alloc
  {
  }

  lemma FeasibleDeploys(vms: seq<seq<int>>, d: map<int, Deployed>, alloc: map<int, Bundle>, scale: Bundle)
    requires AllFit(vms, alloc) && IsDeployment(vms, d, alloc, scale) && scale.cache >= 0.0 && scale.memBw >= 0.0
    ensures DeploymentFits(vms, d, scale)
  {
    hide Deploy, Total, DeployedTotal, Over, NonNegativeOn, TotalFits;
    forall i | 0 <= i < |vms| ensures TotalFits(DeployedTotal(vms[i], d), scale) {
      forall k | 0 <= k < |vms[i]| ensures d[vms[i][k]] == Deploy(alloc[vms[i][k]], scale) {
        var u := vms[i][k];
        assert u in d;
      }
      FitsDeploys(vms[i], alloc, d, scale);
    }
  }

  lemma StaticIsDeployment(vms: seq<seq<int>>, alloc: map<int, Bundle>, scale: Bundle)
    requires AllFit(vms, alloc)
    ensures IsDeployment(vms, map u | u in alloc :: Deploy(alloc[u], scale), alloc, scale)
  {
  }

  lemma StaticDeploy(scale: Bundle, n: nat)
    requires n > 0
    ensures Deploy(EqualShare(n), scale) == Deployed(Trunc(scale.cache / n as real), Trunc(scale.memBw / n as real * 1024.0))
  {
  }
}
