/** The batch scheduler (services/registry.go, SmartScheduler.MatchBatch). */
module Scheduler {
  import opened Registry
  import opened Sums

  datatype Monitor = Monitor(id: string, targetURL: string)

  const DOMAIN_CAP := 5

  /** One assignment, in the order the scheduler made it. */
  datatype Pick = Pick(domain: string, node: string, monitor: Monitor)

  /** The scheduler's working state inside a batch. `last` survives the batch; `picks` is the history
      of every assignment ever made, so that rotation can be stated across batches. */
  datatype Batch = Batch(taken: map<string, Monitor>, counts: map<string, int>,
                         last: map<string, string>, picks: seq<Pick>)

  function Min(a: int, b: int): int {
    if a < b then a else b
  }

  /** Go's zero values for missing map keys. */
  function CountOf(counts: map<string, int>, d: string): int {
    if d in counts then counts[d] else 0
  }

  function LastOf(last: map<string, string>, d: string): string {
    if d in last then last[d] else ""
  }

  predicate Eligible(node: string, taken: map<string, Monitor>, last: string) {
    node !in taken && node != last
  }

  /** The first node from position `i` on that is idle and is not the domain's last one. */
  function FirstEligible(order: seq<string>, taken: map<string, Monitor>, last: string, i: nat): (r: nat)
    requires i <= |order|
    ensures i <= r <= |order|
    ensures forall j :: i <= j < r ==> !Eligible(order[j], taken, last)
    ensures r < |order| ==> Eligible(order[r], taken, last)
    decreases |order| - i
  {
    if i == |order| || Eligible(order[i], taken, last) then i
    else FirstEligible(order, taken, last, i + 1)
  }

  function Step(clean: string -> string, order: seq<string>, b: Batch, m: Monitor): Batch {
    var d := clean(m.targetURL);
    var i := FirstEligible(order, b.taken, LastOf(b.last, d), 0);
    if CountOf(b.counts, d) >= DOMAIN_CAP || i == |order| then b
    else Batch(b.taken[order[i] := m], b.counts[d := CountOf(b.counts, d) + 1],
               b.last[d := order[i]], b.picks + [Pick(d, order[i], m)])
  }

  function Start(last: map<string, string>, history: seq<Pick>): Batch {
    Batch(map[], map[], last, history)
  }

  function Match(clean: string -> string, order: seq<string>, b: Batch, ms: seq<Monitor>): Batch {
    if ms == [] then b
    else Step(clean, order, Match(clean, order, b, ms[..|ms| - 1]), ms[|ms| - 1])
  }

  function Pubkeys(nodes: seq<ActiveNode>): (r: seq<string>)
    ensures |r| == |nodes| && forall i :: 0 <= i < |r| ==> r[i] == nodes[i].pubkey
  {
    seq(|nodes|, i requires 0 <= i < |nodes| => nodes[i].pubkey)
  }

  class SmartScheduler {
    const registry: MemoryRegistry
    const cleanDomain: string -> string
    var lastUsedNodes: map<string, string>

    constructor (registry: MemoryRegistry, cleanDomain: string -> string)
      ensures this.registry == registry && this.cleanDomain == cleanDomain && lastUsedNodes == map[]
    {
      this.registry := registry;
      this.cleanDomain := cleanDomain;
      lastUsedNodes := map[];
    }

    /** `order` is the order in which the registry happened to list the online nodes. */
    method MatchBatch(monitors: seq<Monitor>, now: int)
      returns (assignments: map<string, Monitor>, ghost order: seq<ActiveNode>)
      requires registry.Valid()
      modifies this`lastUsedNodes
      ensures Lists(registry.nodes, now, order)
      ensures var b := Match(cleanDomain, Pubkeys(order), Start(old(lastUsedNodes), []), monitors);
        assignments == b.taken && lastUsedNodes == b.last
    {
      assignments := map[];
      var domainCounts: map<string, int> := map[];
      var onlineNodes := registry.GetOnlineNodes(now);
      order := onlineNodes;
      ghost var keys := Pubkeys(order);
      ghost var start := Start(lastUsedNodes, []);
      if |onlineNodes| == 0 {
        NobodyOnline(cleanDomain, keys, start, monitors);
        return;
      }
      for k := 0 to |monitors|
        invariant var b := Match(cleanDomain, keys, start, monitors[..k]);
          assignments == b.taken && domainCounts == b.counts && lastUsedNodes == b.last
      {
        var m := monitors[k];
        var domain := cleanDomain(m.targetURL);
        ghost var before := Match(cleanDomain, keys, start, monitors[..k]);
        MatchSnoc(cleanDomain, keys, start, monitors, k);
        if CountOf(domainCounts, domain) >= DOMAIN_CAP {
          continue;
        }
        ghost var first := FirstEligible(keys, before.taken, LastOf(before.last, domain), 0);
        var i := 0;
        while i < |onlineNodes|
          invariant 0 <= i <= first
          invariant assignments == before.taken && domainCounts == before.counts && lastUsedNodes == before.last
        {
          var node := onlineNodes[i];
          if node.pubkey !in assignments {
            var last := LastOf(lastUsedNodes, domain);
            if node.pubkey != last {
              assert first == i;
              assignments := assignments[node.pubkey := m];
              domainCounts := domainCounts[domain := CountOf(domainCounts, domain) + 1];
              lastUsedNodes := lastUsedNodes[domain := node.pubkey];
              break;
            }
          }
          i := i + 1;
        }
      }
      assert monitors[..|monitors|] == monitors;
    }
  }

  lemma MatchSnoc(clean: string -> string, order: seq<string>, b: Batch, ms: seq<Monitor>, k: nat)
    requires k < |ms|
    ensures Match(clean, order, b, ms[..k + 1]) == Step(clean, order, Match(clean, order, b, ms[..k]), ms[k])
  {
    assert ms[..k + 1][..k] == ms[..k];
  }

  /** The early return for an empty registry computes what the loop would have. */
  lemma {:induction false} NobodyOnline(clean: string -> string, order: seq<string>, b: Batch, ms: seq<Monitor>)
    requires order == []
    ensures Match(clean, order, b, ms) == b
  {
    if ms != [] {
      NobodyOnline(clean, order, b, ms[..|ms| - 1]);
    }
  }

  // ---------------------------------------------------------------- matching size

  /** Positions of the list whose monitor belongs to domain `d`. */
  ghost function Listed(clean: string -> string, ms: seq<Monitor>, d: string): set<int> {
    set i | 0 <= i < |ms| && clean(ms[i].targetURL) == d
  }

  ghost function Domains(clean: string -> string, ms: seq<Monitor>): set<string> {
    set i | 0 <= i < |ms| :: clean(ms[i].targetURL)
  }

  /** Per domain, how many of its listed monitors the cap lets through. */
  ghost function Quotas(clean: string -> string, ms: seq<Monitor>): map<string, int> {
    map d | d in Domains(clean, ms) :: Min(5, |Listed(clean, ms, d)|)
  }

  /** The nodes a batch gave to domain `d`. */
  ghost function NodesOf(clean: string -> string, taken: map<string, Monitor>, d: string): set<string> {
    set n | n in taken && clean(taken[n].targetURL) == d
  }

  lemma ListedGrows(clean: string -> string, ms: seq<Monitor>, d: string)
    requires ms != []
    ensures var n := |ms| - 1;
      Listed(clean, ms, d) == Listed(clean, ms[..n], d) + (if clean(ms[n].targetURL) == d then {n} else {})
  {
  }

  lemma ListedSize(clean: string -> string, ms: seq<Monitor>, d: string)
    requires ms != []
    ensures var n := |ms| - 1;
      |Listed(clean, ms, d)| == |Listed(clean, ms[..n], d)| + (if clean(ms[n].targetURL) == d then 1 else 0)
  {
    ListedGrows(clean, ms, d);
  }

  /** `counts` counts the nodes of each domain, and adds up to the whole assignment. */
  ghost predicate Tally(clean: string -> string, taken: map<string, Monitor>, counts: map<string, int>) {
    && |taken| == Sum(counts)
    && forall d :: |NodesOf(clean, taken, d)| == CountOf(counts, d)
  }

  /** No domain gets more than its quota. */
  ghost predicate WithinQuota(clean: string -> string, ms: seq<Monitor>, counts: map<string, int>) {
    forall d :: d in counts ==> 1 <= counts[d] <= Min(5, |Listed(clean, ms, d)|)
  }

  /** What every batch keeps, for every list and every node order. */
  ghost predicate Consistent(clean: string -> string, order: seq<string>, ms: seq<Monitor>, b: Batch) {
    && b.taken.Keys <= (set n | n in order)
    && Tally(clean, b.taken, b.counts)
    && WithinQuota(clean, ms, b.counts)
  }

  /** A domain that got less than its quota has nothing left to take: every idle node is its last one. */
  ghost predicate Stuck(clean: string -> string, order: seq<string>, ms: seq<Monitor>, b: Batch) {
    forall d, n | d in Domains(clean, ms) && n in order && n !in b.taken ::
      CountOf(b.counts, d) < Min(5, |Listed(clean, ms, d)|) ==> n == LastOf(b.last, d)
  }

  lemma NodesOfStep(clean: string -> string, taken: map<string, Monitor>, n: string, m: Monitor, d: string)
    requires n !in taken
    ensures |NodesOf(clean, taken[n := m], d)| ==
      |NodesOf(clean, taken, d)| + (if d == clean(m.targetURL) then 1 else 0)
  {
    var before, after := NodesOf(clean, taken, d), NodesOf(clean, taken[n := m], d);
    if d == clean(m.targetURL) {
      assert after == before + {n};
    } else {
      assert after == before;
    }
  }

  lemma TallyStep(clean: string -> string, taken: map<string, Monitor>, counts: map<string, int>, n: string, m: Monitor)
    requires Tally(clean, taken, counts)
    requires n !in taken
    ensures var d := clean(m.targetURL); Tally(clean, taken[n := m], counts[d := CountOf(counts, d) + 1])
  {
    var d := clean(m.targetURL);
    var taken', counts' := taken[n := m], counts[d := CountOf(counts, d) + 1];
    SumUpdate(counts, d, CountOf(counts, d) + 1);
    forall e ensures |NodesOf(clean, taken', e)| == CountOf(counts', e) {
      NodesOfStep(clean, taken, n, m, e);
    }
  }

  lemma QuotaStep(clean: string -> string, ms: seq<Monitor>, counts: map<string, int>)
    requires ms != []
    requires WithinQuota(clean, ms[..|ms| - 1], counts)
    ensures WithinQuota(clean, ms, counts)
    ensures var d := clean(ms[|ms| - 1].targetURL);
      CountOf(counts, d) < 5 ==> WithinQuota(clean, ms, counts[d := CountOf(counts, d) + 1])
  {
    forall e ensures |Listed(clean, ms, e)| == |Listed(clean, ms[..|ms| - 1], e)|
        + (if e == clean(ms[|ms| - 1].targetURL) then 1 else 0)
    {
      ListedSize(clean, ms, e);
    }
  }

  /** The two things a step can do. */
  lemma StepCases(clean: string -> string, order: seq<string>, b: Batch, m: Monitor)
    ensures var (d, b') := (clean(m.targetURL), Step(clean, order, b, m));
      b' == b || exists n :: n in order && Picked(b, m, d, n, b')
  {
    var i := FirstEligible(order, b.taken, LastOf(b.last, clean(m.targetURL)), 0);
    if i < |order| && CountOf(b.counts, clean(m.targetURL)) < 5 {
      assert order[i] in order;
      assert Picked(b, m, clean(m.targetURL), order[i], Step(clean, order, b, m));
    }
  }

  /** `b'` is `b` with the idle node `n`, not the last one of domain `d`, given to `m`. */
  ghost predicate Picked(b: Batch, m: Monitor, d: string, n: string, b': Batch) {
    && Eligible(n, b.taken, LastOf(b.last, d))
    && CountOf(b.counts, d) < 5
    && b' == Batch(b.taken[n := m], b.counts[d := CountOf(b.counts, d) + 1], b.last[d := n], b.picks + [Pick(d, n, m)])
  }

  lemma PickedConsistent(clean: string -> string, order: seq<string>, ms: seq<Monitor>, b: Batch, n: string, b': Batch)
    requires ms != []
    requires Consistent(clean, order, ms[..|ms| - 1], b)
    requires n in order && Picked(b, ms[|ms| - 1], clean(ms[|ms| - 1].targetURL), n, b')
    ensures Consistent(clean, order, ms, b')
  {
    QuotaStep(clean, ms, b.counts);
    TallyStep(clean, b.taken, b.counts, n, ms[|ms| - 1]);
  }

  lemma StepConsistent(clean: string -> string, order: seq<string>, ms: seq<Monitor>, b: Batch)
    requires ms != []
    requires Consistent(clean, order, ms[..|ms| - 1], b)
    ensures Consistent(clean, order, ms, Step(clean, order, b, ms[|ms| - 1]))
  {
    var m := ms[|ms| - 1];
    var b' := Step(clean, order, b, m);
    StepCases(clean, order, b, m);
    if b' != b {
      var n :| n in order && Picked(b, m, clean(m.targetURL), n, b');
      PickedConsistent(clean, order, ms, b, n, b');
    } else {
      QuotaStep(clean, ms, b.counts);
    }
  }

  lemma StepStuck(clean: string -> string, order: seq<string>, ms: seq<Monitor>, b: Batch)
    requires ms != []
    requires Consistent(clean, order, ms[..|ms| - 1], b)
    requires Stuck(clean, order, ms[..|ms| - 1], b)
    ensures Stuck(clean, order, ms, Step(clean, order, b, ms[|ms| - 1]))
  {
    var p, m := ms[..|ms| - 1], ms[|ms| - 1];
    var b' := Step(clean, order, b, m);
    forall d, n | d in Domains(clean, ms) && n in order && n !in b'.taken
      && CountOf(b'.counts, d) < Min(5, |Listed(clean, ms, d)|)
      ensures n == LastOf(b'.last, d)
    {
      ListedSize(clean, ms, d);
      var i := FirstEligible(order, b.taken, LastOf(b.last, d), 0);
      if d != clean(m.targetURL) {
        assert exists j :: 0 <= j < |p| && clean(p[j].targetURL) == d;
        assert d in Domains(clean, p);
      } else if i == |order| {
        assert !Eligible(n, b.taken, LastOf(b.last, d));
      }
    }
  }

  lemma {:induction false} MatchInvariant(clean: string -> string, order: seq<string>, ms: seq<Monitor>,
                                          last: map<string, string>, history: seq<Pick>)
    ensures var b := Match(clean, order, Start(last, history), ms);
      && Consistent(clean, order, ms, b)
      && Stuck(clean, order, ms, b)
  {
    var start := Start(last, history);
    if ms == [] {
      forall d ensures |NodesOf(clean, start.taken, d)| == 0 {
        assert NodesOf(clean, start.taken, d) == {};
      }
      assert Domains(clean, ms) == {};
    } else {
      var p := ms[..|ms| - 1];
      MatchInvariant(clean, order, p, last, history);
      StepConsistent(clean, order, ms, Match(clean, order, start, p));
      StepStuck(clean, order, ms, Match(clean, order, start, p));
    }
  }

  /** The entry at position `k` after the entries before it were served: it gets the first idle node that its domain
      did not use last, unless its domain has five nodes already or no such node is left, and nothing else changes. */
  lemma GreedyExactly(clean: string -> string, order: seq<string>, ms: seq<Monitor>,
                      last: map<string, string>, history: seq<Pick>, k: nat)
    requires k < |ms|
    ensures var (before, after, d) := (Match(clean, order, Start(last, history), ms[..k]),
                                       Match(clean, order, Start(last, history), ms[..k + 1]), clean(ms[k].targetURL));
      if |NodesOf(clean, before.taken, d)| < 5 && exists j :: FirstIdle(order, before, d, j)
      then exists j :: FirstIdle(order, before, d, j) && Gives(before, after, d, order[j], ms[k])
      else after.taken == before.taken && after.last == before.last && after.picks == before.picks
  {
    var before := Match(clean, order, Start(last, history), ms[..k]);
    var d := clean(ms[k].targetURL);
    MatchInvariant(clean, order, ms[..k], last, history);
    MatchSnoc(clean, order, Start(last, history), ms, k);
    var i := FirstEligible(order, before.taken, LastOf(before.last, d), 0);
    if i < |order| {
      assert FirstIdle(order, before, d, i);
    } else {
      assert forall j :: 0 <= j < |order| ==> order[j] in before.taken || order[j] == LastOf(before.last, d);
    }
  }

  /** `order[j]` is idle and not the domain's last node, and no node before it is both. */
  ghost predicate FirstIdle(order: seq<string>, b: Batch, d: string, j: int) {
    && 0 <= j < |order| && order[j] !in b.taken && order[j] != LastOf(b.last, d)
    && forall i :: 0 <= i < j ==> order[i] in b.taken || order[i] == LastOf(b.last, d)
  }

  ghost predicate Gives(before: Batch, after: Batch, d: string, node: string, m: Monitor) {
    && after.taken == before.taken[node := m] && after.last == before.last[d := node]
    && after.picks == before.picks + [Pick(d, node, m)]
  }

  /** First come, first served: later entries of the list take nothing from earlier ones. */
  lemma {:induction false} EarlierFirst(clean: string -> string, order: seq<string>, ms: seq<Monitor>,
                                        last: map<string, string>, history: seq<Pick>, k: nat)
    requires k <= |ms|
    ensures var (early, all) := (Match(clean, order, Start(last, history), ms[..k]),
                                 Match(clean, order, Start(last, history), ms));
      && early.picks <= all.picks
      && forall n :: n in early.taken ==> n in all.taken && all.taken[n] == early.taken[n]
  {
    if k == |ms| {
      assert ms[..k] == ms;
    } else {
      var n := |ms| - 1;
      EarlierFirst(clean, order, ms[..n], last, history, k);
      assert ms[..n][..k] == ms[..k];
      StepCases(clean, order, Match(clean, order, Start(last, history), ms[..n]), ms[n]);
    }
  }

  ghost predicate Distinct(order: seq<string>) {
    forall i, j :: 0 <= i < j < |order| ==> order[i] != order[j]
  }

  lemma {:induction false} DistinctSize(order: seq<string>)
    requires Distinct(order)
    ensures |set n | n in order| == |order|
  {
    if order != [] {
      var k := |order| - 1;
      DistinctSize(order[..k]);
      assert (set n | n in order) == (set n | n in order[..k]) + {order[k]};
    } else {
      assert (set n | n in order) == {};
    }
  }

  lemma QuotaBoundsBatch(clean: string -> string, order: seq<string>, ms: seq<Monitor>, b: Batch)
    requires Consistent(clean, order, ms, b)
    ensures |b.taken| <= Sum(Quotas(clean, ms))
  {
    var quotas := Quotas(clean, ms);
    forall d | d in b.counts ensures d in quotas && b.counts[d] <= quotas[d] {
      var i :| i in Listed(clean, ms, d);
    }
    SumDominated(b.counts, quotas);
  }

  lemma SaturatedBatch(clean: string -> string, order: seq<string>, ms: seq<Monitor>, b: Batch)
    requires Consistent(clean, order, ms, b)
    requires forall d :: d in Domains(clean, ms) ==> Quotas(clean, ms)[d] <= CountOf(b.counts, d)
    ensures Sum(Quotas(clean, ms)) <= |b.taken|
  {
    var quotas := Quotas(clean, ms);
    forall d | d in quotas ensures d in b.counts && quotas[d] <= b.counts[d] {
      var i :| 0 <= i < |ms| && clean(ms[i].targetURL) == d;
      assert i in Listed(clean, ms, d);
    }
    SumDominated(quotas, b.counts);
  }

  lemma UnsaturatedBatch(clean: string -> string, order: seq<string>, ms: seq<Monitor>, b: Batch, d: string)
    requires Distinct(order)
    requires Consistent(clean, order, ms, b)
    requires Stuck(clean, order, ms, b)
    requires d in Domains(clean, ms) && CountOf(b.counts, d) < Quotas(clean, ms)[d]
    ensures |order| - 1 <= |b.taken|
  {
    var nodes := set n | n in order;
    DistinctSize(order);
    assert nodes - b.taken.Keys <= {LastOf(b.last, d)};
    SubsetSize(nodes - b.taken.Keys, {LastOf(b.last, d)});
  }

  lemma NodesBoundBatch(order: seq<string>, taken: map<string, Monitor>)
    requires Distinct(order)
    requires taken.Keys <= (set n | n in order)
    ensures |taken| <= |order|
  {
    DistinctSize(order);
    SubsetSize(taken.Keys, set n | n in order);
  }

  /** The matching is near-maximal: within the number of nodes and the total quota, and short of
      the smaller of the two by at most the one node a domain may be unable to use. */
  lemma MatchNearMaximal(clean: string -> string, order: seq<string>, ms: seq<Monitor>,
                         last: map<string, string>, history: seq<Pick>)
    requires Distinct(order)
    ensures var size := |Match(clean, order, Start(last, history), ms).taken|;
      Min(|order| - 1, Sum(Quotas(clean, ms))) <= size <= Min(|order|, Sum(Quotas(clean, ms)))
  {
    var b := Match(clean, order, Start(last, history), ms);
    MatchInvariant(clean, order, ms, last, history);
    NodesBoundBatch(order, b.taken);
    QuotaBoundsBatch(clean, order, ms, b);
    LowerBound(clean, order, ms, b);
  }

  lemma LowerBound(clean: string -> string, order: seq<string>, ms: seq<Monitor>, b: Batch)
    requires Distinct(order)
    requires Consistent(clean, order, ms, b)
    requires Stuck(clean, order, ms, b)
    ensures |order| - 1 <= |b.taken| || Sum(Quotas(clean, ms)) <= |b.taken|
  {
    if d :| d in Domains(clean, ms) && CountOf(b.counts, d) < Quotas(clean, ms)[d] {
      UnsaturatedBatch(clean, order, ms, b, d);
    } else {
      SaturatedBatch(clean, order, ms, b);
    }
  }

  lemma {:induction false} SubsetSize<T>(a: set<T>, b: set<T>)
    requires a <= b
    ensures |a| <= |b|
  {
    if a != {} {
      var x :| x in a;
      SubsetSize(a - {x}, b - {x});
    }
  }

  /** Monitors of pairwise different domains, each of which was served last by the same node. */
  ghost predicate SameLast(clean: string -> string, ms: seq<Monitor>, last: map<string, string>, node: string) {
    && (forall i, j :: 0 <= i < j < |ms| ==> clean(ms[i].targetURL) != clean(ms[j].targetURL))
    && (forall i :: 0 <= i < |ms| ==> LastOf(last, clean(ms[i].targetURL)) == node)
  }

  lemma StepAvoids(clean: string -> string, order: seq<string>, b: Batch, m: Monitor, node: string)
    requires node !in b.taken && LastOf(b.last, clean(m.targetURL)) == node
    ensures node !in Step(clean, order, b, m).taken
    ensures forall e :: e != clean(m.targetURL) ==> LastOf(Step(clean, order, b, m).last, e) == LastOf(b.last, e)
  {
    StepCases(clean, order, b, m);
  }

  /** The node is then never used, and the domains still to come remember it. */
  lemma {:induction false} LastAvoided(clean: string -> string, order: seq<string>, ms: seq<Monitor>,
                                       last: map<string, string>, node: string, p: nat)
    requires SameLast(clean, ms, last, node) && p <= |ms|
    ensures var b := Match(clean, order, Start(last, []), ms[..p]);
      node !in b.taken && forall i :: p <= i < |ms| ==> LastOf(b.last, clean(ms[i].targetURL)) == node
  {
    if p > 0 {
      LastAvoided(clean, order, ms, last, node, p - 1);
      MatchSnoc(clean, order, Start(last, []), ms, p - 1);
      StepAvoids(clean, order, Match(clean, order, Start(last, []), ms[..p - 1]), ms[p - 1], node);
    }
  }

  /** Pairwise different domains leave room for every monitor. */
  lemma {:induction false} DistinctDomains(clean: string -> string, ms: seq<Monitor>)
    requires forall i, j :: 0 <= i < j < |ms| ==> clean(ms[i].targetURL) != clean(ms[j].targetURL)
    ensures |Domains(clean, ms)| == |ms|
  {
    if ms != [] {
      var n := |ms| - 1;
      var (before, d) := (Domains(clean, ms[..n]), clean(ms[n].targetURL));
      DistinctDomains(clean, ms[..n]);
      assert Domains(clean, ms) == before + {d} && d !in before;
    } else {
      assert Domains(clean, ms) == {};
    }
  }

  lemma DistinctQuotas(clean: string -> string, ms: seq<Monitor>)
    requires forall i, j :: 0 <= i < j < |ms| ==> clean(ms[i].targetURL) != clean(ms[j].targetURL)
    ensures |ms| <= Sum(Quotas(clean, ms))
  {
    DistinctDomains(clean, ms);
    var quotas := Quotas(clean, ms);
    forall d | d in quotas ensures 1 <= quotas[d] {
      var i :| 0 <= i < |ms| && clean(ms[i].targetURL) == d;
      assert i in Listed(clean, ms, d);
    }
    SumOfPositives(quotas);
    assert quotas.Keys == Domains(clean, ms);
  }

  lemma IdleNode(order: seq<string>, taken: map<string, Monitor>, node: string)
    requires Distinct(order) && taken.Keys <= (set n | n in order)
    requires node in order && node !in taken
    ensures |taken| <= |order| - 1
  {
    var nodes := set n | n in order;
    DistinctSize(order);
    assert taken.Keys <= nodes - {node};
    SubsetSize(taken.Keys, nodes - {node});
  }

  /** The lower bound is attained for any number of nodes: when all domains were served last by the same node, it stays
      idle, although there are monitors enough for every node. */
  lemma {:induction false} LowerBoundAttained(clean: string -> string, order: seq<string>, ms: seq<Monitor>,
                                              last: map<string, string>)
    requires Distinct(order) && 1 <= |order| <= |ms|
    requires SameLast(clean, ms, last, order[0])
    ensures |Match(clean, order, Start(last, []), ms).taken| == |order| - 1 == Min(|order| - 1, Sum(Quotas(clean, ms)))
    ensures |order| <= Sum(Quotas(clean, ms))
  {
    var b := Match(clean, order, Start(last, []), ms);
    DistinctQuotas(clean, ms);
    MatchNearMaximal(clean, order, ms, last, []);
    LastAvoided(clean, order, ms, last, order[0], |ms|);
    assert ms[..|ms|] == ms;
    MatchInvariant(clean, order, ms, last, []);
    IdleNode(order, b.taken, order[0]);
  }

  // ---------------------------------------------------------------- against any rival schedule

  /** A rival schedule: nodes to list positions, no position used twice and at most the cap per domain.
      It need not rotate nodes. */
  ghost predicate Feasible(clean: string -> string, order: seq<string>, ms: seq<Monitor>, r: map<string, int>) {
    && r.Keys <= (set n | n in order)
    && (forall n :: n in r ==> 0 <= r[n] < |ms|)
    && (forall n, k :: n in r && k in r && n != k ==> r[n] != r[k])
    && (forall d :: |RivalNodes(clean, ms, r, d)| <= 5)
  }

  ghost function RivalNodes(clean: string -> string, ms: seq<Monitor>, r: map<string, int>, d: string): set<string> {
    set n | n in r && 0 <= r[n] < |ms| && clean(ms[r[n]].targetURL) == d
  }

  ghost function RivalCounts(clean: string -> string, ms: seq<Monitor>, r: map<string, int>): map<string, int> {
    map d | d in Domains(clean, ms) :: |RivalNodes(clean, ms, r, d)|
  }

  lemma RivalNodesStep(clean: string -> string, ms: seq<Monitor>, r: map<string, int>, n: string, d: string)
    requires n in r && 0 <= r[n] < |ms|
    ensures |RivalNodes(clean, ms, r, d)|
         == |RivalNodes(clean, ms, r - {n}, d)| + (if d == clean(ms[r[n]].targetURL) then 1 else 0)
  {
    var whole, without := RivalNodes(clean, ms, r, d), RivalNodes(clean, ms, r - {n}, d);
    assert n !in without;
    forall x | x != n ensures x in whole <==> x in without {
      assert x in r <==> x in r - {n};
    }
    assert whole - {n} == without;
  }

  lemma RivalStep(clean: string -> string, ms: seq<Monitor>, r: map<string, int>, n: string)
    requires n in r && 0 <= r[n] < |ms|
    ensures Sum(RivalCounts(clean, ms, r)) == Sum(RivalCounts(clean, ms, r - {n})) + 1
  {
    var d := clean(ms[r[n]].targetURL);
    var counts, counts' := RivalCounts(clean, ms, r), RivalCounts(clean, ms, r - {n});
    assert d in counts';
    forall e | e in counts ensures counts[e] == counts'[e] + (if e == d then 1 else 0) {
      RivalNodesStep(clean, ms, r, n, e);
    }
    SumUpdate(counts', d, counts[d]);
    assert counts == counts'[d := counts[d]];
  }

  /** A rival's nodes, counted domain by domain, are all of them. */
  lemma {:induction false} RivalPartition(clean: string -> string, ms: seq<Monitor>, r: map<string, int>)
    requires forall n :: n in r ==> 0 <= r[n] < |ms|
    ensures Sum(RivalCounts(clean, ms, r)) == |r.Keys|
    decreases r.Keys
  {
    if r == map[] {
      forall d | d in Domains(clean, ms) ensures RivalNodes(clean, ms, r, d) == {} {
      }
      SumZero(RivalCounts(clean, ms, r));
    } else {
      var n :| n in r;
      RivalPartition(clean, ms, r - {n});
      RivalStep(clean, ms, r, n);
      assert r.Keys == (r - {n}).Keys + {n};
    }
  }

  lemma {:induction false} Injection(a: set<string>, b: set<int>, f: map<string, int>)
    requires forall x :: x in a ==> x in f && f[x] in b
    requires forall x, y :: x in a && y in a && x != y ==> f[x] != f[y]
    ensures |a| <= |b|
  {
    if a != {} {
      var x :| x in a;
      Injection(a - {x}, b - {f[x]}, f);
    }
  }

  /** No schedule whatever, not even one that ignores the rotation rule, beats the greedy batch by more than one. */
  lemma WithinOneOfAnyRival(clean: string -> string, order: seq<string>, ms: seq<Monitor>,
                            last: map<string, string>, history: seq<Pick>, r: map<string, int>)
    requires Distinct(order)
    requires Feasible(clean, order, ms, r)
    ensures |r| <= |Match(clean, order, Start(last, history), ms).taken| + 1
  {
    MatchNearMaximal(clean, order, ms, last, history);
    DistinctSize(order);
    SubsetSize(r.Keys, set n | n in order);
    RivalPartition(clean, ms, r);
    var counts, quotas := RivalCounts(clean, ms, r), Quotas(clean, ms);
    forall d | d in counts ensures counts[d] <= quotas[d] {
      Injection(RivalNodes(clean, ms, r, d), Listed(clean, ms, d), r);
    }
    SumDominated(counts, quotas);
  }

  // ---------------------------------------------------------------- rotation over whole histories

  /** The nodes that served domain `d`, oldest first. */
  ghost function Served(picks: seq<Pick>, d: string): seq<string> {
    if picks == [] then []
    else
      var p := picks[|picks| - 1];
      Served(picks[..|picks| - 1], d) + (if p.domain == d then [p.node] else [])
  }

  ghost predicate NoRepeat(nodes: seq<string>) {
    forall i :: 0 < i < |nodes| ==> nodes[i - 1] != nodes[i]
  }

  /** The rotation memory of a domain is exactly the end of its history. */
  ghost predicate Rotates(last: map<string, string>, picks: seq<Pick>, d: string) {
    var served := Served(picks, d);
    && NoRepeat(served)
    && LastOf(last, d) == (if served == [] then "" else served[|served| - 1])
  }

  lemma ServedSnoc(picks: seq<Pick>, p: Pick, d: string)
    ensures Served(picks + [p], d) == if p.domain == d then Served(picks, d) + [p.node] else Served(picks, d)
  {
    assert (picks + [p])[..|picks|] == picks;
  }

  lemma PickedRotates(b: Batch, m: Monitor, e: string, n: string, b': Batch, d: string)
    requires Rotates(b.last, b.picks, d)
    requires Picked(b, m, e, n, b')
    ensures Rotates(b'.last, b'.picks, d)
  {
    ServedSnoc(b.picks, Pick(e, n, m), d);
  }

  lemma StepRotates(clean: string -> string, order: seq<string>, b: Batch, m: Monitor, d: string)
    requires Rotates(b.last, b.picks, d)
    ensures var b' := Step(clean, order, b, m); Rotates(b'.last, b'.picks, d)
  {
    var b' := Step(clean, order, b, m);
    StepCases(clean, order, b, m);
    if b' != b {
      var n :| n in order && Picked(b, m, clean(m.targetURL), n, b');
      PickedRotates(b, m, clean(m.targetURL), n, b', d);
    }
  }

  lemma {:induction false} MatchRotates(clean: string -> string, order: seq<string>, ms: seq<Monitor>,
                                        start: Batch, d: string)
    requires Rotates(start.last, start.picks, d)
    ensures var b := Match(clean, order, start, ms); Rotates(b.last, b.picks, d)
  {
    if ms != [] {
      MatchRotates(clean, order, ms[..|ms| - 1], start, d);
      StepRotates(clean, order, Match(clean, order, start, ms[..|ms| - 1]), ms[|ms| - 1], d);
    }
  }

  function Monitors(picks: seq<Pick>): seq<Monitor> {
    seq(|picks|, i requires 0 <= i < |picks| => picks[i].monitor)
  }

  /** A pick that stands in the batch's assignment. */
  predicate Stands(clean: string -> string, order: seq<string>, taken: map<string, Monitor>, p: Pick) {
    p.node in taken && taken[p.node] == p.monitor && clean(p.monitor.targetURL) == p.domain && p.node in order
  }

  ghost predicate Covers(picks: seq<Pick>, taken: map<string, Monitor>) {
    && |picks| == |taken|
    && forall n :: n in taken ==> exists i :: 0 <= i < |picks| && picks[i].node == n
  }

  /** The new picks of a batch are exactly its assignment: one pick per node, for the pick's own domain,
      and no list entry is handed out more often than it is listed. */
  ghost predicate PicksMatch(clean: string -> string, order: seq<string>, history: seq<Pick>, ms: seq<Monitor>,
                             b: Batch)
  {
    && |history| <= |b.picks| && b.picks[..|history|] == history
    && var news := b.picks[|history|..];
    && (forall i :: 0 <= i < |news| ==> Stands(clean, order, b.taken, news[i]))
    && Covers(news, b.taken)
    && multiset(Monitors(news)) <= multiset(ms)
  }

  lemma CoversStep(picks: seq<Pick>, taken: map<string, Monitor>, p: Pick)
    requires Covers(picks, taken)
    requires p.node !in taken
    ensures Covers(picks + [p], taken[p.node := p.monitor])
  {
    var picks', taken' := picks + [p], taken[p.node := p.monitor];
    forall n | n in taken' ensures exists i :: 0 <= i < |picks'| && picks'[i].node == n {
      if n == p.node {
        assert picks'[|picks|].node == n;
      } else {
        var i :| 0 <= i < |picks| && picks[i].node == n;
        assert picks'[i].node == n;
      }
    }
  }

  lemma StandsStep(clean: string -> string, order: seq<string>, taken: map<string, Monitor>, picks: seq<Pick>, p: Pick)
    requires forall i :: 0 <= i < |picks| ==> Stands(clean, order, taken, picks[i])
    requires p.node !in taken && p.node in order && p.domain == clean(p.monitor.targetURL)
    ensures forall i :: 0 <= i < |picks + [p]| ==> Stands(clean, order, taken[p.node := p.monitor], (picks + [p])[i])
  {
  }

  lemma SnocSlices(picks: seq<Pick>, h: nat, p: Pick)
    requires h <= |picks|
    ensures (picks + [p])[..h] == picks[..h] && (picks + [p])[h..] == picks[h..] + [p]
  {
  }

  lemma MonitorsStep(picks: seq<Pick>, p: Pick, ms: seq<Monitor>)
    requires multiset(Monitors(picks)) <= multiset(ms)
    ensures multiset(Monitors(picks + [p])) <= multiset(ms + [p.monitor])
  {
    assert Monitors(picks + [p]) == Monitors(picks) + [p.monitor];
  }

  lemma PickedStep(clean: string -> string, order: seq<string>, history: seq<Pick>, ms: seq<Monitor>,
                   b: Batch, m: Monitor, n: string, b': Batch)
    requires PicksMatch(clean, order, history, ms, b)
    requires n in order && Picked(b, m, clean(m.targetURL), n, b')
    ensures PicksMatch(clean, order, history, ms + [m], b')
  {
    var prior, p := b.picks[|history|..], Pick(clean(m.targetURL), n, m);
    SnocSlices(b.picks, |history|, p);
    MonitorsStep(prior, p, ms);
    CoversStep(prior, b.taken, p);
    StandsStep(clean, order, b.taken, prior, p);
  }

  lemma PicksStep(clean: string -> string, order: seq<string>, history: seq<Pick>, ms: seq<Monitor>,
                  b: Batch, m: Monitor)
    requires PicksMatch(clean, order, history, ms, b)
    ensures PicksMatch(clean, order, history, ms + [m], Step(clean, order, b, m))
  {
    var b' := Step(clean, order, b, m);
    StepCases(clean, order, b, m);
    if b' != b {
      var n :| n in order && Picked(b, m, clean(m.targetURL), n, b');
      PickedStep(clean, order, history, ms, b, m, n, b');
    }
  }

  lemma {:induction false} BatchPicks(clean: string -> string, order: seq<string>, ms: seq<Monitor>,
                                      last: map<string, string>, history: seq<Pick>)
    ensures PicksMatch(clean, order, history, ms, Match(clean, order, Start(last, history), ms))
  {
    if ms == [] {
      assert Monitors(history[|history|..]) == [];
    } else {
      var p, m := ms[..|ms| - 1], ms[|ms| - 1];
      assert ms == p + [m];
      BatchPicks(clean, order, p, last, history);
      PicksStep(clean, order, history, p, Match(clean, order, Start(last, history), p), m);
    }
  }

  /** What a batch does is independent of the history it is recorded on. */
  lemma {:induction false} HistoryIrrelevant(clean: string -> string, order: seq<string>, ms: seq<Monitor>,
                                             last: map<string, string>, history: seq<Pick>)
    ensures Match(clean, order, Start(last, history), ms) == Onto(history, Match(clean, order, Start(last, []), ms))
  {
    if ms != [] {
      HistoryIrrelevant(clean, order, ms[..|ms| - 1], last, history);
      StepOnto(clean, order, Match(clean, order, Start(last, []), ms[..|ms| - 1]), history, ms[|ms| - 1]);
    }
  }

  function Onto(history: seq<Pick>, b: Batch): Batch {
    b.(picks := history + b.picks)
  }

  lemma StepOnto(clean: string -> string, order: seq<string>, b: Batch, history: seq<Pick>, m: Monitor)
    ensures Step(clean, order, Onto(history, b), m) == Onto(history, Step(clean, order, b, m))
  {
    var d := clean(m.targetURL);
    assert forall p: Pick :: history + b.picks + [p] == history + (b.picks + [p]);
  }

  /** Registry traffic interleaved with batches. */
  datatype Event = Traffic(op: Op) | Batched(now: int, monitors: seq<Monitor>, order: seq<ActiveNode>)

  datatype World = World(table: Table, last: map<string, string>, history: seq<Pick>)

  function React(clean: string -> string, w: World, e: Event): World {
    match e
    case Traffic(op) => w.(table := Apply(w.table, op))
    case Batched(_, ms, order) =>
      var b := Match(clean, Pubkeys(order), Start(w.last, w.history), ms);
      w.(last := b.last, history := b.picks)
  }

  function Play(clean: string -> string, es: seq<Event>): World {
    if es == [] then World(map[], map[], [])
    else React(clean, Play(clean, es[..|es| - 1]), es[|es| - 1])
  }

  /** Every batch took the online snapshot of its moment, in whatever order the map gave. */
  ghost predicate Genuine(clean: string -> string, es: seq<Event>) {
    forall i :: 0 <= i < |es| && es[i].Batched? ==> Lists(Play(clean, es[..i]).table, es[i].now, es[i].order)
  }

  /** Over any sequence of heartbeats, evictions and batches, no domain is served by the same node twice in a row. */
  lemma {:induction false} RotationForever(clean: string -> string, es: seq<Event>, d: string)
    ensures var w := Play(clean, es); Rotates(w.last, w.history, d)
  {
    if es != [] {
      var w := Play(clean, es[..|es| - 1]);
      RotationForever(clean, es[..|es| - 1], d);
      match es[|es| - 1]
      case Traffic(_) =>
      case Batched(_, ms, order) => MatchRotates(clean, Pubkeys(order), ms, Start(w.last, w.history), d);
    }
  }

  /** Every batch of a genuine run extends the history by one pick per assigned node, and each of those
      nodes was online in the table at that moment. */
  lemma SnapshotOnly(clean: string -> string, es: seq<Event>, i: nat)
    requires Genuine(clean, es)
    requires i < |es| && es[i].Batched?
    ensures var before, after := Play(clean, es[..i]), Play(clean, es[..i + 1]);
      var b := Match(clean, Pubkeys(es[i].order), Start(before.last, before.history), es[i].monitors);
      && after.history == b.picks
      && PicksMatch(clean, Pubkeys(es[i].order), before.history, es[i].monitors, b)
      && forall n :: n in b.taken ==>
           n in before.table && es[i].now - before.table[n].lastSeen <= 300_000_000_000
  {
    var before := Play(clean, es[..i]);
    assert es[..i + 1][..i] == es[..i];
    var keys := Pubkeys(es[i].order);
    BatchPicks(clean, keys, es[i].monitors, before.last, before.history);
    MatchInvariant(clean, keys, es[i].monitors, before.last, before.history);
    var b := Match(clean, keys, Start(before.last, before.history), es[i].monitors);
    forall n | n in b.taken
      ensures n in before.table && es[i].now - before.table[n].lastSeen <= 300_000_000_000
    {
      var j :| 0 <= j < |keys| && keys[j] == n;
      assert es[i].order[j] in es[i].order;
    }
  }
}
