/** The in-memory heartbeat table (services/registry.go, MemoryRegistry). */
module Registry {
  import opened Wrappers

  /** One heartbeat record; times are nanoseconds on the process's monotone clock. */
  datatype ActiveNode = ActiveNode(pubkey: string, email: string, latitude: real, longitude: real, lastSeen: int)

  type Table = map<string, ActiveNode>

  const WINDOW := 5 * 60 * 1_000_000_000

  predicate Fresh(node: ActiveNode, now: int) {
    now - node.lastSeen <= WINDOW
  }

  predicate Keyed(t: Table) {
    forall k :: k in t ==> t[k].pubkey == k
  }

  /** What one eviction pass at `now` leaves of the table. */
  function Evicted(t: Table, now: int): Table {
    map k | k in t && Fresh(t[k], now) :: t[k]
  }

  /** `r` is the table's fresh records at `now`, each exactly once, in some order. */
  ghost predicate Lists(t: Table, now: int, r: seq<ActiveNode>) {
    && (forall n :: n in r <==> n.pubkey in t && t[n.pubkey] == n && Fresh(n, now))
    && (forall i, j :: 0 <= i < j < |r| ==> r[i].pubkey != r[j].pubkey)
  }

  class MemoryRegistry {
    var nodes: Table

    ghost predicate Valid()
      reads this
    {
      Keyed(nodes)
    }

    constructor ()
      ensures Valid() && nodes == map[]
    {
      nodes := map[];
    }

    method TrackHeartbeat(pubkey: string, email: string, latitude: real, longitude: real, now: int)
      requires Valid()
      modifies this
      ensures Valid()
      ensures nodes == Apply(old(nodes), Heartbeat(ActiveNode(pubkey, email, latitude, longitude, now)))
    {
      nodes := nodes[pubkey := ActiveNode(pubkey, email, latitude, longitude, now)];
    }

    /** The map is walked in an arbitrary order, as Go's range over a map is. */
    method GetOnlineNodes(now: int) returns (active: seq<ActiveNode>)
      requires Valid()
      ensures Lists(nodes, now, active)
    {
      active := [];
      var rest := nodes.Keys;
      while rest != {}
        invariant rest <= nodes.Keys
        invariant forall n :: n in active <==>
          n.pubkey in nodes && n.pubkey !in rest && nodes[n.pubkey] == n && Fresh(n, now)
        invariant forall i, j :: 0 <= i < j < |active| ==> active[i].pubkey != active[j].pubkey
        decreases rest
      {
        var k :| k in rest;
        rest := rest - {k};
        var node := nodes[k];
        if Fresh(node, now) {
          assert forall i :: 0 <= i < |active| ==> active[i] in active;
          active := active + [node];
        }
      }
    }

    /** One tick of the eviction loop: stale keys are deleted while the map is walked. */
    method EvictTick(now: int)
      requires Valid()
      modifies this
      ensures Valid()
      ensures nodes == Apply(old(nodes), Tick(now))
    {
      var rest := nodes.Keys;
      while rest != {}
        invariant rest <= nodes.Keys <= old(nodes).Keys
        invariant forall k :: k in nodes ==> nodes[k] == old(nodes)[k]
        invariant forall k :: k in old(nodes) && k !in rest ==> (k in nodes <==> Fresh(old(nodes)[k], now))
        decreases rest
      {
        var k :| k in rest;
        rest := rest - {k};
        if !Fresh(nodes[k], now) {
          nodes := nodes - {k};
        }
      }
      assert nodes == Evicted(old(nodes), now);
    }
  }

  // ---------------------------------------------------------------- histories

  datatype Op = Heartbeat(node: ActiveNode) | Tick(now: int)

  function At(op: Op): int {
    match op
    case Heartbeat(n) => n.lastSeen
    case Tick(now) => now
  }

  function Apply(t: Table, op: Op): Table {
    match op
    case Heartbeat(n) => t[n.pubkey := n]
    case Tick(now) => Evicted(t, now)
  }

  function Run(ops: seq<Op>): Table {
    if ops == [] then map[] else Apply(Run(ops[..|ops| - 1]), ops[|ops| - 1])
  }

  /** The clock never runs backwards, and no operation lies after `now`. */
  ghost predicate Clocked(ops: seq<Op>, now: int) {
    && (forall i, j :: 0 <= i < j < |ops| ==> At(ops[i]) <= At(ops[j]))
    && (forall i :: 0 <= i < |ops| ==> At(ops[i]) <= now)
  }

  /** The last heartbeat of `k` in the full history: a log from which nothing is ever evicted. */
  function Latest(ops: seq<Op>, k: string): Option<ActiveNode> {
    if ops == [] then None
    else
      var op := ops[|ops| - 1];
      if op.Heartbeat? && op.node.pubkey == k then Some(op.node) else Latest(ops[..|ops| - 1], k)
  }

  /** The evicting table agrees with the log on every pubkey that is still fresh. */
  lemma {:induction false} TableRefinesLog(ops: seq<Op>, now: int, k: string)
    requires Clocked(ops, now)
    ensures Keyed(Run(ops))
    ensures k in Run(ops) ==> Latest(ops, k) == Some(Run(ops)[k])
    ensures Latest(ops, k).Some? && now - Latest(ops, k).value.lastSeen <= 300_000_000_000 ==> k in Run(ops)
  {
    if ops != [] {
      var n := |ops| - 1;
      var at := At(ops[n]);
      assert Clocked(ops[..n], at);
      TableRefinesLog(ops[..n], at, k);
    }
  }

  /** Right after a tick the table is the recent part of the log: it holds the last heartbeat of exactly the pubkeys
      heard from within five minutes, and nothing else survives. */
  lemma TickLeavesRecent(ops: seq<Op>, now: int, k: string)
    requires Clocked(ops, now)
    ensures var t := Run(ops + [Tick(now)]);
      && (k in t <==> Latest(ops, k).Some? && now - Latest(ops, k).value.lastSeen <= 300_000_000_000)
      && (k in t ==> Some(t[k]) == Latest(ops, k))
  {
    assert (ops + [Tick(now)])[..|ops|] == ops;
    TableRefinesLog(ops, now, k);
  }

  /** So the table never holds more than the pubkeys of one window before its last tick and of the heartbeats since. */
  lemma {:induction false} NothingOldSurvives(ops: seq<Op>, tick: nat, k: string)
    requires tick < |ops| && ops[tick].Tick? && k in Run(ops)
    requires Clocked(ops, At(ops[|ops| - 1]))
    ensures ops[tick].now - Run(ops)[k].lastSeen <= 300_000_000_000
  {
    var n := |ops| - 1;
    if tick < n {
      assert Clocked(ops[..n], At(ops[n - 1]));
      if !(ops[n].Heartbeat? && ops[n].node.pubkey == k) {
        NothingOldSurvives(ops[..n], tick, k);
      } else {
        assert At(ops[tick]) <= At(ops[n]);
      }
    }
  }

  /** Eviction is invisible to readers: whatever order a read produces, it holds exactly the
      records of the never-evicted log whose last heartbeat is within the window, without duplicates. */
  lemma EvictionInvisible(ops: seq<Op>, now: int, r: seq<ActiveNode>)
    requires Clocked(ops, now)
    requires Lists(Run(ops), now, r)
    ensures forall n :: n in r <==> Latest(ops, n.pubkey) == Some(n) && now - n.lastSeen <= 300_000_000_000
    ensures forall i, j :: 0 <= i < j < |r| ==> r[i].pubkey != r[j].pubkey
  {
    forall n: ActiveNode
      ensures n in r <==> Latest(ops, n.pubkey) == Some(n) && now - n.lastSeen <= 300_000_000_000
    {
      TableRefinesLog(ops, now, n.pubkey);
    }
  }
}
