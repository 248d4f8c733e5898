/** Runs of the alert pipeline, with arbitrary batches, failures, redeliveries, purchases and users: what the stored
    health rows are, and what a redelivery and an acknowledgement do to them. */
module AlertRuns {
  import opened Wrappers
  import opened TwoPacket
  import Credits
  import opened Alerts

  // ---------------------------------------------------------------- runs

  /** The steps the database sees; a delivery is as many `Result` steps as its batch has results. */
  datatype Step =
    | Result(monitor: string, success: bool, env: Env)
    | Purchase(user: int, amount: int, today: Credits.Date)
    | View(user: int, today: Credits.Date)
    | Link(user: int)

  datatype Op = Deliver(results: seq<Ping>, envs: seq<Env>) | Garbage | Other(step: Step)

  predicate Valid(ops: seq<Op>) {
    forall i :: 0 <= i < |ops| && ops[i].Deliver? ==> |ops[i].results| == |ops[i].envs|
  }

  function React(w: World, s: Step): World {
    match s
    case Result(m, success, e) => Process(w, m, success, e).0
    case Purchase(user, amount, today) =>
      (match Credits.TopUp(Credits.RowOf(w.rows, user, today), amount)
       case Some(r) => w.(rows := w.rows[user := r], log := w.log + [Ledger(user, today, Credits.Buy(amount))])
       case None => w)
    case View(user, today) =>
      w.(rows := w.rows[user := Credits.RowOf(w.rows, user, today)], log := w.log + [Opened(user, today)])
    case Link(user) => if user in w.reminded then w else w.(reminded := w.reminded[user := None])
  }

  function Play(w: World, steps: seq<Step>): World {
    if steps == [] then w else React(Play(w, steps[..|steps| - 1]), steps[|steps| - 1])
  }

  function Start(reminded: map<int, Option<int>>): World {
    World(map[], map[], reminded, [])
  }

  function RunOps(w: World, ops: seq<Op>): World
    requires Valid(ops)
  {
    if ops == [] then w
    else
      var w' := RunOps(w, ops[..|ops| - 1]);
      match ops[|ops| - 1]
      case Deliver(results, envs) => Handle(w', Batch(results), envs).0
      case Garbage => Handle(w', Malformed, []).0
      case Other(step) => React(w', step)
  }

  function Results(ps: seq<Ping>, es: seq<Env>): (r: seq<Step>)
    requires |ps| == |es|
    ensures |r| == |ps|
  {
    seq(|ps|, i requires 0 <= i < |ps| => Result(MonitorOf(ps[i]), ps[i].success, es[i]))
  }

  function Flatten(ops: seq<Op>): seq<Step>
    requires Valid(ops)
  {
    if ops == [] then []
    else Flatten(ops[..|ops| - 1]) +
         match ops[|ops| - 1]
         case Deliver(results, envs) => Results(results, envs)
         case Garbage => []
         case Other(step) => [step]
  }

  lemma PlaySnoc(w: World, steps: seq<Step>, s: Step)
    ensures Play(w, steps + [s]) == React(Play(w, steps), s)
  {
    assert (steps + [s])[..|steps|] == steps;
  }

  lemma {:induction false} PlayAppend(w: World, a: seq<Step>, b: seq<Step>)
    ensures Play(w, a + b) == Play(Play(w, a), b)
  {
    if b == [] {
      assert a + b == a;
    } else {
      PlayAppend(w, a, b[..|b| - 1]);
      assert (a + b)[..|a + b| - 1] == a + b[..|b| - 1];
    }
  }

  lemma {:induction false} ProcessAllIsPlay(w: World, ps: seq<Ping>, es: seq<Env>)
    requires |ps| == |es|
    ensures ProcessAll(w, ps, es).0 == Play(w, Results(ps, es))
  {
    if ps != [] {
      var n := |ps| - 1;
      ProcessAllIsPlay(w, ps[..n], es[..n]);
      assert Results(ps, es)[..n] == Results(ps[..n], es[..n]);
    }
  }

  /** Batch boundaries leave no trace in the state: a run of deliveries is the run of their results. */
  lemma {:induction false} BatchesDissolve(w: World, ops: seq<Op>)
    requires Valid(ops)
    ensures RunOps(w, ops) == Play(w, Flatten(ops))
  {
    if ops != [] {
      var prior := ops[..|ops| - 1];
      BatchesDissolve(w, prior);
      match ops[|ops| - 1]
      case Deliver(results, envs) =>
        ProcessAllIsPlay(RunOps(w, prior), results, envs);
        PlayAppend(w, Flatten(prior), Results(results, envs));
      case Garbage =>
        assert Flatten(ops) == Flatten(prior);
      case Other(step) =>
        assert Flatten(ops)[..|Flatten(ops)| - 1] == Flatten(prior);
    }
  }

  /** The state lookup of some identified result failed. */
  predicate LookupFailed(ps: seq<Ping>, es: seq<Env>)
    requires |ps| == |es|
  {
    exists i :: 0 <= i < |ps| && MonitorOf(ps[i]) != "" && !es[i].lookupOk
  }

  lemma LookupFailedSnoc(ps: seq<Ping>, es: seq<Env>)
    requires |ps| == |es| && ps != []
    ensures var n := |ps| - 1;
      LookupFailed(ps, es) <==> LookupFailed(ps[..n], es[..n]) || (MonitorOf(ps[n]) != "" && !es[n].lookupOk)
  {
    var n := |ps| - 1;
    assert forall i :: 0 <= i < n ==> ps[..n][i] == ps[i] && es[..n][i] == es[i];
  }

  lemma ProcessOk(w: World, m: string, success: bool, e: Env)
    ensures Process(w, m, success, e).1 <==> m == "" || e.lookupOk
  {
  }

  lemma {:induction false} ProcessAllOk(w: World, ps: seq<Ping>, es: seq<Env>)
    requires |ps| == |es|
    ensures ProcessAll(w, ps, es).1 <==> !LookupFailed(ps, es)
  {
    if ps != [] {
      var n := |ps| - 1;
      ProcessAllOk(w, ps[..n], es[..n]);
      LookupFailedSnoc(ps, es);
      ProcessOk(ProcessAll(w, ps[..n], es[..n]).0, MonitorOf(ps[n]), ps[n].success, es[n]);
    }
  }

  /** A batch goes back to the broker exactly when the state lookup of one of its identified results failed, however
      often it came back before: nothing bounds the number of times. */
  lemma RequeuedIff(w: World, ps: seq<Ping>, es: seq<Env>)
    requires |ps| == |es|
    ensures Handle(w, Batch(ps), es).1 == Requeue <==> LookupFailed(ps, es)
  {
    ProcessAllOk(w, ps, es);
  }

  /** Every call answered, and every gate open as long as the owner has credits. */
  function AllOk(user: int, chat: int, now: int, today: Credits.Date): Env {
    Env(now, true, true, Some(true), Some(Chat(chat, user)), Answered, today, true, now, now, true, now, true)
  }

  /** What the broker is told, for every delivery and in every state: an undecodable one is rejected for good and
      changes nothing, a batch with a failed lookup is handed back, and every other batch, of any length, is
      acknowledged. */
  lemma VerdictExactly(w: World, d: Delivery, es: seq<Env>)
    requires d.Batch? ==> |d.results| == |es|
    ensures var (w', verdict) := Handle(w, d, es);
      && (verdict == Reject <==> d.Malformed?)
      && (verdict == Requeue <==> d.Batch? && LookupFailed(d.results, es))
      && (verdict == Ack <==> d.Batch? && !LookupFailed(d.results, es))
      && (d.Malformed? ==> w' == w)
  {
    if d.Batch? {
      ProcessAllOk(w, d.results, es);
    }
  }

  // ---------------------------------------------------------------- what one step leaves behind

  /** What a dispatch appends to the log. */
  function DispatchEffects(w: World, m: string, alert: Alert, e: Env): seq<Effect> {
    if e.enabled != Some(true) || e.owner.None? || e.owner.value.chatID == 0 || e.deduct == Failed then []
    else
      var user := e.owner.value.userID;
      var tier := Credits.Deduct(Credits.RowOf(w.rows, user, e.today), e.today).1;
      [Ledger(user, e.today, Credits.Request(e.today))] +
      if tier == Credits.NoCredits then
        if e.deduct == Answered && e.remindLookupOk && Due(w.reminded, user, e.checkAt) && e.delivered
        then [Reminder(user, e.owner.value.chatID, e.checkAt, e.sendAt, e.markAt, e.marked)] else []
      else if e.deduct == Lost then [Unanswered(user)]
      else [Attempt(user, e.owner.value.chatID, m, alert)]
  }

  lemma DispatchLog(w: World, m: string, alert: Alert, e: Env)
    ensures Dispatch(w, m, alert, e).log == w.log + DispatchEffects(w, m, alert, e)
  {
  }

  lemma DispatchKeepsHealth(w: World, m: string, alert: Alert, e: Env)
    ensures Dispatch(w, m, alert, e).health == w.health
  {
  }

  lemma ProcessHealth(w: World, m: string, success: bool, e: Env)
    ensures Process(w, m, success, e).0.health ==
      if m != "" && e.lookupOk && e.persisted
      then w.health[m := Next(HealthOf(w.health, m), Check(success, e.at)).0] else w.health
  {
    var (h, alert) := Next(HealthOf(w.health, m), Check(success, e.at));
    var stored := if e.persisted then w.(health := w.health[m := h]) else w;
    DispatchKeepsHealth(stored.(log := stored.log + [Raised(m, alert)]), m, alert, e);
  }

  // ---------------------------------------------------------------- health rows

  predicate Persists(s: Step, m: string) {
    s.Result? && s.monitor == m && m != "" && s.env.lookupOk && s.env.persisted
  }

  /** The checks of monitor `m` whose new state reached the database, in order. */
  function Persisted(steps: seq<Step>, m: string): seq<Check> {
    if steps == [] then []
    else
      var s := steps[|steps| - 1];
      Persisted(steps[..|steps| - 1], m) + (if Persists(s, m) then [Check(s.success, s.env.at)] else [])
  }

  lemma ReactHealth(w: World, s: Step, m: string)
    ensures var h := React(w, s).health;
      if Persists(s, m) then m in h && h[m] == Next(HealthOf(w.health, m), Check(s.success, s.env.at)).0
      else (m in h <==> m in w.health) && HealthOf(h, m) == HealthOf(w.health, m)
  {
    if s.Result? {
      ProcessHealth(w, s.monitor, s.success, s.env);
    }
  }

  /** Whatever fails and whatever is redelivered, every stored row is the two-packet fold, from the zero state,
      over exactly that monitor's persisted checks in order. */
  lemma {:induction false} FaultTolerantFold(reminded: map<int, Option<int>>, steps: seq<Step>, m: string)
    ensures var (health, checks) := (Play(Start(reminded), steps).health, Persisted(steps, m));
      && (m in health <==> checks != [])
      && HealthOf(health, m) == Fold(checks)
  {
    if steps != [] {
      var prior, s := steps[..|steps| - 1], steps[|steps| - 1];
      FaultTolerantFold(reminded, prior, m);
      ReactHealth(Play(Start(reminded), prior), s, m);
      if Persists(s, m) {
        FoldSnoc(Persisted(prior, m), Check(s.success, s.env.at));
      } else {
        assert Persisted(steps, m) == Persisted(prior, m);
      }
    }
  }

  /** The three fields of a row agree. */
  predicate Agrees(h: Health) {
    (h.isDown <==> h.alertSent) && (h.isDown <==> h.consecutiveFailures >= 2)
  }

  /** In every row of every run, and in the state of a monitor without one, the three fields agree, and the counter is
      the trailing failure run. */
  lemma RowsAgree(reminded: map<int, Option<int>>, steps: seq<Step>, m: string)
    ensures var h := HealthOf(Play(Start(reminded), steps).health, m);
      Agrees(h) && h.consecutiveFailures == Trail(Persisted(steps, m))
  {
    FaultTolerantFold(reminded, steps, m);
    FoldClosedForm(Persisted(steps, m));
  }

  lemma {:induction false} PersistedAppend(a: seq<Step>, b: seq<Step>, m: string)
    ensures Persisted(a + b, m) == Persisted(a, m) + Persisted(b, m)
  {
    if b == [] {
      assert a + b == a;
    } else {
      PersistedAppend(a, b[..|b| - 1], m);
      assert (a + b)[..|a + b| - 1] == a + b[..|b| - 1];
    }
  }

  // ---------------------------------------------------------------- acknowledgement

  /** What a batch reports about monitor `m`. */
  function Reported(ps: seq<Ping>, es: seq<Env>, m: string): seq<Check>
    requires |ps| == |es|
  {
    if ps == [] then []
    else
      var n := |ps| - 1;
      var before := Reported(ps[..n], es[..n], m);
      if m != "" && MonitorOf(ps[n]) == m then before + [Check(ps[n].success, es[n].at)] else before
  }

  /** Every result for `m` was looked up and stored. */
  predicate StoredAll(ps: seq<Ping>, es: seq<Env>, m: string)
    requires |ps| == |es|
  {
    forall i :: 0 <= i < |ps| && MonitorOf(ps[i]) == m ==> es[i].lookupOk && es[i].persisted
  }

  lemma ResultsSnoc(ps: seq<Ping>, es: seq<Env>, m: string)
    requires |ps| == |es| && ps != []
    ensures var n := |ps| - 1;
      var (s, before) := (Result(MonitorOf(ps[n]), ps[n].success, es[n]), Persisted(Results(ps[..n], es[..n]), m));
      Persisted(Results(ps, es), m) == if Persists(s, m) then before + [Check(s.success, s.env.at)] else before
  {
    var n := |ps| - 1;
    assert Results(ps, es)[..n] == Results(ps[..n], es[..n]);
  }

  lemma StoredAllSnoc(ps: seq<Ping>, es: seq<Env>, m: string)
    requires |ps| == |es| && ps != []
    ensures var n := |ps| - 1;
      StoredAll(ps, es, m)
      <==> StoredAll(ps[..n], es[..n], m) && (MonitorOf(ps[n]) == m ==> es[n].lookupOk && es[n].persisted)
  {
    var n := |ps| - 1;
    assert forall i :: 0 <= i < n ==> ps[..n][i] == ps[i] && es[..n][i] == es[i];
  }

  lemma {:induction false} StoredAtMost(ps: seq<Ping>, es: seq<Env>, m: string)
    requires |ps| == |es| && m != ""
    ensures StoredAll(ps, es, m) ==> Persisted(Results(ps, es), m) == Reported(ps, es, m)
    ensures |Persisted(Results(ps, es), m)| + (if StoredAll(ps, es, m) then 0 else 1) <= |Reported(ps, es, m)|
  {
    if ps != [] {
      StoredAtMost(ps[..|ps| - 1], es[..|ps| - 1], m);
      ResultsSnoc(ps, es, m);
      StoredAllSnoc(ps, es, m);
    }
  }

  lemma {:induction false} NobodyStored(ps: seq<Ping>, es: seq<Env>)
    requires |ps| == |es|
    ensures Persisted(Results(ps, es), "") == [] == Reported(ps, es, "")
  {
    if ps != [] {
      var n := |ps| - 1;
      NobodyStored(ps[..n], es[..n]);
      ResultsSnoc(ps, es, "");
    }
  }

  lemma StoredIff(ps: seq<Ping>, es: seq<Env>, m: string)
    requires |ps| == |es|
    ensures Persisted(Results(ps, es), m) == Reported(ps, es, m) <==> m == "" || StoredAll(ps, es, m)
  {
    if m == "" {
      NobodyStored(ps, es);
    } else {
      StoredAtMost(ps, es, m);
    }
  }

  /** No upsert of an identified result failed. */
  predicate UpsertsOk(ps: seq<Ping>, es: seq<Env>)
    requires |ps| == |es|
  {
    forall i :: 0 <= i < |ps| && MonitorOf(ps[i]) != "" ==> es[i].persisted
  }

  /** An acknowledged batch has left every check it reports in its monitor's row if and only if none of its upserts
      failed: the acknowledgement looks at the lookups alone. */
  lemma {:induction false} AcknowledgedStoresIff(w: World, ps: seq<Ping>, es: seq<Env>)
    requires |ps| == |es| && Handle(w, Batch(ps), es).1 == Ack
    ensures (forall m :: Persisted(Results(ps, es), m) == Reported(ps, es, m)) <==> UpsertsOk(ps, es)
  {
    assert !LookupFailed(ps, es) by {
      RequeuedIff(w, ps, es);
    }
    if UpsertsOk(ps, es) {
      forall m ensures Persisted(Results(ps, es), m) == Reported(ps, es, m) {
        assert m == "" || StoredAll(ps, es, m);
        StoredIff(ps, es, m);
      }
    } else {
      var i :| 0 <= i < |ps| && MonitorOf(ps[i]) != "" && !es[i].persisted;
      assert !StoredAll(ps, es, MonitorOf(ps[i]));
      StoredIff(ps, es, MonitorOf(ps[i]));
    }
  }

  // ---------------------------------------------------------------- redelivery

  /** The n-th delivery of one batch, after whatever else the database saw since the previous one. */
  datatype Round = Round(between: seq<Step>, envs: seq<Env>)

  /** The rounds fit the batch, and nothing in between is a stored check of monitor `m`. */
  predicate RoundsOf(ps: seq<Ping>, rounds: seq<Round>, m: string) {
    forall r :: 0 <= r < |rounds| ==> |rounds[r].envs| == |ps| && Persisted(rounds[r].between, m) == []
  }

  /** Every delivery of the batch, whatever made the broker hand it out again. */
  function PlayRounds(w: World, ps: seq<Ping>, rounds: seq<Round>): World
    requires forall r :: 0 <= r < |rounds| ==> |rounds[r].envs| == |ps|
  {
    if rounds == [] then w
    else
      var n := |rounds| - 1;
      Handle(Play(PlayRounds(w, ps, rounds[..n]), rounds[n].between), Batch(ps), rounds[n].envs).0
  }

  /** How many rounds stored the batch's result number `j`. */
  function Stored(rounds: seq<Round>, j: nat): nat
    requires forall r :: 0 <= r < |rounds| ==> j < |rounds[r].envs|
  {
    if rounds == [] then 0
    else
      var n := |rounds| - 1;
      Stored(rounds[..n], j) + (if rounds[n].envs[j].lookupOk && rounds[n].envs[j].persisted then 1 else 0)
  }

  /** Result `j` is the batch's only one for monitor `m`, and a failure. */
  predicate OneFailure(ps: seq<Ping>, j: nat, m: string) {
    && m != "" && j < |ps| && MonitorOf(ps[j]) == m && !ps[j].success
    && forall i :: 0 <= i < |ps| && i != j ==> MonitorOf(ps[i]) != m
  }

  lemma {:induction false} NotConcerned(ps: seq<Ping>, es: seq<Env>, m: string)
    requires |ps| == |es| && forall i :: 0 <= i < |ps| ==> MonitorOf(ps[i]) != m
    ensures Persisted(Results(ps, es), m) == []
  {
    if ps != [] {
      var n := |ps| - 1;
      NotConcerned(ps[..n], es[..n], m);
      ResultsSnoc(ps, es, m);
    }
  }

  lemma {:induction false} OneStored(ps: seq<Ping>, es: seq<Env>, j: nat, m: string)
    requires |ps| == |es| && OneFailure(ps, j, m)
    ensures Persisted(Results(ps, es), m) == if es[j].lookupOk && es[j].persisted then [Check(false, es[j].at)] else []
  {
    var n := |ps| - 1;
    ResultsSnoc(ps, es, m);
    if j == n {
      NotConcerned(ps[..n], es[..n], m);
    } else {
      OneStored(ps[..n], es[..n], j, m);
    }
  }

  /** The steps of all the rounds. */
  function RoundSteps(ps: seq<Ping>, rounds: seq<Round>): seq<Step>
    requires forall r :: 0 <= r < |rounds| ==> |rounds[r].envs| == |ps|
  {
    if rounds == [] then []
    else
      var n := |rounds| - 1;
      RoundSteps(ps, rounds[..n]) + rounds[n].between + Results(ps, rounds[n].envs)
  }

  lemma {:induction false} RoundsArePlay(w: World, ps: seq<Ping>, rounds: seq<Round>)
    requires forall r :: 0 <= r < |rounds| ==> |rounds[r].envs| == |ps|
    ensures PlayRounds(w, ps, rounds) == Play(w, RoundSteps(ps, rounds))
  {
    if rounds != [] {
      var n := |rounds| - 1;
      var (prior, round) := (RoundSteps(ps, rounds[..n]), rounds[n]);
      RoundsArePlay(w, ps, rounds[..n]);
      PlayAppend(w, prior, round.between);
      PlayAppend(w, prior + round.between, Results(ps, round.envs));
      ProcessAllIsPlay(Play(w, prior + round.between), ps, round.envs);
    }
  }

  /** A round stores its failure or nothing. */
  lemma {:induction false} RoundStored(ps: seq<Ping>, rounds: seq<Round>, j: nat, m: string)
    requires RoundsOf(ps, rounds, m) && OneFailure(ps, j, m) && rounds != []
    ensures var (n, e) := (|rounds| - 1, rounds[|rounds| - 1].envs[j]);
      Persisted(RoundSteps(ps, rounds), m)
      == Persisted(RoundSteps(ps, rounds[..n]), m) + if e.lookupOk && e.persisted then [Check(false, e.at)] else []
  {
    var n := |rounds| - 1;
    var (prior, round) := (RoundSteps(ps, rounds[..n]), rounds[n]);
    PersistedAppend(prior, round.between, m);
    PersistedAppend(prior + round.between, Results(ps, round.envs), m);
    OneStored(ps, round.envs, j, m);
  }

  /** So each round adds one to the trailing failure run if it stored its failure. */
  lemma {:induction false} RoundsTrail(checks: seq<Check>, ps: seq<Ping>, rounds: seq<Round>, j: nat, m: string)
    requires RoundsOf(ps, rounds, m) && OneFailure(ps, j, m)
    ensures Trail(checks + Persisted(RoundSteps(ps, rounds), m)) == Trail(checks) + Stored(rounds, j)
  {
    if rounds == [] {
      assert checks + [] == checks;
    } else {
      var n := |rounds| - 1;
      RoundStored(ps, rounds, j, m);
      RoundsTrail(checks, ps, rounds[..n], j, m);
      ShiftTrail(checks, Persisted(RoundSteps(ps, rounds[..n]), m), Check(false, rounds[n].envs[j].at));
    }
  }

  lemma ShiftTrail(checks: seq<Check>, seen: seq<Check>, c: Check)
    ensures Trail(checks + (seen + [c])) == if c.success then 0 else Trail(checks + seen) + 1
    ensures seen + [] == seen
  {
    TrailSnoc(checks + seen, c);
    assert checks + (seen + [c]) == checks + seen + [c];
  }

  /** The two-packet rule counts stored deliveries, not checks. However often a batch with one failed check of a
      healthy monitor is delivered, for whatever reason and with whatever in between, the monitor's failure counter
      is the number of rounds that stored that one failure, so it is down if and only if there were two. */
  lemma OneFailureDownIffStoredTwice(reminded: map<int, Option<int>>, history: seq<Step>, ps: seq<Ping>,
                                     rounds: seq<Round>, j: nat, m: string)
    requires RoundsOf(ps, rounds, m) && OneFailure(ps, j, m)
    requires Trail(Persisted(history, m)) == 0
    ensures var h := HealthOf(PlayRounds(Play(Start(reminded), history), ps, rounds).health, m);
      h.consecutiveFailures == Stored(rounds, j) && (h.isDown <==> Stored(rounds, j) >= 2)
  {
    var tail := RoundSteps(ps, rounds);
    RoundsArePlay(Play(Start(reminded), history), ps, rounds);
    PlayAppend(Start(reminded), history, tail);
    PersistedAppend(history, tail, m);
    RoundsTrail(Persisted(history, m), ps, rounds, j, m);
    FaultTolerantFold(reminded, history + tail, m);
    FoldClosedForm(Persisted(history + tail, m));
  }

  /** A delivery that the broker repeats exactly while it is handed back: no acknowledgement is lost. */
  predicate Settled(ps: seq<Ping>, rounds: seq<Round>) {
    && rounds != [] && (forall r :: 0 <= r < |rounds| ==> |rounds[r].envs| == |ps|)
    && (forall r :: 0 <= r < |rounds| - 1 ==> LookupFailed(ps, rounds[r].envs))
    && !LookupFailed(ps, rounds[|rounds| - 1].envs)
  }

  /** Every round stores result number `j`. */
  predicate AlwaysStored(rounds: seq<Round>, j: nat) {
    forall r :: 0 <= r < |rounds| ==>
      j < |rounds[r].envs| && rounds[r].envs[j].lookupOk && rounds[r].envs[j].persisted
  }

  lemma {:induction false} AllStored(rounds: seq<Round>, j: nat)
    requires AlwaysStored(rounds, j)
    ensures Stored(rounds, j) == |rounds|
  {
    if rounds != [] {
      AllStored(rounds[..|rounds| - 1], j);
    }
  }

  /** In particular, when the broker loses no acknowledgement and every round stores the failure, one failed check
      ends in DOWN if and only if a lookup failed in the first round, be it another monitor's. */
  lemma {:induction false} OneFailureDownIffRequeued(reminded: map<int, Option<int>>, history: seq<Step>, ps: seq<Ping>,
                                                     rounds: seq<Round>, j: nat, m: string)
    requires RoundsOf(ps, rounds, m) && OneFailure(ps, j, m) && Settled(ps, rounds) && AlwaysStored(rounds, j)
    requires Trail(Persisted(history, m)) == 0
    ensures HealthOf(PlayRounds(Play(Start(reminded), history), ps, rounds).health, m).isDown
            <==> Handle(Play(Play(Start(reminded), history), rounds[0].between), Batch(ps), rounds[0].envs).1 == Requeue
  {
    OneFailureDownIffStoredTwice(reminded, history, ps, rounds, j, m);
    AllStored(rounds, j);
    RequeuedIff(Play(Play(Start(reminded), history), rounds[0].between), ps, rounds[0].envs);
    assert |rounds| >= 2 <==> LookupFailed(ps, rounds[0].envs);
  }

  /** A lost acknowledgement does it too: the one failure was acknowledged, is delivered again, and the monitor is
      down. */
  lemma AcknowledgedYetDown(reminded: map<int, Option<int>>, jobID: string, m: string, e1: Env, e2: Env)
    requires m != "" && e1.lookupOk && e1.persisted && e2.lookupOk && e2.persisted
    ensures var batch := Batch([Ping(jobID, m, false)]);
      var (w, verdict) := Handle(Start(reminded), batch, [e1]);
      verdict == Ack && HealthOf(Handle(w, batch, [e2]).0.health, m).isDown
  {
    var ps := [Ping(jobID, m, false)];
    RequeuedIff(Start(reminded), ps, [e1]);
    var w := Handle(Start(reminded), Batch(ps), [e1]).0;
    SinglePing(Start(reminded), ps[0], e1);
    SinglePing(w, ps[0], e2);
    ProcessHealth(Start(reminded), m, false, e1);
    ProcessHealth(w, m, false, e2);
  }

  lemma SinglePing(w: World, p: Ping, e: Env)
    ensures Handle(w, Batch([p]), [e]).0 == Process(w, MonitorOf(p), p.success, e).0
  {
    assert [p][..|[p]| - 1] == [] && [e][..|[e]| - 1] == [];
    assert ProcessAll(w, [p], [e]).0 == Process(w, MonitorOf(p), p.success, e).0;
  }
}
