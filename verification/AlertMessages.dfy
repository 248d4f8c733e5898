/** The alert events and messages of one monitor over whole runs: what they depend on, and when they alternate. */
module AlertMessages {
  import opened Wrappers
  import opened TwoPacket
  import Credits
  import opened Alerts
  import opened AlertRuns

  // ---------------------------------------------------------------- events and messages, step by step

  /** The alert events of one monitor, in order. */
  function RaisedFor(log: seq<Effect>, m: string): seq<Alert> {
    if log == [] then []
    else
      var e := log[|log| - 1];
      RaisedFor(log[..|log| - 1], m) + (if e.Raised? && e.monitor == m then [e.alert] else [])
  }

  /** The alert messages about one monitor that were handed to the sender, in order. */
  function AttemptsFor(log: seq<Effect>, m: string): seq<Alert> {
    if log == [] then []
    else
      var x, before := log[|log| - 1], AttemptsFor(log[..|log| - 1], m);
      if x.Attempt? && x.monitor == m then before + [x.alert] else before
  }

  /** Every gate of the dispatch lets an alert through: subscribed, linked to a chat, a credit taken and answered. */
  predicate Opens(rows: map<int, Credits.Row>, e: Env) {
    && e.enabled == Some(true) && e.owner.Some? && e.owner.value.chatID != 0 && e.deduct == Answered
    && Credits.Deduct(Credits.RowOf(rows, e.owner.value.userID, e.today), e.today).1 != Credits.NoCredits
  }

  /** The alert event that a step raises for `m`. */
  function Raises(w: World, s: Step, m: string): Alert {
    if s.Result? && s.monitor == m && m != "" && s.env.lookupOk
    then Next(HealthOf(w.health, m), Check(s.success, s.env.at)).1 else NoAlert
  }

  lemma SeenSnoc(log: seq<Effect>, x: Effect, m: string)
    ensures RaisedFor(log + [x], m) == RaisedFor(log, m) + (if x.Raised? && x.monitor == m then [x.alert] else [])
    ensures AttemptsFor(log + [x], m) ==
      if x.Attempt? && x.monitor == m then AttemptsFor(log, m) + [x.alert] else AttemptsFor(log, m)
  {
    assert (log + [x])[..|log|] == log;
  }

  lemma RemindDelivers(w: World, u: int, c: int, e: Env, m: string)
    ensures var log := Remind(w, u, c, e).log;
      RaisedFor(log, m) == RaisedFor(w.log, m) && AttemptsFor(log, m) == AttemptsFor(w.log, m)
  {
    SeenSnoc(w.log, Reminder(u, c, e.checkAt, e.sendAt, e.markAt, e.marked), m);
  }

  lemma ChargeDelivers(w: World, u: int, today: Credits.Date, m: string)
    ensures var log := Charge(w, u, today).log;
      RaisedFor(log, m) == RaisedFor(w.log, m) && AttemptsFor(log, m) == AttemptsFor(w.log, m)
  {
    SeenSnoc(w.log, Ledger(u, today, Credits.Request(today)), m);
  }

  lemma DispatchDelivers(w: World, n: string, alert: Alert, e: Env, m: string)
    ensures var log := Dispatch(w, n, alert, e).log;
      && RaisedFor(log, m) == RaisedFor(w.log, m)
      && AttemptsFor(log, m) ==
           if n == m && Opens(w.rows, e) then AttemptsFor(w.log, m) + [alert] else AttemptsFor(w.log, m)
  {
    if e.enabled != Some(true) || e.owner.None? || e.owner.value.chatID == 0 || e.deduct == Failed {
      assert Dispatch(w, n, alert, e) == w && !Opens(w.rows, e);
    } else {
      var (u, c) := (e.owner.value.userID, e.owner.value.chatID);
      var charged := Charge(w, u, e.today);
      ChargeDelivers(w, u, e.today, m);
      if Credits.Deduct(Credits.RowOf(w.rows, u, e.today), e.today).1 == Credits.NoCredits {
        assert Dispatch(w, n, alert, e) == if e.deduct == Lost then charged else Remind(charged, u, c, e);
        RemindDelivers(charged, u, c, e, m);
      } else {
        var x := if e.deduct == Lost then Unanswered(u) else Attempt(u, c, n, alert);
        assert Dispatch(w, n, alert, e).log == charged.log + [x];
        SeenSnoc(charged.log, x, m);
      }
    }
  }

  lemma ProcessDelivers(w: World, n: string, success: bool, e: Env, m: string)
    ensures var (log, alert) := (Process(w, n, success, e).0.log, Raises(w, Result(n, success, e), m));
      && RaisedFor(log, m) == (if alert == NoAlert then RaisedFor(w.log, m) else RaisedFor(w.log, m) + [alert])
      && AttemptsFor(log, m) ==
           if alert != NoAlert && Opens(w.rows, e) then AttemptsFor(w.log, m) + [alert] else AttemptsFor(w.log, m)
  {
    var (h, alert) := Next(HealthOf(w.health, n), Check(success, e.at));
    if n != "" && e.lookupOk && alert != NoAlert {
      var stored := if e.persisted then w.(health := w.health[n := h]) else w;
      var raised := stored.(log := stored.log + [Raised(n, alert)]);
      SeenSnoc(w.log, Raised(n, alert), m);
      DispatchDelivers(raised, n, alert, e, m);
    }
  }

  lemma ReactDelivers(w: World, s: Step, m: string)
    ensures var (log, alert) := (React(w, s).log, Raises(w, s, m));
      && RaisedFor(log, m) == (if alert == NoAlert then RaisedFor(w.log, m) else RaisedFor(w.log, m) + [alert])
      && AttemptsFor(log, m) ==
           if alert != NoAlert && Opens(w.rows, s.env) then AttemptsFor(w.log, m) + [alert] else AttemptsFor(w.log, m)
  {
    match s
    case Link(_) =>
    case View(user, today) =>
      SeenSnoc(w.log, Opened(user, today), m);
    case Purchase(user, amount, today) =>
      SeenSnoc(w.log, Ledger(user, today, Credits.Buy(amount)), m);
    case Result(n, success, e) => ProcessDelivers(w, n, success, e, m);
  }

  // ---------------------------------------------------------------- isolation

  /** Every state of monitor `m` that was computed also reached the database. */
  predicate NoLostUpsert(steps: seq<Step>, m: string) {
    forall i :: 0 <= i < |steps| && steps[i].Result? && steps[i].monitor == m && steps[i].env.lookupOk
      ==> steps[i].env.persisted
  }

  lemma EmittedSnoc(alerts: seq<Alert>, a: Alert)
    ensures Emitted(alerts + [a]) == if a == NoAlert then Emitted(alerts) else Emitted(alerts) + [a]
  {
    assert (alerts + [a])[..|alerts|] == alerts;
  }

  /** As long as no upsert of its own is lost, a monitor's row and its alert events depend on its own results alone,
      however they were interleaved with other monitors', whose faults do not matter, and cut into batches. */
  lemma {:induction false} MonitorIsolation(reminded: map<int, Option<int>>, steps: seq<Step>, m: string)
    requires NoLostUpsert(steps, m)
    ensures var w := Play(Start(reminded), steps);
      && HealthOf(w.health, m) == Fold(Persisted(steps, m))
      && RaisedFor(w.log, m) == Emitted(TwoPacket.Alerts(Persisted(steps, m)))
  {
    FaultTolerantFold(reminded, steps, m);
    if steps != [] {
      var prior, s := steps[..|steps| - 1], steps[|steps| - 1];
      MonitorIsolation(reminded, prior, m);
      ReactDelivers(Play(Start(reminded), prior), s, m);
      if Persists(s, m) {
        var checks, c := Persisted(prior, m), Check(s.success, s.env.at);
        FoldSnoc(checks, c);
        EmittedSnoc(TwoPacket.Alerts(checks), Next(Fold(checks), c).1);
      } else {
        assert Persisted(steps, m) == Persisted(prior, m);
      }
    }
  }

  /** Two runs that show a monitor the same results, and lose no upsert of its own, end with the same row and the same
      events for it. */
  lemma BatchIndependence(r1: map<int, Option<int>>, ops1: seq<Op>, r2: map<int, Option<int>>, ops2: seq<Op>, m: string)
    requires Valid(ops1) && Valid(ops2)
    requires NoLostUpsert(Flatten(ops1), m) && NoLostUpsert(Flatten(ops2), m)
    requires Persisted(Flatten(ops1), m) == Persisted(Flatten(ops2), m)
    ensures var w1, w2 := RunOps(Start(r1), ops1), RunOps(Start(r2), ops2);
      HealthOf(w1.health, m) == HealthOf(w2.health, m) && RaisedFor(w1.log, m) == RaisedFor(w2.log, m)
  {
    BatchesDissolve(Start(r1), ops1);
    BatchesDissolve(Start(r2), ops2);
    MonitorIsolation(r1, Flatten(ops1), m);
    MonitorIsolation(r2, Flatten(ops2), m);
  }

  // ---------------------------------------------------------------- events when upserts are lost

  /** For each alert event of `m` in a run, in order, whether the state that raised it was stored. */
  function Kept(w: World, steps: seq<Step>, m: string): seq<bool> {
    if steps == [] then []
    else
      var (now, s) := (Play(w, steps[..|steps| - 1]), steps[|steps| - 1]);
      var before := Kept(w, steps[..|steps| - 1], m);
      if Raises(now, s, m) == NoAlert then before else before + [s.env.persisted]
  }

  /** How often the stored state changed sides. */
  function Flips(kept: seq<bool>): nat {
    if kept == [] then 0 else Flips(kept[..|kept| - 1]) + (if kept[|kept| - 1] then 1 else 0)
  }

  lemma FlipsSnoc(kept: seq<bool>, k: bool)
    ensures Flips(kept + [k]) == Flips(kept) + (if k then 1 else 0)
  {
    assert (kept + [k])[..|kept|] == kept;
  }

  function KindAt(level: nat): Alert {
    if level % 2 == 0 then Down else Restored
  }

  /** Each event is of the kind that the stored state, and not the event before it, calls for. */
  ghost predicate FollowsStore(events: seq<Alert>, kept: seq<bool>) {
    |events| == |kept| && forall i :: 0 <= i < |events| ==> events[i] == KindAt(Flips(kept[..i]))
  }

  /** One more event of the right kind; the side changes if its state is stored. */
  lemma FollowsSnoc(events: seq<Alert>, kept: seq<bool>, a: Alert, k: bool)
    requires FollowsStore(events, kept) && a == KindAt(Flips(kept))
    ensures FollowsStore(events + [a], kept + [k])
    ensures Flips(kept + [k]) == Flips(kept) + (if k then 1 else 0)
  {
    var longer := kept + [k];
    assert longer[..|kept|] == kept;
    assert forall i :: 0 <= i < |kept| ==> longer[..i] == kept[..i];
  }

  /** An event is of the kind that the row calls for, and a step changes the row's side when it raises an event and
      stores its state. */
  lemma ReactFlips(w: World, s: Step, m: string)
    requires Agrees(HealthOf(w.health, m))
    ensures var (alert, down) := (Raises(w, s, m), HealthOf(w.health, m).isDown);
      && (alert != NoAlert ==> alert == if down then Restored else Down)
      && HealthOf(React(w, s).health, m).isDown == if alert != NoAlert && s.env.persisted then !down else down
  {
    ReactHealth(w, s, m);
  }

  ghost predicate Tracks(events: seq<Alert>, kept: seq<bool>, down: bool) {
    FollowsStore(events, kept) && (down <==> Flips(kept) % 2 == 1)
  }

  lemma TrackEvent(events: seq<Alert>, kept: seq<bool>, down: bool, a: Alert, k: bool)
    requires Tracks(events, kept, down) && a == if down then Restored else Down
    ensures Tracks(events + [a], kept + [k], if k then !down else down)
  {
    FollowsSnoc(events, kept, a, k);
  }

  /** In every run, whatever fails, a monitor's events follow its stored state. */
  lemma {:induction false} EventsFollowStore(reminded: map<int, Option<int>>, steps: seq<Step>, m: string)
    ensures var w := Play(Start(reminded), steps);
      Tracks(RaisedFor(w.log, m), Kept(Start(reminded), steps, m), HealthOf(w.health, m).isDown)
  {
    if steps != [] {
      var (prior, s) := (steps[..|steps| - 1], steps[|steps| - 1]);
      var w := Play(Start(reminded), prior);
      EventsFollowStore(reminded, prior, m);
      RowsAgree(reminded, prior, m);
      ReactFlips(w, s, m);
      ReactDelivers(w, s, m);
      if Raises(w, s, m) != NoAlert {
        TrackEvent(RaisedFor(w.log, m), Kept(Start(reminded), prior, m), HealthOf(w.health, m).isDown,
                   Raises(w, s, m), s.env.persisted);
      }
    }
  }

  lemma {:induction false} AllKept(kept: seq<bool>, i: nat)
    requires i <= |kept| && forall j :: 0 <= j < i ==> kept[j]
    ensures Flips(kept[..i]) == i
  {
    if i > 0 {
      AllKept(kept, i - 1);
      assert kept[..i] == kept[..i - 1] + [kept[i - 1]];
      FlipsSnoc(kept[..i - 1], kept[i - 1]);
    }
  }

  lemma Neighbours(events: seq<Alert>, kept: seq<bool>, i: nat)
    requires FollowsStore(events, kept) && i + 1 < |events|
    ensures events[i + 1] != events[i] <==> kept[i]
  {
    assert kept[..i + 1] == kept[..i] + [kept[i]];
    FlipsSnoc(kept[..i], kept[i]);
  }

  /** Every event but the last was stored. */
  ghost predicate KeptThroughout(kept: seq<bool>) {
    forall i :: 0 <= i < |kept| - 1 ==> kept[i]
  }

  lemma FollowersAlternate(events: seq<Alert>, kept: seq<bool>)
    requires FollowsStore(events, kept)
    ensures Alternates(events) <==> KeptThroughout(kept)
  {
    if KeptThroughout(kept) {
      KeptAlternate(events, kept);
    } else {
      var i :| 0 <= i < |kept| - 1 && !kept[i];
      Neighbours(events, kept, i);
      assert i + 1 < |events| && events[i + 1] == events[i];
    }
  }

  lemma KeptAlternate(events: seq<Alert>, kept: seq<bool>)
    requires FollowsStore(events, kept) && KeptThroughout(kept)
    ensures Alternates(events)
  {
    forall i | 0 <= i < |events| ensures events[i] == KindAt(i) {
      AllKept(kept, i);
    }
  }

  /** In every run, whatever fails, a monitor's first event is DOWN, and two consecutive events differ if and only if
      the earlier one's state was stored. So the events alternate from DOWN if and only if every event but the last
      was stored. */
  lemma EventsAlternateIff(reminded: map<int, Option<int>>, steps: seq<Step>, m: string)
    ensures var (events, kept) := (RaisedFor(Play(Start(reminded), steps).log, m), Kept(Start(reminded), steps, m));
      && |kept| == |events|
      && (events != [] ==> events[0] == Down)
      && (forall i :: 0 <= i < |events| - 1 ==> (events[i + 1] != events[i] <==> kept[i]))
      && (Alternates(events) <==> KeptThroughout(kept))
  {
    var (events, kept) := (RaisedFor(Play(Start(reminded), steps).log, m), Kept(Start(reminded), steps, m));
    EventsFollowStore(reminded, steps, m);
    forall i | 0 <= i < |events| - 1 ensures events[i + 1] != events[i] <==> kept[i] {
      Neighbours(events, kept, i);
    }
    FollowersAlternate(events, kept);
  }

  // ---------------------------------------------------------------- delivered messages

  /** For each alert event of `m` in a run, in order, whether the gates were open. */
  function Gates(w: World, steps: seq<Step>, m: string): seq<bool> {
    if steps == [] then []
    else
      var (now, s) := (Play(w, steps[..|steps| - 1]), steps[|steps| - 1]);
      var before := Gates(w, steps[..|steps| - 1], m);
      if Raises(now, s, m) == NoAlert then before else before + [Opens(now.rows, s.env)]
  }

  /** The events whose gates were open. */
  function Filtered(events: seq<Alert>, gates: seq<bool>): seq<Alert>
    requires |events| == |gates|
  {
    if events == [] then []
    else
      var n := |events| - 1;
      var before := Filtered(events[..n], gates[..n]);
      if gates[n] then before + [events[n]] else before
  }

  lemma FilteredSnoc(events: seq<Alert>, gates: seq<bool>, a: Alert, open: bool)
    requires |events| == |gates|
    ensures Filtered(events + [a], gates + [open]) ==
      if open then Filtered(events, gates) + [a] else Filtered(events, gates)
  {
    assert (events + [a])[..|events|] == events && (gates + [open])[..|gates|] == gates;
  }

  /** In every run, whatever fails, the messages about a monitor are its alert events whose gates were open. */
  lemma {:induction false} DeliveredAreFiltered(reminded: map<int, Option<int>>, steps: seq<Step>, m: string)
    ensures var (log, gates) := (Play(Start(reminded), steps).log, Gates(Start(reminded), steps, m));
      |gates| == |RaisedFor(log, m)| && AttemptsFor(log, m) == Filtered(RaisedFor(log, m), gates)
  {
    if steps != [] {
      var (prior, s) := (steps[..|steps| - 1], steps[|steps| - 1]);
      var w := Play(Start(reminded), prior);
      DeliveredAreFiltered(reminded, prior, m);
      ReactDelivers(w, s, m);
      if Raises(w, s, m) != NoAlert {
        FilteredSnoc(RaisedFor(w.log, m), Gates(Start(reminded), prior, m), Raises(w, s, m), Opens(w.rows, s.env));
      }
    }
  }

  /** For each message, how often the stored state had changed sides when it was raised. */
  function OpenLevels(kept: seq<bool>, gates: seq<bool>): seq<nat>
    requires |kept| == |gates|
  {
    if gates == [] then []
    else
      var n := |gates| - 1;
      var before := OpenLevels(kept[..n], gates[..n]);
      if gates[n] then before + [Flips(kept[..n])] else before
  }

  ghost predicate ByLevel(messages: seq<Alert>, levels: seq<nat>) {
    |messages| == |levels| && forall k :: 0 <= k < |levels| ==> messages[k] == KindAt(levels[k])
  }

  lemma {:induction false} FilteredByLevel(events: seq<Alert>, kept: seq<bool>, gates: seq<bool>)
    requires FollowsStore(events, kept) && |gates| == |events|
    ensures ByLevel(Filtered(events, gates), OpenLevels(kept, gates))
  {
    if events != [] {
      var n := |events| - 1;
      assert forall i :: 0 <= i < n ==> kept[..n][..i] == kept[..i];
      FilteredByLevel(events[..n], kept[..n], gates[..n]);
    }
  }

  /** The levels alternate in parity from an even one. */
  ghost predicate ParityAlternates(levels: seq<nat>) {
    forall k :: 0 <= k < |levels| ==> levels[k] % 2 == k % 2
  }

  /** No RESTORED message follows anything but a DOWN message. */
  ghost predicate RestoredAfterDown(messages: seq<Alert>) {
    forall k :: 0 <= k < |messages| && messages[k] == Restored ==> k > 0 && messages[k - 1] == Down
  }

  /** Before every odd level there is an even one. */
  ghost predicate OddAfterEven(levels: seq<nat>) {
    forall k :: 0 <= k < |levels| && levels[k] % 2 == 1 ==> k > 0 && levels[k - 1] % 2 == 0
  }

  /** In every run, whatever fails, the messages about a monitor are its events whose gates were open. They alternate
      from DOWN if and only if the levels at the open gates alternate in parity from an even one; and RESTORED is sent
      only after a DOWN if and only if before every odd level at an open gate there is an even one. */
  lemma DeliveredAlternateIff(reminded: map<int, Option<int>>, steps: seq<Step>, m: string)
    ensures var (kept, gates) := (Kept(Start(reminded), steps, m), Gates(Start(reminded), steps, m));
      var messages := AttemptsFor(Play(Start(reminded), steps).log, m);
      && |kept| == |gates|
      && (Alternates(messages) <==> ParityAlternates(OpenLevels(kept, gates)))
      && (RestoredAfterDown(messages) <==> OddAfterEven(OpenLevels(kept, gates)))
  {
    var (kept, gates) := (Kept(Start(reminded), steps, m), Gates(Start(reminded), steps, m));
    var events := RaisedFor(Play(Start(reminded), steps).log, m);
    DeliveredAreFiltered(reminded, steps, m);
    EventsFollowStore(reminded, steps, m);
    FilteredByLevel(events, kept, gates);
    ByParity(Filtered(events, gates), OpenLevels(kept, gates));
  }

  lemma ByParity(messages: seq<Alert>, levels: seq<nat>)
    requires ByLevel(messages, levels)
    ensures Alternates(messages) <==> ParityAlternates(levels)
    ensures RestoredAfterDown(messages) <==> OddAfterEven(levels)
  {
    assert forall k :: 0 <= k < |messages| ==> (messages[k] == Restored <==> levels[k] % 2 == 1);
  }

  /** Where the gates were open. */
  function OpenPositions(gates: seq<bool>): seq<nat> {
    if gates == [] then []
    else
      var n := |gates| - 1;
      if gates[n] then OpenPositions(gates[..n]) + [n] else OpenPositions(gates[..n])
  }

  lemma {:induction false} LevelsArePositions(kept: seq<bool>, gates: seq<bool>)
    requires |kept| == |gates| && forall i :: 0 <= i < |kept| ==> kept[i]
    ensures OpenLevels(kept, gates) == OpenPositions(gates)
  {
    if gates != [] {
      var n := |gates| - 1;
      LevelsArePositions(kept[..n], gates[..n]);
      AllKept(kept, n);
    }
  }

  lemma {:induction false} KeptIfNoneLost(w: World, steps: seq<Step>, m: string)
    requires NoLostUpsert(steps, m)
    ensures forall i :: 0 <= i < |Kept(w, steps, m)| ==> Kept(w, steps, m)[i]
  {
    if steps != [] {
      KeptIfNoneLost(w, steps[..|steps| - 1], m);
    }
  }

  /** When no upsert of the monitor is lost, its events alternate and only the gates decide: the levels are the
      positions of the open gates among the events. */
  lemma GatesDecide(reminded: map<int, Option<int>>, steps: seq<Step>, m: string)
    requires NoLostUpsert(steps, m)
    ensures var (kept, gates) := (Kept(Start(reminded), steps, m), Gates(Start(reminded), steps, m));
      && Alternates(RaisedFor(Play(Start(reminded), steps).log, m))
      && |kept| == |gates| && OpenLevels(kept, gates) == OpenPositions(gates)
  {
    KeptIfNoneLost(Start(reminded), steps, m);
    EventsAlternateIff(reminded, steps, m);
    DeliveredAlternateIff(reminded, steps, m);
    LevelsArePositions(Kept(Start(reminded), steps, m), Gates(Start(reminded), steps, m));
  }

  // ---------------------------------------------------------------- runs that break the promise

  /** The credit rows after an answered deduction. */
  function RowsAfter(rows: map<int, Credits.Row>, e: Env): map<int, Credits.Row>
    requires e.owner.Some?
  {
    var user := e.owner.value.userID;
    rows[user := Credits.Deduct(Credits.RowOf(rows, user, e.today), e.today).0]
  }

  lemma ProcessRows(w: World, m: string, success: bool, e: Env)
    requires m != "" && e.lookupOk
    ensures var rows := Process(w, m, success, e).0.rows;
      var alert := Next(HealthOf(w.health, m), Check(success, e.at)).1;
      && (alert != NoAlert && Opens(w.rows, e) ==> rows == RowsAfter(w.rows, e))
      && (alert == NoAlert || e.enabled != Some(true) ==> rows == w.rows)
  {
  }

  /** What one answered result of `m` does to what can be seen of it. */
  lemma OneResult(w: World, m: string, success: bool, e: Env)
    requires m != "" && e.lookupOk
    ensures var t := React(w, Result(m, success, e));
      var (h, alert) := Next(HealthOf(w.health, m), Check(success, e.at));
      && HealthOf(t.health, m) == (if e.persisted then h else HealthOf(w.health, m))
      && RaisedFor(t.log, m) == (if alert == NoAlert then RaisedFor(w.log, m) else RaisedFor(w.log, m) + [alert])
      && AttemptsFor(t.log, m) ==
           (if alert != NoAlert && Opens(w.rows, e) then AttemptsFor(w.log, m) + [alert] else AttemptsFor(w.log, m))
      && (alert != NoAlert && Opens(w.rows, e) ==> t.rows == RowsAfter(w.rows, e))
      && (alert == NoAlert || e.enabled != Some(true) ==> t.rows == w.rows)
  {
    ReactHealth(w, Result(m, success, e), m);
    ReactDelivers(w, Result(m, success, e), m);
    ProcessRows(w, m, success, e);
  }

  lemma PlayThree(w: World, a: Step, b: Step, c: Step)
    ensures Play(w, [a, b, c]) == React(React(React(w, a), b), c)
  {
    assert [] + [a] == [a] && [a] + [b] == [a, b] && [a, b] + [c] == [a, b, c];
    PlaySnoc(w, [], a);
    PlaySnoc(w, [a], b);
    PlaySnoc(w, [a, b], c);
  }

  lemma PlayFour(w: World, a: Step, b: Step, c: Step, d: Step)
    ensures Play(w, [a, b, c, d]) == React(React(React(React(w, a), b), c), d)
  {
    PlayThree(w, a, b, c);
    PlaySnoc(w, [a, b, c], d);
    assert [a, b, c] + [d] == [a, b, c, d];
  }

  /** Closed gates: alerts switched off when the monitor goes down and on again before it recovers leave a RESTORED
      message without any DOWN, although every state was stored. */
  lemma RestoredAlone(reminded: map<int, Option<int>>, m: string, e1: Env, e2: Env, e3: Env)
    requires m != "" && e1.lookupOk && e2.lookupOk && e3.lookupOk && e1.persisted && e2.persisted
    requires e2.enabled == Some(false) && Opens(map[], e3)
    ensures AttemptsFor(Play(Start(reminded), [Result(m, false, e1), Result(m, false, e2), Result(m, true, e3)]).log, m)
         == [Restored]
  {
    var w0 := Start(reminded);
    var w1 := React(w0, Result(m, false, e1));
    var w2 := React(w1, Result(m, false, e2));
    PlayThree(w0, Result(m, false, e1), Result(m, false, e2), Result(m, true, e3));
    OneResult(w0, m, false, e1);
    OneResult(w1, m, false, e2);
    OneResult(w2, m, true, e3);
  }

  /** What can be seen of a monitor and of its owner, who used so many of the day's free credits and has no others. */
  ghost predicate Shows(w: World, m: string, user: int, today: Credits.Date,
                        failures: nat, used: nat, messages: seq<Alert>)
  {
    && HealthOf(w.health, m).consecutiveFailures == failures && Agrees(HealthOf(w.health, m))
    && Credits.RowOf(w.rows, user, today) == Credits.Row(used, today, 0, 0)
    && RaisedFor(w.log, m) == AttemptsFor(w.log, m) == messages
  }

  /** One more result, every gate open, its state stored or not. */
  lemma ShowStep(w: World, m: string, success: bool, user: int, chat: int, now: int, today: Credits.Date, stored: bool,
                 failures: nat, used: nat, messages: seq<Alert>)
    requires m != "" && chat != 0 && used < 3
    requires Shows(w, m, user, today, failures, used, messages)
    ensures var alert :=
        if success && failures >= 2 then Restored else if !success && failures == 1 then Down else NoAlert;
      Shows(React(w, Result(m, success, AllOk(user, chat, now, today).(persisted := stored))), m, user, today,
            if !stored then failures else if success then 0 else failures + 1,
            if alert == NoAlert then used else used + 1,
            if alert == NoAlert then messages else messages + [alert])
  {
    OneResult(w, m, success, AllOk(user, chat, now, today).(persisted := stored));
  }

  /** The second failure announces DOWN, whether or not its state is stored. */
  lemma DownOnce(reminded: map<int, Option<int>>, m: string, user: int, chat: int, now: int, today: Credits.Date,
                 stored: bool)
    requires m != "" && chat != 0
    ensures var e := AllOk(user, chat, now, today);
      var w := React(React(Start(reminded), Result(m, false, e)), Result(m, false, e.(persisted := stored)));
      Shows(w, m, user, today, if stored then 2 else 1, 1, [Down])
  {
    var e := AllOk(user, chat, now, today);
    assert e.(persisted := true) == e;
    ShowStep(Start(reminded), m, false, user, chat, now, today, true, 0, 0, []);
    ShowStep(React(Start(reminded), Result(m, false, e)), m, false, user, chat, now, today, stored, 1, 0, []);
  }

  /** Lost upserts: a monitor that stays down is announced DOWN again if the state of the first announcement was not
      stored. */
  lemma DownRepeats(reminded: map<int, Option<int>>, m: string, user: int, chat: int, now: int, today: Credits.Date)
    requires m != "" && chat != 0
    ensures var e := AllOk(user, chat, now, today);
      var steps := [Result(m, false, e), Result(m, false, e.(persisted := false)), Result(m, false, e)];
      AttemptsFor(Play(Start(reminded), steps).log, m) == [Down, Down]
  {
    var e := AllOk(user, chat, now, today);
    var lost := e.(persisted := false);
    PlayThree(Start(reminded), Result(m, false, e), Result(m, false, lost), Result(m, false, e));
    DownOnce(reminded, m, user, chat, now, today, false);
    var w := React(React(Start(reminded), Result(m, false, e)), Result(m, false, lost));
    ShowStep(w, m, false, user, chat, now, today, true, 1, 1, [Down]);
  }

  /** ... and one that stays up is announced RESTORED again, with every gate open all the time. */
  lemma RestoredRepeats(reminded: map<int, Option<int>>, m: string, user: int, chat: int, now: int, today: Credits.Date)
    requires m != "" && chat != 0
    ensures var e := AllOk(user, chat, now, today);
      var lost := e.(persisted := false);
      var steps := [Result(m, false, e), Result(m, false, e), Result(m, true, lost), Result(m, true, e)];
      AttemptsFor(Play(Start(reminded), steps).log, m) == [Down, Restored, Restored]
  {
    var e := AllOk(user, chat, now, today);
    var w0 := Start(reminded);
    var w2 := React(React(w0, Result(m, false, e)), Result(m, false, e));
    var w3 := React(w2, Result(m, true, e.(persisted := false)));
    PlayFour(w0, Result(m, false, e), Result(m, false, e), Result(m, true, e.(persisted := false)), Result(m, true, e));
    DownOnce(reminded, m, user, chat, now, today, true);
    ShowStep(w2, m, true, user, chat, now, today, false, 2, 1, [Down]);
    ShowStep(w3, m, true, user, chat, now, today, true, 2, 2, [Down, Restored]);
  }

  // ---------------------------------------------------------------- who hears of it, and who pays

  /** The step that an entry of the log comes from: it names the monitor, and the owner, chat and account are those that
      the owner query answered. */
  predicate CausedBy(x: Effect, s: Step) {
    match x
    case Raised(monitor, _) => s.Result? && s.monitor == monitor && s.env.lookupOk
    case Attempt(user, chat, monitor, _) =>
      && s.Result? && s.monitor == monitor && s.env.owner == Some(Chat(chat, user)) && chat != 0
      && s.env.enabled == Some(true) && s.env.deduct == Answered
    case Reminder(user, chat, _, _, _, _) =>
      && s.Result? && s.env.owner == Some(Chat(chat, user)) && chat != 0
      && s.env.enabled == Some(true) && s.env.deduct == Answered && s.env.delivered
    case Unanswered(user) => s.Result? && s.env.owner.Some? && s.env.owner.value.userID == user && s.env.deduct == Lost
    case Ledger(user, today, Request(date)) =>
      && s.Result? && s.env.owner.Some? && s.env.owner.value.userID == user && s.env.enabled == Some(true)
      && s.env.deduct != Failed && today == date == s.env.today
    case Ledger(user, today, Buy(amount)) => s == Purchase(user, amount, today)
    case Opened(user, today) => s == View(user, today)
  }

  ghost predicate Extends(before: seq<Effect>, after: seq<Effect>, s: Step) {
    before <= after && forall k :: |before| <= k < |after| ==> CausedBy(after[k], s)
  }

  lemma DispatchCauses(w: World, m: string, success: bool, alert: Alert, e: Env)
    ensures Extends(w.log, Dispatch(w, m, alert, e).log, Result(m, success, e))
  {
    DispatchLog(w, m, alert, e);
  }

  lemma ReactCauses(w: World, s: Step)
    ensures Extends(w.log, React(w, s).log, s)
  {
    if s.Result? && s.monitor != "" && s.env.lookupOk {
      var (h, alert) := Next(HealthOf(w.health, s.monitor), Check(s.success, s.env.at));
      var stored := if s.env.persisted then w.(health := w.health[s.monitor := h]) else w;
      var raised := stored.(log := stored.log + [Raised(s.monitor, alert)]);
      if alert != NoAlert {
        DispatchCauses(raised, s.monitor, s.success, alert, s.env);
        assert React(w, s) == Dispatch(raised, s.monitor, alert, s.env);
      }
    }
  }

  /** In every run, every message, reminder and charge goes to the owner that the lookup for the alerting monitor
      named, in that owner's chat, with notifications on; and nothing is sent, charged or bought without a step that
      says so. */
  lemma {:induction false} EverythingCaused(reminded: map<int, Option<int>>, steps: seq<Step>, k: nat)
    requires k < |Play(Start(reminded), steps).log|
    ensures exists i :: 0 <= i < |steps| && CausedBy(Play(Start(reminded), steps).log[k], steps[i])
  {
    var n := |steps| - 1;
    var w := Play(Start(reminded), steps[..n]);
    ReactCauses(w, steps[n]);
    if k < |w.log| {
      EverythingCaused(reminded, steps[..n], k);
      var i :| 0 <= i < n && CausedBy(w.log[k], steps[..n][i]);
      assert steps[..n][i] == steps[i];
    }
  }
}
