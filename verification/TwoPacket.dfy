/** The two-packet health machine (services/alert_service.go, ProcessPingResult). */
module TwoPacket {
  import opened Wrappers

  datatype Health = Health(isDown: bool, consecutiveFailures: nat, alertSent: bool, lastAlertedAt: Option<int>)

  /** The state of a monitor without a row. */
  const ZERO := Health(false, 0, false, None)

  datatype Alert = NoAlert | Down | Restored

  datatype Check = Check(success: bool, at: int)

  function Next(h: Health, c: Check): (Health, Alert) {
    if !c.success then
      var h := h.(consecutiveFailures := h.consecutiveFailures + 1);
      if h.consecutiveFailures >= 2 && !h.isDown
      then (h.(isDown := true, alertSent := true, lastAlertedAt := Some(c.at)), Down)
      else (h, NoAlert)
    else
      (h.(consecutiveFailures := 0, isDown := false, alertSent := false),
       if h.isDown && h.alertSent then Restored else NoAlert)
  }

  function Fold(cs: seq<Check>): Health {
    if cs == [] then ZERO else Next(Fold(cs[..|cs| - 1]), cs[|cs| - 1]).0
  }

  /** The alert decided at each check. */
  function Alerts(cs: seq<Check>): (r: seq<Alert>)
    ensures |r| == |cs|
  {
    if cs == [] then [] else Alerts(cs[..|cs| - 1]) + [Next(Fold(cs[..|cs| - 1]), cs[|cs| - 1]).1]
  }

  lemma FoldSnoc(cs: seq<Check>, c: Check)
    ensures Fold(cs + [c]) == Next(Fold(cs), c).0
    ensures Alerts(cs + [c]) == Alerts(cs) + [Next(Fold(cs), c).1]
  {
    assert (cs + [c])[..|cs|] == cs;
  }

  /** Length of the failure run the sequence ends in. */
  function Trail(cs: seq<Check>): nat {
    if cs == [] || cs[|cs| - 1].success then 0 else Trail(cs[..|cs| - 1]) + 1
  }

  lemma TrailSnoc(cs: seq<Check>, c: Check)
    ensures Trail(cs + [c]) == if c.success then 0 else Trail(cs) + 1
  {
    assert (cs + [c])[..|cs|] == cs;
  }

  /** When the last DOWN was decided. */
  function LastDown(cs: seq<Check>): Option<int> {
    if cs == [] then None
    else if Trail(cs) == 2 then Some(cs[|cs| - 1].at)
    else LastDown(cs[..|cs| - 1])
  }

  /** The stored row in closed form: it knows the trailing failure run and when it last reached two, nothing else. */
  lemma {:induction false} FoldClosedForm(cs: seq<Check>)
    ensures Fold(cs) == Health(Trail(cs) >= 2, Trail(cs), Trail(cs) >= 2, LastDown(cs))
  {
    if cs != [] {
      FoldClosedForm(cs[..|cs| - 1]);
    }
  }

  /** DOWN fires exactly when the trailing run reaches two; RESTORED exactly on a success that ends a run of two or
      more. */
  lemma {:induction false} AlertsClosedForm(cs: seq<Check>, i: nat)
    requires i < |cs|
    ensures Alerts(cs)[i] == Down <==> Trail(cs[..i + 1]) == 2
    ensures Alerts(cs)[i] == Restored <==> cs[i].success && Trail(cs[..i]) >= 2
  {
    var n := |cs| - 1;
    if i < n {
      AlertsClosedForm(cs[..n], i);
      assert cs[..n][..i] == cs[..i] && cs[..n][..i + 1] == cs[..i + 1];
    } else {
      FoldClosedForm(cs[..n]);
      assert cs[..i + 1] == cs;
    }
  }

  /** The alerts that are actually events, in order. */
  function Emitted(alerts: seq<Alert>): seq<Alert> {
    if alerts == [] then []
    else
      var a := alerts[|alerts| - 1];
      Emitted(alerts[..|alerts| - 1]) + (if a == NoAlert then [] else [a])
  }

  ghost predicate Alternates(events: seq<Alert>) {
    forall i :: 0 <= i < |events| ==> events[i] == if i % 2 == 0 then Down else Restored
  }

  function Count(alerts: seq<Alert>, a: Alert): nat {
    if alerts == [] then 0 else Count(alerts[..|alerts| - 1], a) + (if alerts[|alerts| - 1] == a then 1 else 0)
  }

  lemma AlertsSnoc(cs: seq<Check>)
    requires cs != []
    ensures Alerts(cs)[..|cs| - 1] == Alerts(cs[..|cs| - 1])
  {
  }

  /** Events strictly alternate, starting with DOWN, and the balance of the two kinds is the current state. */
  lemma {:induction false} EventsAlternate(cs: seq<Check>)
    ensures var events := Emitted(Alerts(cs));
      && Alternates(events)
      && |events| % 2 == (if Fold(cs).isDown then 1 else 0)
    ensures Count(Alerts(cs), Down) - Count(Alerts(cs), Restored) == if Fold(cs).isDown then 1 else 0
  {
    if cs != [] {
      EventsAlternate(cs[..|cs| - 1]);
      AlertsSnoc(cs);
      FoldClosedForm(cs[..|cs| - 1]);
    }
  }

  /** A maximal failure run of length two or more begins at position `s`. */
  predicate StartsOutage(cs: seq<Check>, s: int) {
    0 <= s < |cs| - 1 && !cs[s].success && !cs[s + 1].success && (s == 0 || cs[s - 1].success)
  }

  ghost function OutageStarts(cs: seq<Check>): set<int> {
    set s | 0 <= s < |cs| && StartsOutage(cs, s)
  }

  /** A further check starts an outage exactly when it makes the trailing run two long. */
  lemma OutageSnoc(cs: seq<Check>)
    requires cs != []
    ensures OutageStarts(cs) == OutageStarts(cs[..|cs| - 1]) + (if Trail(cs) == 2 then {|cs| - 2} else {})
    ensures |cs| - 2 !in OutageStarts(cs[..|cs| - 1])
  {
    var n := |cs| - 1;
    TrailMeans(cs);
    forall s | s != n - 1 ensures StartsOutage(cs, s) <==> StartsOutage(cs[..n], s) {
    }
    assert StartsOutage(cs, n - 1) <==> Trail(cs) == 2;
  }

  lemma {:induction false} TrailMeans(cs: seq<Check>)
    ensures Trail(cs) <= |cs|
    ensures forall i :: |cs| - Trail(cs) <= i < |cs| ==> !cs[i].success
    ensures Trail(cs) < |cs| ==> cs[|cs| - Trail(cs) - 1].success
  {
    if cs != [] && !cs[|cs| - 1].success {
      TrailMeans(cs[..|cs| - 1]);
    }
  }

  /** One DOWN per outage: as many as there are maximal failure runs of length at least two. */
  lemma {:induction false} DownPerOutage(cs: seq<Check>)
    ensures Count(Alerts(cs), Down) == |OutageStarts(cs)|
  {
    if cs == [] {
      assert OutageStarts(cs) == {};
    } else {
      var n := |cs| - 1;
      DownPerOutage(cs[..n]);
      AlertsSnoc(cs);
      AlertsClosedForm(cs, n);
      assert cs[..n + 1] == cs;
      OutageSnoc(cs);
    }
  }
}
