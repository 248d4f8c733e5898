/** The alert pipeline: batch consumer, two-packet machine, credit gate and weekly reminder
    (services/consumer_service.go, services/alert_service.go, db/repositories/telegram_repo.go). */
module Alerts {
  import opened Wrappers
  import opened TwoPacket
  import opened Credits

  const WEEK := 7 * 24 * 60 * 60 * 1_000_000

  /** One ping result of a batch; `jobID` is monitor:runner:timestamp. */
  datatype Ping = Ping(jobID: string, monitorID: string, success: bool)

  datatype Chat = Chat(chatID: int, userID: int)

  /** The fate of the deduction statement: not executed, executed and answered, or executed with its answer lost. */
  datatype Reply = Failed | Answered | Lost

  /** Everything the outside world decides while one result is processed: clocks, query failures, link state. */
  datatype Env = Env(
    at: int, lookupOk: bool, persisted: bool,
    enabled: Option<bool>, owner: Option<Chat>, deduct: Reply, today: Date,
    remindLookupOk: bool, checkAt: int, sendAt: int, delivered: bool, markAt: int, marked: bool)

  /** What the pipeline did, in order. */
  datatype Effect =
    | Raised(monitor: string, alert: Alert)
    | Ledger(user: int, today: Date, event: Event)       // a credit statement that took effect
    | Opened(user: int, today: Date)                     // a status query, which may create the row
    | Unanswered(user: int)                              // a credit was taken but the reply was lost
    | Attempt(user: int, chat: int, monitor: string, alert: Alert)  // an alert message handed to the sender
    | Reminder(user: int, chat: int, checkAt: int, sendAt: int, markAt: int, marked: bool)

  datatype World = World(health: map<string, Health>, rows: map<int, Row>, reminded: map<int, Option<int>>,
                         log: seq<Effect>)

  // ---------------------------------------------------------------- monitor identity

  /** The part of a job identifier before its first colon. */
  function BeforeColon(jobID: string): (r: string)
    ensures r <= jobID && ':' !in r
    ensures |r| < |jobID| ==> jobID[|r|] == ':'
  {
    if jobID == "" || jobID[0] == ':' then "" else [jobID[0]] + BeforeColon(jobID[1..])
  }

  method ExtractMonitorIDFromJobID(jobID: string) returns (r: string)
    ensures r == BeforeColon(jobID)
  {
    for i := 0 to |jobID|
      invariant ':' !in jobID[..i]
    {
      if jobID[i] == ':' {
        PrefixUnique(jobID, jobID[..i]);
        return jobID[..i];
      }
    }
    PrefixUnique(jobID, jobID);
    return jobID;
  }

  lemma PrefixUnique(jobID: string, r: string)
    requires r <= jobID && ':' !in r
    requires |r| < |jobID| ==> jobID[|r|] == ':'
    ensures r == BeforeColon(jobID)
  {
    var b := BeforeColon(jobID);
    assert forall i :: 0 <= i < |r| ==> jobID[i] == r[i] && r[i] in r;
    assert forall i :: 0 <= i < |b| ==> jobID[i] == b[i] && b[i] in b;
  }

  /** A composite job identifier resolves to the monitor it was built from, whatever follows. */
  lemma JobIDRoundTrip(monitor: string, rest: string)
    requires ':' !in monitor
    ensures BeforeColon(monitor + ":" + rest) == monitor
  {
    PrefixUnique(monitor + ":" + rest, monitor);
  }

  function MonitorOf(p: Ping): string {
    if p.monitorID == "" then BeforeColon(p.jobID) else p.monitorID
  }

  /** A result belongs to the monitor it names, or, if it names none, to the one its job was made for. */
  lemma MonitorResolved(jobID: string, monitor: string, rest: string, success: bool)
    requires ':' !in monitor
    ensures monitor != "" ==> MonitorOf(Ping(jobID, monitor, success)) == monitor
    ensures MonitorOf(Ping(monitor + ":" + rest, "", success)) == monitor
    ensures MonitorOf(Ping(monitor, "", success)) == monitor
  {
    JobIDRoundTrip(monitor, rest);
    PrefixUnique(monitor, monitor);
  }

  // ---------------------------------------------------------------- one result

  function HealthOf(health: map<string, Health>, m: string): Health {
    if m in health then health[m] else ZERO
  }

  predicate Due(reminded: map<int, Option<int>>, user: int, now: int) {
    user in reminded && (reminded[user].None? || reminded[user].value < now - WEEK)
  }

  function Remind(w: World, user: int, chat: int, e: Env): World {
    if e.remindLookupOk && Due(w.reminded, user, e.checkAt) && e.delivered then
      w.(reminded := if e.marked then w.reminded[user := Some(e.markAt)] else w.reminded,
         log := w.log + [Reminder(user, chat, e.checkAt, e.sendAt, e.markAt, e.marked)])
    else w
  }

  function Charge(w: World, user: int, today: Date): World {
    w.(rows := w.rows[user := Deduct(RowOf(w.rows, user, today), today).0],
       log := w.log + [Ledger(user, today, Request(today))])
  }

  function Dispatch(w: World, m: string, alert: Alert, e: Env): World {
    if e.enabled != Some(true) || e.owner.None? || e.owner.value.chatID == 0 || e.deduct == Failed then w
    else
      var user := e.owner.value.userID;
      var tier := Deduct(RowOf(w.rows, user, e.today), e.today).1;
      var charged := Charge(w, user, e.today);
      if e.deduct == Lost then
        if tier == NoCredits then charged else charged.(log := charged.log + [Unanswered(user)])
      else if tier == NoCredits then Remind(charged, user, e.owner.value.chatID, e)
      else charged.(log := charged.log + [Attempt(user, e.owner.value.chatID, m, alert)])
  }

  /** The new world, and whether the call succeeded. */
  function Process(w: World, m: string, success: bool, e: Env): (World, bool) {
    if m == "" then (w, true)
    else if !e.lookupOk then (w, false)
    else
      var (h, alert) := Next(HealthOf(w.health, m), Check(success, e.at));
      var stored := if e.persisted then w.(health := w.health[m := h]) else w;
      if alert == NoAlert then (stored, true)
      else (Dispatch(stored.(log := stored.log + [Raised(m, alert)]), m, alert, e), true)
  }

  // ---------------------------------------------------------------- one delivery

  datatype Delivery = Malformed | Batch(results: seq<Ping>)

  /** Rejected for good, acknowledged, or handed back to the broker for redelivery. */
  datatype Verdict = Reject | Ack | Requeue

  function ProcessAll(w: World, ps: seq<Ping>, es: seq<Env>): (World, bool)
    requires |ps| == |es|
  {
    if ps == [] then (w, true)
    else
      var n := |ps| - 1;
      var (w', ok) := ProcessAll(w, ps[..n], es[..n]);
      var (w'', ok') := Process(w', MonitorOf(ps[n]), ps[n].success, es[n]);
      (w'', ok && ok')
  }

  function Handle(w: World, d: Delivery, es: seq<Env>): (World, Verdict)
    requires d.Batch? ==> |d.results| == |es|
  {
    match d
    case Malformed => (w, Reject)
    case Batch(results) =>
      var (w', ok) := ProcessAll(w, results, es);
      (w', if ok then Ack else Requeue)
  }

  class TelegramRepository {
    const credits: CreditStore
    var health: map<string, Health>
    var reminded: map<int, Option<int>>

    constructor (reminded: map<int, Option<int>>)
      ensures fresh(credits) && credits.rows == map[] && health == map[] && this.reminded == reminded
    {
      credits := new CreditStore();
      health := map[];
      this.reminded := reminded;
    }

    /** None: the query failed. A monitor without a row gets the zero state. */
    method GetHealthState(m: string, ok: bool) returns (state: Option<Health>)
      ensures state == if ok then Some(HealthOf(health, m)) else None
    {
      if !ok {
        return None;
      }
      if m in health {
        return Some(health[m]);
      }
      return Some(ZERO);
    }

    method UpsertHealthState(m: string, state: Health, persisted: bool)
      modifies this`health
      ensures health == if persisted then old(health)[m := state] else old(health)
    {
      if persisted {
        health := health[m := state];
      }
    }

    /** None: no answer reached the caller. */
    method DeductCredit(user: int, today: Date, reply: Reply) returns (success: Option<bool>)
      modifies credits
      ensures var (r, tier) := Deduct(RowOf(old(credits.rows), user, today), today);
        && credits.rows == (if reply == Failed then old(credits.rows) else old(credits.rows)[user := r])
        && success == if reply == Answered then Some(tier != NoCredits) else None
    {
      if reply == Failed {
        return None;
      }
      var ok, _ := credits.DeductTelegramCredit(user, today);
      if reply == Lost {
        return None;
      }
      return Some(ok);
    }

    method ShouldSendReminder(user: int, ok: bool, now: int) returns (should: bool)
      ensures should == (ok && Due(reminded, user, now))
    {
      if !ok || user !in reminded {
        return false;
      }
      return reminded[user].None? || reminded[user].value < now - WEEK;
    }

    method MarkReminderSent(user: int, marked: bool, now: int)
      modifies this`reminded
      ensures reminded == if marked && user in old(reminded) then old(reminded)[user := Some(now)] else old(reminded)
    {
      if marked && user in reminded {
        reminded := reminded[user := Some(now)];
      }
    }
  }

  class AlertService {
    const repo: TelegramRepository
    ghost var log: seq<Effect>  // what was sent and charged, for the statements about whole runs

    constructor (repo: TelegramRepository)
      ensures this.repo == repo && log == []
    {
      this.repo := repo;
      log := [];
    }

    ghost function Now(): World
      reads this, repo, repo.credits
    {
      World(repo.health, repo.credits.rows, repo.reminded, log)
    }

    method ProcessPingResult(monitorID: string, success: bool, e: Env) returns (ok: bool)
      modifies this, repo, repo.credits
      ensures (Now(), ok) == Process(old(Now()), monitorID, success, e)
    {
      if monitorID == "" {
        return true;
      }
      var found := repo.GetHealthState(monitorID, e.lookupOk);
      if found.None? {
        return false;
      }
      var state := found.value;
      var alert := NoAlert;
      if !success {
        state := state.(consecutiveFailures := state.consecutiveFailures + 1);
        if state.consecutiveFailures >= 2 && !state.isDown {
          state := state.(isDown := true);
          state := state.(alertSent := true);
          state := state.(lastAlertedAt := Some(e.at));
          alert := Down;
        }
      } else {
        if state.isDown && state.alertSent {
          alert := Restored;
        }
        state := state.(consecutiveFailures := 0);
        state := state.(isDown := false);
        state := state.(alertSent := false);
      }
      repo.UpsertHealthState(monitorID, state, e.persisted);
      if alert != NoAlert {
        log := log + [Raised(monitorID, alert)];
        DispatchAlert(monitorID, alert, e);
      }
      return true;
    }

    method DispatchAlert(monitorID: string, alert: Alert, e: Env)
      modifies this, repo, repo.credits
      ensures Now() == Dispatch(old(Now()), monitorID, alert, e)
    {
      if e.enabled.None? || !e.enabled.value {
        return;
      }
      if e.owner.None? || e.owner.value.chatID == 0 {
        return;
      }
      var chatID, user := e.owner.value.chatID, e.owner.value.userID;
      ghost var tier := Deduct(RowOf(repo.credits.rows, user, e.today), e.today).1;
      var success := repo.DeductCredit(user, e.today, e.deduct);
      if e.deduct != Failed {
        log := log + [Ledger(user, e.today, Request(e.today))];
      }
      if success.None? {
        ghost var lost := if e.deduct == Lost && tier != NoCredits then [Unanswered(user)] else [];
        log := log + lost;
        return;
      }
      if !success.value {
        SendCreditReminder(chatID, user, e);
        return;
      }
      log := log + [Attempt(user, chatID, monitorID, alert)];
    }

    method SendCreditReminder(chat: int, user: int, e: Env)
      modifies this, repo
      ensures Now() == Remind(old(Now()), user, chat, e)
    {
      var should := repo.ShouldSendReminder(user, e.remindLookupOk, e.checkAt);
      if !should {
        return;
      }
      if !e.delivered {
        return;
      }
      log := log + [Reminder(user, chat, e.checkAt, e.sendAt, e.markAt, e.marked)];
      repo.MarkReminderSent(user, e.marked, e.markAt);
    }
  }

  class ConsumerService {
    const alerts: AlertService

    constructor (alerts: AlertService)
      ensures this.alerts == alerts
    {
      this.alerts := alerts;
    }

    method HandleDelivery(d: Delivery, es: seq<Env>) returns (verdict: Verdict)
      requires d.Batch? ==> |d.results| == |es|
      modifies alerts, alerts.repo, alerts.repo.credits
      ensures (alerts.Now(), verdict) == Handle(old(alerts.Now()), d, es)
    {
      if d.Malformed? {
        return Reject;
      }
      if |d.results| == 0 {
        return Ack;
      }
      var failed := false;
      ghost var start := alerts.Now();
      for i := 0 to |d.results|
        invariant (alerts.Now(), !failed) == ProcessAll(start, d.results[..i], es[..i])
      {
        var result := d.results[i];
        var monitorID := result.monitorID;
        if monitorID == "" {
          monitorID := ExtractMonitorIDFromJobID(result.jobID);
        }
        assert d.results[..i + 1][..i] == d.results[..i] && es[..i + 1][..i] == es[..i];
        var ok := alerts.ProcessPingResult(monitorID, result.success, es[i]);
        if !ok {
          failed := true;
        }
      }
      assert d.results[..|d.results|] == d.results && es[..|es|] == es;
      if failed {
        return Requeue;
      }
      return Ack;
    }
  }
}
