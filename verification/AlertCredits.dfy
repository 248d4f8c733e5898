/** The credits and reminders of one user over whole runs. */
module AlertCredits {
  import opened Wrappers
  import opened TwoPacket
  import Credits
  import opened Alerts
  import opened AlertRuns

  // ---------------------------------------------------------------- the credit ledger of one user

  function EventsOf(log: seq<Effect>, user: int): seq<Credits.Event> {
    if log == [] then []
    else
      var x := log[|log| - 1];
      EventsOf(log[..|log| - 1], user) + (if x.Ledger? && x.user == user then [x.event] else [])
  }

  /** The day a user's row was created. */
  function OpenedOn(log: seq<Effect>, user: int): Option<Credits.Date> {
    if log == [] then None
    else
      var x, before := log[|log| - 1], OpenedOn(log[..|log| - 1], user);
      if before.None? && (x.Ledger? || x.Opened?) && x.user == user then Some(x.today) else before
  }

  function Attempts(log: seq<Effect>, user: int): nat {
    if log == [] then 0
    else
      var x := log[|log| - 1];
      Attempts(log[..|log| - 1], user) + (if x.Attempt? && x.user == user then 1 else 0)
  }

  /** Credits taken whose answer never arrived, so that nothing was sent. */
  function LostReplies(log: seq<Effect>, user: int): nat {
    if log == [] then 0
    else
      var x := log[|log| - 1];
      LostReplies(log[..|log| - 1], user) + (if x.Unanswered? && x.user == user then 1 else 0)
  }

  /** The stored row is the ledger run over the user's credit statements, and every credit taken is one
      message handed to the sender or one lost reply; `pending` more were taken by the step in progress. */
  ghost predicate Books(w: World, user: int, pending: nat) {
    var es := EventsOf(w.log, user);
    match OpenedOn(w.log, user)
    case None => user !in w.rows && es == [] && Attempts(w.log, user) == LostReplies(w.log, user) == pending == 0
    case Some(day) =>
      && user in w.rows
      && w.rows[user] == Credits.Run(Credits.NewRow(day), es)
      && Attempts(w.log, user) + LostReplies(w.log, user) + pending
         == Credits.Served(Credits.Choices(Credits.NewRow(day), es))
  }

  lemma LogSnoc(log: seq<Effect>, x: Effect, user: int)
    ensures EventsOf(log + [x], user) ==
      if x.Ledger? && x.user == user then EventsOf(log, user) + [x.event] else EventsOf(log, user)
    ensures OpenedOn(log + [x], user) ==
      if OpenedOn(log, user).None? && (x.Ledger? || x.Opened?) && x.user == user then Some(x.today)
      else OpenedOn(log, user)
    ensures Attempts(log + [x], user) == Attempts(log, user) + (if x.Attempt? && x.user == user then 1 else 0)
    ensures LostReplies(log + [x], user) == LostReplies(log, user) + (if x.Unanswered? && x.user == user then 1 else 0)
  {
    assert (log + [x])[..|log|] == log;
  }

  /** Whether a credit statement takes a credit from the row it finds. */
  predicate Takes(r: Credits.Row, event: Credits.Event) {
    event.Request? && Credits.Deduct(r, event.date).1 != Credits.NoCredits
  }

  lemma ServedStep(r: Credits.Row, es: seq<Credits.Event>, event: Credits.Event)
    ensures Credits.Run(r, es + [event]) == Credits.Advance(Credits.Run(r, es), event)
    ensures Credits.Served(Credits.Choices(r, es + [event]))
      == Credits.Served(Credits.Choices(r, es)) + if Takes(Credits.Run(r, es), event) then 1 else 0
  {
    Credits.LedgerSnoc(r, es, event);
    Credits.ServedSnoc(Credits.Choices(r, es),
      if event.Request? then Credits.Deduct(Credits.Run(r, es), event.date).1 else Credits.NoCredits);
  }

  lemma OwnLedgerStep(w: World, w': World, today: Credits.Date, event: Credits.Event, user: int)
    requires Books(w, user, 0)
    requires user in w'.rows && w'.rows[user] == Credits.Advance(Credits.RowOf(w.rows, user, today), event)
    requires w'.log == w.log + [Ledger(user, today, event)]
    ensures Books(w', user, if Takes(Credits.RowOf(w.rows, user, today), event) then 1 else 0)
  {
    LogSnoc(w.log, Ledger(user, today, event), user);
    var day := if OpenedOn(w.log, user).None? then today else OpenedOn(w.log, user).value;
    var r, es := Credits.NewRow(day), EventsOf(w.log, user);
    assert Credits.RowOf(w.rows, user, today) == Credits.Run(r, es);
    assert Attempts(w.log, user) + LostReplies(w.log, user) == Credits.Served(Credits.Choices(r, es));
    ServedStep(r, es, event);
  }

  /** A credit statement that took effect, recorded in the row and in the log. */
  lemma LedgerStep(w: World, w': World, u: int, today: Credits.Date, event: Credits.Event, user: int)
    requires Books(w, user, 0)
    requires w'.rows == w.rows[u := Credits.Advance(Credits.RowOf(w.rows, u, today), event)]
    requires w'.log == w.log + [Ledger(u, today, event)]
    ensures Books(w', user, if u == user && Takes(Credits.RowOf(w.rows, u, today), event) then 1 else 0)
  {
    if u == user {
      OwnLedgerStep(w, w', today, event, user);
    } else {
      LogSnoc(w.log, Ledger(u, today, event), user);
    }
  }

  /** A sent message, or a lost reply, settles one credit taken. */
  lemma SettleStep(w: World, x: Effect, user: int, pending: nat)
    requires Books(w, user, pending)
    requires !x.Ledger? && !x.Opened?
    requires (x.Attempt? || x.Unanswered?) && x.user == user ==> pending > 0
    ensures Books(w.(log := w.log + [x]), user,
                  if (x.Attempt? || x.Unanswered?) && x.user == user then pending - 1 else pending)
  {
    LogSnoc(w.log, x, user);
  }

  lemma RemindBooks(w: World, u: int, c: int, e: Env, user: int)
    requires Books(w, user, 0)
    ensures Books(Remind(w, u, c, e), user, 0)
  {
    SettleStep(w, Reminder(u, c, e.checkAt, e.sendAt, e.markAt, e.marked), user, 0);
  }

  lemma DispatchBooks(w: World, m: string, alert: Alert, e: Env, user: int)
    requires Books(w, user, 0)
    ensures Books(Dispatch(w, m, alert, e), user, 0)
  {
    if !(e.enabled != Some(true) || e.owner.None? || e.owner.value.chatID == 0 || e.deduct == Failed) {
      var (u, c) := (e.owner.value.userID, e.owner.value.chatID);
      var charged := Charge(w, u, e.today);
      LedgerStep(w, charged, u, e.today, Credits.Request(e.today), user);
      if Credits.Deduct(Credits.RowOf(w.rows, u, e.today), e.today).1 == Credits.NoCredits {
        RemindBooks(charged, u, c, e, user);
      } else if e.deduct == Lost {
        SettleStep(charged, Unanswered(u), user, if u == user then 1 else 0);
      } else {
        SettleStep(charged, Attempt(u, c, m, alert), user, if u == user then 1 else 0);
      }
    }
  }

  lemma ProcessBooks(w: World, m: string, success: bool, e: Env, user: int)
    requires Books(w, user, 0)
    ensures Books(Process(w, m, success, e).0, user, 0)
  {
    var (h, alert) := Next(HealthOf(w.health, m), Check(success, e.at));
    var stored := if e.persisted then w.(health := w.health[m := h]) else w;
    if m != "" && e.lookupOk && alert != NoAlert {
      var raised := stored.(log := stored.log + [Raised(m, alert)]);
      LogSnoc(w.log, Raised(m, alert), user);
      DispatchBooks(raised, m, alert, e, user);
      assert Process(w, m, success, e).0 == Dispatch(raised, m, alert, e);
    }
  }

  lemma ReactBooks(w: World, s: Step, user: int)
    requires Books(w, user, 0)
    ensures Books(React(w, s), user, 0)
  {
    match s
    case Link(_) =>
    case View(u, today) => LogSnoc(w.log, Opened(u, today), user);
    case Purchase(u, amount, today) =>
      if Credits.TopUp(Credits.RowOf(w.rows, u, today), amount).Some? {
        LedgerStep(w, React(w, s), u, today, Credits.Buy(amount), user);
      }
    case Result(m, success, e) => ProcessBooks(w, m, success, e, user);
  }

  lemma {:induction false} BooksAlways(reminded: map<int, Option<int>>, steps: seq<Step>, user: int)
    ensures Books(Play(Start(reminded), steps), user, 0)
  {
    if steps != [] {
      BooksAlways(reminded, steps[..|steps| - 1], user);
      ReactBooks(Play(Start(reminded), steps[..|steps| - 1]), steps[|steps| - 1], user);
    }
  }

  /** A credit statement, or the creation of the row, on behalf of `user`. */
  predicate Concerns(x: Effect, user: int) {
    (x.Ledger? || x.Opened?) && x.user == user
  }

  /** The user's credit statements carry non-decreasing dates, and purchases are non-negative. */
  predicate Timely(log: seq<Effect>, user: int) {
    && (forall i, j :: 0 <= i < j < |log| && Concerns(log[i], user) && Concerns(log[j], user)
          ==> log[i].today <= log[j].today)
    && (forall i :: 0 <= i < |log| && Concerns(log[i], user) && log[i].Ledger? && log[i].event.Buy?
          ==> 0 <= log[i].event.amount)
  }

  predicate RequestsDated(log: seq<Effect>) {
    forall i :: 0 <= i < |log| && log[i].Ledger? && log[i].event.Request? ==> log[i].event.date == log[i].today
  }

  lemma ReactDated(w: World, s: Step)
    requires RequestsDated(w.log)
    ensures RequestsDated(React(w, s).log)
  {
    if s.Result? && s.monitor != "" && s.env.lookupOk {
      var (h, alert) := Next(HealthOf(w.health, s.monitor), Check(s.success, s.env.at));
      var stored := if s.env.persisted then w.(health := w.health[s.monitor := h]) else w;
      DispatchLog(stored.(log := stored.log + [Raised(s.monitor, alert)]), s.monitor, alert, s.env);
    }
  }

  lemma {:induction false} AlwaysDated(reminded: map<int, Option<int>>, steps: seq<Step>)
    ensures RequestsDated(Play(Start(reminded), steps).log)
  {
    if steps != [] {
      AlwaysDated(reminded, steps[..|steps| - 1]);
      ReactDated(Play(Start(reminded), steps[..|steps| - 1]), steps[|steps| - 1]);
    }
  }

  /** No credit statement of the user is later than `bound`. */
  predicate Until(log: seq<Effect>, user: int, bound: Credits.Date) {
    forall i :: 0 <= i < |log| && Concerns(log[i], user) ==> log[i].today <= bound
  }

  lemma TimelyPrefix(log: seq<Effect>, user: int, bound: Credits.Date)
    requires log != [] && Timely(log, user) && RequestsDated(log) && Until(log, user, bound)
    ensures var (prior, x) := (log[..|log| - 1], log[|log| - 1]);
      Timely(prior, user) && RequestsDated(prior) && Until(prior, user, if Concerns(x, user) then x.today else bound)
  {
    var prior := log[..|log| - 1];
    assert forall i :: 0 <= i < |prior| ==> prior[i] == log[i];
  }

  lemma {:induction false} TimelyRegular(log: seq<Effect>, user: int, bound: Credits.Date)
    requires Timely(log, user) && RequestsDated(log) && OpenedOn(log, user).Some?
    requires Until(log, user, bound)
    ensures var r, es := Credits.NewRow(OpenedOn(log, user).value), EventsOf(log, user);
      Credits.Regular(r, es) && Credits.LastDate(r, es) <= bound
  {
    var (prior, x) := (log[..|log| - 1], log[|log| - 1]);
    var (r, es) := (Credits.NewRow(OpenedOn(log, user).value), EventsOf(prior, user));
    var bound' := if Concerns(x, user) then x.today else bound;
    TimelyPrefix(log, user, bound);
    assert bound' <= bound && (x.Ledger? && x.user == user && x.event.Buy? ==> 0 <= x.event.amount);
    if OpenedOn(prior, user).Some? {
      TimelyRegular(prior, user, bound');
    } else {
      NothingBefore(prior, user);
      assert Credits.Regular(r, es) && Credits.LastDate(r, es) == x.today;
    }
    if x.Ledger? && x.user == user {
      Credits.RegularSnoc(r, es, x.event);
      assert EventsOf(log, user) == es + [x.event];
    } else {
      assert EventsOf(log, user) == es;
    }
  }

  lemma {:induction false} NothingBefore(log: seq<Effect>, user: int)
    requires OpenedOn(log, user).None?
    ensures EventsOf(log, user) == []
  {
    if log != [] {
      NothingBefore(log[..|log| - 1], user);
    }
  }

  /** The alert budget of one user over any run of deliveries, failures, redeliveries and purchases: every message
      handed to the sender is a credit taken, at most three of them free on any date, and together they stay
      within three per date plus everything ever purchased. */
  lemma AlertBudget(reminded: map<int, Option<int>>, steps: seq<Step>, user: int)
    requires Timely(Play(Start(reminded), steps).log, user)
    requires OpenedOn(Play(Start(reminded), steps).log, user).Some?
    ensures var w := Play(Start(reminded), steps);
      var es := EventsOf(w.log, user);
      var taken := Credits.Choices(Credits.NewRow(OpenedOn(w.log, user).value), es);
      && user in w.rows
      && Attempts(w.log, user) + LostReplies(w.log, user) == Credits.Served(taken)
      && (forall date :: Credits.FreeOn(es, taken, date) <= 3)
      && w.rows[user].totalEver == w.rows[user].purchased + Credits.Count(taken, Credits.Purchased)
      && Attempts(w.log, user) <= 3 * |Credits.Dates(es)| + w.rows[user].totalEver
  {
    var w := Play(Start(reminded), steps);
    var day := OpenedOn(w.log, user).value;
    BooksAlways(reminded, steps, user);
    var bound := Latest(w.log, day);
    AlwaysDated(reminded, steps);
    TimelyRegular(w.log, user, bound);
    Credits.Budget(Credits.NewRow(day), EventsOf(w.log, user));
  }

  /** A date no earlier than any in the log. */
  function Latest(log: seq<Effect>, floor: Credits.Date): (d: Credits.Date)
    ensures floor <= d
    ensures forall i :: 0 <= i < |log| && (log[i].Ledger? || log[i].Opened?) ==> log[i].today <= d
  {
    if log == [] then floor
    else
      var x, d := log[|log| - 1], Latest(log[..|log| - 1], floor);
      if x.Ledger? || x.Opened? then Credits.Max(d, x.today) else d
  }

  // ---------------------------------------------------------------- reminders

  function Reminders(log: seq<Effect>, user: int): seq<Effect> {
    if log == [] then []
    else
      var x := log[|log| - 1];
      Reminders(log[..|log| - 1], user) + (if x.Reminder? && x.user == user then [x] else [])
  }

  /** Consecutive reminders are a week apart when the earlier one was marked. */
  ghost predicate WeekApart(rs: seq<Effect>) {
    && (forall i :: 0 <= i < |rs| ==> rs[i].Reminder?)
    && (forall i, j :: 0 <= i && j == i + 1 && j < |rs| && rs[i].marked ==> rs[i].markAt + WEEK < rs[j].checkAt)
  }

  /** When the last marked reminder was marked, or what the row held before. */
  function LastMark(start: Option<int>, rs: seq<Effect>): Option<int> {
    if rs == [] then start
    else if rs[|rs| - 1].Reminder? && rs[|rs| - 1].marked then Some(rs[|rs| - 1].markAt)
    else LastMark(start, rs[..|rs| - 1])
  }

  /** ... and the user's row holds the last mark. */
  ghost predicate Spaced(w: World, user: int, start: Option<int>) {
    var rs := Reminders(w.log, user);
    && WeekApart(rs)
    && (if user in w.reminded then w.reminded[user] == LastMark(start, rs) else rs == [] && start == None)
  }

  lemma WeekApartSnoc(rs: seq<Effect>, x: Effect, start: Option<int>)
    requires WeekApart(rs) && x.Reminder?
    requires rs != [] && rs[|rs| - 1].marked ==> rs[|rs| - 1].markAt + WEEK < x.checkAt
    ensures WeekApart(rs + [x])
    ensures LastMark(start, rs + [x]) == if x.marked then Some(x.markAt) else LastMark(start, rs)
  {
    assert (rs + [x])[..|rs|] == rs;
  }

  lemma RemindersSnoc(log: seq<Effect>, x: Effect, user: int)
    ensures Reminders(log + [x], user) ==
      if x.Reminder? && x.user == user then Reminders(log, user) + [x] else Reminders(log, user)
  {
    assert (log + [x])[..|log|] == log;
  }

  lemma RemindSpaced(w: World, u: int, c: int, e: Env, user: int, start: Option<int>)
    requires Spaced(w, user, start)
    ensures Spaced(Remind(w, u, c, e), user, start)
  {
    if e.remindLookupOk && Due(w.reminded, u, e.checkAt) && e.delivered {
      var x := Reminder(u, c, e.checkAt, e.sendAt, e.markAt, e.marked);
      RemindersSnoc(w.log, x, user);
      if u == user {
        WeekApartSnoc(Reminders(w.log, user), x, start);
      }
    }
  }

  /** An effect that is not a reminder leaves the spacing as it was. */
  lemma OtherSpaced(w: World, w': World, x: Effect, user: int, start: Option<int>)
    requires Spaced(w, user, start) && !x.Reminder?
    requires w'.reminded == w.reminded && w'.log == w.log + [x]
    ensures Spaced(w', user, start)
  {
    RemindersSnoc(w.log, x, user);
  }

  lemma DispatchSpaced(w: World, m: string, alert: Alert, e: Env, user: int, start: Option<int>)
    requires Spaced(w, user, start)
    ensures Spaced(Dispatch(w, m, alert, e), user, start)
  {
    if !(e.enabled != Some(true) || e.owner.None? || e.owner.value.chatID == 0 || e.deduct == Failed) {
      var (u, c) := (e.owner.value.userID, e.owner.value.chatID);
      var charged := Charge(w, u, e.today);
      OtherSpaced(w, charged, Ledger(u, e.today, Credits.Request(e.today)), user, start);
      if Credits.Deduct(Credits.RowOf(w.rows, u, e.today), e.today).1 == Credits.NoCredits {
        RemindSpaced(charged, u, c, e, user, start);
      } else {
        var x := if e.deduct == Lost then Unanswered(u) else Attempt(u, c, m, alert);
        OtherSpaced(charged, charged.(log := charged.log + [x]), x, user, start);
      }
    }
  }

  lemma ReactSpaced(w: World, s: Step, user: int, start: Option<int>)
    requires Spaced(w, user, start)
    ensures Spaced(React(w, s), user, start)
  {
    match s
    case Link(_) =>
    case View(u, today) => OtherSpaced(w, React(w, s), Opened(u, today), user, start);
    case Purchase(u, amount, today) =>
      if Credits.TopUp(Credits.RowOf(w.rows, u, today), amount).Some? {
        OtherSpaced(w, React(w, s), Ledger(u, today, Credits.Buy(amount)), user, start);
      }
    case Result(m, success, e) =>
      if m != "" && e.lookupOk {
        var (h, alert) := Next(HealthOf(w.health, m), Check(success, e.at));
        var stored := if e.persisted then w.(health := w.health[m := h]) else w;
        if alert != NoAlert {
          var raised := stored.(log := stored.log + [Raised(m, alert)]);
          OtherSpaced(w, raised, Raised(m, alert), user, start);
          DispatchSpaced(raised, m, alert, e, user, start);
        }
      }
  }

  lemma {:induction false} AlwaysSpaced(reminded: map<int, Option<int>>, steps: seq<Step>, user: int)
    ensures Spaced(Play(Start(reminded), steps), user, if user in reminded then reminded[user] else None)
  {
    if steps != [] {
      var start := if user in reminded then reminded[user] else None;
      AlwaysSpaced(reminded, steps[..|steps| - 1], user);
      ReactSpaced(Play(Start(reminded), steps[..|steps| - 1]), steps[|steps| - 1], user, start);
    }
  }

  /** One consumer loop and a monotone database clock: check, send and mark follow one another, reminder by reminder. */
  ghost predicate Clocked(rs: seq<Effect>) {
    && (forall i :: 0 <= i < |rs| ==> rs[i].Reminder? && rs[i].checkAt <= rs[i].sendAt <= rs[i].markAt)
    && (forall i, j :: 0 <= i < j < |rs| ==> rs[i].markAt <= rs[j].checkAt)
  }

  /** A reminder that was marked is more than seven days before every later one, whatever lies between. */
  lemma ReminderSpacing(reminded: map<int, Option<int>>, steps: seq<Step>, user: int, i: nat, j: nat)
    requires var rs := Reminders(Play(Start(reminded), steps).log, user);
      Clocked(rs) && i < j < |rs| && rs[i].marked
    ensures var rs := Reminders(Play(Start(reminded), steps).log, user);
      rs[i].sendAt + 7 * 86_400 * 1_000_000 < rs[j].sendAt
  {
    AlwaysSpaced(reminded, steps, user);
    var rs := Reminders(Play(Start(reminded), steps).log, user);
    assert rs[i].markAt + WEEK < rs[i + 1].checkAt;
    if i + 1 < j {
      assert rs[i + 1].markAt <= rs[j].checkAt;
    }
  }

  /** So two reminders within a week are always the work of lost marks: the earlier one's and those of all the
      reminders between the two. */
  lemma EarlyReminderLostMarks(reminded: map<int, Option<int>>, steps: seq<Step>, user: int, i: nat, j: nat, k: nat)
    requires var rs := Reminders(Play(Start(reminded), steps).log, user);
      Clocked(rs) && i <= k < j < |rs| && rs[j].sendAt <= rs[i].sendAt + 7 * 86_400 * 1_000_000
    ensures !Reminders(Play(Start(reminded), steps).log, user)[k].marked
  {
    var rs := Reminders(Play(Start(reminded), steps).log, user);
    assert i < k ==> rs[i].markAt <= rs[k].checkAt;
    if rs[k].marked {
      ReminderSpacing(reminded, steps, user, k, j);
    }
  }

  /** The marks alone decide: after any run a refused alert sends a reminder if and only if its calls succeed, the
      user is linked, and no mark was ever stored or the last stored one is more than seven days old. */
  lemma RemindsAgainIff(reminded: map<int, Option<int>>, steps: seq<Step>, user: int, chat: int, e: Env)
    ensures var w := Play(Start(reminded), steps);
      var mark := LastMark(if user in reminded then reminded[user] else None, Reminders(w.log, user));
      var sends := e.remindLookupOk && e.delivered && user in w.reminded
        && (mark.None? || mark.value + 7 * 86_400 * 1_000_000 < e.checkAt);
      Reminders(Remind(w, user, chat, e).log, user) ==
        if sends then Reminders(w.log, user) + [Reminder(user, chat, e.checkAt, e.sendAt, e.markAt, e.marked)]
        else Reminders(w.log, user)
  {
    AlwaysSpaced(reminded, steps, user);
    var x := Reminder(user, chat, e.checkAt, e.sendAt, e.markAt, e.marked);
    RemindersSnoc(Play(Start(reminded), steps).log, x, user);
  }

  /** When a reminder is sent: after any run an alert sends one, to the owner, if and only if the gates before the
      credit were open, the deduction was answered with a refusal, and the marks allow it. */
  lemma RefusalReminds(reminded: map<int, Option<int>>, steps: seq<Step>, m: string, alert: Alert, e: Env)
    requires e.owner.Some?
    ensures var (w, user, chat) := (Play(Start(reminded), steps), e.owner.value.userID, e.owner.value.chatID);
      var mark := LastMark(if user in reminded then reminded[user] else None, Reminders(w.log, user));
      var refused := e.enabled == Some(true) && chat != 0 && e.deduct == Answered
        && Credits.Deduct(Credits.RowOf(w.rows, user, e.today), e.today).1 == Credits.NoCredits;
      var allowed := e.remindLookupOk && e.delivered && user in w.reminded
        && (mark.None? || mark.value + 7 * 86_400 * 1_000_000 < e.checkAt);
      Reminders(Dispatch(w, m, alert, e).log, user) ==
        if refused && allowed
        then Reminders(w.log, user) + [Reminder(user, chat, e.checkAt, e.sendAt, e.markAt, e.marked)]
        else Reminders(w.log, user)
  {
    var (w, user, chat) := (Play(Start(reminded), steps), e.owner.value.userID, e.owner.value.chatID);
    AlwaysSpaced(reminded, steps, user);
    DispatchReminds(w, m, alert, e);
  }

  lemma DispatchReminds(w: World, m: string, alert: Alert, e: Env)
    requires e.owner.Some?
    ensures var (user, chat) := (e.owner.value.userID, e.owner.value.chatID);
      var refused := e.enabled == Some(true) && chat != 0 && e.deduct == Answered
        && Credits.Deduct(Credits.RowOf(w.rows, user, e.today), e.today).1 == Credits.NoCredits;
      Reminders(Dispatch(w, m, alert, e).log, user) ==
        if refused && e.remindLookupOk && e.delivered && Due(w.reminded, user, e.checkAt)
        then Reminders(w.log, user) + [Reminder(user, chat, e.checkAt, e.sendAt, e.markAt, e.marked)]
        else Reminders(w.log, user)
  {
    var (user, chat) := (e.owner.value.userID, e.owner.value.chatID);
    if e.enabled == Some(true) && chat != 0 && e.deduct != Failed {
      var charged := Charge(w, user, e.today);
      RemindersSnoc(w.log, Ledger(user, e.today, Credits.Request(e.today)), user);
      if Credits.Deduct(Credits.RowOf(w.rows, user, e.today), e.today).1 == Credits.NoCredits {
        assert Dispatch(w, m, alert, e) == if e.deduct == Lost then charged else Remind(charged, user, chat, e);
        RemindersSnoc(charged.log, Reminder(user, chat, e.checkAt, e.sendAt, e.markAt, e.marked), user);
      } else {
        var x := if e.deduct == Lost then Unanswered(user) else Attempt(user, chat, m, alert);
        assert Dispatch(w, m, alert, e).log == charged.log + [x];
        RemindersSnoc(charged.log, x, user);
      }
    }
  }

  /** Every call answered but the reminder's mark, all at one moment of one day. */
  function MarkLost(user: int, chat: int, now: int, today: Credits.Date): Env {
    AllOk(user, chat, now, today).(marked := false)
  }

  /** What such a result leaves of the world. */
  lemma MarkLostStep(w: World, m: string, success: bool, user: int, chat: int, now: int, today: Credits.Date)
    requires m != "" && chat != 0 && Due(w.reminded, user, now)
    ensures var t := React(w, Result(m, success, MarkLost(user, chat, now, today)));
      var (h, alert) := Next(HealthOf(w.health, m), Check(success, now));
      var (row, tier) := Credits.Deduct(Credits.RowOf(w.rows, user, today), today);
      && t.health == w.health[m := h] && t.reminded == w.reminded
      && t.rows == (if alert == NoAlert then w.rows else w.rows[user := row])
      && Reminders(t.log, user) == Reminders(w.log, user)
           + if alert != NoAlert && tier == Credits.NoCredits then [Reminder(user, chat, now, now, now, false)] else []
  {
    var e := MarkLost(user, chat, now, today);
    var (h, alert) := Next(HealthOf(w.health, m), Check(success, now));
    if alert != NoAlert {
      var u := w.(health := w.health[m := h], log := w.log + [Raised(m, alert)]);
      var charged := Charge(u, user, today);
      assert React(w, Result(m, success, e)) == Dispatch(u, m, alert, e);
      RemindersSnoc(w.log, Raised(m, alert), user);
      RemindersSnoc(u.log, Ledger(user, today, Credits.Request(today)), user);
      if Credits.Deduct(Credits.RowOf(w.rows, user, today), today).1 == Credits.NoCredits {
        assert Dispatch(u, m, alert, e) == Remind(charged, user, chat, e);
        RemindersSnoc(charged.log, Reminder(user, chat, now, now, now, false), user);
      } else {
        assert Dispatch(u, m, alert, e) == charged.(log := charged.log + [Attempt(user, chat, m, alert)]);
        RemindersSnoc(charged.log, Attempt(user, chat, m, alert), user);
      }
    }
  }

  /** Trailing failures of a flapping monitor, free credits its owner used, and reminders sent. */
  datatype Tally = Tally(failures: nat, used: nat, sent: nat)

  function Counted(t: Tally, ok: bool): Tally {
    var alert := if ok then t.failures >= 2 else t.failures == 1;
    Tally(if ok then 0 else t.failures + 1,
          if alert && t.used < 3 then t.used + 1 else t.used,
          if alert && t.used >= 3 then t.sent + 1 else t.sent)
  }

  function Tallied(oks: seq<bool>): (t: Tally)
    ensures t.used <= 3
  {
    if oks == [] then Tally(0, 0, 0) else Counted(Tallied(oks[..|oks| - 1]), oks[|oks| - 1])
  }

  function Repeated(r: Effect, n: nat): seq<Effect> {
    if n == 0 then [] else Repeated(r, n - 1) + [r]
  }

  /** The world shows the tally of a monitor whose owner has no other credits. */
  ghost predicate Flaps(w: World, m: string, user: int, today: Credits.Date, r: Effect, t: Tally) {
    && HealthOf(w.health, m).consecutiveFailures == t.failures && Agrees(HealthOf(w.health, m))
    && Credits.RowOf(w.rows, user, today) == Credits.Row(t.used, today, 0, 0)
    && w.reminded == map[user := None] && Reminders(w.log, user) == Repeated(r, t.sent)
  }

  /** A run's steps: one result after another, every mark lost. */
  function Flapping(oks: seq<bool>, m: string, user: int, chat: int, now: int, today: Credits.Date): seq<Step> {
    if oks == [] then []
    else
      var n := |oks| - 1;
      Flapping(oks[..n], m, user, chat, now, today) + [Result(m, oks[n], MarkLost(user, chat, now, today))]
  }

  lemma FlapStep(w: World, ok: bool, m: string, user: int, chat: int, now: int, today: Credits.Date, t: Tally)
    requires m != "" && chat != 0 && t.used <= 3
    requires Flaps(w, m, user, today, Reminder(user, chat, now, now, now, false), t)
    ensures Flaps(React(w, Result(m, ok, MarkLost(user, chat, now, today))), m, user, today,
                  Reminder(user, chat, now, now, now, false), Counted(t, ok))
  {
    MarkLostStep(w, m, ok, user, chat, now, today);
  }

  /** While every mark is lost, every alert beyond the day's free credits sends a reminder, all at the same moment. */
  lemma {:induction false} LostMarksRepeat(oks: seq<bool>, m: string, user: int, chat: int, now: int,
                                           today: Credits.Date)
    requires m != "" && chat != 0
    ensures Reminders(Play(Start(map[user := None]), Flapping(oks, m, user, chat, now, today)).log, user)
         == Repeated(Reminder(user, chat, now, now, now, false), Tallied(oks).sent)
    ensures Flaps(Play(Start(map[user := None]), Flapping(oks, m, user, chat, now, today)), m, user, today,
                  Reminder(user, chat, now, now, now, false), Tallied(oks))
  {
    if oks != [] {
      var n := |oks| - 1;
      var steps := Flapping(oks[..n], m, user, chat, now, today);
      LostMarksRepeat(oks[..n], m, user, chat, now, today);
      PlaySnoc(Start(map[user := None]), steps, Result(m, oks[n], MarkLost(user, chat, now, today)));
      FlapStep(Play(Start(map[user := None]), steps), oks[n], m, user, chat, now, today, Tallied(oks[..n]));
    }
  }

  lemma TallySnoc(oks: seq<bool>, k: nat, t: Tally)
    requires k < |oks| && Tallied(oks[..k]) == t
    ensures Tallied(oks[..k + 1]) == Counted(t, oks[k])
  {
    assert oks[..k + 1][..k] == oks[..k];
  }

  /** Down, restored, down: the day's free credits are used up. */
  lemma UsesUpFree(oks: seq<bool>)
    requires |oks| >= 5 && !oks[0] && !oks[1] && oks[2] && !oks[3] && !oks[4]
    ensures Tallied(oks[..5]) == Tally(2, 3, 0)
  {
    TallySnoc(oks, 0, Tally(0, 0, 0));
    TallySnoc(oks, 1, Tally(1, 0, 0));
    TallySnoc(oks, 2, Tally(2, 1, 0));
    TallySnoc(oks, 3, Tally(0, 2, 0));
    TallySnoc(oks, 4, Tally(1, 2, 0));
  }

  /** Restored and down again: two refusals. */
  lemma RefusedTwice(oks: seq<bool>)
    requires |oks| == 8 && !oks[0] && !oks[1] && oks[2] && !oks[3] && !oks[4] && oks[5] && !oks[6] && !oks[7]
    ensures Tallied(oks).sent == 2
  {
    UsesUpFree(oks);
    TallySnoc(oks, 5, Tally(2, 3, 0));
    TallySnoc(oks, 6, Tally(0, 3, 1));
    TallySnoc(oks, 7, Tally(1, 3, 1));
    assert oks[..8] == oks;
  }

  /** A monitor that goes down, up, down, up and down on one day reminds its owner twice at the same moment. */
  lemma RemindedTwiceAtOnce(oks: seq<bool>, m: string, user: int, chat: int, now: int, today: Credits.Date)
    requires m != "" && chat != 0
    requires oks == [false, false, true, false, false, true, false, false]
    ensures var rs := Reminders(Play(Start(map[user := None]), Flapping(oks, m, user, chat, now, today)).log, user);
      rs == [Reminder(user, chat, now, now, now, false), Reminder(user, chat, now, now, now, false)] && Clocked(rs)
  {
    LostMarksRepeat(oks, m, user, chat, now, today);
    RefusedTwice(oks);
    Twice(Reminder(user, chat, now, now, now, false));
  }

  lemma Twice(r: Effect)
    requires r.Reminder? && r.checkAt == r.sendAt == r.markAt
    ensures Repeated(r, 2) == [r, r] && Clocked([r, r])
  {
    assert Repeated(r, 1) == [r];
  }
}
