/** The two-tier notification credit ledger (db/telegram.sql and its callers). */
module Credits {
  import opened Wrappers

  const DAILY_CAP := 3

  // PostgreSQL's INT: arithmetic that leaves this range is an error, not a wrap-around.
  const INT_MIN := -0x8000_0000
  const INT_MAX := 0x7FFF_FFFF

  type Date = int

  datatype Row = Row(freeUsed: int, resetDate: Date, purchased: int, totalEver: int)

  datatype Tier = Free | Purchased | NoCredits

  /** What the status endpoint reports. */
  datatype Status = Status(freeUsed: int, freeLeft: int, resetDate: Date, purchased: int, totalLeft: int)

  function Max(a: int, b: int): int {
    if a < b then b else a
  }

  predicate InRange(x: int) {
    INT_MIN <= x <= INT_MAX
  }

  /** The table's column defaults. */
  function NewRow(today: Date): Row {
    Row(0, today, 0, 0)
  }

  function RowOf(rows: map<int, Row>, user: int, today: Date): Row {
    if user in rows then rows[user] else NewRow(today)
  }

  function Deduct(r: Row, today: Date): (Row, Tier) {
    var r := if r.resetDate < today then r.(freeUsed := 0, resetDate := today) else r;
    if r.freeUsed < DAILY_CAP then (r.(freeUsed := r.freeUsed + 1), Free)
    else if r.purchased > 0 then (r.(purchased := r.purchased - 1), Purchased)
    else (r, NoCredits)
  }

  /** None: the statement fails on a value outside INT and changes nothing. */
  function TopUp(r: Row, amount: int): Option<Row> {
    if InRange(amount) && InRange(r.purchased + amount) && InRange(r.totalEver + amount)
    then Some(r.(purchased := r.purchased + amount, totalEver := r.totalEver + amount))
    else None
  }

  function StatusOf(r: Row): Status {
    var freeLeft := Max(0, DAILY_CAP - r.freeUsed);
    Status(r.freeUsed, freeLeft, r.resetDate, r.purchased, freeLeft + r.purchased)
  }

  class CreditStore {
    var rows: map<int, Row>

    constructor ()
      ensures rows == map[]
    {
      rows := map[];
    }

    /** INSERT ... ON CONFLICT DO NOTHING. */
    method EnsureRow(user: int, today: Date)
      modifies this
      ensures rows == old(rows)[user := RowOf(old(rows), user, today)]
    {
      if user !in rows {
        rows := rows[user := NewRow(today)];
      }
    }

    method DeductTelegramCredit(user: int, today: Date) returns (success: bool, creditType: Tier)
      modifies this
      ensures var (r, tier) := Deduct(RowOf(old(rows), user, today), today);
        rows == old(rows)[user := r] && creditType == tier && success == (tier != NoCredits)
    {
      EnsureRow(user, today);
      var freeUsed, resetDate, purchased := rows[user].freeUsed, rows[user].resetDate, rows[user].purchased;
      if resetDate < today {
        rows := rows[user := rows[user].(freeUsed := 0, resetDate := today)];
        freeUsed := 0;
      }
      if freeUsed < DAILY_CAP {
        rows := rows[user := rows[user].(freeUsed := rows[user].freeUsed + 1)];
        return true, Free;
      }
      if purchased > 0 {
        rows := rows[user := rows[user].(purchased := rows[user].purchased - 1)];
        return true, Purchased;
      }
      return false, NoCredits;
    }

    method AddPurchasedCredits(user: int, amount: int, today: Date) returns (balance: Option<int>)
      modifies this
      ensures match TopUp(RowOf(old(rows), user, today), amount)
        case Some(r) => rows == old(rows)[user := r] && balance == Some(r.purchased)
        case None => rows == old(rows) && balance == None
    {
      var base := RowOf(rows, user, today);
      if !InRange(amount) || !InRange(base.purchased + amount) || !InRange(base.totalEver + amount) {
        return None;
      }
      rows := rows[user := base.(purchased := base.purchased + amount, totalEver := base.totalEver + amount)];
      return Some(rows[user].purchased);
    }

    /** The outcome of the insert is ignored; None: the query failed or found no row. */
    method GetCreditStatus(user: int, today: Date, inserted: bool, answered: bool) returns (status: Option<Status>)
      modifies this
      ensures rows == if inserted then old(rows)[user := RowOf(old(rows), user, today)] else old(rows)
      ensures status == if answered && (inserted || user in old(rows))
                        then Some(StatusOf(RowOf(old(rows), user, today))) else None
    {
      if inserted {
        EnsureRow(user, today);
      }
      if !answered || user !in rows {
        return None;
      }
      var row := rows[user];
      var freeLeft := DAILY_CAP - row.freeUsed;
      if freeLeft < 0 {
        freeLeft := 0;
      }
      return Some(Status(row.freeUsed, freeLeft, row.resetDate, row.purchased, freeLeft + row.purchased));
    }
  }

  // ---------------------------------------------------------------- histories of one user's row

  datatype Event = Request(date: Date) | Buy(amount: int)

  function Advance(r: Row, e: Event): Row {
    match e
    case Request(date) => Deduct(r, date).0
    case Buy(amount) => (match TopUp(r, amount) case Some(r') => r' case None => r)
  }

  function Run(r: Row, es: seq<Event>): Row {
    if es == [] then r else Advance(Run(r, es[..|es| - 1]), es[|es| - 1])
  }

  /** The ledger's own choices; a purchase chooses nothing. */
  function Choices(r: Row, es: seq<Event>): (ts: seq<Tier>)
    ensures |ts| == |es|
  {
    if es == [] then []
    else
      var prior, e := es[..|es| - 1], es[|es| - 1];
      Choices(r, prior) + [if e.Request? then Deduct(Run(r, prior), e.date).1 else NoCredits]
  }

  function Count(ts: seq<Tier>, t: Tier): nat {
    if ts == [] then 0 else Count(ts[..|ts| - 1], t) + (if ts[|ts| - 1] == t then 1 else 0)
  }

  function Served(ts: seq<Tier>): nat {
    Count(ts, Free) + Count(ts, Purchased)
  }

  /** Free services on one date. */
  function FreeOn(es: seq<Event>, ts: seq<Tier>, date: Date): nat
    requires |es| == |ts|
  {
    if es == [] then 0
    else
      var n := |es| - 1;
      FreeOn(es[..n], ts[..n], date) + (if es[n] == Request(date) && ts[n] == Free then 1 else 0)
  }

  function RequestsOn(es: seq<Event>, date: Date): nat {
    if es == [] then 0 else RequestsOn(es[..|es| - 1], date) + (if es[|es| - 1] == Request(date) then 1 else 0)
  }

  /** Credits bought by the purchases the ledger accepted. */
  function Bought(r: Row, es: seq<Event>): int {
    if es == [] then 0
    else
      var prior, e := es[..|es| - 1], es[|es| - 1];
      Bought(r, prior) + (if e.Buy? && TopUp(Run(r, prior), e.amount).Some? then e.amount else 0)
  }

  function LastDate(r: Row, es: seq<Event>): Date {
    if es == [] then r.resetDate
    else if es[|es| - 1].Request? then es[|es| - 1].date
    else LastDate(r, es[..|es| - 1])
  }

  /** Request dates never decrease, and purchases are non-negative. */
  predicate Regular(r: Row, es: seq<Event>) {
    es == [] ||
    var prior, e := es[..|es| - 1], es[|es| - 1];
    Regular(r, prior) && (if e.Request? then LastDate(r, prior) <= e.date else 0 <= e.amount)
  }

  function FreeLimit(r: Row, date: Date): int {
    if date == r.resetDate then Max(0, 3 - r.freeUsed) else 3
  }

  /** A policy that, request by request, may serve for free within the day's limit, from the purchased pool
      within what has been bought so far, or not at all. */
  predicate Affordable(r: Row, es: seq<Event>, ts: seq<Tier>) {
    |es| == |ts| && (es == [] ||
    var n := |es| - 1;
    && Affordable(r, es[..n], ts[..n])
    && (es[n].Buy? ==> ts[n] == NoCredits)
    && (ts[n] == Purchased ==> Count(ts, Purchased) <= r.purchased + Bought(r, es))
    && (ts[n] == Free ==> FreeOn(es, ts, es[n].date) <= FreeLimit(r, es[n].date)))
  }

  // ---------------------------------------------------------------- what the ledger keeps

  /** The row is the ledger's memory of its own choices. */
  ghost predicate Remembers(r: Row, es: seq<Event>, ts: seq<Tier>, now: Row)
    requires |es| == |ts|
  {
    var used := FreeOn(es, ts, now.resetDate);
    && now.resetDate == LastDate(r, es)
    && r.resetDate <= now.resetDate
    && now.freeUsed == used + (if now.resetDate == r.resetDate then r.freeUsed else 0)
    && now.purchased == r.purchased + Bought(r, es) - Count(ts, Purchased)
    && now.totalEver == r.totalEver + Bought(r, es)
    && 0 <= now.purchased
    && (used < FreeLimit(r, now.resetDate) ==> used == RequestsOn(es, now.resetDate))
  }

  lemma {:induction false} NothingLater(r: Row, es: seq<Event>, ts: seq<Tier>, date: Date)
    requires Regular(r, es) && |es| == |ts|
    requires LastDate(r, es) < date
    ensures FreeOn(es, ts, date) == 0 && RequestsOn(es, date) == 0
  {
    if es != [] {
      NothingLater(r, es[..|es| - 1], ts[..|es| - 1], date);
    }
  }

  lemma ServedSnoc(ts: seq<Tier>, t: Tier)
    ensures Served(ts + [t]) == Served(ts) + (if t == NoCredits then 0 else 1)
    ensures forall u :: Count(ts + [t], u) == Count(ts, u) + (if t == u then 1 else 0)
  {
    assert (ts + [t])[..|ts|] == ts;
  }

  lemma LedgerSnoc(r: Row, es: seq<Event>, e: Event)
    ensures Run(r, es + [e]) == Advance(Run(r, es), e)
    ensures Choices(r, es + [e]) == Choices(r, es) + [if e.Request? then Deduct(Run(r, es), e.date).1 else NoCredits]
    ensures Bought(r, es + [e]) ==
      Bought(r, es) + (if e.Buy? && TopUp(Run(r, es), e.amount).Some? then e.amount else 0)
  {
    assert (es + [e])[..|es|] == es;
  }

  lemma UseSnoc(es: seq<Event>, ts: seq<Tier>, e: Event, t: Tier, date: Date)
    requires |es| == |ts|
    ensures FreeOn(es + [e], ts + [t], date) ==
      FreeOn(es, ts, date) + (if e == Request(date) && t == Free then 1 else 0)
    ensures RequestsOn(es + [e], date) == RequestsOn(es, date) + (if e == Request(date) then 1 else 0)
  {
    assert (es + [e])[..|es|] == es && (ts + [t])[..|ts|] == ts;
  }

  lemma RegularSnoc(r: Row, es: seq<Event>, e: Event)
    ensures LastDate(r, es + [e]) == if e.Request? then e.date else LastDate(r, es)
    ensures Regular(r, es + [e])
            <==> Regular(r, es) && if e.Request? then LastDate(r, es) <= e.date else 0 <= e.amount
  {
    assert (es + [e])[..|es|] == es;
  }

  lemma RememberPurchase(r: Row, es: seq<Event>, ts: seq<Tier>, amount: int)
    requires |es| == |ts| && Remembers(r, es, ts, Run(r, es)) && 0 <= amount
    ensures var e := Buy(amount); Remembers(r, es + [e], ts + [NoCredits], Advance(Run(r, es), e))
  {
    var e, now := Buy(amount), Run(r, es);
    LedgerSnoc(r, es, e);
    RegularSnoc(r, es, e);
    UseSnoc(es, ts, e, NoCredits, now.resetDate);
    ServedSnoc(ts, NoCredits);
  }

  /** A request on the day of the last one: the day's use goes on. */
  lemma RememberSameDay(r: Row, es: seq<Event>, ts: seq<Tier>, date: Date)
    requires |es| == |ts| && Remembers(r, es, ts, Run(r, es)) && date == LastDate(r, es)
    ensures var (e, t) := (Request(date), Deduct(Run(r, es), date).1);
      Remembers(r, es + [e], ts + [t], Advance(Run(r, es), e))
  {
    var (e, t) := (Request(date), Deduct(Run(r, es), date).1);
    LedgerSnoc(r, es, e);
    RegularSnoc(r, es, e);
    UseSnoc(es, ts, e, t, date);
    ServedSnoc(ts, t);
  }

  /** The first request of a later date: the use starts again. */
  lemma RememberReset(r: Row, es: seq<Event>, ts: seq<Tier>, date: Date)
    requires |es| == |ts| && Remembers(r, es, ts, Run(r, es)) && LastDate(r, es) < date
    requires FreeOn(es, ts, date) == RequestsOn(es, date) == 0
    ensures var (e, t) := (Request(date), Deduct(Run(r, es), date).1);
      Remembers(r, es + [e], ts + [t], Advance(Run(r, es), e))
  {
    var (e, t) := (Request(date), Deduct(Run(r, es), date).1);
    LedgerSnoc(r, es, e);
    RegularSnoc(r, es, e);
    UseSnoc(es, ts, e, t, date);
    ServedSnoc(ts, t);
  }

  lemma {:induction false} LedgerRemembers(r: Row, es: seq<Event>)
    requires Regular(r, es)
    requires 0 <= r.purchased
    ensures Remembers(r, es, Choices(r, es), Run(r, es))
  {
    if es != [] {
      var n := |es| - 1;
      var (prior, e) := (es[..n], es[n]);
      assert es == prior + [e];
      LedgerRemembers(r, prior);
      LedgerSnoc(r, prior, e);
      if e.Buy? {
        RememberPurchase(r, prior, Choices(r, prior), e.amount);
      } else if LastDate(r, prior) < e.date {
        NothingLater(r, prior, Choices(r, prior), e.date);
        RememberReset(r, prior, Choices(r, prior), e.date);
      } else {
        RememberSameDay(r, prior, Choices(r, prior), e.date);
      }
    }
  }

  /** The ledger is itself an affordable policy: never more than the day's free limit, never an unbought credit. */
  lemma {:induction false} LedgerAffordable(r: Row, es: seq<Event>)
    requires Regular(r, es)
    requires 0 <= r.purchased
    ensures Affordable(r, es, Choices(r, es))
  {
    if es != [] {
      var n := |es| - 1;
      LedgerAffordable(r, es[..n]);
      assert Choices(r, es)[..n] == Choices(r, es[..n]);
      LedgerRemembers(r, es[..n]);
      LedgerRemembers(r, es);
    }
  }

  lemma {:induction false} FreeOnBounded(r: Row, es: seq<Event>, ts: seq<Tier>, date: Date)
    requires Affordable(r, es, ts)
    ensures FreeOn(es, ts, date) <= RequestsOn(es, date)
    ensures FreeOn(es, ts, date) <= FreeLimit(r, date)
  {
    if es != [] {
      FreeOnBounded(r, es[..|es| - 1], ts[..|es| - 1], date);
    }
  }

  /** No rival has used more free credits than the ledger, whether or not the current day is counted. */
  lemma {:induction false} FreeLead(r: Row, es: seq<Event>, ts: seq<Tier>)
    requires Regular(r, es) && 0 <= r.purchased
    requires Affordable(r, es, ts)
    ensures var (mine, today) := (Choices(r, es), LastDate(r, es));
      && Count(ts, Free) - FreeOn(es, ts, today) <= Count(mine, Free) - FreeOn(es, mine, today)
      && FreeOn(es, ts, today) <= FreeOn(es, mine, today)
  {
    var mine, today := Choices(r, es), LastDate(r, es);
    LedgerRemembers(r, es);
    FreeOnBounded(r, es, ts, today);
    if es != [] {
      var n := |es| - 1;
      FreeLead(r, es[..n], ts[..n]);
      assert mine[..n] == Choices(r, es[..n]);
      if es[n].Request? && LastDate(r, es[..n]) < today {
        NothingLater(r, es[..n], ts[..n], today);
        NothingLater(r, es[..n], mine[..n], today);
      }
    }
  }

  lemma {:induction false} PaidWithinPool(r: Row, es: seq<Event>, ts: seq<Tier>)
    requires Regular(r, es) && 0 <= r.purchased
    requires Affordable(r, es, ts)
    ensures Count(ts, Purchased) <= r.purchased + Bought(r, es)
  {
    if es != [] {
      PaidWithinPool(r, es[..|es| - 1], ts[..|es| - 1]);
    }
  }

  /** Free-first deduction is optimal: no policy with the same allowances serves more requests. */
  lemma {:induction false} FreeFirstOptimal(r: Row, es: seq<Event>, rival: seq<Tier>)
    requires Regular(r, es) && 0 <= r.purchased
    requires Affordable(r, es, rival)
    ensures Served(rival) <= Served(Choices(r, es))
  {
    if es != [] {
      var n := |es| - 1;
      FreeFirstOptimal(r, es[..n], rival[..n]);
      assert Choices(r, es)[..n] == Choices(r, es[..n]);
      if es[n].Request? && Choices(r, es)[n] == NoCredits {
        // Refused: every bought credit is spent, and no rival can have used more free ones.
        LedgerRemembers(r, es);
        PaidWithinPool(r, es, rival);
        FreeLead(r, es, rival);
      }
    }
  }

  lemma {:induction false} AffordablePrefix(r: Row, es: seq<Event>, ts: seq<Tier>, p: nat)
    requires p <= |es| && Affordable(r, es, ts) && Regular(r, es)
    ensures Affordable(r, es[..p], ts[..p]) && Regular(r, es[..p])
    ensures Choices(r, es)[..p] == Choices(r, es[..p])
  {
    if p < |es| {
      var n := |es| - 1;
      AffordablePrefix(r, es[..n], ts[..n], p);
      assert es[..n][..p] == es[..p] && ts[..n][..p] == ts[..p];
    } else {
      assert es[..p] == es && ts[..p] == ts;
    }
  }

  /** ... and it is ahead, or level, at every moment of the history. */
  lemma OptimalThroughout(r: Row, es: seq<Event>, rival: seq<Tier>, p: nat)
    requires Regular(r, es) && 0 <= r.purchased
    requires Affordable(r, es, rival)
    requires p <= |es|
    ensures Served(rival[..p]) <= Served(Choices(r, es)[..p])
  {
    AffordablePrefix(r, es, rival, p);
    FreeFirstOptimal(r, es[..p], rival[..p]);
  }

  // ---------------------------------------------------------------- budget

  ghost function Dates(es: seq<Event>): set<Date> {
    set i | 0 <= i < |es| && es[i].Request? :: es[i].date
  }

  lemma {:induction false} DatesBounded(r: Row, es: seq<Event>, date: Date)
    requires Regular(r, es) && date in Dates(es)
    ensures date <= LastDate(r, es)
  {
    var n := |es| - 1;
    if es[n] != Request(date) {
      var i :| 0 <= i < |es| && es[i] == Request(date);
      assert es[..n][i] == Request(date);
      DatesBounded(r, es[..n], date);
    }
  }

  lemma DatesSnoc(es: seq<Event>)
    requires es != []
    ensures var e := es[|es| - 1];
      Dates(es) == Dates(es[..|es| - 1]) + (if e.Request? then {e.date} else {})
  {
    var n := |es| - 1;
    forall d | d in Dates(es[..n]) ensures d in Dates(es) {
      var i :| 0 <= i < n && es[..n][i] == Request(d);
      assert es[i] == Request(d);
    }
    forall d | d in Dates(es) ensures d in Dates(es[..n]) || es[n] == Request(d) {
      var i :| 0 <= i < |es| && es[i] == Request(d);
      assert i < n ==> es[..n][i] == Request(d);
    }
  }

  /** If the other days stay within their limits, so do all days together. */
  lemma AllDays(es: seq<Event>, ts: seq<Tier>, date: Date)
    requires |es| == |ts|
    requires FreeOn(es, ts, date) <= 3
    requires Count(ts, Free) - FreeOn(es, ts, date) <= 3 * |Dates(es) - {date}|
    ensures Count(ts, Free) <= 3 * |Dates(es)|
  {
    NoRequestsNoFree(es, ts, date);
    if date in Dates(es) {
      assert Dates(es) == (Dates(es) - {date}) + {date};
    } else {
      assert Dates(es) == Dates(es) - {date};
    }
  }

  /** Leaving the current day out, at most three free services per date. */
  lemma {:induction false} FreeBudget(r: Row, es: seq<Event>, ts: seq<Tier>)
    requires Regular(r, es) && Affordable(r, es, ts) && 0 <= r.freeUsed
    ensures var today := LastDate(r, es);
      Count(ts, Free) - FreeOn(es, ts, today) <= 3 * |Dates(es) - {today}|
  {
    if es != [] {
      var n, today := |es| - 1, LastDate(r, es);
      var before := LastDate(r, es[..n]);
      FreeBudget(r, es[..n], ts[..n]);
      DatesSnoc(es);
      if before < today {
        FreeOnBounded(r, es[..n], ts[..n], before);
        AllDays(es[..n], ts[..n], before);
        NothingLater(r, es[..n], ts[..n], today);
        if today in Dates(es[..n]) {
          DatesBounded(r, es[..n], today);
        }
        assert Dates(es) - {today} == Dates(es[..n]);
      } else {
        assert Dates(es) - {today} == Dates(es[..n]) - {today};
      }
    }
  }

  lemma {:induction false} NoRequestsNoFree(es: seq<Event>, ts: seq<Tier>, date: Date)
    requires |es| == |ts|
    ensures date !in Dates(es) ==> FreeOn(es, ts, date) == 0
  {
    if es != [] {
      DatesSnoc(es);
      NoRequestsNoFree(es[..|es| - 1], ts[..|es| - 1], date);
    }
  }

  /** The budget of one user over any regular history, from any row. */
  lemma Budget(r: Row, es: seq<Event>)
    requires Regular(r, es) && 0 <= r.purchased && 0 <= r.freeUsed
    ensures var (ts, end) := (Choices(r, es), Run(r, es));
      && (forall date :: FreeOn(es, ts, date) <= 3)
      && end.totalEver - r.totalEver == end.purchased - r.purchased + Count(ts, Purchased)
      && Served(ts) <= 3 * |Dates(es)| + r.purchased + (end.totalEver - r.totalEver)
  {
    var ts, today := Choices(r, es), LastDate(r, es);
    LedgerAffordable(r, es);
    LedgerRemembers(r, es);
    forall date ensures FreeOn(es, ts, date) <= 3 {
      FreeOnBounded(r, es, ts, date);
    }
    FreeBudget(r, es, ts);
    AllDays(es, ts, today);
  }

  // ---------------------------------------------------------------- purchases

  /** The plain sum of everything a history buys. */
  function BuySum(es: seq<Event>): int {
    if es == [] then 0
    else BuySum(es[..|es| - 1]) + (if es[|es| - 1].Buy? then es[|es| - 1].amount else 0)
  }

  predicate NonNegative(es: seq<Event>) {
    forall i :: 0 <= i < |es| && es[i].Buy? ==> 0 <= es[i].amount
  }

  /** A deduction pays with the balance exactly when it says so, and never touches the lifetime total. */
  lemma DeductionPays(r: Row, today: Date)
    ensures var (next, tier) := Deduct(r, today);
      && next.totalEver == r.totalEver
      && next.purchased == r.purchased - (if tier == Purchased then 1 else 0)
      && (tier == Purchased ==> r.purchased > 0)
  {
  }

  lemma PurchaseFits(r: Row, amount: int)
    requires 0 <= amount && 0 <= r.purchased <= r.totalEver && r.totalEver + amount <= 2147483647
    ensures Advance(r, Buy(amount))
         == r.(purchased := r.purchased + amount, totalEver := r.totalEver + amount)
  {
  }

  /** Every purchase counts in full, for the balance and for the lifetime total, as long as the total fits the column:
      the total is the plain sum, and the balance is that sum minus the paid deductions. */
  lemma {:induction false} PurchasesCount(r: Row, es: seq<Event>)
    requires NonNegative(es) && 0 <= r.purchased <= r.totalEver && r.totalEver + BuySum(es) <= 2147483647
    ensures var end := Run(r, es);
      && end.totalEver == r.totalEver + BuySum(es)
      && end.purchased == r.purchased + BuySum(es) - Count(Choices(r, es), Purchased)
      && 0 <= end.purchased <= end.totalEver
  {
    if es != [] {
      var (prior, e) := (es[..|es| - 1], es[|es| - 1]);
      PurchasesCount(r, prior);
      assert Choices(r, es)[..|prior|] == Choices(r, prior);
      if e.Buy? {
        PurchaseFits(Run(r, prior), e.amount);
      } else {
        DeductionPays(Run(r, prior), e.date);
      }
    }
  }

  /** Any one purchase, negative or not, is accepted exactly when amount, balance and total fit 32 bits, and then
      changes those two alone. */
  lemma PurchaseOutcome(r: Row, es: seq<Event>, amount: int)
    ensures var (now, next) := (Run(r, es), Run(r, es + [Buy(amount)]));
      next ==
        if && -2147483648 <= amount <= 2147483647
           && -2147483648 <= now.purchased + amount <= 2147483647
           && -2147483648 <= now.totalEver + amount <= 2147483647
        then Row(now.freeUsed, now.resetDate, now.purchased + amount, now.totalEver + amount) else now
  {
    LedgerSnoc(r, es, Buy(amount));
  }

  // ---------------------------------------------------------------- credit status

  /** How many deductions in a row succeed today. */
  function Available(r: Row, today: Date): nat {
    (if r.resetDate < today then 3 else Max(0, 3 - r.freeUsed)) + Max(0, r.purchased)
  }

  /** `k` requests on one date, one after the other. */
  function SameDay(today: Date, k: nat): (es: seq<Event>)
    ensures |es| == k
  {
    seq(k, _ => Request(today))
  }

  lemma {:induction false} DrainRow(r: Row, today: Date, k: nat)
    requires k <= Available(r, today)
    ensures Available(Run(r, SameDay(today, k)), today) == Available(r, today) - k
    ensures forall i :: 0 <= i < k ==> Choices(r, SameDay(today, k))[i] != NoCredits
  {
    if k > 0 {
      DrainRow(r, today, k - 1);
      assert SameDay(today, k)[..k - 1] == SameDay(today, k - 1);
    } else {
      assert SameDay(today, 0) == [];
    }
  }

  /** `k` consecutive requests on one date are all served exactly when `k` is within what is available. */
  lemma ServedIffAvailable(r: Row, today: Date, k: nat)
    ensures (forall i :: 0 <= i < k ==> Choices(r, SameDay(today, k))[i] != NoCredits) <==> k <= Available(r, today)
  {
    var n := Available(r, today);
    if k <= n {
      DrainRow(r, today, k);
    } else {
      DrainRow(r, today, n);
      var es := SameDay(today, k);
      ChoicesPrefix(r, es, n + 1);
      assert es[..n + 1] == SameDay(today, n + 1);
      assert SameDay(today, n + 1)[..n] == SameDay(today, n);
      assert Choices(r, es)[n] == NoCredits;
    }
  }

  lemma {:induction false} ChoicesPrefix(r: Row, es: seq<Event>, p: nat)
    requires p <= |es|
    ensures Choices(r, es)[..p] == Choices(r, es[..p])
  {
    if p < |es| {
      ChoicesPrefix(r, es[..|es| - 1], p);
      assert es[..|es| - 1][..p] == es[..p];
    } else {
      assert es[..p] == es;
    }
  }

  /** The displayed total never over-promises: that many requests in a row are served. It is exact unless a daily
      reset is still pending on a partly used day (the status query does not apply it) or the balance is negative. */
  lemma StatusNeverOverPromises(r: Row, today: Date, k: nat)
    requires 0 <= r.freeUsed
    ensures k <= StatusOf(r).totalLeft ==> forall i :: 0 <= i < k ==> Choices(r, SameDay(today, k))[i] != NoCredits
    ensures 0 <= r.purchased && (today <= r.resetDate || r.freeUsed == 0) ==>
      ((forall i :: 0 <= i < k ==> Choices(r, SameDay(today, k))[i] != NoCredits) <==> k <= StatusOf(r).totalLeft)
    ensures StatusOf(r).totalLeft == Available(r, today)
            <==> 0 <= r.purchased && (today <= r.resetDate || r.freeUsed == 0)
  {
    ServedIffAvailable(r, today, k);
  }

  lemma AffordableSnoc(r: Row, es: seq<Event>, ts: seq<Tier>, e: Event, t: Tier)
    requires Affordable(r, es, ts)
    requires e.Buy? ==> t == NoCredits
    requires t == Purchased ==> Count(ts, Purchased) + 1 <= r.purchased + Bought(r, es)
    requires t == Free ==> FreeOn(es, ts, e.date) + 1 <= FreeLimit(r, e.date)
    ensures Affordable(r, es + [e], ts + [t])
    ensures forall d :: FreeOn(es + [e], ts + [t], d)
                     == FreeOn(es, ts, d) + (if e == Request(d) && t == Free then 1 else 0)
  {
    assert (es + [e])[..|es|] == es && (ts + [t])[..|ts|] == ts;
    LedgerSnoc(r, es, e);
    ServedSnoc(ts, t);
  }

  /** A new user gets exactly three free services on the first day, and no paid ones. */
  lemma NewUserGetsThree(today: Date, k: nat)
    ensures var ts := Choices(NewRow(today), SameDay(today, k));
      && ((forall i :: 0 <= i < k ==> ts[i] != NoCredits) <==> k <= 3)
      && Count(ts, Purchased) == 0
  {
    ServedIffAvailable(NewRow(today), today, k);
    NothingBought(SameDay(today, k));
    PurchasesCount(NewRow(today), SameDay(today, k));
  }

  lemma {:induction false} NothingBought(es: seq<Event>)
    requires forall i :: 0 <= i < |es| ==> es[i].Request?
    ensures BuySum(es) == 0
  {
    if es != [] {
      NothingBought(es[..|es| - 1]);
    }
  }

  /** What the status endpoint reports is the user's history: the last day with a request, the free services of that day
      and how many of three they leave, and the purchases minus the paid deductions. */
  lemma StatusFollowsHistory(today: Date, es: seq<Event>)
    requires Regular(NewRow(today), es) && NonNegative(es) && BuySum(es) <= 2147483647
    ensures var (status, ts) := (StatusOf(Run(NewRow(today), es)), Choices(NewRow(today), es));
      && status.resetDate == LastDate(NewRow(today), es)
      && status.freeUsed == FreeOn(es, ts, status.resetDate)
      && status.freeLeft == 3 - status.freeUsed
      && status.purchased == BuySum(es) - Count(ts, Purchased)
      && status.totalLeft == status.freeLeft + status.purchased
      && (es == [] ==> status == Status(0, 3, today, 0, 3))
  {
    var r := NewRow(today);
    LedgerRemembers(r, es);
    LedgerAffordable(r, es);
    FreeOnBounded(r, es, Choices(r, es), LastDate(r, es));
    PurchasesCount(r, es);
  }

  /** Optimality may fail after a negative purchase: one that takes back a pool of any size takes it from the ledger,
      which saved it, and not from a rival who spent one of it earlier. */
  lemma NegativePurchaseBreaksOptimality(date: Date, pool: int, total: int, back: int)
    requires 1 <= pool <= back && InRange(-back) && InRange(pool - back) && InRange(total - back)
    ensures var r, es := Row(2, date, pool, total), [Request(date), Buy(-back), Request(date)];
      exists rival :: Affordable(r, es, rival) && Served(Choices(r, es)) < Served(rival)
  {
    var r := Row(2, date, pool, total);
    var es0, ts0: seq<Tier> := [], [];
    var es1, ts1 := es0 + [Request(date)], ts0 + [Purchased];
    var es2, ts2 := es1 + [Buy(-back)], ts1 + [NoCredits];
    assert es2 + [Request(date)] == [Request(date), Buy(-back), Request(date)];
    LedgerSnoc(r, es0, Request(date));
    LedgerSnoc(r, es1, Buy(-back));
    LedgerSnoc(r, es2, Request(date));
    AffordableSnoc(r, es0, ts0, Request(date), Purchased);
    AffordableSnoc(r, es1, ts1, Buy(-back), NoCredits);
    AffordableSnoc(r, es2, ts2, Request(date), Free);
    ServedSnoc(ts0, Purchased);
    ServedSnoc(ts1, NoCredits);
    ServedSnoc(ts2, Free);
    ServedSnoc(Choices(r, es0), Free);
    ServedSnoc(Choices(r, es1), NoCredits);
    ServedSnoc(Choices(r, es2), NoCredits);
  }

  /** Dates that do not decrease are needed too: after a request of a later date the ledger counts those of an earlier
      one against the later day's limit. */
  lemma DecreasingDateBreaksOptimality(date: Date)
    ensures var r := Row(0, date, 0, 0);
      var es := [Request(date + 1), Request(date), Request(date), Request(date)];
      exists rival :: Affordable(r, es, rival) && Served(Choices(r, es)) < Served(rival)
  {
    var r := Row(0, date, 0, 0);
    var es0, ts0: seq<Tier> := [], [];
    var es1, ts1 := es0 + [Request(date + 1)], ts0 + [Free];
    var es2, ts2 := es1 + [Request(date)], ts1 + [Free];
    var es3, ts3 := es2 + [Request(date)], ts2 + [Free];
    assert es3 + [Request(date)] == [Request(date + 1), Request(date), Request(date), Request(date)];
    LedgerSnoc(r, es0, Request(date + 1));
    LedgerSnoc(r, es1, Request(date));
    LedgerSnoc(r, es2, Request(date));
    LedgerSnoc(r, es3, Request(date));
    AffordableSnoc(r, es0, ts0, Request(date + 1), Free);
    AffordableSnoc(r, es1, ts1, Request(date), Free);
    AffordableSnoc(r, es2, ts2, Request(date), Free);
    AffordableSnoc(r, es3, ts3, Request(date), Free);
    ServedSnoc(ts0, Free);
    ServedSnoc(ts1, Free);
    ServedSnoc(ts2, Free);
    ServedSnoc(ts3, Free);
    ServedSnoc(Choices(r, es0), Free);
    ServedSnoc(Choices(r, es1), Free);
    ServedSnoc(Choices(r, es2), Free);
    ServedSnoc(Choices(r, es3), NoCredits);
  }
}
