/** Payment crediting as a concurrent protocol (services/telegram_service.go, services/user_service.go,
    db/repositories/tx_repo.go, db/repositories/user.go). Two credit flows and the staking flow share one
    signature table; every request is interleaved with the others between its repository calls. */
module Payments {
  import opened Wrappers
  import Credits
  import opened Transfer

  const TWO_63 := 0x8000_0000_0000_0000
  const TWO_64 := 0x1_0000_0000_0000_0000

  datatype Flow = Telegram | MonitorCredits

  /** A row of processed_transactions. */
  datatype Record = Record(user: int, amount: int)

  /** The arguments of a credit request. `amount` and `creditBalance` come from the caller. */
  datatype Request = Request(flow: Flow, user: int, amount: int, sig: string, creditBalance: int)

  /** Where a request stands: the repository call it makes next, or its answer. */
  datatype Stage = Checking | Verifying | Inserting | Crediting | Finished(ok: bool)

  datatype Job = Job(req: Request, stage: Stage)

  datatype Account = Account(flow: Flow, user: int)

  /** The fate of a write: not executed; executed and answered; executed with its answer lost. */
  datatype Reply = Failed | Answered | Lost

  datatype State = State(recorded: map<string, Record>, balances: map<Account, int>, jobs: map<int, Job>)

  /** Go's conversion of a signed 64-bit int to uint64. */
  function Uint64(x: int): int {
    x % TWO_64
  }

  datatype Step =
    | Arrive(id: int, req: Request)
    | Check(id: int, answered: bool)
    | Verify(id: int, answered: bool)
    | Insert(id: int, reply: Reply)
    | Credit(id: int, reply: Reply)
    | OtherInsert(sig: string, record: Record)   // the staking flow records a signature of its own

  /** Fixed for a run: the treasury's owner, the token's mint, the balances of every confirmed transaction, and the
      range of the users table's balance column, whose declaration is not in the repository. */
  datatype Setting = Setting(treasury: string, mint: string, chain: map<string, Meta>, low: int, high: int)

  predicate At(s: State, id: int, stage: Stage) {
    id in s.jobs && s.jobs[id].stage == stage
  }

  function Moved(s: State, id: int, stage: Stage): State
    requires id in s.jobs
  {
    s.(jobs := s.jobs[id := s.jobs[id].(stage := stage)])
  }

  /** What is read off a transaction's balances. */
  function Report(w: Setting, sig: string): Option<TxInfo> {
    if sig in w.chain then TransferInfo(w.chain[sig].pre, w.chain[sig].post, w.mint) else None
  }

  /** The report names the treasury as receiver and exactly the claimed amount. */
  predicate Verified(w: Setting, req: Request) {
    match Report(w, req.sig)
    case Some(info) => info.receiver == w.treasury && info.amount == Uint64(req.amount)
    case None => false
  }

  /** The driver refuses an unsigned value with the high bit set, the primary key a second row. */
  predicate Insertable(s: State, req: Request) {
    req.sig !in s.recorded && Uint64(req.amount) < TWO_63
  }

  /** The account a request credits. A monitor balance must exist; a telegram row is created on demand. */
  function AccountOf(req: Request): Account {
    Account(req.flow, req.user)
  }

  predicate Creditable(w: Setting, balances: map<Account, int>, req: Request) {
    && (req.flow == Telegram || AccountOf(req) in balances)
    && Fits(w, req.flow, req.creditBalance)
    && Fits(w, req.flow, BalanceIn(balances, AccountOf(req)) + req.creditBalance)
  }

  /** A statement that leaves the column's range fails. */
  predicate Fits(w: Setting, flow: Flow, x: int) {
    if flow == Telegram then Credits.InRange(x) else w.low <= x <= w.high
  }

  function BalanceIn(balances: map<Account, int>, a: Account): int {
    if a in balances then balances[a] else 0
  }

  function BalanceOf(s: State, a: Account): int {
    BalanceIn(s.balances, a)
  }

  function Next(w: Setting, s: State, step: Step): State {
    match step
    case Arrive(id, req) => if id in s.jobs then s else s.(jobs := s.jobs[id := Job(req, Checking)])
    case Check(id, answered) =>
      if !At(s, id, Checking) then s
      else Moved(s, id, if answered && s.jobs[id].req.sig !in s.recorded then Verifying else Finished(false))
    case Verify(id, answered) =>
      if !At(s, id, Verifying) then s
      else Moved(s, id, if answered && Verified(w, s.jobs[id].req) then Inserting else Finished(false))
    case Insert(id, reply) =>
      if !At(s, id, Inserting) then s
      else
        var req := s.jobs[id].req;
        if reply == Failed || !Insertable(s, req) then Moved(s, id, Finished(false))
        else
          var s := s.(recorded := s.recorded[req.sig := Record(req.user, Uint64(req.amount))]);
          Moved(s, id, if reply == Answered then Crediting else Finished(false))
    case Credit(id, reply) =>
      if !At(s, id, Crediting) then s
      else
        var req := s.jobs[id].req;
        if reply == Failed || !Creditable(w, s.balances, req) then Moved(s, id, Finished(false))
        else
          var a := AccountOf(req);
          var s := s.(balances := s.balances[a := BalanceOf(s, a) + req.creditBalance]);
          Moved(s, id, Finished(reply == Answered))
    case OtherInsert(sig, record) =>
      if sig in s.recorded then s else s.(recorded := s.recorded[sig := record])
  }

  function Run(w: Setting, s: State, steps: seq<Step>): State {
    if steps == [] then s else Next(w, Run(w, s, steps[..|steps| - 1]), steps[|steps| - 1])
  }

  // ---------------------------------------------------------------- the service method

  /** The outcome of each repository call made on behalf of one request. */
  datatype Faults = Faults(check: bool, verify: bool, insert: Reply, credit: Reply)

  /** The stored tables and the request logic of both credit services, which differ only in the balance they credit. */
  class CreditService {
    const setting: Setting
    var recorded: map<string, Record>
    var balances: map<Account, int>

    constructor (setting: Setting, recorded: map<string, Record>, balances: map<Account, int>)
      ensures this.setting == setting && this.recorded == recorded && this.balances == balances
    {
      this.setting := setting;
      this.recorded := recorded;
      this.balances := balances;
    }

    /** None: the query failed. */
    method IsTxProcessed(sig: string, answered: bool) returns (processed: Option<bool>)
      ensures processed == if answered then Some(sig in recorded) else None
    {
      return if answered then Some(sig in recorded) else None;
    }

    /** One INSERT; true when the caller is told it succeeded. */
    method ProcessPayment(req: Request, reply: Reply) returns (ok: bool)
      modifies this`recorded
      ensures var applied := reply != Failed && req.sig !in old(recorded) && Uint64(req.amount) < TWO_63;
        && recorded ==
             (if applied then old(recorded)[req.sig := Record(req.user, Uint64(req.amount))] else old(recorded))
        && ok == (applied && reply == Answered)
    {
      if reply == Failed || req.sig in recorded || Uint64(req.amount) >= TWO_63 {
        return false;
      }
      recorded := recorded[req.sig := Record(req.user, Uint64(req.amount))];
      return reply == Answered;
    }

    method CreditBalance(req: Request, reply: Reply) returns (balance: Option<int>)
      modifies this`balances
      ensures var a := AccountOf(req);
        var applied := reply != Failed && Creditable(setting, old(balances), req);
        var total := BalanceIn(old(balances), a) + req.creditBalance;
        && balances == (if applied then old(balances)[a := total] else old(balances))
        && balance == if applied && reply == Answered then Some(total) else None
    {
      var a := AccountOf(req);
      if reply == Failed || (req.flow == MonitorCredits && a !in balances) {
        return None;
      }
      var total := BalanceIn(balances, a) + req.creditBalance;
      if !Fits(setting, req.flow, req.creditBalance) || !Fits(setting, req.flow, total) {
        return None;
      }
      balances := balances[a := total];
      return if reply == Answered then Some(balances[a]) else None;
    }

    /** The four calls in order, undisturbed: the same as the protocol's four steps for a lone request. */
    method AddPurchasedCredits(req: Request, f: Faults) returns (balance: Option<int>)
      modifies this
      ensures Run(setting, Lone(old(recorded), old(balances), req, Checking), Calls(f))
           == Lone(recorded, balances, req, Finished(balance.Some?))
      ensures balance.Some? ==> AccountOf(req) in balances && balance.value == balances[AccountOf(req)]
    {
      LoneRun(setting, recorded, balances, req, f);
      var processed := IsTxProcessed(req.sig, f.check);
      if processed.None? || processed.value {
        return None;
      }
      var meta := if f.verify && req.sig in setting.chain then Some(setting.chain[req.sig]) else None;
      var txInfo := GetTransferInfo(meta, setting.mint);
      if txInfo.None? {
        return None;
      }
      if txInfo.value.receiver != setting.treasury {
        return None;
      }
      if txInfo.value.amount != Uint64(req.amount) {
        return None;
      }
      var recordedNow := ProcessPayment(req, f.insert);
      if !recordedNow {
        return None;
      }
      balance := CreditBalance(req, f.credit);
    }
  }

  /** A single request in the system. */
  function Lone(recorded: map<string, Record>, balances: map<Account, int>, req: Request, stage: Stage): State {
    State(recorded, balances, map[0 := Job(req, stage)])
  }

  function Calls(f: Faults): seq<Step> {
    [Check(0, f.check)] + [Verify(0, f.verify)] + [Insert(0, f.insert)] + [Credit(0, f.credit)]
  }

  /** The tables with or without a request's own entry. */
  function Noted(recorded: map<string, Record>, req: Request, done: bool): map<string, Record> {
    if done then recorded[req.sig := Record(req.user, Uint64(req.amount))] else recorded
  }

  function Credited(balances: map<Account, int>, req: Request, done: bool): map<Account, int> {
    if done then balances[AccountOf(req) := BalanceIn(balances, AccountOf(req)) + req.creditBalance] else balances
  }

  /** How far a lone request gets: every call before the last must be answered favourably. */
  lemma LoneRun(w: Setting, recorded: map<string, Record>, balances: map<Account, int>, req: Request, f: Faults)
    ensures var s := Lone(recorded, balances, req, Checking);
      var passes := f.check && req.sig !in recorded && f.verify && Verified(w, req);
      var inserts := passes && f.insert != Failed && Insertable(s, req);
      var credits := inserts && f.insert == Answered && f.credit != Failed && Creditable(w, balances, req);
      Run(w, s, Calls(f)) == Lone(
        Noted(recorded, req, inserts),
        Credited(balances, req, credits),
        req,
        Finished(credits && f.credit == Answered))
  {
    var s0 := Lone(recorded, balances, req, Checking);
    var s2 := Next(w, Next(w, s0, Check(0, f.check)), Verify(0, f.verify));
    assert Run(w, s0, Calls(f)) == Next(w, Next(w, s2, Insert(0, f.insert)), Credit(0, f.credit)) by {
      FourSteps(w, s0, Check(0, f.check), Verify(0, f.verify), Insert(0, f.insert), Credit(0, f.credit));
    }
    LoneReads(w, recorded, balances, req, f);
    LoneWrites(w, s2, req, f);
  }

  /** What a request may add to its balance, in the terms of the two tables: a telegram row is created on demand and its
      column is 32 bits wide, a user must exist and has the users table's column. */
  predicate MayCredit(w: Setting, balances: map<Account, int>, req: Request) {
    var before := BalanceIn(balances, Account(req.flow, req.user));
    match req.flow
    case Telegram =>
      && -2147483648 <= req.creditBalance <= 2147483647
      && -2147483648 <= before + req.creditBalance <= 2147483647
    case MonitorCredits =>
      && Account(MonitorCredits, req.user) in balances
      && w.low <= req.creditBalance <= w.high && w.low <= before + req.creditBalance <= w.high
  }

  /** The service method, whatever becomes of its four calls, in the terms of the tables and the chain alone. It reports
      success exactly for a new signature whose transaction is read as a payment of the claimed amount to the treasury,
      if that amount fits 63 bits, the balance has room and every call is answered. The signature is then recorded for
      the requesting user with the paid amount, and that user's balance, and no other, grows by the requested number.
      A lost answer leaves the statement done; a failed credit leaves the signature recorded. */
  lemma RequestOutcome(w: Setting, recorded: map<string, Record>, balances: map<Account, int>, req: Request, f: Faults)
    ensures var end := Run(w, Lone(recorded, balances, req, Checking), Calls(f));
      var paid :=
        && req.sig !in recorded && req.sig in w.chain
        && var info := TransferInfo(w.chain[req.sig].pre, w.chain[req.sig].post, w.mint);
        && info.Some? && info.value.receiver == w.treasury && info.value.amount == req.amount % 18446744073709551616
        && info.value.amount < 9223372036854775808;
      var inserts := paid && f.check && f.verify && f.insert != Failed;
      var credits := inserts && f.insert == Answered && f.credit != Failed && MayCredit(w, balances, req);
      var a := Account(req.flow, req.user);
      && At(end, 0, Finished(credits && f.credit == Answered))
      && end.recorded ==
           (if inserts then recorded[req.sig := Record(req.user, req.amount % 18446744073709551616)] else recorded)
      && end.balances == if credits then balances[a := BalanceIn(balances, a) + req.creditBalance] else balances
  {
    LoneRun(w, recorded, balances, req, f);
  }

  lemma LoneReads(w: Setting, recorded: map<string, Record>, balances: map<Account, int>, req: Request, f: Faults)
    ensures Next(w, Next(w, Lone(recorded, balances, req, Checking), Check(0, f.check)), Verify(0, f.verify))
         == Lone(recorded, balances, req,
                 if f.check && req.sig !in recorded && f.verify && Verified(w, req) then Inserting else Finished(false))
  {
    var s1 := Next(w, Lone(recorded, balances, req, Checking), Check(0, f.check));
    assert s1 == Lone(recorded, balances, req, s1.jobs[0].stage);
  }

  lemma LoneInsert(w: Setting, s: State, req: Request, reply: Reply)
    requires s == Lone(s.recorded, s.balances, req, Inserting)
          || s == Lone(s.recorded, s.balances, req, Finished(false))
    ensures var inserts := At(s, 0, Inserting) && reply != Failed && Insertable(s, req);
      Next(w, s, Insert(0, reply)) == Lone(
        Noted(s.recorded, req, inserts),
        s.balances, req, if inserts && reply == Answered then Crediting else Finished(false))
  {
    var t := Next(w, s, Insert(0, reply));
    assert t.jobs == map[0 := t.jobs[0]];
  }

  lemma LoneCredit(w: Setting, s: State, req: Request, reply: Reply)
    requires s == Lone(s.recorded, s.balances, req, Crediting)
          || s == Lone(s.recorded, s.balances, req, Finished(false))
    ensures var credits := At(s, 0, Crediting) && reply != Failed && Creditable(w, s.balances, req);
      Next(w, s, Credit(0, reply)) == Lone(
        s.recorded, Credited(s.balances, req, credits),
        req, Finished(credits && reply == Answered))
  {
    var t := Next(w, s, Credit(0, reply));
    assert t.jobs == map[0 := t.jobs[0]];
  }

  lemma LoneWrites(w: Setting, s: State, req: Request, f: Faults)
    requires s == Lone(s.recorded, s.balances, req, Inserting)
          || s == Lone(s.recorded, s.balances, req, Finished(false))
    ensures var inserts := At(s, 0, Inserting) && f.insert != Failed && Insertable(s, req);
      var credits := inserts && f.insert == Answered && f.credit != Failed && Creditable(w, s.balances, req);
      Next(w, Next(w, s, Insert(0, f.insert)), Credit(0, f.credit)) == Lone(
        Noted(s.recorded, req, inserts),
        Credited(s.balances, req, credits),
        req,
        Finished(credits && f.credit == Answered))
  {
    LoneInsert(w, s, req, f.insert);
    LoneCredit(w, Next(w, s, Insert(0, f.insert)), req, f.credit);
  }

  lemma RunSnoc(w: Setting, s: State, steps: seq<Step>, step: Step)
    ensures Run(w, s, steps + [step]) == Next(w, Run(w, s, steps), step)
  {
    assert (steps + [step])[..|steps|] == steps;
  }

  lemma FourSteps(w: Setting, s: State, a: Step, b: Step, c: Step, d: Step)
    ensures Run(w, s, [a] + [b] + [c] + [d]) == Next(w, Next(w, Next(w, Next(w, s, a), b), c), d)
  {
    assert Run(w, s, [a]) == Next(w, s, a) by {
      assert [a][..0] == [];
    }
    RunSnoc(w, s, [a], b);
    RunSnoc(w, s, [a] + [b], c);
    RunSnoc(w, s, [a] + [b] + [c], d);
  }

  // ---------------------------------------------------------------- who recorded and who was credited

  /** The credit a step actually grants, as the request it serves. */
  function Grants(w: Setting, s: State, step: Step): Option<Request> {
    if step.Credit? && At(s, step.id, Crediting) && step.reply != Failed
       && Creditable(w, s.balances, s.jobs[step.id].req)
    then Some(s.jobs[step.id].req) else None
  }

  /** Every credit a run grants, oldest first. */
  function Granted(w: Setting, s: State, steps: seq<Step>): seq<Request> {
    if steps == [] then []
    else
      var prior, step := steps[..|steps| - 1], steps[|steps| - 1];
      match Grants(w, Run(w, s, prior), step)
      case Some(req) => Granted(w, s, prior) + [req]
      case None => Granted(w, s, prior)
  }

  /** The signatures recorded by someone other than a credit request: before the run, or by the staking flow. */
  function Foreign(w: Setting, s: State, steps: seq<Step>): set<string> {
    if steps == [] then s.recorded.Keys
    else
      var prior, step := steps[..|steps| - 1], steps[|steps| - 1];
      Foreign(w, s, prior) +
      if step.OtherInsert? && step.sig !in Run(w, s, prior).recorded then {step.sig} else {}
  }

  /** A run starts with no request under way. */
  predicate Fresh(s: State) {
    s.jobs == map[]
  }

  /** A request that may still be credited, or was. */
  predicate Entitled(w: Setting, recorded: map<string, Record>, req: Request) {
    Verified(w, req) && req.sig in recorded && recorded[req.sig] == Record(req.user, Uint64(req.amount))
  }

  /** Past verification, the transfer is known to be right. */
  ghost predicate VerifiedBeforeInsert(w: Setting, jobs: map<int, Job>) {
    forall i :: i in jobs && jobs[i].stage == Inserting ==> Verified(w, jobs[i].req)
  }

  /** A job about to credit recorded its signature itself: nobody else holds it, and nobody has used it. */
  ghost predicate SoleHolder(w: Setting, s: State, granted: seq<Request>, foreign: set<string>, i: int)
    requires i in s.jobs
  {
    var req := s.jobs[i].req;
    && Entitled(w, s.recorded, req)
    && req.sig !in foreign
    && (forall k :: 0 <= k < |granted| ==> granted[k].sig != req.sig)
    && (forall j :: j in s.jobs && j != i && s.jobs[j].stage == Crediting ==> s.jobs[j].req.sig != req.sig)
  }

  ghost predicate GrantsSound(w: Setting, recorded: map<string, Record>, granted: seq<Request>, foreign: set<string>) {
    && (forall k :: 0 <= k < |granted| ==> Entitled(w, recorded, granted[k]) && granted[k].sig !in foreign)
    && (forall k, l :: 0 <= k < l < |granted| ==> granted[k].sig != granted[l].sig)
  }

  /** What every interleaving keeps. */
  ghost predicate Sound(w: Setting, s: State, granted: seq<Request>, foreign: set<string>) {
    && foreign <= s.recorded.Keys
    && VerifiedBeforeInsert(w, s.jobs)
    && (forall i :: i in s.jobs && s.jobs[i].stage == Crediting ==> SoleHolder(w, s, granted, foreign, i))
    && GrantsSound(w, s.recorded, granted, foreign)
  }

  /** The bookkeeping of one more step. */
  function GrantedBy(w: Setting, s: State, step: Step, granted: seq<Request>): seq<Request> {
    match Grants(w, s, step)
    case Some(req) => granted + [req]
    case None => granted
  }

  function ForeignBy(s: State, step: Step, foreign: set<string>): set<string> {
    if step.OtherInsert? && step.sig !in s.recorded then foreign + {step.sig} else foreign
  }

  /** A job that ends, or moves to a stage before crediting, disturbs nobody. */
  lemma QuietMove(w: Setting, s: State, t: State, id: int, granted: seq<Request>, foreign: set<string>)
    requires Sound(w, s, granted, foreign)
    requires id in t.jobs && t.jobs[id].stage != Crediting && t.jobs == s.jobs[id := t.jobs[id]]
    requires t.jobs[id].stage == Inserting ==> Verified(w, t.jobs[id].req)
    requires t.recorded == s.recorded
    ensures Sound(w, t, granted, foreign)
  {
    forall i | i in t.jobs && t.jobs[i].stage == Crediting ensures SoleHolder(w, t, granted, foreign, i) {
      assert SoleHolder(w, s, granted, foreign, i);
    }
  }

  /** A new signature in the table disturbs nobody: whoever is entitled already has another one. */
  lemma NewRecord(w: Setting, s: State, sig: string, record: Record, granted: seq<Request>, foreign: set<string>)
    requires Sound(w, s, granted, foreign)
    requires sig !in s.recorded
    ensures var t := s.(recorded := s.recorded[sig := record]);
      Sound(w, t, granted, foreign) && Sound(w, t, granted, foreign + {sig})
  {
    var t := s.(recorded := s.recorded[sig := record]);
    forall i | i in t.jobs && t.jobs[i].stage == Crediting
      ensures SoleHolder(w, t, granted, foreign, i) && SoleHolder(w, t, granted, foreign + {sig}, i)
    {
      assert SoleHolder(w, s, granted, foreign, i);
    }
  }

  lemma InsertSound(w: Setting, s: State, id: int, reply: Reply, granted: seq<Request>, foreign: set<string>)
    requires Sound(w, s, granted, foreign)
    ensures Sound(w, Next(w, s, Insert(id, reply)), granted, foreign)
  {
    if At(s, id, Inserting) {
      var req := s.jobs[id].req;
      var t := Next(w, s, Insert(id, reply));
      if reply == Failed || !Insertable(s, req) {
        QuietMove(w, s, t, id, granted, foreign);
      } else {
        var record := Record(req.user, Uint64(req.amount));
        var u := s.(recorded := s.recorded[req.sig := record]);
        NewRecord(w, s, req.sig, record, granted, foreign);
        if reply == Lost {
          QuietMove(w, u, t, id, granted, foreign);
        } else {
          forall i | i in t.jobs && t.jobs[i].stage == Crediting ensures SoleHolder(w, t, granted, foreign, i) {
            assert forall j :: j in s.jobs && s.jobs[j].stage == Crediting ==> SoleHolder(w, s, granted, foreign, j);
            if i != id {
              assert SoleHolder(w, u, granted, foreign, i);
            }
          }
        }
      }
    }
  }

  lemma CreditSound(w: Setting, s: State, id: int, reply: Reply, granted: seq<Request>, foreign: set<string>)
    requires Sound(w, s, granted, foreign)
    ensures Sound(w, Next(w, s, Credit(id, reply)), GrantedBy(w, s, Credit(id, reply), granted), foreign)
  {
    if At(s, id, Crediting) {
      var t := Next(w, s, Credit(id, reply));
      var granted' := GrantedBy(w, s, Credit(id, reply), granted);
      QuietMove(w, s, t, id, granted, foreign);
      assert SoleHolder(w, s, granted, foreign, id);
      forall i | i in t.jobs && t.jobs[i].stage == Crediting ensures SoleHolder(w, t, granted', foreign, i) {
        assert SoleHolder(w, t, granted, foreign, i);
      }
    }
  }

  lemma StepSound(w: Setting, s: State, step: Step, granted: seq<Request>, foreign: set<string>)
    requires Sound(w, s, granted, foreign)
    ensures Sound(w, Next(w, s, step), GrantedBy(w, s, step, granted), ForeignBy(s, step, foreign))
  {
    match step
    case Arrive(id, req) =>
      if id !in s.jobs {
        QuietMove(w, s, Next(w, s, step), id, granted, foreign);
      }
    case Check(id, answered) =>
      if At(s, id, Checking) {
        QuietMove(w, s, Next(w, s, step), id, granted, foreign);
      }
    case Verify(id, answered) =>
      if At(s, id, Verifying) {
        QuietMove(w, s, Next(w, s, step), id, granted, foreign);
      }
    case Insert(id, reply) => InsertSound(w, s, id, reply, granted, foreign);
    case Credit(id, reply) => CreditSound(w, s, id, reply, granted, foreign);
    case OtherInsert(sig, record) =>
      if sig !in s.recorded {
        NewRecord(w, s, sig, record, granted, foreign);
      }
  }

  lemma {:induction false} RunSound(w: Setting, s: State, steps: seq<Step>)
    requires Fresh(s)
    ensures Sound(w, Run(w, s, steps), Granted(w, s, steps), Foreign(w, s, steps))
  {
    if steps != [] {
      RunSound(w, s, steps[..|steps| - 1]);
      StepSound(w, Run(w, s, steps[..|steps| - 1]), steps[|steps| - 1], Granted(w, s, steps[..|steps| - 1]),
                Foreign(w, s, steps[..|steps| - 1]));
    }
  }

  /** Under any interleaving of requests of both flows, failures and lost answers, no signature is credited twice;
      every credit has its own recorded signature, for whose transaction the balance scan reported the treasury as
      receiver and the recorded amount; and a signature recorded by anyone else is never credited. */
  lemma AtMostOnce(w: Setting, s: State, steps: seq<Step>)
    requires Fresh(s)
    ensures var granted, recorded := Granted(w, s, steps), Run(w, s, steps).recorded;
      && (forall k, l :: 0 <= k < l < |granted| ==> granted[k].sig != granted[l].sig)
      && (forall k :: 0 <= k < |granted| ==>
            var req := granted[k];
            && req.sig in recorded && recorded[req.sig].user == req.user
            && Report(w, req.sig).Some? && Report(w, req.sig).value.receiver == w.treasury
            && Report(w, req.sig).value.amount == recorded[req.sig].amount
            && req.sig !in Foreign(w, s, steps) && req.sig !in s.recorded)
  {
    RunSound(w, s, steps);
    ForeignStart(w, s, steps);
  }

  /** What the recorded amount of a credited payment is worth, if its transaction neither mints nor burns: it exceeds
      what the treasury gained by what third parties gained, on listed and created accounts, and by the whole if the
      treasury paid itself. */
  lemma {:induction false} CreditedOverstates(w: Setting, s: State, steps: seq<Step>, k: nat)
    requires Fresh(s) && k < |Granted(w, s, steps)|
    requires var req := Granted(w, s, steps)[k];
      req.sig in w.chain ==> Conserving(w.chain[req.sig].pre, w.chain[req.sig].post, w.mint)
    ensures var (req, recorded) := (Granted(w, s, steps)[k], Run(w, s, steps).recorded);
      && req.sig in w.chain && req.sig in recorded
      && var (m, amount) := (w.chain[req.sig], recorded[req.sig].amount);
      && LastLoser(m.pre, m.post, w.mint).Some?
      && var from := LastLoser(m.pre, m.post, w.mint).value;
      && amount == -Change(m.post, from)
      && amount - Gained(m.pre, m.post, w.mint, w.treasury) ==
           Elsewhere(m.pre, m.post, w.mint, w.treasury, from)
           + Created(m.pre, m.post, w.mint) - CreatedFor(m.pre, m.post, w.mint, w.treasury)
           + (if from.owner == w.treasury then amount else 0)
  {
    AtMostOnce(w, s, steps);
    var m := w.chain[Granted(w, s, steps)[k].sig];
    Overstatement(m.pre, m.post, w.mint);
  }

  /** With one losing account it is never less than what the treasury gained. It is exactly that if and only if nobody
      but the treasury gained, on a listed or a created account, and the treasury did not pay itself. */
  lemma {:induction false} CreditedIsReceivedIff(w: Setting, s: State, steps: seq<Step>, k: nat, from: TokenBalance)
    requires Fresh(s) && k < |Granted(w, s, steps)|
    requires var req := Granted(w, s, steps)[k];
      req.sig in w.chain ==>
        var m := w.chain[req.sig];
        Conserving(m.pre, m.post, w.mint) && OnlyLoser(m.pre, m.post, w.mint, from)
    ensures var (req, recorded) := (Granted(w, s, steps)[k], Run(w, s, steps).recorded);
      && req.sig in w.chain && req.sig in recorded
      && var (m, amount) := (w.chain[req.sig], recorded[req.sig].amount);
      && Gained(m.pre, m.post, w.mint, w.treasury) <= amount
      && (amount == Gained(m.pre, m.post, w.mint, w.treasury)
          <==> PaidOnly(m.pre, m.post, w.mint, w.treasury, from) && CreatedOnlyFor(m.pre, m.post, w.mint, w.treasury))
      && (amount == Received(m.pre, m.post, w.mint, w.treasury)
          <==> PaidOnly(m.pre, m.post, w.mint, w.treasury, from) && Created(m.pre, m.post, w.mint) == 0)
  {
    AtMostOnce(w, s, steps);
    var m := w.chain[Granted(w, s, steps)[k].sig];
    ReportedIsReceivedIff(m.pre, m.post, w.mint, from);
  }

  lemma ReportVerifies(w: Setting, req: Request)
    requires Report(w, req.sig).Some? && Report(w, req.sig).value.receiver == w.treasury
    requires Report(w, req.sig).value.amount == req.amount <= INT64_MAX
    ensures Verified(w, req) && Uint64(req.amount) == req.amount < TWO_63
  {
  }

  /** A verified payment is credited with whatever number the caller asks for: the amount paid does not bound it. */
  lemma LoneSuccess(w: Setting, recorded: map<string, Record>, balances: map<Account, int>, req: Request)
    requires Verified(w, req) && req.sig !in recorded && Uint64(req.amount) < TWO_63 && Creditable(w, balances, req)
    ensures Run(w, Lone(recorded, balances, req, Checking), Calls(Faults(true, true, Answered, Answered)))
         == Lone(Noted(recorded, req, true), Credited(balances, req, true), req, Finished(true))
  {
    LoneRun(w, recorded, balances, req, Faults(true, true, Answered, Answered));
  }

  /** A split payment, into a listed or a created third account, is credited and recorded for the whole amount, although
      the treasury gained only the tip. */
  lemma SplitPaymentCredited(w: Setting, recorded: map<string, Record>, balances: map<Account, int>, req: Request,
                             kept: nat, tip: nat)
    requires req.sig in w.chain
    requires Splits(w.chain[req.sig].pre, w.chain[req.sig].post, w.mint, w.treasury, kept, tip)
    requires req.sig !in recorded && req.amount == kept + tip && Creditable(w, balances, req)
    ensures var end := Run(w, Lone(recorded, balances, req, Checking), Calls(Faults(true, true, Answered, Answered)));
      && end == Lone(Noted(recorded, req, true), Credited(balances, req, true), req, Finished(true))
      && Gained(w.chain[req.sig].pre, w.chain[req.sig].post, w.mint, w.treasury) == tip < end.recorded[req.sig].amount
  {
    SplitPayment(w.chain[req.sig].pre, w.chain[req.sig].post, w.mint, w.treasury, kept, tip);
    SplitBounded(w.chain[req.sig].pre, w.chain[req.sig].post, w.mint, w.treasury, kept, tip);
    ReportVerifies(w, req);
    LoneSuccess(w, recorded, balances, req);
  }

  lemma {:induction false} ForeignStart(w: Setting, s: State, steps: seq<Step>)
    ensures s.recorded.Keys <= Foreign(w, s, steps)
  {
    if steps != [] {
      ForeignStart(w, s, steps[..|steps| - 1]);
    }
  }

  // ---------------------------------------------------------------- where every recorded signature went

  /** The signature, if any, that this step leaves recorded without a credit to follow: the answer to its insert is
      lost, or its credit statement fails. */
  function Drops(w: Setting, s: State, step: Step): set<string> {
    match step
    case Insert(id, reply) =>
      if At(s, id, Inserting) && reply == Lost && Insertable(s, s.jobs[id].req) then {s.jobs[id].req.sig} else {}
    case Credit(id, reply) =>
      if At(s, id, Crediting) && (reply == Failed || !Creditable(w, s.balances, s.jobs[id].req))
      then {s.jobs[id].req.sig} else {}
    case _ => {}
  }

  function Dropped(w: Setting, s: State, steps: seq<Step>): set<string> {
    if steps == [] then {}
    else Dropped(w, s, steps[..|steps| - 1]) + Drops(w, Run(w, s, steps[..|steps| - 1]), steps[|steps| - 1])
  }

  ghost predicate IsGranted(granted: seq<Request>, sig: string) {
    exists k :: 0 <= k < |granted| && granted[k].sig == sig
  }

  /** Some request is about to credit this signature. */
  ghost predicate Held(s: State, sig: string) {
    exists i :: i in s.jobs && s.jobs[i].stage == Crediting && s.jobs[i].req.sig == sig
  }

  /** A recorded signature is someone else's, dropped, credited, or about to be credited; a dropped one is no other. */
  ghost predicate OneFate(s: State, granted: seq<Request>, foreign: set<string>, dropped: set<string>, sig: string) {
    && (sig in s.recorded <==> sig in foreign || sig in dropped || IsGranted(granted, sig) || Held(s, sig))
    && (sig in dropped ==> sig !in foreign && !IsGranted(granted, sig) && !Held(s, sig))
  }

  lemma GrantedSnoc(granted: seq<Request>, req: Request, sig: string)
    ensures IsGranted(granted + [req], sig) <==> IsGranted(granted, sig) || req.sig == sig
  {
    if IsGranted(granted, sig) {
      var k :| 0 <= k < |granted| && granted[k].sig == sig;
      assert (granted + [req])[k].sig == sig;
    }
    assert (granted + [req])[|granted|] == req;
  }

  /** A move between stages other than crediting holds nothing new and lets nothing go. */
  lemma HeldSame(s: State, t: State, id: int, sig: string)
    requires id in t.jobs && t.jobs == s.jobs[id := t.jobs[id]] && t.jobs[id].stage != Crediting
    requires id in s.jobs ==> s.jobs[id].stage != Crediting
    ensures Held(t, sig) <==> Held(s, sig)
  {
    if Held(s, sig) {
      var i :| i in s.jobs && s.jobs[i].stage == Crediting && s.jobs[i].req.sig == sig;
      assert i in t.jobs && t.jobs[i].stage == Crediting && t.jobs[i].req.sig == sig;
    }
  }

  /** What nobody has recorded, nobody was credited for or is about to be. */
  lemma UnrecordedIsFree(w: Setting, s: State, granted: seq<Request>, foreign: set<string>, sig: string)
    requires Sound(w, s, granted, foreign) && sig !in s.recorded
    ensures sig !in foreign && !IsGranted(granted, sig) && !Held(s, sig)
  {
    assert forall i :: i in s.jobs && s.jobs[i].stage == Crediting ==> SoleHolder(w, s, granted, foreign, i);
  }

  /** An answered insert makes its job the holder of the signature and changes nothing for others. */
  lemma InsertHolds(w: Setting, s: State, id: int, sig: string)
    requires At(s, id, Inserting) && Insertable(s, s.jobs[id].req)
    ensures Held(Next(w, s, Insert(id, Answered)), sig) <==> Held(s, sig) || sig == s.jobs[id].req.sig
  {
    var t := Next(w, s, Insert(id, Answered));
    assert id in t.jobs && t.jobs[id].stage == Crediting && t.jobs[id].req == s.jobs[id].req;
    if Held(s, sig) {
      var i :| i in s.jobs && s.jobs[i].stage == Crediting && s.jobs[i].req.sig == sig;
      assert i in t.jobs && t.jobs[i].stage == Crediting && t.jobs[i].req.sig == sig;
    }
  }

  lemma InsertFate(w: Setting, s: State, id: int, reply: Reply, granted: seq<Request>, foreign: set<string>,
                   dropped: set<string>, sig: string)
    requires Sound(w, s, granted, foreign) && OneFate(s, granted, foreign, dropped, sig)
    ensures OneFate(Next(w, s, Insert(id, reply)), granted, foreign, dropped + Drops(w, s, Insert(id, reply)), sig)
  {
    if At(s, id, Inserting) {
      var t, req := Next(w, s, Insert(id, reply)), s.jobs[id].req;
      if reply == Failed || !Insertable(s, req) {
        HeldSame(s, t, id, sig);
      } else {
        UnrecordedIsFree(w, s, granted, foreign, req.sig);
        if reply == Lost {
          HeldSame(s, t, id, sig);
        } else {
          InsertHolds(w, s, id, sig);
        }
      }
    }
  }

  /** A sole holder that finishes leaves its signature held by nobody. */
  lemma CreditReleases(w: Setting, s: State, id: int, reply: Reply, granted: seq<Request>, foreign: set<string>,
                       sig: string)
    requires Sound(w, s, granted, foreign) && At(s, id, Crediting)
    ensures Held(Next(w, s, Credit(id, reply)), sig) <==> Held(s, sig) && sig != s.jobs[id].req.sig
  {
    var t := Next(w, s, Credit(id, reply));
    assert SoleHolder(w, s, granted, foreign, id);
    if Held(s, sig) && sig != s.jobs[id].req.sig {
      var i :| i in s.jobs && s.jobs[i].stage == Crediting && s.jobs[i].req.sig == sig;
      assert i in t.jobs && t.jobs[i].stage == Crediting && t.jobs[i].req.sig == sig;
    }
  }

  lemma CreditFate(w: Setting, s: State, id: int, reply: Reply, granted: seq<Request>, foreign: set<string>,
                   dropped: set<string>, sig: string)
    requires Sound(w, s, granted, foreign) && OneFate(s, granted, foreign, dropped, sig)
    ensures OneFate(Next(w, s, Credit(id, reply)), GrantedBy(w, s, Credit(id, reply), granted), foreign,
                    dropped + Drops(w, s, Credit(id, reply)), sig)
  {
    if At(s, id, Crediting) {
      assert SoleHolder(w, s, granted, foreign, id);
      assert Held(s, s.jobs[id].req.sig);
      CreditReleases(w, s, id, reply, granted, foreign, sig);
      GrantedSnoc(granted, s.jobs[id].req, sig);
    }
  }

  lemma StepFate(w: Setting, s: State, step: Step, granted: seq<Request>, foreign: set<string>,
                 dropped: set<string>, sig: string)
    requires Sound(w, s, granted, foreign) && OneFate(s, granted, foreign, dropped, sig)
    ensures OneFate(Next(w, s, step), GrantedBy(w, s, step, granted), ForeignBy(s, step, foreign),
                    dropped + Drops(w, s, step), sig)
  {
    match step
    case Arrive(id, req) =>
      if id !in s.jobs {
        HeldSame(s, Next(w, s, step), id, sig);
      }
    case Check(id, answered) =>
      if At(s, id, Checking) {
        HeldSame(s, Next(w, s, step), id, sig);
      }
    case Verify(id, answered) =>
      if At(s, id, Verifying) {
        HeldSame(s, Next(w, s, step), id, sig);
      }
    case Insert(id, reply) => InsertFate(w, s, id, reply, granted, foreign, dropped, sig);
    case Credit(id, reply) => CreditFate(w, s, id, reply, granted, foreign, dropped, sig);
    case OtherInsert(other, record) =>
      if other !in s.recorded {
        UnrecordedIsFree(w, s, granted, foreign, other);
        assert Held(Next(w, s, step), sig) <==> Held(s, sig);
      }
  }

  lemma {:induction false} RunFate(w: Setting, s: State, steps: seq<Step>, sig: string)
    requires Fresh(s)
    ensures OneFate(Run(w, s, steps), Granted(w, s, steps), Foreign(w, s, steps), Dropped(w, s, steps), sig)
  {
    if steps != [] {
      var prior, step := steps[..|steps| - 1], steps[|steps| - 1];
      RunSound(w, s, prior);
      RunFate(w, s, prior, sig);
      StepFate(w, Run(w, s, prior), step, Granted(w, s, prior), Foreign(w, s, prior), Dropped(w, s, prior), sig);
    }
  }

  /** The signature table is accounted for at every moment of every interleaving: a signature is recorded exactly when
      it is someone else's, or credited, or held by a request about to credit it, or dropped; and it is never two
      of these. */
  lemma {:induction false} RecordedAccountedFor(w: Setting, s: State, steps: seq<Step>, sig: string)
    requires Fresh(s)
    ensures var (t, granted, foreign, dropped) :=
        (Run(w, s, steps), Granted(w, s, steps), Foreign(w, s, steps), Dropped(w, s, steps));
      && (sig in t.recorded <==> sig in foreign || IsGranted(granted, sig) || Held(t, sig) || sig in dropped)
      && (sig in foreign ==> !IsGranted(granted, sig) && !Held(t, sig) && sig !in dropped)
      && (IsGranted(granted, sig) ==> !Held(t, sig) && sig !in dropped)
      && (Held(t, sig) ==> sig !in dropped)
  {
    RunSound(w, s, steps);
    RunFate(w, s, steps, sig);
    var t := Run(w, s, steps);
    var (granted, foreign) := (Granted(w, s, steps), Foreign(w, s, steps));
    assert forall i :: i in t.jobs && t.jobs[i].stage == Crediting ==> SoleHolder(w, t, granted, foreign, i);
  }

  lemma {:induction false} DroppedStays(w: Setting, s: State, steps: seq<Step>, more: seq<Step>)
    ensures Dropped(w, s, steps) <= Dropped(w, s, steps + more)
  {
    if more == [] {
      assert steps + more == steps;
    } else {
      DroppedStays(w, s, steps, more[..|more| - 1]);
      assert (steps + more)[..|steps + more| - 1] == steps + more[..|more| - 1];
    }
  }

  /** A dropped payment is lost for good: whatever happens later, no request is ever credited for its signature. */
  lemma DroppedForGood(w: Setting, s: State, steps: seq<Step>, more: seq<Step>, sig: string)
    requires Fresh(s) && sig in Dropped(w, s, steps)
    ensures sig in Run(w, s, steps + more).recorded && !IsGranted(Granted(w, s, steps + more), sig)
  {
    DroppedStays(w, s, steps, more);
    RecordedAccountedFor(w, s, steps + more, sig);
  }

  /** The sum of what the granted requests of one flow and one user asked for. */
  function AskedBy(granted: seq<Request>, flow: Flow, user: int): int {
    if granted == [] then 0
    else
      var req := granted[|granted| - 1];
      AskedBy(granted[..|granted| - 1], flow, user)
      + (if req.flow == flow && req.user == user then req.creditBalance else 0)
  }

  lemma BalanceMoves(w: Setting, s: State, step: Step, flow: Flow, user: int)
    ensures BalanceOf(Next(w, s, step), Account(flow, user)) == BalanceOf(s, Account(flow, user)) +
      match Grants(w, s, step)
      case Some(req) => if req.flow == flow && req.user == user then req.creditBalance else 0
      case None => 0
  {
  }

  /** Whose balance is credited: after any interleaving the balance of each user in each ledger is its opening value
      plus what that user's own granted requests of that flow asked for. */
  lemma {:induction false} LedgersConserved(w: Setting, s: State, steps: seq<Step>, flow: Flow, user: int)
    ensures BalanceOf(Run(w, s, steps), Account(flow, user))
         == BalanceOf(s, Account(flow, user)) + AskedBy(Granted(w, s, steps), flow, user)
  {
    if steps != [] {
      var prior, step := steps[..|steps| - 1], steps[|steps| - 1];
      LedgersConserved(w, s, prior, flow, user);
      BalanceMoves(w, Run(w, s, prior), step, flow, user);
      if Grants(w, Run(w, s, prior), step).Some? {
        var req := Grants(w, Run(w, s, prior), step).value;
        assert (Granted(w, s, prior) + [req])[..|Granted(w, s, prior)|] == Granted(w, s, prior);
      }
    }
  }
}
