/** What the accounts of the on-chain program remember of a run: every wallet's payments, every node's rewards, and
    which nodes exist. */
module ProgramHistories {
  import opened Program

  // ---------------------------------------------------------------- wallets

  /** What an accepted instruction pays to a holder's wallet, less what it takes from it. */
  function NetPaid(i: Instr, holder: Pubkey): int {
    match i
    case InitNode(_, _) => 0
    case AddReward(_, _, _) => 0
    case OpenWallet(_) => 0
    case ClaimReward(_, dest, a) => if dest == holder then a else 0
    case WithdrawTreasury(_, dest, a) => if dest == holder then a else 0
    case WithdrawStake(_, _, dest, a) => if dest == holder then a else 0
    case DeleteAccount(_, _, dest, a) => if dest == holder then a else 0
    case BuyProduct(user, a) => if user == holder then 0 - a else 0
    case StakeTokens(_, payer, a) => if payer == holder then 0 - a else 0
    case AddStake(_, payer, a) => if payer == holder then 0 - a else 0
    case Move(from, to, a) => (if to == Wallet(holder) then a else 0) - (if from == holder then a else 0)
  }

  predicate Accepted(genesis: map<Account, U64>, prior: seq<Instr>, i: Instr) {
    Exec(Run(genesis, prior).state, i).1 == Ok
  }

  function PaidTo(genesis: map<Account, U64>, script: seq<Instr>, holder: Pubkey): int {
    if script == [] then 0
    else
      var (prior, i) := (script[..|script| - 1], script[|script| - 1]);
      PaidTo(genesis, prior, holder) + (if Accepted(genesis, prior, i) then NetPaid(i, holder) else 0)
  }

  function BalanceOf(tokens: map<Account, U64>, a: Account): int {
    if a in tokens then tokens[a] else 0
  }

  lemma MovedBalance(before: map<Account, U64>, after: map<Account, U64>, payer: Account, payee: Account, amount: int,
                     holder: Pubkey)
    requires MovedOnly(before, after, payer, payee, amount)
    ensures BalanceOf(after, Wallet(holder)) == BalanceOf(before, Wallet(holder))
      + (if payee == Wallet(holder) then amount else 0) - (if payer == Wallet(holder) then amount else 0)
  {
  }

  lemma WalletMoves(s: State, i: Instr, holder: Pubkey)
    requires Exec(s, i).1 == Ok
    ensures BalanceOf(Exec(s, i).0.tokens, Wallet(holder)) == BalanceOf(s.tokens, Wallet(holder)) + NetPaid(i, holder)
  {
    if i.InitNode? || i.AddReward? || i.OpenWallet? {
      assert NetPaid(i, holder) == 0;
    } else {
      var (payer, payee) := Parties(i);
      InstrMoves(s, i);
      MovedBalance(s.tokens, Exec(s, i).0.tokens, payer, payee, i.amount, holder);
    }
  }

  /** The two token accounts of an instruction that moves tokens. */
  function Parties(i: Instr): (Account, Account)
    requires !i.InitNode? && !i.AddReward? && !i.OpenWallet?
  {
    match i
    case ClaimReward(_, dest, _) => (Treasury, Wallet(dest))
    case WithdrawTreasury(_, dest, _) => (Treasury, Wallet(dest))
    case WithdrawStake(_, _, dest, _) => (Vault, Wallet(dest))
    case DeleteAccount(_, _, dest, _) => (Vault, Wallet(dest))
    case BuyProduct(user, _) => (Wallet(user), Treasury)
    case StakeTokens(_, payer, _) => (Wallet(payer), Vault)
    case AddStake(_, payer, _) => (Wallet(payer), Vault)
    case Move(from, to, _) => (Wallet(from), to)
  }

  lemma InstrMoves(s: State, i: Instr)
    requires !i.InitNode? && !i.AddReward? && !i.OpenWallet? && Exec(s, i).1 == Ok
    ensures MovedOnly(s.tokens, Exec(s, i).0.tokens, Parties(i).0, Parties(i).1, i.amount)
  {
    match i
    case ClaimReward(key, dest, a) => ClaimEffect(s, key, dest, a);
    case WithdrawTreasury(signer, dest, a) => TreasuryWithdrawalEffect(s, signer, dest, a);
    case WithdrawStake(key, signer, dest, a) => WithdrawEffect(s, key, signer, dest, a);
    case DeleteAccount(key, signer, dest, a) => DeleteEffect(s, key, signer, dest, a);
    case BuyProduct(user, a) => PurchaseEffect(s, user, a);
    case StakeTokens(key, payer, a) => StakeEffect(s, key, payer, a);
    case AddStake(key, payer, a) => TopUpEffect(s, key, payer, a);
    case Move(from, to, a) => TransferMoves(s.tokens, Wallet(from), to, a);
  }

  /** After any run every wallet holds what it held at the beginning, plus what the accepted instructions named it as
      payee for, less what they named it as payer for. */
  lemma {:induction false} WalletsAccounted(genesis: map<Account, U64>, script: seq<Instr>, holder: Pubkey)
    ensures BalanceOf(Run(genesis, script).state.tokens, Wallet(holder))
         == BalanceOf(genesis, Wallet(holder)) + PaidTo(genesis, script, holder)
  {
    if script != [] {
      var (prior, i) := (script[..|script| - 1], script[|script| - 1]);
      WalletsAccounted(genesis, prior, holder);
      if Accepted(genesis, prior, i) {
        WalletMoves(Run(genesis, prior).state, i, holder);
      } else {
        FailureRollsBack(Run(genesis, prior).state, i);
      }
    }
  }

  // ---------------------------------------------------------------- nodes

  /** Which nodes exist, and what each is owed, by the accepted instructions that name it. */
  function Lives(genesis: map<Account, U64>, script: seq<Instr>, key: Key): bool {
    if script == [] then false
    else
      var (prior, i) := (script[..|script| - 1], script[|script| - 1]);
      if !Accepted(genesis, prior, i) then Lives(genesis, prior, key)
      else
        match i
        case InitNode(owner, hash) => Key(owner, hash) == key || Lives(genesis, prior, key)
        case DeleteAccount(k, _, _, _) => k != key && Lives(genesis, prior, key)
        case _ => Lives(genesis, prior, key)
  }

  function Owed(genesis: map<Account, U64>, script: seq<Instr>, key: Key): int {
    if script == [] then 0
    else
      var (prior, i) := (script[..|script| - 1], script[|script| - 1]);
      var before := Owed(genesis, prior, key);
      if Accepted(genesis, prior, i) then OwedAfter(before, i, key) else before
  }

  /** What an accepted instruction makes of the reward owed to a node. */
  function OwedAfter(owed: int, i: Instr, key: Key): int {
    match i
    case InitNode(owner, hash) => if Key(owner, hash) == key then 0 else owed
    case AddReward(k, _, a) => if k == key then owed + a else owed
    case ClaimReward(k, _, a) => if k == key then owed - a else owed
    case _ => owed
  }

  /** After any run a node exists exactly if it was initialised and not closed since, and it is then owed exactly the
      rewards granted to it, and not to others, less those claimed for it. */
  lemma {:induction false} NodesAccounted(genesis: map<Account, U64>, script: seq<Instr>, key: Key)
    ensures var nodes := Run(genesis, script).state.nodes;
      && (key in nodes <==> Lives(genesis, script, key))
      && (key in nodes ==> nodes[key].rewardBalance == Owed(genesis, script, key))
  {
    if script != [] {
      var (prior, i) := (script[..|script| - 1], script[|script| - 1]);
      NodesAccounted(genesis, prior, key);
      if Accepted(genesis, prior, i) {
        NodeMoves(Run(genesis, prior).state, i, key);
      } else {
        FailureRollsBack(Run(genesis, prior).state, i);
      }
    }
  }

  lemma NodeMoves(s: State, i: Instr, key: Key)
    requires Exec(s, i).1 == Ok
    ensures var nodes := Exec(s, i).0.nodes;
      && (key in nodes <==>
            || (key in s.nodes && !(i.DeleteAccount? && i.key == key))
            || (i.InitNode? && Key(i.owner, i.emailHash) == key))
      && (key in nodes ==>
            nodes[key].rewardBalance == OwedAfter(if key in s.nodes then s.nodes[key].rewardBalance else 0, i, key))
  {
  }
}
