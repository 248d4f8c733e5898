/** The on-chain staking and reward program (program/lib.rs). */
module Program {
  import opened Sums
  import opened Wrappers

  const MINIMUM_VALIDATOR_STAKE := 20_000_000_000
  const U64_MAX := 0xFFFF_FFFF_FFFF_FFFF

  type Pubkey = int
  type U64 = x: int | 0 <= x <= U64_MAX

  const BACKEND_WALLET: Pubkey := 1
  const ADMIN_WALLET: Pubkey := 2

  /** The seeds of a node account: an owner may hold one node per e-mail hash. */
  datatype Key = Key(owner: Pubkey, emailHash: int)

  /** The canonical token accounts, and one token account per wallet. */
  datatype Account = Vault | Treasury | Wallet(holder: Pubkey)

  datatype NodeAccount = NodeAccount(owner: Pubkey, emailHash: int, rewardBalance: U64, stakedAmount: U64,
                                     unstakeRequestAt: int, isValidator: bool)

  datatype ErrorCode =
    | Unauthorized | InvalidAmount | InsufficientFunds | Overflow | InsufficientStake | UnstakeCooldownActive
    | AccountInUse | AccountMissing | ConstraintHasOne | ConstraintRaw   // raised by the account constraints
    | TokenInsufficientFunds | TokenOverflow                             // raised by the token program

  datatype Outcome = Ok | Err(code: ErrorCode)

  datatype State = State(nodes: map<Key, NodeAccount>, tokens: map<Account, U64>)

  datatype Instr =
    | InitNode(owner: Pubkey, emailHash: int)
    | AddReward(key: Key, signer: Pubkey, amount: U64)
    | ClaimReward(key: Key, dest: Pubkey, amount: U64)
    | BuyProduct(user: Pubkey, amount: U64)
    | WithdrawTreasury(signer: Pubkey, dest: Pubkey, amount: U64)
    | StakeTokens(key: Key, payer: Pubkey, amount: U64)
    | AddStake(key: Key, payer: Pubkey, amount: U64)
    | WithdrawStake(key: Key, signer: Pubkey, dest: Pubkey, amount: U64)
    | DeleteAccount(key: Key, signer: Pubkey, dest: Pubkey, amount: U64)
    // Not instructions of the program: token traffic around it.
    | OpenWallet(holder: Pubkey)
    | Move(holder: Pubkey, to: Account, amount: U64)

  // ---------------------------------------------------------------- what each instruction does

  function TransferOutcome(tokens: map<Account, U64>, from: Account, to: Account, amount: U64): Outcome {
    if from !in tokens || to !in tokens then Err(AccountMissing)
    else if tokens[from] < amount then Err(TokenInsufficientFunds)
    else if from != to && tokens[to] + amount > U64_MAX then Err(TokenOverflow)
    else Ok
  }

  function Transferred(tokens: map<Account, U64>, from: Account, to: Account, amount: U64): map<Account, U64>
    requires TransferOutcome(tokens, from, to, amount) == Ok
  {
    if from == to then tokens else tokens[from := tokens[from] - amount][to := tokens[to] + amount]
  }

  /** An instruction takes effect only if its closing transfer does: `node` is the account it would write back. */
  function Settle(s: State, key: Key, node: NodeAccount, from: Account, to: Account, amount: U64): (State, Outcome) {
    var r := TransferOutcome(s.tokens, from, to, amount);
    if r == Ok then (State(s.nodes[key := node], Transferred(s.tokens, from, to, amount)), Ok) else (s, r)
  }

  function Pay(s: State, from: Account, to: Account, amount: U64): (State, Outcome) {
    var r := TransferOutcome(s.tokens, from, to, amount);
    if r == Ok then (s.(tokens := Transferred(s.tokens, from, to, amount)), Ok) else (s, r)
  }

  /** Anchor loads every passed account before the instruction's body runs. */
  predicate Loads(s: State, from: Account, to: Account) {
    from in s.tokens && to in s.tokens
  }

  function Exec(s: State, i: Instr): (State, Outcome) {
    match i
    case InitNode(owner, emailHash) =>
      var key := Key(owner, emailHash);
      if key in s.nodes then (s, Err(AccountInUse))
      else (s.(nodes := s.nodes[key := NodeAccount(owner, emailHash, 0, 0, 0, false)]), Ok)
    case AddReward(key, signer, amount) =>
      if key !in s.nodes then (s, Err(AccountMissing))
      else if signer != BACKEND_WALLET then (s, Err(Unauthorized))
      else
        var node := s.nodes[key];
        if node.rewardBalance + amount > U64_MAX then (s, Err(Overflow))
        else (s.(nodes := s.nodes[key := node.(rewardBalance := node.rewardBalance + amount)]), Ok)
    case ClaimReward(key, dest, amount) =>
      if key !in s.nodes || !Loads(s, Treasury, Wallet(dest)) then (s, Err(AccountMissing))
      else if amount == 0 then (s, Err(InvalidAmount))
      else if s.nodes[key].rewardBalance < amount then (s, Err(InsufficientFunds))
      else
        var node := s.nodes[key];
        Settle(s, key, node.(rewardBalance := node.rewardBalance - amount), Treasury, Wallet(dest), amount)
    case BuyProduct(user, amount) =>
      if !Loads(s, Wallet(user), Treasury) then (s, Err(AccountMissing))
      else if amount == 0 then (s, Err(InvalidAmount))
      else Pay(s, Wallet(user), Treasury, amount)
    case WithdrawTreasury(signer, dest, amount) =>
      if !Loads(s, Treasury, Wallet(dest)) then (s, Err(AccountMissing))
      else if signer != ADMIN_WALLET then (s, Err(Unauthorized))
      else Pay(s, Treasury, Wallet(dest), amount)
    case StakeTokens(key, payer, amount) =>
      if key !in s.nodes || !Loads(s, Wallet(payer), Vault) then (s, Err(AccountMissing))
      else
        var node := s.nodes[key];
        if node.isValidator || node.unstakeRequestAt != 0 then (s, Err(UnstakeCooldownActive))
        else if node.stakedAmount + amount > U64_MAX then (s, Err(Overflow))
        else if node.stakedAmount + amount < MINIMUM_VALIDATOR_STAKE then (s, Err(InsufficientStake))
        else Settle(s, key, node.(stakedAmount := node.stakedAmount + amount, isValidator := true),
                    Wallet(payer), Vault, amount)
    case AddStake(key, payer, amount) =>
      if key !in s.nodes || !Loads(s, Wallet(payer), Vault) then (s, Err(AccountMissing))
      else
        var node := s.nodes[key];
        if node.stakedAmount + amount > U64_MAX then (s, Err(Overflow))
        else
          var staked := node.stakedAmount + amount;
          Settle(s, key, node.(stakedAmount := staked,
                               isValidator := node.isValidator || staked >= MINIMUM_VALIDATOR_STAKE),
                 Wallet(payer), Vault, amount)
    case WithdrawStake(key, signer, dest, amount) =>
      if key !in s.nodes || !Loads(s, Vault, Wallet(dest)) then (s, Err(AccountMissing))
      else if s.nodes[key].owner != signer then (s, Err(ConstraintHasOne))
      else if s.nodes[key].stakedAmount < amount then (s, Err(InsufficientFunds))
      else
        var node := s.nodes[key];
        var remaining := node.stakedAmount - amount;
        if 0 < remaining < MINIMUM_VALIDATOR_STAKE then (s, Err(InsufficientStake))
        else Settle(s, key, node.(stakedAmount := remaining, isValidator := node.isValidator && remaining > 0),
                    Vault, Wallet(dest), amount)
    case DeleteAccount(key, signer, dest, amount) =>
      if key !in s.nodes || !Loads(s, Vault, Wallet(dest)) then (s, Err(AccountMissing))
      else if s.nodes[key].owner != signer then (s, Err(ConstraintHasOne))
      else if s.nodes[key].rewardBalance != 0 then (s, Err(ConstraintRaw))
      else if s.nodes[key].stakedAmount != amount then (s, Err(InsufficientFunds))
      else if amount == 0 then (s.(nodes := s.nodes - {key}), Ok)
      else
        var r := TransferOutcome(s.tokens, Vault, Wallet(dest), amount);
        if r == Ok then (State(s.nodes - {key}, Transferred(s.tokens, Vault, Wallet(dest), amount)), Ok) else (s, r)
    case OpenWallet(holder) =>
      if Wallet(holder) in s.tokens then (s, Err(AccountInUse))
      else (s.(tokens := s.tokens[Wallet(holder) := 0]), Ok)
    case Move(holder, to, amount) => Pay(s, Wallet(holder), to, amount)
  }

  /** The program over its mutable accounts. A node is loaded, changed in a local copy and written
      back only when the instruction succeeds, so a failing step rolls everything back. */
  class Deping {
    var nodes: map<Key, NodeAccount>
    var tokens: map<Account, U64>

    function Now(): State
      reads this
    {
      State(nodes, tokens)
    }

    constructor (tokens: map<Account, U64>)
      ensures Now() == State(map[], tokens)
    {
      this.nodes := map[];
      this.tokens := tokens;
    }

    method InitNode(owner: Pubkey, emailHash: int) returns (r: Outcome)
      modifies this
      ensures (Now(), r) == Exec(old(Now()), Instr.InitNode(owner, emailHash))
    {
      var key := Key(owner, emailHash);
      if key in nodes {
        return Err(AccountInUse);
      }
      nodes := nodes[key := NodeAccount(owner, emailHash, 0, 0, 0, false)];
      return Ok;
    }

    method AddReward(key: Key, signer: Pubkey, amount: U64) returns (r: Outcome)
      modifies this
      ensures (Now(), r) == Exec(old(Now()), Instr.AddReward(key, signer, amount))
    {
      if key !in nodes {
        return Err(AccountMissing);
      }
      if signer != BACKEND_WALLET {
        return Err(Unauthorized);
      }
      var node := nodes[key];
      if node.rewardBalance + amount > U64_MAX {
        return Err(Overflow);
      }
      node := node.(rewardBalance := node.rewardBalance + amount);
      nodes := nodes[key := node];
      return Ok;
    }

    method ClaimReward(key: Key, dest: Pubkey, amount: U64) returns (r: Outcome)
      modifies this
      ensures (Now(), r) == Exec(old(Now()), Instr.ClaimReward(key, dest, amount))
    {
      if key !in nodes || !Loads(Now(), Treasury, Wallet(dest)) {
        return Err(AccountMissing);
      }
      var node := nodes[key];
      if amount == 0 {
        return Err(InvalidAmount);
      }
      if node.rewardBalance < amount {
        return Err(InsufficientFunds);
      }
      node := node.(rewardBalance := node.rewardBalance - amount);
      r := TokenTransfer(Treasury, Wallet(dest), amount);
      if r == Ok {
        nodes := nodes[key := node];
      }
    }

    method BuyProduct(user: Pubkey, amount: U64) returns (r: Outcome)
      modifies this
      ensures (Now(), r) == Exec(old(Now()), Instr.BuyProduct(user, amount))
    {
      if !Loads(Now(), Wallet(user), Treasury) {
        return Err(AccountMissing);
      }
      if amount == 0 {
        return Err(InvalidAmount);
      }
      r := TokenTransfer(Wallet(user), Treasury, amount);
    }

    method WithdrawTreasury(signer: Pubkey, dest: Pubkey, amount: U64) returns (r: Outcome)
      modifies this
      ensures (Now(), r) == Exec(old(Now()), Instr.WithdrawTreasury(signer, dest, amount))
    {
      if !Loads(Now(), Treasury, Wallet(dest)) {
        return Err(AccountMissing);
      }
      if signer != ADMIN_WALLET {
        return Err(Unauthorized);
      }
      r := TokenTransfer(Treasury, Wallet(dest), amount);
    }

    method StakeTokens(key: Key, payer: Pubkey, amount: U64) returns (r: Outcome)
      modifies this
      ensures (Now(), r) == Exec(old(Now()), Instr.StakeTokens(key, payer, amount))
    {
      if key !in nodes || !Loads(Now(), Wallet(payer), Vault) {
        return Err(AccountMissing);
      }
      var node := nodes[key];
      if node.isValidator || node.unstakeRequestAt != 0 {
        return Err(UnstakeCooldownActive);
      }
      if node.stakedAmount + amount > U64_MAX {
        return Err(Overflow);
      }
      node := node.(stakedAmount := node.stakedAmount + amount);
      if node.stakedAmount < MINIMUM_VALIDATOR_STAKE {
        return Err(InsufficientStake);
      }
      node := node.(isValidator := true);
      r := TokenTransfer(Wallet(payer), Vault, amount);
      if r == Ok {
        nodes := nodes[key := node];
      }
    }

    method AddStake(key: Key, payer: Pubkey, amount: U64) returns (r: Outcome)
      modifies this
      ensures (Now(), r) == Exec(old(Now()), Instr.AddStake(key, payer, amount))
    {
      if key !in nodes || !Loads(Now(), Wallet(payer), Vault) {
        return Err(AccountMissing);
      }
      var node := nodes[key];
      if node.stakedAmount + amount > U64_MAX {
        return Err(Overflow);
      }
      node := node.(stakedAmount := node.stakedAmount + amount);
      if node.stakedAmount >= MINIMUM_VALIDATOR_STAKE {
        node := node.(isValidator := true);
      }
      r := TokenTransfer(Wallet(payer), Vault, amount);
      if r == Ok {
        nodes := nodes[key := node];
      }
    }

    method WithdrawStake(key: Key, signer: Pubkey, dest: Pubkey, amount: U64) returns (r: Outcome)
      modifies this
      ensures (Now(), r) == Exec(old(Now()), Instr.WithdrawStake(key, signer, dest, amount))
    {
      if key !in nodes || !Loads(Now(), Vault, Wallet(dest)) {
        return Err(AccountMissing);
      }
      var node := nodes[key];
      if node.owner != signer {
        return Err(ConstraintHasOne);
      }
      if node.stakedAmount < amount {
        return Err(InsufficientFunds);
      }
      var remaining := node.stakedAmount - amount;
      if remaining > 0 {
        if remaining < MINIMUM_VALIDATOR_STAKE {
          return Err(InsufficientStake);
        }
      } else {
        node := node.(isValidator := false);
      }
      node := node.(stakedAmount := remaining);
      r := TokenTransfer(Vault, Wallet(dest), amount);
      if r == Ok {
        nodes := nodes[key := node];
      }
    }

    method DeleteAccount(key: Key, signer: Pubkey, dest: Pubkey, amount: U64) returns (r: Outcome)
      modifies this
      ensures (Now(), r) == Exec(old(Now()), Instr.DeleteAccount(key, signer, dest, amount))
    {
      if key !in nodes || !Loads(Now(), Vault, Wallet(dest)) {
        return Err(AccountMissing);
      }
      var node := nodes[key];
      if node.owner != signer {
        return Err(ConstraintHasOne);
      }
      if node.rewardBalance != 0 {
        return Err(ConstraintRaw);
      }
      if node.stakedAmount != amount {
        return Err(InsufficientFunds);
      }
      if amount > 0 {
        r := TokenTransfer(Vault, Wallet(dest), amount);
        if r != Ok {
          return;
        }
      }
      nodes := nodes - {key};
      return Ok;
    }

    /** The token program's transfer between the passed accounts. */
    method TokenTransfer(from: Account, to: Account, amount: U64) returns (r: Outcome)
      modifies this`tokens
      ensures r == TransferOutcome(old(tokens), from, to, amount)
      ensures tokens == if r == Ok then Transferred(old(tokens), from, to, amount) else old(tokens)
    {
      r := TransferOutcome(tokens, from, to, amount);
      if r == Ok {
        tokens := Transferred(tokens, from, to, amount);
      }
    }
  }

  // ---------------------------------------------------------------- books over whole runs

  /** What the accepted instructions of a run have moved. */
  datatype Flows = Flows(rewarded: int, claimed: int, purchased: int, withdrawn: int,
                         donatedToVault: int, donatedToTreasury: int)

  function Booked(f: Flows, i: Instr): Flows {
    match i
    case AddReward(_, _, amount) => f.(rewarded := f.rewarded + amount)
    case ClaimReward(_, _, amount) => f.(claimed := f.claimed + amount)
    case BuyProduct(_, amount) => f.(purchased := f.purchased + amount)
    case WithdrawTreasury(_, _, amount) => f.(withdrawn := f.withdrawn + amount)
    case Move(_, Vault, amount) => f.(donatedToVault := f.donatedToVault + amount)
    case Move(_, Treasury, amount) => f.(donatedToTreasury := f.donatedToTreasury + amount)
    case _ => f
  }

  datatype Book = Book(state: State, flows: Flows)

  function Advance(b: Book, i: Instr): Book {
    var (s, r) := Exec(b.state, i);
    Book(s, if r == Ok then Booked(b.flows, i) else b.flows)
  }

  function Run(genesis: map<Account, U64>, script: seq<Instr>): Book {
    if script == [] then Book(State(map[], genesis), Flows(0, 0, 0, 0, 0, 0))
    else Advance(Run(genesis, script[..|script| - 1]), script[|script| - 1])
  }

  /** Any opening distribution of a token whose total supply fits in 64 bits. */
  ghost predicate Genesis(tokens: map<Account, U64>) {
    Vault in tokens && Treasury in tokens && Sum(tokens) <= U64_MAX
  }

  ghost function Stakes(nodes: map<Key, NodeAccount>): map<Key, int> {
    map k | k in nodes :: nodes[k].stakedAmount
  }

  ghost function Rewards(nodes: map<Key, NodeAccount>): map<Key, int> {
    map k | k in nodes :: nodes[k].rewardBalance
  }

  predicate WellFormed(key: Key, node: NodeAccount) {
    && node.owner == key.owner && node.emailHash == key.emailHash
    && node.unstakeRequestAt == 0
    && (node.isValidator <==> node.stakedAmount >= MINIMUM_VALIDATOR_STAKE && node.unstakeRequestAt == 0)
  }

  ghost predicate NodesWellFormed(s: State) {
    forall k :: k in s.nodes ==> WellFormed(k, s.nodes[k])
  }

  ghost predicate TokensConserved(genesis: map<Account, U64>, s: State) {
    && Vault in s.tokens && Treasury in s.tokens
    && Sum(s.tokens) == Sum(genesis)
  }

  ghost predicate VaultBacked(genesis: map<Account, U64>, b: Book)
    requires Vault in genesis
  {
    && Vault in b.state.tokens
    && b.state.tokens[Vault] == genesis[Vault] + b.flows.donatedToVault + Sum(Stakes(b.state.nodes))
    && b.flows.donatedToVault >= 0
  }

  ghost predicate TreasuryBalanced(genesis: map<Account, U64>, b: Book)
    requires Treasury in genesis
  {
    && Treasury in b.state.tokens
    && b.state.tokens[Treasury] == genesis[Treasury] + b.flows.purchased + b.flows.donatedToTreasury
                                   - b.flows.claimed - b.flows.withdrawn
  }

  ghost predicate RewardsAccounted(b: Book) {
    b.flows.rewarded == Sum(Rewards(b.state.nodes)) + b.flows.claimed
  }

  ghost predicate Sound(genesis: map<Account, U64>, b: Book) {
    && Genesis(genesis)
    && NodesWellFormed(b.state)
    && TokensConserved(genesis, b.state)
    && VaultBacked(genesis, b)
    && TreasuryBalanced(genesis, b)
    && RewardsAccounted(b)
  }

  lemma TransferConserves(tokens: map<Account, U64>, from: Account, to: Account, amount: U64)
    requires TransferOutcome(tokens, from, to, amount) == Ok
    ensures Sum(Transferred(tokens, from, to, amount)) == Sum(tokens)
  {
    if from != to {
      SumUpdate(tokens, from, tokens[from] - amount);
      SumUpdate(tokens[from := tokens[from] - amount], to, tokens[to] + amount);
    }
  }

  lemma NodeWritten(nodes: map<Key, NodeAccount>, k: Key, n: NodeAccount)
    ensures Sum(Stakes(nodes[k := n])) ==
      Sum(Stakes(nodes)) - (if k in nodes then nodes[k].stakedAmount else 0) + n.stakedAmount
    ensures Sum(Rewards(nodes[k := n])) ==
      Sum(Rewards(nodes)) - (if k in nodes then nodes[k].rewardBalance else 0) + n.rewardBalance
  {
    SumUpdate(Stakes(nodes), k, n.stakedAmount);
    SumUpdate(Rewards(nodes), k, n.rewardBalance);
    assert Stakes(nodes[k := n]) == Stakes(nodes)[k := n.stakedAmount];
    assert Rewards(nodes[k := n]) == Rewards(nodes)[k := n.rewardBalance];
  }

  lemma NodeRemoved(nodes: map<Key, NodeAccount>, k: Key)
    requires k in nodes
    ensures Sum(Stakes(nodes - {k})) == Sum(Stakes(nodes)) - nodes[k].stakedAmount
    ensures Sum(Rewards(nodes - {k})) == Sum(Rewards(nodes)) - nodes[k].rewardBalance
  {
    SumSplit(Stakes(nodes), k);
    SumSplit(Rewards(nodes), k);
    assert Stakes(nodes - {k}) == Stakes(nodes) - {k};
    assert Rewards(nodes - {k}) == Rewards(nodes) - {k};
  }

  lemma AdvanceTokens(genesis: map<Account, U64>, b: Book, i: Instr)
    requires TokensConserved(genesis, b.state)
    ensures TokensConserved(genesis, Advance(b, i).state)
  {
    var s := b.state;
    match i
    case InitNode(_, _) =>
    case AddReward(_, _, _) =>
    case OpenWallet(holder) => SumUpdate(s.tokens, Wallet(holder), 0);
    case BuyProduct(user, a) => PayConserves(s, Wallet(user), Treasury, a);
    case WithdrawTreasury(_, dest, a) => PayConserves(s, Treasury, Wallet(dest), a);
    case Move(holder, to, a) => PayConserves(s, Wallet(holder), to, a);
    case ClaimReward(_, dest, a) => PayConserves(s, Treasury, Wallet(dest), a);
    case StakeTokens(_, payer, a) => PayConserves(s, Wallet(payer), Vault, a);
    case AddStake(_, payer, a) => PayConserves(s, Wallet(payer), Vault, a);
    case WithdrawStake(_, _, dest, a) => PayConserves(s, Vault, Wallet(dest), a);
    case DeleteAccount(_, _, dest, a) => PayConserves(s, Vault, Wallet(dest), a);
  }

  lemma PayConserves(s: State, from: Account, to: Account, amount: U64)
    requires Vault in s.tokens && Treasury in s.tokens
    ensures var s' := Pay(s, from, to, amount).0;
      Vault in s'.tokens && Treasury in s'.tokens && Sum(s'.tokens) == Sum(s.tokens)
  {
    if TransferOutcome(s.tokens, from, to, amount) == Ok {
      TransferConserves(s.tokens, from, to, amount);
    }
  }

  lemma AdvanceNodes(s: State, i: Instr)
    requires NodesWellFormed(s)
    ensures NodesWellFormed(Exec(s, i).0)
  {
  }

  /** What an accepted instruction adds to the total stake, and to the total reward owed. */
  function StakeChange(i: Instr): int {
    match i
    case StakeTokens(_, _, a) => a
    case AddStake(_, _, a) => a
    case WithdrawStake(_, _, _, a) => var n: int := a; -n
    case DeleteAccount(_, _, _, a) => var n: int := a; -n
    case _ => 0
  }

  function RewardChange(i: Instr): int {
    match i
    case AddReward(_, _, a) => a
    case ClaimReward(_, _, a) => var n: int := a; -n
    case _ => 0
  }

  /** The node an instruction writes, when it writes one and keeps it. */
  function Written(i: Instr): Option<Key> {
    match i
    case InitNode(owner, hash) => Some(Key(owner, hash))
    case AddReward(k, _, _) => Some(k)
    case ClaimReward(k, _, _) => Some(k)
    case StakeTokens(k, _, _) => Some(k)
    case AddStake(k, _, _) => Some(k)
    case WithdrawStake(k, _, _, _) => Some(k)
    case _ => None
  }

  lemma WrittenBack(s: State, i: Instr)
    requires Written(i).Some? && Exec(s, i).1 == Ok
    ensures var (k, nodes') := (Written(i).value, Exec(s, i).0.nodes);
      && k in nodes' && nodes' == s.nodes[k := nodes'[k]]
      && nodes'[k].stakedAmount == (if k in s.nodes then s.nodes[k].stakedAmount else 0) + StakeChange(i)
      && nodes'[k].rewardBalance == (if k in s.nodes then s.nodes[k].rewardBalance else 0) + RewardChange(i)
  {
  }

  lemma TotalsMove(s: State, i: Instr)
    requires Exec(s, i).1 == Ok
    ensures var nodes' := Exec(s, i).0.nodes;
      && Sum(Stakes(nodes')) == Sum(Stakes(s.nodes)) + StakeChange(i)
      && Sum(Rewards(nodes')) == Sum(Rewards(s.nodes)) + RewardChange(i)
  {
    if Written(i).Some? {
      WrittenBack(s, i);
      NodeWritten(s.nodes, Written(i).value, Exec(s, i).0.nodes[Written(i).value]);
    } else if i.DeleteAccount? {
      NodeRemoved(s.nodes, i.key);
    }
  }

  /** What an accepted instruction puts into the vault, donations included. */
  lemma VaultMoves(s: State, i: Instr)
    requires Exec(s, i).1 == Ok && Vault in s.tokens
    ensures var s' := Exec(s, i).0;
      && Vault in s'.tokens
      && s'.tokens[Vault] == s.tokens[Vault] + StakeChange(i) + (if i.Move? && i.to == Vault then i.amount else 0)
  {
  }

  lemma AdvanceVault(genesis: map<Account, U64>, b: Book, i: Instr)
    requires Vault in genesis && VaultBacked(genesis, b) && RewardsAccounted(b)
    ensures VaultBacked(genesis, Advance(b, i)) && RewardsAccounted(Advance(b, i))
  {
    if Exec(b.state, i).1 == Ok {
      TotalsMove(b.state, i);
      VaultMoves(b.state, i);
    } else {
      FailureRollsBack(b.state, i);
    }
  }

  lemma AdvanceTreasury(genesis: map<Account, U64>, b: Book, i: Instr)
    requires Treasury in genesis && TreasuryBalanced(genesis, b)
    ensures TreasuryBalanced(genesis, Advance(b, i))
  {
  }

  /** Every reachable state keeps the books: tokens are conserved, the vault is exactly the sum of the live
      stakes (plus what outsiders sent it), the treasury is its opening balance plus purchases minus payouts,
      and every reward ever granted is either claimed or still owed. */
  lemma {:induction false} RunSound(genesis: map<Account, U64>, script: seq<Instr>)
    requires Genesis(genesis)
    ensures Sound(genesis, Run(genesis, script))
  {
    if script == [] {
      SumZero(Stakes(map[]));
      SumZero(Rewards(map[]));
    } else {
      var b, i := Run(genesis, script[..|script| - 1]), script[|script| - 1];
      RunSound(genesis, script[..|script| - 1]);
      AdvanceTokens(genesis, b, i);
      AdvanceNodes(b.state, i);
      AdvanceVault(genesis, b, i);
      AdvanceTreasury(genesis, b, i);
    }
  }

  // ---------------------------------------------------------------- who pays whom

  /** `amount` moved from `payer` to `payee`, and no other token account changed. */
  ghost predicate MovedOnly(before: map<Account, U64>, after: map<Account, U64>, payer: Account, payee: Account,
                            amount: int)
  {
    && payer in before && payee in before && after.Keys == before.Keys
    && forall a :: a in before ==>
         after[a] == before[a] - (if a == payer then amount else 0) + (if a == payee then amount else 0)
  }

  lemma TransferMoves(tokens: map<Account, U64>, from: Account, to: Account, amount: U64)
    requires TransferOutcome(tokens, from, to, amount) == Ok
    ensures MovedOnly(tokens, Transferred(tokens, from, to, amount), from, to, amount)
  {
  }

  lemma InitEffect(s: State, owner: Pubkey, emailHash: int)
    requires Exec(s, InitNode(owner, emailHash)).1 == Ok
    ensures Exec(s, InitNode(owner, emailHash)).0
         == State(s.nodes[Key(owner, emailHash) := NodeAccount(owner, emailHash, 0, 0, 0, false)], s.tokens)
  {
  }

  lemma AddRewardEffect(s: State, key: Key, signer: Pubkey, amount: U64)
    requires Exec(s, AddReward(key, signer, amount)).1 == Ok
    ensures key in s.nodes && s.nodes[key].rewardBalance + amount <= 18446744073709551615
    ensures Exec(s, AddReward(key, signer, amount)).0
         == State(s.nodes[key := s.nodes[key].(rewardBalance := s.nodes[key].rewardBalance + amount)], s.tokens)
  {
  }

  /** The node named in the instruction owes less, and the passed wallet is paid from the treasury. */
  lemma ClaimEffect(s: State, key: Key, dest: Pubkey, amount: U64)
    requires Exec(s, ClaimReward(key, dest, amount)).1 == Ok
    ensures var t := Exec(s, ClaimReward(key, dest, amount)).0;
      && MovedOnly(s.tokens, t.tokens, Treasury, Wallet(dest), amount)
      && key in s.nodes && amount <= s.nodes[key].rewardBalance
      && t.nodes == s.nodes[key := s.nodes[key].(rewardBalance := s.nodes[key].rewardBalance - amount)]
  {
    TransferMoves(s.tokens, Treasury, Wallet(dest), amount);
  }

  lemma PurchaseEffect(s: State, user: Pubkey, amount: U64)
    requires Exec(s, BuyProduct(user, amount)).1 == Ok
    ensures var t := Exec(s, BuyProduct(user, amount)).0;
      MovedOnly(s.tokens, t.tokens, Wallet(user), Treasury, amount) && t.nodes == s.nodes
  {
    TransferMoves(s.tokens, Wallet(user), Treasury, amount);
  }

  lemma TreasuryWithdrawalEffect(s: State, signer: Pubkey, dest: Pubkey, amount: U64)
    requires Exec(s, WithdrawTreasury(signer, dest, amount)).1 == Ok
    ensures var t := Exec(s, WithdrawTreasury(signer, dest, amount)).0;
      MovedOnly(s.tokens, t.tokens, Treasury, Wallet(dest), amount) && t.nodes == s.nodes
  {
    TransferMoves(s.tokens, Treasury, Wallet(dest), amount);
  }

  /** A first stake comes from the payer's wallet, goes to the vault, and makes the named node a validator. */
  lemma StakeEffect(s: State, key: Key, payer: Pubkey, amount: U64)
    requires Exec(s, StakeTokens(key, payer, amount)).1 == Ok
    ensures var t := Exec(s, StakeTokens(key, payer, amount)).0;
      && MovedOnly(s.tokens, t.tokens, Wallet(payer), Vault, amount)
      && key in s.nodes && 20_000_000_000 <= s.nodes[key].stakedAmount + amount <= 18446744073709551615
      && t.nodes == s.nodes[key := s.nodes[key].(
           stakedAmount := s.nodes[key].stakedAmount + amount, isValidator := true)]
  {
    TransferMoves(s.tokens, Wallet(payer), Vault, amount);
  }

  lemma TopUpEffect(s: State, key: Key, payer: Pubkey, amount: U64)
    requires Exec(s, AddStake(key, payer, amount)).1 == Ok
    ensures var t := Exec(s, AddStake(key, payer, amount)).0;
      && MovedOnly(s.tokens, t.tokens, Wallet(payer), Vault, amount)
      && key in s.nodes && s.nodes[key].stakedAmount + amount <= 18446744073709551615
      && var staked := s.nodes[key].stakedAmount + amount;
      && t.nodes == s.nodes[key := s.nodes[key].(
           stakedAmount := staked, isValidator := s.nodes[key].isValidator || staked >= 20_000_000_000)]
  {
    TransferMoves(s.tokens, Wallet(payer), Vault, amount);
  }

  /** The withdrawn stake goes from the vault to the passed wallet, and comes off the named node alone. */
  lemma WithdrawEffect(s: State, key: Key, signer: Pubkey, dest: Pubkey, amount: U64)
    requires Exec(s, WithdrawStake(key, signer, dest, amount)).1 == Ok
    ensures var t := Exec(s, WithdrawStake(key, signer, dest, amount)).0;
      && MovedOnly(s.tokens, t.tokens, Vault, Wallet(dest), amount)
      && key in s.nodes && s.nodes[key].owner == signer && amount <= s.nodes[key].stakedAmount
      && var left := s.nodes[key].stakedAmount - amount;
      && t.nodes == s.nodes[key := s.nodes[key].(
           stakedAmount := left, isValidator := s.nodes[key].isValidator && left > 0)]
  {
    TransferMoves(s.tokens, Vault, Wallet(dest), amount);
  }

  /** Closing pays the whole stake to the passed wallet and removes the named node alone. */
  lemma DeleteEffect(s: State, key: Key, signer: Pubkey, dest: Pubkey, amount: U64)
    requires Exec(s, DeleteAccount(key, signer, dest, amount)).1 == Ok
    ensures var t := Exec(s, DeleteAccount(key, signer, dest, amount)).0;
      && MovedOnly(s.tokens, t.tokens, Vault, Wallet(dest), amount)
      && key in s.nodes && s.nodes[key].owner == signer && amount == s.nodes[key].stakedAmount
      && t.nodes == s.nodes - {key}
  {
    if amount > 0 {
      TransferMoves(s.tokens, Vault, Wallet(dest), amount);
    }
  }

  // ---------------------------------------------------------------- solvency

  lemma VaultCovers(genesis: map<Account, U64>, b: Book, key: Key)
    requires Sound(genesis, b) && key in b.state.nodes
    ensures b.state.nodes[key].stakedAmount <= b.state.tokens[Vault]
  {
    SumAtLeast(Stakes(b.state.nodes), key);
  }

  /** In a state with sound books the token program never refuses a credit: two balances fit the supply. */
  lemma NeverTokenOverflow(genesis: map<Account, U64>, b: Book, from: Account, to: Account, amount: U64)
    requires Sound(genesis, b)
    ensures TransferOutcome(b.state.tokens, from, to, amount) != Err(TokenOverflow)
  {
    var tokens := b.state.tokens;
    if from in tokens && to in tokens && from != to {
      SumPair(tokens, from, to);
    }
  }

  // The outcome of every instruction, whoever signs it and whatever it asks for. After any run no transfer overflows
  // and the vault always covers a node's stake, so an instruction fails for the reasons it states itself, or because
  // the payer has too little.

  lemma InitOutcome(s: State, owner: Pubkey, emailHash: int)
    ensures Exec(s, InitNode(owner, emailHash)).1 == if Key(owner, emailHash) in s.nodes then Err(AccountInUse) else Ok
  {
  }

  /** Only the backend grants rewards. */
  lemma AddRewardOutcome(s: State, key: Key, signer: Pubkey, amount: U64)
    ensures Exec(s, AddReward(key, signer, amount)).1 ==
      if key !in s.nodes then Err(AccountMissing)
      else if signer != BACKEND_WALLET then Err(Unauthorized)
      else if s.nodes[key].rewardBalance + amount > 18446744073709551615 then Err(Overflow)
      else Ok
  {
  }

  lemma PurchaseOutcome(genesis: map<Account, U64>, script: seq<Instr>, user: Pubkey, amount: U64)
    requires Genesis(genesis)
    ensures var s := Run(genesis, script).state;
      Exec(s, BuyProduct(user, amount)).1 ==
        if Wallet(user) !in s.tokens then Err(AccountMissing)
        else if amount == 0 then Err(InvalidAmount)
        else if s.tokens[Wallet(user)] < amount then Err(TokenInsufficientFunds)
        else Ok
  {
    RunSound(genesis, script);
    NeverTokenOverflow(genesis, Run(genesis, script), Wallet(user), Treasury, amount);
  }

  /** Only the admin takes from the treasury. */
  lemma TreasuryWithdrawalOutcome(genesis: map<Account, U64>, script: seq<Instr>, signer: Pubkey, dest: Pubkey,
                                  amount: U64)
    requires Genesis(genesis)
    ensures var s := Run(genesis, script).state;
      && Treasury in s.tokens
      && Exec(s, WithdrawTreasury(signer, dest, amount)).1 ==
           if Wallet(dest) !in s.tokens then Err(AccountMissing)
           else if signer != ADMIN_WALLET then Err(Unauthorized)
           else if s.tokens[Treasury] < amount then Err(TokenInsufficientFunds)
           else Ok
  {
    RunSound(genesis, script);
    NeverTokenOverflow(genesis, Run(genesis, script), Treasury, Wallet(dest), amount);
  }

  /** A claim succeeds exactly for a positive amount that is owed and that the treasury holds. The instruction has no
      signer among its conditions: whose wallet is paid is the caller's choice. */
  lemma ClaimOutcome(genesis: map<Account, U64>, script: seq<Instr>, key: Key, dest: Pubkey, amount: U64)
    requires Genesis(genesis)
    ensures var s := Run(genesis, script).state;
      && Treasury in s.tokens
      && Exec(s, ClaimReward(key, dest, amount)).1 ==
           if key !in s.nodes || Wallet(dest) !in s.tokens then Err(AccountMissing)
           else if amount == 0 then Err(InvalidAmount)
           else if s.nodes[key].rewardBalance < amount then Err(InsufficientFunds)
           else if s.tokens[Treasury] < amount then Err(TokenInsufficientFunds)
           else Ok
  {
    RunSound(genesis, script);
    NeverTokenOverflow(genesis, Run(genesis, script), Treasury, Wallet(dest), amount);
  }

  /** A stake that the payer can afford, on a node that exists, never meets an overflow: a first stake fails only for
      the two reasons the program states, and a top-up never fails at all. */
  lemma AffordableStake(genesis: map<Account, U64>, script: seq<Instr>, key: Key, payer: Pubkey, amount: U64)
    requires Genesis(genesis)
    requires var s := Run(genesis, script).state;
      key in s.nodes && Wallet(payer) in s.tokens && amount <= s.tokens[Wallet(payer)]
    ensures var s := Run(genesis, script).state;
      && Exec(s, AddStake(key, payer, amount)).1 == Ok
      && (Exec(s, StakeTokens(key, payer, amount)).1 ==
            if s.nodes[key].isValidator then Err(UnstakeCooldownActive)
            else if s.nodes[key].stakedAmount + amount < 20_000_000_000 then Err(InsufficientStake)
            else Ok)
  {
    var b := Run(genesis, script);
    RunSound(genesis, script);
    VaultCovers(genesis, b, key);
    SumPair(b.state.tokens, Vault, Wallet(payer));
    NeverTokenOverflow(genesis, b, Wallet(payer), Vault, amount);
  }

  /** ... and whatever the payer asks for, this is what happens. */
  lemma StakeOutcome(genesis: map<Account, U64>, script: seq<Instr>, key: Key, payer: Pubkey, amount: U64)
    requires Genesis(genesis)
    ensures var s := Run(genesis, script).state;
      Exec(s, StakeTokens(key, payer, amount)).1 ==
        if key !in s.nodes || Wallet(payer) !in s.tokens then Err(AccountMissing)
        else if s.nodes[key].stakedAmount >= 20_000_000_000 then Err(UnstakeCooldownActive)
        else if s.nodes[key].stakedAmount + amount > 18446744073709551615 then Err(Overflow)
        else if s.nodes[key].stakedAmount + amount < 20_000_000_000 then Err(InsufficientStake)
        else if s.tokens[Wallet(payer)] < amount then Err(TokenInsufficientFunds)
        else Ok
  {
    RunSound(genesis, script);
    NeverTokenOverflow(genesis, Run(genesis, script), Wallet(payer), Vault, amount);
  }

  lemma TopUpOutcome(genesis: map<Account, U64>, script: seq<Instr>, key: Key, payer: Pubkey, amount: U64)
    requires Genesis(genesis)
    ensures var s := Run(genesis, script).state;
      Exec(s, AddStake(key, payer, amount)).1 ==
        if key !in s.nodes || Wallet(payer) !in s.tokens then Err(AccountMissing)
        else if s.nodes[key].stakedAmount + amount > 18446744073709551615 then Err(Overflow)
        else if s.tokens[Wallet(payer)] < amount then Err(TokenInsufficientFunds)
        else Ok
  {
    RunSound(genesis, script);
    NeverTokenOverflow(genesis, Run(genesis, script), Wallet(payer), Vault, amount);
  }

  /** Only the owner withdraws, and exactly when it leaves nothing or a full minimum stake. */
  lemma WithdrawOutcome(genesis: map<Account, U64>, script: seq<Instr>, key: Key, signer: Pubkey, dest: Pubkey,
                        amount: U64)
    requires Genesis(genesis)
    ensures var s := Run(genesis, script).state;
      Exec(s, WithdrawStake(key, signer, dest, amount)).1 ==
        if key !in s.nodes || Wallet(dest) !in s.tokens then Err(AccountMissing)
        else if signer != key.owner then Err(ConstraintHasOne)
        else if s.nodes[key].stakedAmount < amount then Err(InsufficientFunds)
        else if 0 < s.nodes[key].stakedAmount - amount < 20_000_000_000 then Err(InsufficientStake)
        else Ok
  {
    var b := Run(genesis, script);
    RunSound(genesis, script);
    if key in b.state.nodes {
      VaultCovers(genesis, b, key);
    }
    NeverTokenOverflow(genesis, b, Vault, Wallet(dest), amount);
  }

  /** Only the owner closes an account, and exactly with its whole stake as amount and no reward owed. */
  lemma DeleteOutcome(genesis: map<Account, U64>, script: seq<Instr>, key: Key, signer: Pubkey, dest: Pubkey,
                      amount: U64)
    requires Genesis(genesis)
    ensures var s := Run(genesis, script).state;
      Exec(s, DeleteAccount(key, signer, dest, amount)).1 ==
        if key !in s.nodes || Wallet(dest) !in s.tokens then Err(AccountMissing)
        else if signer != key.owner then Err(ConstraintHasOne)
        else if s.nodes[key].rewardBalance != 0 then Err(ConstraintRaw)
        else if s.nodes[key].stakedAmount != amount then Err(InsufficientFunds)
        else Ok
  {
    var b := Run(genesis, script);
    RunSound(genesis, script);
    if key in b.state.nodes {
      VaultCovers(genesis, b, key);
    }
    NeverTokenOverflow(genesis, b, Vault, Wallet(dest), amount);
  }

  /** Wherever staking succeeds, topping up by the same amount reaches the same state. */
  lemma StakeIsAddStake(s: State, key: Key, payer: Pubkey, amount: U64)
    requires Exec(s, StakeTokens(key, payer, amount)).1 == Ok
    ensures Exec(s, AddStake(key, payer, amount)) == Exec(s, StakeTokens(key, payer, amount))
  {
  }

  /** A failing instruction leaves every account as it was: the runtime's atomicity, which `Exec` assumes. */
  lemma FailureRollsBack(s: State, i: Instr)
    requires Exec(s, i).1 != Ok
    ensures Exec(s, i).0 == s
  {
  }

  // ---------------------------------------------------------------- status from net deposits

  /** What an accepted instruction makes of a node's deposits minus withdrawals. */
  function NetAfter(net: int, i: Instr, key: Key): int {
    match i
    case InitNode(owner, hash) => if Key(owner, hash) == key then 0 else net
    case StakeTokens(k, _, a) => if k == key then net + a else net
    case AddStake(k, _, a) => if k == key then net + a else net
    case WithdrawStake(k, _, _, a) => if k == key then net - a else net
    case _ => net
  }

  /** Deposits minus withdrawals of one node account since its seeds were last initialised. */
  function NetDeposits(genesis: map<Account, U64>, script: seq<Instr>, key: Key): int {
    if script == [] then 0
    else
      var prior, i := script[..|script| - 1], script[|script| - 1];
      var net := NetDeposits(genesis, prior, key);
      if Exec(Run(genesis, prior).state, i).1 == Ok then NetAfter(net, i, key) else net
  }

  function StakeOf(s: State, key: Key): int {
    if key in s.nodes then s.nodes[key].stakedAmount else 0
  }

  lemma StakeMoves(s: State, i: Instr, key: Key)
    requires Exec(s, i).1 == Ok && key in Exec(s, i).0.nodes
    ensures StakeOf(Exec(s, i).0, key) == NetAfter(StakeOf(s, key), i, key)
    ensures key !in s.nodes ==> i.InitNode? && Key(i.owner, i.emailHash) == key
  {
  }

  lemma {:induction false} StakeIsNetDeposits(genesis: map<Account, U64>, script: seq<Instr>, key: Key)
    requires key in Run(genesis, script).state.nodes
    ensures StakeOf(Run(genesis, script).state, key) == NetDeposits(genesis, script, key)
  {
    var prior, i := script[..|script| - 1], script[|script| - 1];
    var s := Run(genesis, prior).state;
    if key in s.nodes {
      StakeIsNetDeposits(genesis, prior, key);
    }
    if Exec(s, i).1 == Ok {
      StakeMoves(s, i, key);
    } else {
      FailureRollsBack(s, i);
    }
  }

  /** A node's stake and validator status depend on nothing but its net deposits. */
  lemma {:induction false} StatusFromNetDeposits(genesis: map<Account, U64>, script: seq<Instr>, key: Key)
    requires Genesis(genesis)
    requires key in Run(genesis, script).state.nodes
    ensures var node := Run(genesis, script).state.nodes[key];
      && node.stakedAmount == NetDeposits(genesis, script, key)
      && (node.isValidator <==> NetDeposits(genesis, script, key) >= 20_000_000_000)
  {
    RunSound(genesis, script);
    StakeIsNetDeposits(genesis, script, key);
  }

  // ---------------------------------------------------------------- everybody leaves

  /** The owners of `keys` withdraw their whole stakes to their own wallets, one after the other. */
  function Exits(s: State, keys: seq<Key>): seq<Instr>
    requires forall i :: 0 <= i < |keys| ==> keys[i] in s.nodes
  {
    seq(|keys|, i requires 0 <= i < |keys| =>
      WithdrawStake(keys[i], keys[i].owner, keys[i].owner, s.nodes[keys[i]].stakedAmount))
  }

  /** The nodes `keys` of a state can be emptied: they exist, once each, and their owners have wallets. */
  ghost predicate CanReceive(s: State, keys: seq<Key>) {
    && (forall i :: 0 <= i < |keys| ==> keys[i] in s.nodes && Wallet(keys[i].owner) in s.tokens)
    && (forall i, j :: 0 <= i < j < |keys| ==> keys[i] != keys[j])
  }

  /** The stakes of `keys`, all together and those of one owner. */
  function StakeSum(s: State, keys: seq<Key>): int
    requires forall i :: 0 <= i < |keys| ==> keys[i] in s.nodes
  {
    if keys == [] then 0 else StakeSum(s, keys[..|keys| - 1]) + s.nodes[keys[|keys| - 1]].stakedAmount
  }

  function StakeSumOf(s: State, keys: seq<Key>, owner: Pubkey): int
    requires forall i :: 0 <= i < |keys| ==> keys[i] in s.nodes
  {
    if keys == [] then 0
    else
      var k := keys[|keys| - 1];
      StakeSumOf(s, keys[..|keys| - 1], owner) + (if k.owner == owner then s.nodes[k].stakedAmount else 0)
  }

  /** What `keys` leaving in full adds to a token account: each owner gets the sum of its own stakes, from the vault. */
  function ExitGain(s: State, keys: seq<Key>, a: Account): int
    requires forall i :: 0 <= i < |keys| ==> keys[i] in s.nodes
  {
    match a
    case Vault => -StakeSum(s, keys)
    case Treasury => 0
    case Wallet(holder) => StakeSumOf(s, keys, holder)
  }

  /** The nodes `keys` were emptied, and no other. */
  ghost predicate NodesEmptied(s: State, keys: seq<Key>, t: State) {
    && t.nodes.Keys == s.nodes.Keys
    && (forall k :: k in s.nodes ==> t.nodes[k].stakedAmount == if k in keys then 0 else s.nodes[k].stakedAmount)
  }

  /** Every owner was paid its own stakes, by the vault, and nobody else anything. */
  ghost predicate OwnersPaid(s: State, keys: seq<Key>, t: State)
    requires forall i :: 0 <= i < |keys| ==> keys[i] in s.nodes
  {
    t.tokens.Keys == s.tokens.Keys && forall a :: a in s.tokens ==> t.tokens[a] == s.tokens[a] + ExitGain(s, keys, a)
  }

  /** `t` is `s` after exactly the nodes `keys` were emptied and their owners paid. */
  ghost predicate Emptied(s: State, keys: seq<Key>, t: State)
    requires forall i :: 0 <= i < |keys| ==> keys[i] in s.nodes
  {
    NodesEmptied(s, keys, t) && OwnersPaid(s, keys, t)
  }

  lemma ExitsSnoc(script: seq<Instr>, s: State, keys: seq<Key>)
    requires keys != [] && CanReceive(s, keys)
    ensures var exits, n := Exits(s, keys), |keys| - 1;
      && Exits(s, keys[..n]) == exits[..n]
      && (script + exits[..n]) + [exits[n]] == script + exits
  {
    assert Exits(s, keys)[..|keys| - 1] + [Exits(s, keys)[|keys| - 1]] == Exits(s, keys);
  }

  lemma NodesEmptiedSnoc(s: State, keys: seq<Key>, key: Key, t: State, u: State)
    requires NodesEmptied(s, keys, t) && key in t.nodes
    requires key in u.nodes && u.nodes == t.nodes[key := u.nodes[key]] && u.nodes[key].stakedAmount == 0
    ensures NodesEmptied(s, keys + [key], u)
  {
  }

  lemma OwnersPaidSnoc(s: State, keys: seq<Key>, key: Key, t: State, u: State)
    requires (forall i :: 0 <= i < |keys| ==> keys[i] in s.nodes) && key in s.nodes
    requires OwnersPaid(s, keys, t)
    requires MovedOnly(t.tokens, u.tokens, Vault, Wallet(key.owner), s.nodes[key].stakedAmount)
    ensures OwnersPaid(s, keys + [key], u)
  {
    assert (keys + [key])[..|keys|] == keys;
    forall a | a in s.tokens ensures u.tokens[a] == s.tokens[a] + ExitGain(s, keys + [key], a) {
      assert t.tokens[a] == s.tokens[a] + ExitGain(s, keys, a);
    }
  }

  lemma ExitStep(genesis: map<Account, U64>, script: seq<Instr>, s: State, keys: seq<Key>)
    requires Genesis(genesis)
    requires keys != [] && CanReceive(s, keys)
    requires Emptied(s, keys[..|keys| - 1], Run(genesis, script).state)
    ensures var exit := Exits(s, keys)[|keys| - 1];
      && Exec(Run(genesis, script).state, exit).1 == Ok
      && Emptied(s, keys, Run(genesis, script + [exit]).state)
  {
    var prior, key := keys[..|keys| - 1], keys[|keys| - 1];
    var t := Run(genesis, script).state;
    assert key !in prior && prior + [key] == keys;
    WithdrawOutcome(genesis, script, key, key.owner, key.owner, t.nodes[key].stakedAmount);
    WithdrawEffect(t, key, key.owner, key.owner, t.nodes[key].stakedAmount);
    var exit := Exits(s, keys)[|keys| - 1];
    assert exit == WithdrawStake(key, key.owner, key.owner, t.nodes[key].stakedAmount);
    NodesEmptiedSnoc(s, prior, key, t, Exec(t, exit).0);
    OwnersPaidSnoc(s, prior, key, t, Exec(t, exit).0);
    assert (script + [exit])[..|script|] == script;
  }

  /** Continuing the run `script` with `tail`, no instruction of `tail` fails. */
  ghost predicate AllSucceed(genesis: map<Account, U64>, script: seq<Instr>, tail: seq<Instr>) {
    tail == [] ||
    var prior := tail[..|tail| - 1];
    AllSucceed(genesis, script, prior) && Exec(Run(genesis, script + prior).state, tail[|tail| - 1]).1 == Ok
  }

  /** A run on the vault: from any reachable state, any set of owners can all leave in full, in any order, and each
      one's wallet grows by exactly the sum of its own stakes. */
  lemma {:induction false} EveryoneCanLeave(genesis: map<Account, U64>, script: seq<Instr>, keys: seq<Key>)
    requires Genesis(genesis)
    requires CanReceive(Run(genesis, script).state, keys)
    ensures var exits := Exits(Run(genesis, script).state, keys);
      && AllSucceed(genesis, script, exits)
      && Emptied(Run(genesis, script).state, keys, Run(genesis, script + exits).state)
  {
    var s := Run(genesis, script).state;
    var exits := Exits(s, keys);
    if keys == [] {
      assert script + exits == script;
    } else {
      EveryoneCanLeave(genesis, script, keys[..|keys| - 1]);
      ExitsSnoc(script, s, keys);
      ExitStep(genesis, script + Exits(s, keys[..|keys| - 1]), s, keys);
    }
  }

  /** When every staker has left, the vault holds exactly what was never staked. */
  lemma VaultEmptiesOut(genesis: map<Account, U64>, script: seq<Instr>)
    requires Genesis(genesis)
    requires forall k :: k in Run(genesis, script).state.nodes ==> Run(genesis, script).state.nodes[k].stakedAmount == 0
    ensures var b := Run(genesis, script);
      Vault in b.state.tokens && b.state.tokens[Vault] == genesis[Vault] + b.flows.donatedToVault
  {
    RunSound(genesis, script);
    SumZero(Stakes(Run(genesis, script).state.nodes));
  }
}
