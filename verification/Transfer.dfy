/** Reading a token transfer off a transaction's balance changes (solana/solana_client.go, GetTransferInfo). */
module Transfer {
  import opened Wrappers

  const INT64_MIN := -0x8000_0000_0000_0000
  const INT64_MAX := 0x7FFF_FFFF_FFFF_FFFF
  const UINT64_MAX := 0xFFFF_FFFF_FFFF_FFFF

  /** `amount` is the raw token amount, a decimal string in the RPC answer. */
  datatype TokenBalance = TokenBalance(accountIndex: nat, mint: string, owner: string, amount: string)

  /** The balances before and after a transaction. */
  datatype Meta = Meta(pre: seq<TokenBalance>, post: seq<TokenBalance>)

  datatype TxInfo = TxInfo(sender: string, receiver: string, amount: nat)

  /** The loop's variables. */
  datatype Scan = Scan(sender: string, receiver: string, amount: nat, foundSender: bool, foundReceiver: bool)

  // ---------------------------------------------------------------- parsing amounts

  /** What strconv.ParseUint knows after a number of characters; it stops at the first one that decides. */
  datatype Digits = Number(value: nat) | Malformed | TooLarge

  predicate IsDigit(c: char) {
    '0' <= c <= '9'
  }

  function Read(s: string): Digits {
    if s == "" then Number(0)
    else
      match Read(s[..|s| - 1])
      case Number(n) =>
        var c := s[|s| - 1];
        if !IsDigit(c) then Malformed
        else if 10 * n + (c as int - '0' as int) > UINT64_MAX then TooLarge
        else Number(10 * n + (c as int - '0' as int))
      case stopped => stopped
  }

  /** strconv.ParseInt in base ten: it saturates at the ends of int64 and answers 0 for malformed text, and the
      caller drops its error. */
  function Parse(amount: string): (v: int)
    ensures INT64_MIN <= v <= INT64_MAX
  {
    var signed := amount != "" && (amount[0] == '-' || amount[0] == '+');
    var negative := signed && amount[0] == '-';
    var digits := if signed then amount[1..] else amount;
    if digits == "" then 0
    else
      match Read(digits)
      case Malformed => 0
      case TooLarge => if negative then INT64_MIN else INT64_MAX
      case Number(n) =>
        if negative then (if 0 - n < INT64_MIN then INT64_MIN else 0 - n)
        else if n > INT64_MAX then INT64_MAX else n
  }

  predicate AllDigits(s: string) {
    forall i :: 0 <= i < |s| ==> IsDigit(s[i])
  }

  predicate Numeral(s: string) {
    s != "" && AllDigits(s)
  }

  /** The number a string of digits denotes. */
  function ValueOf(s: string): nat
    requires AllDigits(s)
  {
    if s == "" then 0 else 10 * ValueOf(s[..|s| - 1]) + (s[|s| - 1] as int - '0' as int)
  }

  lemma {:induction false} ReadDigits(s: string)
    requires AllDigits(s)
    ensures Read(s) == if ValueOf(s) > UINT64_MAX then TooLarge else Number(ValueOf(s))
  {
    if s != "" {
      ReadDigits(s[..|s| - 1]);
    }
  }

  /** A numeral is read as the number it denotes, up to the int64 maximum. */
  lemma ParseNumeral(s: string)
    requires Numeral(s)
    ensures Parse(s) == if ValueOf(s) > INT64_MAX then INT64_MAX else ValueOf(s)
  {
    ReadDigits(s);
    assert IsDigit(s[0]);
  }

  /** A sign is read as one, and a negative number is cut at the int64 minimum. */
  lemma ParseSigned(s: string)
    requires Numeral(s)
    ensures Parse("+" + s) == Parse(s)
    ensures Parse("-" + s) == if ValueOf(s) > 9223372036854775808 then -9223372036854775808 else 0 - ValueOf(s)
  {
    ReadDigits(s);
    assert ("+" + s)[1..] == s && ("-" + s)[1..] == s;
    assert IsDigit(s[0]);
  }

  /** Digits followed by anything else are read as 0, unless they are too many already. */
  lemma ParseMalformed(s: string, c: char, rest: string)
    requires Numeral(s) && ValueOf(s) <= 18446744073709551615 && !IsDigit(c)
    ensures Parse(s + [c] + rest) == 0
  {
    ReadDigits(s);
    ReadStops(s + [c], rest);
    assert (s + [c])[..|s|] == s;
    assert IsDigit((s + [c] + rest)[0]) by {
      assert (s + [c] + rest)[0] == s[0];
    }
  }

  lemma {:induction false} ReadStops(s: string, rest: string)
    requires !Read(s).Number?
    ensures Read(s + rest) == Read(s)
  {
    if rest == "" {
      assert s + rest == s;
    } else {
      ReadStops(s, rest[..|rest| - 1]);
      assert (s + rest)[..|s + rest| - 1] == s + rest[..|rest| - 1];
    }
  }

  /** int64 subtraction. */
  function Wrap64(x: int): (w: int)
    ensures -18446744073709551616 < x < 18446744073709551616 ==> INT64_MIN <= w <= INT64_MAX
    ensures w == x || w == x - 18446744073709551616 || w == x + 18446744073709551616
    ensures INT64_MIN <= x <= INT64_MAX ==> w == x
  {
    if x > INT64_MAX then x - UINT64_MAX - 1 else if x < INT64_MIN then x + UINT64_MAX + 1 else x
  }

  // ---------------------------------------------------------------- the scan

  /** The first entry with the given account index. */
  function FindPost(list: seq<TokenBalance>, index: nat): (r: Option<TokenBalance>)
    ensures r.Some? ==> r.value in list && r.value.accountIndex == index
    ensures r.Some? ==>
      exists i :: 0 <= i < |list| && list[i] == r.value && forall j :: 0 <= j < i ==> list[j].accountIndex != index
    ensures r.None? <==> forall i :: 0 <= i < |list| ==> list[i].accountIndex != index
  {
    if list == [] then None
    else if list[0].accountIndex == index then Some(list[0])
    else FindPost(list[1..], index)
  }

  function PostAmount(post: seq<TokenBalance>, index: nat): int {
    match FindPost(post, index)
    case Some(p) => Parse(p.amount)
    case None => 0
  }

  /** The balance change of the account behind a pre-transaction entry. */
  function Change(post: seq<TokenBalance>, p: TokenBalance): int {
    Wrap64(PostAmount(post, p.accountIndex) - Parse(p.amount))
  }

  function ScanStep(post: seq<TokenBalance>, mint: string, s: Scan, p: TokenBalance): Scan {
    var diff := Change(post, p);
    if p.mint != mint || diff == 0 then s
    else if diff < 0 then s.(sender := p.owner, amount := -diff, foundSender := true)
    else s.(receiver := p.owner, foundReceiver := true)
  }

  function ScanAll(pre: seq<TokenBalance>, post: seq<TokenBalance>, mint: string): Scan {
    if pre == [] then Scan("", "", 0, false, false)
    else ScanStep(post, mint, ScanAll(pre[..|pre| - 1], post, mint), pre[|pre| - 1])
  }

  lemma ScanPrefix(pre: seq<TokenBalance>, i: nat, post: seq<TokenBalance>, mint: string)
    requires i < |pre|
    ensures ScanAll(pre[..i + 1], post, mint) == ScanStep(post, mint, ScanAll(pre[..i], post, mint), pre[i])
  {
    assert pre[..i + 1][..i] == pre[..i];
  }

  /** None: the call reports an error. */
  function TransferInfo(pre: seq<TokenBalance>, post: seq<TokenBalance>, mint: string): Option<TxInfo> {
    var s := ScanAll(pre, post, mint);
    if !s.foundSender || !s.foundReceiver || s.amount == 0 then None
    else Some(TxInfo(s.sender, s.receiver, s.amount))
  }

  method FindPostEntry(list: seq<TokenBalance>, index: nat) returns (r: Option<TokenBalance>)
    ensures r == FindPost(list, index)
  {
    for i := 0 to |list|
      invariant FindPost(list, index) == FindPost(list[i..], index)
    {
      if list[i].accountIndex == index {
        return Some(list[i]);
      }
      assert list[i..][1..] == list[i + 1..];
    }
    return None;
  }

  /** `meta` is None when the RPC call fails or its answer has no balances. */
  method GetTransferInfo(meta: Option<Meta>, mint: string) returns (info: Option<TxInfo>)
    ensures info == if meta.Some? then TransferInfo(meta.value.pre, meta.value.post, mint) else None
  {
    if meta.None? {
      return None;
    }
    var pre, post := meta.value.pre, meta.value.post;
    var sender, receiver, amount: nat, foundSender, foundReceiver := "", "", 0, false, false;
    for i := 0 to |pre|
      invariant Scan(sender, receiver, amount, foundSender, foundReceiver) == ScanAll(pre[..i], post, mint)
    {
      ScanPrefix(pre, i, post, mint);
      var p := pre[i];
      if p.mint != mint {
        continue;
      }
      var found := FindPostEntry(post, p.accountIndex);
      var postAmt := 0;
      if found.Some? {
        postAmt := Parse(found.value.amount);
      }
      var preAmt := Parse(p.amount);
      var diff := Wrap64(postAmt - preAmt);
      if diff < 0 {
        sender := p.owner;
        amount := -diff;
        foundSender := true;
      }
      if diff > 0 {
        receiver := p.owner;
        foundReceiver := true;
      }
    }
    assert pre[..|pre|] == pre;
    if !foundSender || !foundReceiver {
      return None;
    }
    if amount == 0 {
      return None;
    }
    return Some(TxInfo(sender, receiver, amount));
  }

  // ---------------------------------------------------------------- what the scan finds

  predicate Loser(post: seq<TokenBalance>, mint: string, p: TokenBalance) {
    p.mint == mint && Change(post, p) < 0
  }

  predicate Gainer(post: seq<TokenBalance>, mint: string, p: TokenBalance) {
    p.mint == mint && Change(post, p) > 0
  }

  lemma MemberSnoc(pre: seq<TokenBalance>, q: TokenBalance)
    requires pre != []
    ensures q in pre <==> q in pre[..|pre| - 1] || q == pre[|pre| - 1]
  {
    assert pre == pre[..|pre| - 1] + [pre[|pre| - 1]];
  }

  /** The scan reports some loser, with its loss, and some gainer, whenever there are any; the reported amount is
      never zero once a sender was found, so the amount check after the loop cannot fail. */
  lemma {:induction false} ScanFinds(pre: seq<TokenBalance>, post: seq<TokenBalance>, mint: string)
    ensures var s := ScanAll(pre, post, mint);
      && (s.foundSender <==> exists p :: p in pre && Loser(post, mint, p))
      && (s.foundReceiver <==> exists p :: p in pre && Gainer(post, mint, p))
      && (s.foundSender ==>
            exists p :: p in pre && Loser(post, mint, p) && s.sender == p.owner && s.amount == -Change(post, p))
      && (s.foundReceiver ==> exists p :: p in pre && Gainer(post, mint, p) && s.receiver == p.owner)
      && (s.foundSender ==> s.amount > 0)
  {
    if pre != [] {
      var prior, p := pre[..|pre| - 1], pre[|pre| - 1];
      ScanFinds(prior, post, mint);
      assert p in pre && (p.mint == mint ==> Loser(post, mint, p) || Gainer(post, mint, p) || Change(post, p) == 0);
      forall q ensures q in pre <==> q in prior || q == p {
        MemberSnoc(pre, q);
      }
    }
  }

  /** Whatever the balances, the call succeeds exactly when some account listed before the transaction lost tokens
      of the mint and some account listed before it gained them. */
  lemma SucceedsIff(pre: seq<TokenBalance>, post: seq<TokenBalance>, mint: string)
    ensures TransferInfo(pre, post, mint).Some?
      <==> (exists p :: p in pre && Loser(post, mint, p)) && (exists p :: p in pre && Gainer(post, mint, p))
  {
    ScanFinds(pre, post, mint);
  }

  /** Total of one mint over a list of balances. */
  function Total(list: seq<TokenBalance>, mint: string): nat
    requires Exact(list)
  {
    if list == [] then 0
    else
      var q := list[|list| - 1];
      Total(list[..|list| - 1], mint) + (if q.mint == mint then ValueOf(q.amount) else 0)
  }

  /** Total change of one mint over the accounts listed before the transaction. */
  function TotalChange(pre: seq<TokenBalance>, post: seq<TokenBalance>, mint: string): int {
    if pre == [] then 0
    else
      var p := pre[|pre| - 1];
      TotalChange(pre[..|pre| - 1], post, mint) + (if p.mint == mint then Change(post, p) else 0)
  }

  ghost predicate UniqueIndices(list: seq<TokenBalance>) {
    forall i, j :: 0 <= i < j < |list| ==> list[i].accountIndex != list[j].accountIndex
  }

  /** The amounts are numerals that fit int64. */
  predicate Exact(list: seq<TokenBalance>) {
    forall i :: 0 <= i < |list| ==> Numeral(list[i].amount) && ValueOf(list[i].amount) <= INT64_MAX
  }

  lemma ExactParsed(list: seq<TokenBalance>, q: TokenBalance)
    requires Exact(list) && q in list
    ensures Numeral(q.amount) && 0 <= Parse(q.amount) == ValueOf(q.amount) <= INT64_MAX
  {
    var i :| 0 <= i < |list| && list[i] == q;
    ParseNumeral(list[i].amount);
  }

  lemma ExactChange(post: seq<TokenBalance>, pre: seq<TokenBalance>, p: TokenBalance)
    requires Exact(pre) && Exact(post) && p in pre
    ensures Change(post, p) == PostAmount(post, p.accountIndex) - Parse(p.amount)
  {
    ExactParsed(pre, p);
    if FindPost(post, p.accountIndex).Some? {
      ExactParsed(post, FindPost(post, p.accountIndex).value);
    }
  }

  predicate Listed(pre: seq<TokenBalance>, index: nat) {
    exists p :: p in pre && p.accountIndex == index
  }

  ghost predicate KeepsMint(pre: seq<TokenBalance>, post: seq<TokenBalance>) {
    forall p, q :: p in pre && q in post && p.accountIndex == q.accountIndex ==> p.mint == q.mint
  }

  /** What the accounts hold that are listed only afterwards, because the transaction created them. */
  function Created(pre: seq<TokenBalance>, post: seq<TokenBalance>, mint: string): nat
    requires Exact(post)
  {
    if post == [] then 0
    else
      var q := post[|post| - 1];
      Created(pre, post[..|post| - 1], mint)
      + if q.mint == mint && !Listed(pre, q.accountIndex) then ValueOf(q.amount) else 0
  }

  /** A transaction that moves tokens of `mint` around without minting or burning any. It may create accounts. */
  ghost predicate Conserving(pre: seq<TokenBalance>, post: seq<TokenBalance>, mint: string) {
    && UniqueIndices(pre) && UniqueIndices(post)
    && Exact(pre) && Exact(post)
    && KeepsMint(pre, post)
    && Total(pre, mint) == Total(post, mint)
  }

  lemma {:induction false} FindPostSnoc(post: seq<TokenBalance>, q: TokenBalance, index: nat)
    ensures FindPost(post + [q], index) ==
      if FindPost(post, index).Some? then FindPost(post, index)
      else if q.accountIndex == index then Some(q) else None
  {
    if post == [] {
      assert [q][1..] == [];
    } else {
      FindPostSnoc(post[1..], q, index);
      assert (post + [q])[1..] == post[1..] + [q];
    }
  }

  /** Adding one more post entry changes one account. */
  lemma ChangeSnoc(pre: seq<TokenBalance>, post: seq<TokenBalance>, q: TokenBalance, p: TokenBalance)
    requires UniqueIndices(post + [q])
    requires Exact(pre) && Exact(post) && Exact(post + [q]) && p in pre
    ensures Change(post + [q], p) == Change(post, p) + (if p.accountIndex == q.accountIndex then Parse(q.amount) else 0)
  {
    ExactChange(post, pre, p);
    ExactChange(post + [q], pre, p);
    FindPostSnoc(post, q, p.accountIndex);
    if p.accountIndex == q.accountIndex {
      assert forall i :: 0 <= i < |post| ==> (post + [q])[i] == post[i];
      assert (post + [q])[|post|] == q;
    }
  }

  /** ... so it moves the total change by its amount, if its account is listed once with the same mint, and not at all
      if its account is not listed for this mint. */
  lemma {:induction false} TotalChangeSnoc(pre: seq<TokenBalance>, post: seq<TokenBalance>, q: TokenBalance,
                                           mint: string)
    requires UniqueIndices(pre) && UniqueIndices(post + [q])
    requires Exact(pre) && Exact(post) && Exact(post + [q])
    ensures TotalChange(pre, post + [q], mint) == TotalChange(pre, post, mint) +
      if exists p :: p in pre && p.accountIndex == q.accountIndex && p.mint == mint then Parse(q.amount) else 0
  {
    if pre != [] {
      var prior, p := pre[..|pre| - 1], pre[|pre| - 1];
      forall x ensures x in pre <==> x in prior || x == p {
        MemberSnoc(pre, x);
      }
      TotalChangeSnoc(prior, post, q, mint);
      ChangeSnoc(pre, post, q, p);
    }
  }

  lemma {:induction false} NothingAfterwards(pre: seq<TokenBalance>, mint: string)
    requires Exact(pre)
    ensures TotalChange(pre, [], mint) == 0 - Total(pre, mint) as int
  {
    if pre != [] {
      NothingAfterwards(pre[..|pre| - 1], mint);
      ExactParsed(pre, pre[|pre| - 1]);
    }
  }

  /** One more post entry of the mint adds its amount to a listed account's change or to the created accounts. */
  lemma EntrySnoc(pre: seq<TokenBalance>, post: seq<TokenBalance>, q: TokenBalance, mint: string)
    requires UniqueIndices(pre) && UniqueIndices(post + [q])
    requires Exact(pre) && Exact(post) && Exact(post + [q]) && KeepsMint(pre, post + [q])
    ensures TotalChange(pre, post + [q], mint) + Created(pre, post + [q], mint)
      == TotalChange(pre, post, mint) + Created(pre, post, mint) + (if q.mint == mint then Parse(q.amount) else 0)
  {
    assert (post + [q])[|post|] == q;
    assert (post + [q])[..|post|] == post;
    TotalChangeSnoc(pre, post, q, mint);
    ExactParsed(post + [q], q);
    assert forall p :: p in pre && p.accountIndex == q.accountIndex ==> p.mint == q.mint;
  }

  lemma SameIndex(list: seq<TokenBalance>, p: TokenBalance, q: TokenBalance)
    requires UniqueIndices(list) && p in list && q in list && p.accountIndex == q.accountIndex
    ensures p == q
  {
    var i :| 0 <= i < |list| && list[i] == p;
    var j :| 0 <= j < |list| && list[j] == q;
  }

  /** The changes and the created accounts add up to the difference of the totals. */
  lemma {:induction false} ChangesAddUp(pre: seq<TokenBalance>, post: seq<TokenBalance>, mint: string)
    requires UniqueIndices(pre) && UniqueIndices(post)
    requires Exact(pre) && Exact(post)
    requires KeepsMint(pre, post)
    ensures TotalChange(pre, post, mint) + Created(pre, post, mint) == Total(post, mint) - Total(pre, mint)
  {
    if post == [] {
      NothingAfterwards(pre, mint);
    } else {
      var prior, q := post[..|post| - 1], post[|post| - 1];
      assert post == prior + [q];
      ChangesAddUp(pre, prior, mint);
      EntrySnoc(pre, prior, q, mint);
      ExactParsed(post, q);
    }
  }

  /** Without a loser the total change is not negative, and it is zero only if nothing changed. */
  lemma {:induction false} NoLoser(pre: seq<TokenBalance>, post: seq<TokenBalance>, mint: string)
    requires forall p :: p in pre ==> !Loser(post, mint, p)
    ensures TotalChange(pre, post, mint) >= 0
    ensures TotalChange(pre, post, mint) == 0 ==> forall p :: p in pre ==> !Gainer(post, mint, p)
  {
    if pre != [] {
      var prior, p := pre[..|pre| - 1], pre[|pre| - 1];
      forall q ensures q in pre <==> q in prior || q == p {
        MemberSnoc(pre, q);
      }
      NoLoser(prior, post, mint);
      assert !Loser(post, mint, p);
    }
  }

  lemma {:induction false} NoGainer(pre: seq<TokenBalance>, post: seq<TokenBalance>, mint: string)
    requires forall p :: p in pre ==> !Gainer(post, mint, p)
    ensures TotalChange(pre, post, mint) <= 0
    ensures TotalChange(pre, post, mint) == 0 ==> forall p :: p in pre ==> !Loser(post, mint, p)
  {
    if pre != [] {
      var prior, p := pre[..|pre| - 1], pre[|pre| - 1];
      forall q ensures q in pre <==> q in prior || q == p {
        MemberSnoc(pre, q);
      }
      NoGainer(prior, post, mint);
      assert !Gainer(post, mint, p);
    }
  }

  /** When tokens are conserved, somebody lost exactly when somebody gained, on a listed or on a created account. */
  lemma LossMeansGain(pre: seq<TokenBalance>, post: seq<TokenBalance>, mint: string)
    requires Conserving(pre, post, mint)
    ensures (exists p :: p in pre && Loser(post, mint, p))
            <==> (exists p :: p in pre && Gainer(post, mint, p)) || Created(pre, post, mint) > 0
  {
    ChangesAddUp(pre, post, mint);
    if !exists p :: p in pre && Loser(post, mint, p) {
      NoLoser(pre, post, mint);
    } else if !exists p :: p in pre && Gainer(post, mint, p) {
      NoGainer(pre, post, mint);
    }
  }

  /** When tokens are conserved, a sender is found exactly when a receiver is or a created account holds tokens; and the
      call fails exactly when no balance of the mint changed or all that moved went to created accounts. */
  lemma FailsIffNothingMoved(pre: seq<TokenBalance>, post: seq<TokenBalance>, mint: string)
    requires Conserving(pre, post, mint)
    ensures var s := ScanAll(pre, post, mint); s.foundSender <==> s.foundReceiver || Created(pre, post, mint) > 0
    ensures TransferInfo(pre, post, mint).None? <==> forall p :: p in pre ==> !Gainer(post, mint, p)
    ensures TransferInfo(pre, post, mint).None? && Created(pre, post, mint) == 0
            <==> forall p :: p in pre && p.mint == mint ==> Change(post, p) == 0
  {
    ScanFinds(pre, post, mint);
    LossMeansGain(pre, post, mint);
    SucceedsIff(pre, post, mint);
    if p :| p in pre && p.mint == mint && Change(post, p) != 0 {
      assert Loser(post, mint, p) || Gainer(post, mint, p);
    }
  }

  // ---------------------------------------------------------------- one sender, one receiver

  /** Exactly one account of the mint lost tokens, and exactly one gained. */
  ghost predicate Simple(pre: seq<TokenBalance>, post: seq<TokenBalance>, mint: string, from: TokenBalance,
                         to: TokenBalance)
  {
    && from in pre && to in pre
    && (forall p :: p in pre ==> (Loser(post, mint, p) <==> p == from))
    && (forall p :: p in pre ==> (Gainer(post, mint, p) <==> p == to))
  }

  lemma {:induction false} TwoChanges(pre: seq<TokenBalance>, post: seq<TokenBalance>, mint: string,
                                      from: TokenBalance, to: TokenBalance)
    requires UniqueIndices(pre)
    requires forall p :: p in pre ==> (Loser(post, mint, p) ==> p == from) && (Gainer(post, mint, p) ==> p == to)
    requires Loser(post, mint, from) && Gainer(post, mint, to)
    ensures TotalChange(pre, post, mint) ==
      (if from in pre then Change(post, from) else 0) + (if to in pre then Change(post, to) else 0)
  {
    if pre != [] {
      var prior, p := pre[..|pre| - 1], pre[|pre| - 1];
      forall q ensures q in pre <==> q in prior || q == p {
        MemberSnoc(pre, q);
      }
      TwoChanges(prior, post, mint, from, to);
      assert p !in prior;
    }
  }

  /** The reported transfer is then the loser's loss, which is the gainer's gain and what created accounts hold. */
  lemma SimpleTransfer(pre: seq<TokenBalance>, post: seq<TokenBalance>, mint: string, from: TokenBalance,
                       to: TokenBalance)
    requires Conserving(pre, post, mint)
    requires Simple(pre, post, mint, from, to)
    ensures TransferInfo(pre, post, mint) == Some(TxInfo(from.owner, to.owner, -Change(post, from)))
    ensures -Change(post, from) == Change(post, to) + Created(pre, post, mint)
  {
    SimpleReported(pre, post, mint, from, to);
    ChangesAddUp(pre, post, mint);
    TwoChanges(pre, post, mint, from, to);
  }

  lemma SameEntries(a: seq<TokenBalance>, b: seq<TokenBalance>, p: TokenBalance)
    requires multiset(a) == multiset(b)
    ensures p in a <==> p in b
  {
    assert p in a <==> p in multiset(a);
  }

  lemma LookupUnique(post: seq<TokenBalance>, i: nat)
    requires UniqueIndices(post) && i < |post|
    ensures FindPost(post, post[i].accountIndex) == Some(post[i])
  {
    var q := FindPost(post, post[i].accountIndex).value;
    var j :| 0 <= j < |post| && post[j] == q;
  }

  /** Unique indices make the lookup independent of the order of the list. */
  lemma LookupOrderFree(post: seq<TokenBalance>, post': seq<TokenBalance>, index: nat)
    requires UniqueIndices(post) && UniqueIndices(post') && multiset(post) == multiset(post')
    ensures FindPost(post, index) == FindPost(post', index)
  {
    if FindPost(post, index).Some? {
      var q := FindPost(post, index).value;
      SameEntries(post, post', q);
      var i :| 0 <= i < |post'| && post'[i] == q;
      LookupUnique(post', i);
    } else if FindPost(post', index).Some? {
      SameEntries(post, post', FindPost(post', index).value);
    }
  }

  lemma SimpleReordered(pre: seq<TokenBalance>, post: seq<TokenBalance>, mint: string, from: TokenBalance,
                        to: TokenBalance,
                        pre': seq<TokenBalance>, post': seq<TokenBalance>)
    requires Simple(pre, post, mint, from, to)
    requires multiset(pre) == multiset(pre') && multiset(post) == multiset(post')
    requires UniqueIndices(post) && UniqueIndices(post')
    ensures Simple(pre', post', mint, from, to) && Change(post', from) == Change(post, from)
  {
    forall p ensures (p in pre <==> p in pre') && Change(post, p) == Change(post', p) {
      SameEntries(pre, pre', p);
      LookupOrderFree(post, post', p.accountIndex);
    }
  }

  /** A simple transfer is reported from whatever lists show it. */
  lemma SimpleReported(pre: seq<TokenBalance>, post: seq<TokenBalance>, mint: string, from: TokenBalance,
                       to: TokenBalance)
    requires Simple(pre, post, mint, from, to)
    ensures TransferInfo(pre, post, mint) == Some(TxInfo(from.owner, to.owner, -Change(post, from)))
  {
    ScanFinds(pre, post, mint);
  }

  /** With one loser and one gainer the result does not depend on the order of either list. */
  lemma OrderIndependent(pre: seq<TokenBalance>, post: seq<TokenBalance>, mint: string, from: TokenBalance,
                         to: TokenBalance,
                         pre': seq<TokenBalance>, post': seq<TokenBalance>)
    requires Simple(pre, post, mint, from, to)
    requires multiset(pre) == multiset(pre') && multiset(post) == multiset(post')
    requires UniqueIndices(post) && UniqueIndices(post')
    ensures TransferInfo(pre', post', mint) == TransferInfo(pre, post, mint)
  {
    SimpleReordered(pre, post, mint, from, to, pre', post');
    SimpleReported(pre, post, mint, from, to);
    SimpleReported(pre', post', mint, from, to);
  }

  // ---------------------------------------------------------------- what the reported amount means

  /** An amount of tokens as the RPC answer writes it. */
  predicate Amount(s: string) {
    Numeral(s) && ValueOf(s) <= INT64_MAX
  }

  lemma TotalSnoc(list: seq<TokenBalance>, q: TokenBalance, mint: string)
    requires Exact(list) && Amount(q.amount)
    ensures Exact(list + [q])
    ensures Total(list + [q], mint) == Total(list, mint) + (if q.mint == mint then ValueOf(q.amount) else 0)
  {
    assert (list + [q])[..|list|] == list;
  }

  lemma CreatedSnoc(pre: seq<TokenBalance>, post: seq<TokenBalance>, q: TokenBalance, mint: string)
    requires Exact(post) && Exact(post + [q]) && Numeral(q.amount)
    ensures Created(pre, post + [q], mint) ==
      Created(pre, post, mint) + if q.mint == mint && !Listed(pre, q.accountIndex) then ValueOf(q.amount) else 0
  {
    assert (post + [q])[..|post|] == post;
  }

  lemma OneTotal(list: seq<TokenBalance>, mint: string)
    requires Exact(list) && |list| == 1 && list[0].mint == mint
    ensures Total(list, mint) == ValueOf(list[0].amount)
  {
    assert list[..|list| - 1] == [];
  }

  lemma TwoTotal(list: seq<TokenBalance>, mint: string)
    requires Exact(list) && |list| == 2 && list[0].mint == list[1].mint == mint
    ensures Total(list, mint) == ValueOf(list[0].amount) + ValueOf(list[1].amount)
  {
    OneTotal(list[..|list| - 1], mint);
  }

  lemma ThreeTotal(list: seq<TokenBalance>, mint: string)
    requires Exact(list) && |list| == 3 && list[0].mint == list[1].mint == list[2].mint == mint
    ensures Total(list, mint) == ValueOf(list[0].amount) + ValueOf(list[1].amount) + ValueOf(list[2].amount)
  {
    TwoTotal(list[..2], mint);
  }

  /** Change of an account whose entry afterwards is known. */
  lemma AmountChange(post: seq<TokenBalance>, n: nat, p: TokenBalance)
    requires UniqueIndices(post) && n < |post| && post[n].accountIndex == p.accountIndex
    requires Amount(p.amount) && Amount(post[n].amount)
    ensures Change(post, p) == ValueOf(post[n].amount) - ValueOf(p.amount)
  {
    ParseNumeral(p.amount);
    ParseNumeral(post[n].amount);
    LookupUnique(post, n);
  }

  /** A payer with `before` tokens pays `paid` of them into an account that the transaction creates. */
  predicate PaysNewAccount(pre: seq<TokenBalance>, post: seq<TokenBalance>, mint: string) {
    && |pre| == 1 && |post| == 2 && pre[0].mint == post[0].mint == post[1].mint == mint
    && pre[0].accountIndex == post[0].accountIndex != post[1].accountIndex
    && Amount(pre[0].amount) && Amount(post[0].amount) && Amount(post[1].amount)
    && ValueOf(pre[0].amount) == ValueOf(post[0].amount) + ValueOf(post[1].amount)
  }

  /** Such a payment is not seen, although no token was lost. */
  lemma NewAccountUnseen(pre: seq<TokenBalance>, post: seq<TokenBalance>, mint: string)
    requires PaysNewAccount(pre, post, mint)
    ensures Conserving(pre, post, mint) && Created(pre, post, mint) == ValueOf(post[1].amount)
    ensures TransferInfo(pre, post, mint) == None
  {
    NewAccountConserving(pre, post, mint);
    AmountChange(post, 0, pre[0]);
    assert forall p :: p in pre ==> p == pre[0];
    SucceedsIff(pre, post, mint);
  }

  lemma NewAccountConserving(pre: seq<TokenBalance>, post: seq<TokenBalance>, mint: string)
    requires PaysNewAccount(pre, post, mint)
    ensures Conserving(pre, post, mint) && Created(pre, post, mint) == ValueOf(post[1].amount)
  {
    OneTotal(pre, mint);
    TwoTotal(post, mint);
    assert Conserving(pre, post, mint);
    NewAccountCreated(pre, post, mint);
  }

  lemma NewAccountCreated(pre: seq<TokenBalance>, post: seq<TokenBalance>, mint: string)
    requires PaysNewAccount(pre, post, mint) && Exact(post)
    ensures Created(pre, post, mint) == ValueOf(post[1].amount)
  {
    var one := post[..|post| - 1];
    assert one[..|one| - 1] == [];
    assert Listed(pre, one[0].accountIndex) by {
      assert pre[0] in pre;
    }
    assert Created(pre, one, mint) == 0;
    assert !Listed(pre, post[1].accountIndex);
  }

  /** What one owner's listed accounts of the mint gained together. */
  function Received(pre: seq<TokenBalance>, post: seq<TokenBalance>, mint: string, owner: string): int {
    if pre == [] then 0
    else
      var p := pre[|pre| - 1];
      Received(pre[..|pre| - 1], post, mint, owner)
      + (if p.mint == mint && p.owner == owner then Change(post, p) else 0)
  }

  /** What one owner's created accounts hold. */
  function CreatedFor(pre: seq<TokenBalance>, post: seq<TokenBalance>, mint: string, owner: string): nat
    requires Exact(post)
  {
    if post == [] then 0
    else
      var q := post[|post| - 1];
      CreatedFor(pre, post[..|post| - 1], mint, owner)
      + if q.mint == mint && q.owner == owner && !Listed(pre, q.accountIndex) then ValueOf(q.amount) else 0
  }

  /** All that one owner gained. */
  function Gained(pre: seq<TokenBalance>, post: seq<TokenBalance>, mint: string, owner: string): int
    requires Exact(post)
  {
    Received(pre, post, mint, owner) + CreatedFor(pre, post, mint, owner)
  }

  predicate HoldsNew(pre: seq<TokenBalance>, q: TokenBalance, mint: string)
    requires AllDigits(q.amount)
  {
    q.mint == mint && !Listed(pre, q.accountIndex) && ValueOf(q.amount) > 0
  }

  /** No created account of anybody else holds tokens. */
  ghost predicate CreatedOnlyFor(pre: seq<TokenBalance>, post: seq<TokenBalance>, mint: string, owner: string)
    requires Exact(post)
  {
    forall k :: 0 <= k < |post| && HoldsNew(pre, post[k], mint) ==> post[k].owner == owner
  }

  lemma {:induction false} CreatedShare(pre: seq<TokenBalance>, post: seq<TokenBalance>, mint: string, owner: string)
    requires Exact(post)
    ensures CreatedFor(pre, post, mint, owner) <= Created(pre, post, mint)
    ensures CreatedFor(pre, post, mint, owner) == Created(pre, post, mint) <==> CreatedOnlyFor(pre, post, mint, owner)
  {
    if post != [] {
      var n := |post| - 1;
      CreatedShare(pre, post[..n], mint, owner);
      assert forall k :: 0 <= k < n ==> post[..n][k] == post[k];
    }
  }

  /** What the listed accounts of everybody else, but for `from`, gained together. */
  function Elsewhere(pre: seq<TokenBalance>, post: seq<TokenBalance>, mint: string, owner: string,
                     from: TokenBalance): int
  {
    if pre == [] then 0
    else
      var p := pre[|pre| - 1];
      Elsewhere(pre[..|pre| - 1], post, mint, owner, from)
      + (if p.mint == mint && p.owner != owner && p != from then Change(post, p) else 0)
  }

  lemma {:induction false} ChangesSplit(pre: seq<TokenBalance>, post: seq<TokenBalance>, mint: string,
                                        owner: string, from: TokenBalance)
    requires UniqueIndices(pre) && from.mint == mint
    ensures TotalChange(pre, post, mint) ==
      Received(pre, post, mint, owner) + Elsewhere(pre, post, mint, owner, from)
      + (if from in pre && from.owner != owner then Change(post, from) else 0)
  {
    if pre != [] {
      var prior, p := pre[..|pre| - 1], pre[|pre| - 1];
      MemberSnoc(pre, from);
      ChangesSplit(prior, post, mint, owner, from);
      assert p !in prior;
    }
  }

  lemma {:induction false} ElsewhereGains(pre: seq<TokenBalance>, post: seq<TokenBalance>, mint: string,
                                          owner: string, from: TokenBalance)
    requires forall p :: p in pre && Loser(post, mint, p) ==> p == from
    ensures Elsewhere(pre, post, mint, owner, from) >= 0
    ensures Elsewhere(pre, post, mint, owner, from) == 0
            <==> forall p :: p in pre && p != from && Gainer(post, mint, p) ==> p.owner == owner
  {
    if pre != [] {
      var prior, p := pre[..|pre| - 1], pre[|pre| - 1];
      forall q ensures q in pre <==> q in prior || q == p {
        MemberSnoc(pre, q);
      }
      ElsewhereGains(prior, post, mint, owner, from);
      assert p.mint == mint && p != from ==> !Loser(post, mint, p);
    }
  }

  ghost predicate OnlyLoser(pre: seq<TokenBalance>, post: seq<TokenBalance>, mint: string, from: TokenBalance) {
    from in pre && forall p :: p in pre ==> (Loser(post, mint, p) <==> p == from)
  }

  /** Every account that gained belongs to `owner`, and the losing one does not. */
  ghost predicate PaidOnly(pre: seq<TokenBalance>, post: seq<TokenBalance>, mint: string, owner: string,
                           from: TokenBalance)
  {
    from.owner != owner && forall p :: p in pre && Gainer(post, mint, p) ==> p.owner == owner
  }

  /** The entry behind the reported sender. */
  function LastLoser(pre: seq<TokenBalance>, post: seq<TokenBalance>, mint: string): (from: Option<TokenBalance>)
    ensures from.Some? ==> Loser(post, mint, from.value)
  {
    if pre == [] then None
    else if Loser(post, mint, pre[|pre| - 1]) then Some(pre[|pre| - 1])
    else LastLoser(pre[..|pre| - 1], post, mint)
  }

  lemma {:induction false} SenderIsLastLoser(pre: seq<TokenBalance>, post: seq<TokenBalance>, mint: string)
    ensures match LastLoser(pre, post, mint)
      case None => !ScanAll(pre, post, mint).foundSender
      case Some(from) =>
        var s := ScanAll(pre, post, mint);
        && s.foundSender && s.sender == from.owner && s.amount == -Change(post, from)
        && from in pre && Loser(post, mint, from)
  {
    if pre != [] {
      SenderIsLastLoser(pre[..|pre| - 1], post, mint);
    }
  }

  /** The entry behind the reported receiver. */
  function LastGainer(pre: seq<TokenBalance>, post: seq<TokenBalance>, mint: string): Option<TokenBalance> {
    if pre == [] then None
    else if Gainer(post, mint, pre[|pre| - 1]) then Some(pre[|pre| - 1])
    else LastGainer(pre[..|pre| - 1], post, mint)
  }

  lemma {:induction false} ReceiverIsLastGainer(pre: seq<TokenBalance>, post: seq<TokenBalance>, mint: string)
    ensures match LastGainer(pre, post, mint)
      case None => !ScanAll(pre, post, mint).foundReceiver
      case Some(to) =>
        var s := ScanAll(pre, post, mint);
        s.foundReceiver && s.receiver == to.owner && to in pre && Gainer(post, mint, to)
  {
    if pre != [] {
      ReceiverIsLastGainer(pre[..|pre| - 1], post, mint);
    }
  }

  /** Whatever the balances, the report is the owner of the last listed loser, its loss, and the owner of the last
      listed gainer; there is none if either is missing. */
  lemma ReportedExactly(pre: seq<TokenBalance>, post: seq<TokenBalance>, mint: string)
    ensures var (from, to) := (LastLoser(pre, post, mint), LastGainer(pre, post, mint));
      TransferInfo(pre, post, mint) ==
        if from.Some? && to.Some?
        then Some(TxInfo(from.value.owner, to.value.owner, -Change(post, from.value))) else None
  {
    SenderIsLastLoser(pre, post, mint);
    ReceiverIsLastGainer(pre, post, mint);
  }

  /** In any transfer that neither mints nor burns, the reported amount exceeds what the reported receiver gained by
      exactly what everybody else but the reported sender's account gained, on listed and on created accounts, and by
      the whole amount if the receiver paid itself. */
  lemma Overstatement(pre: seq<TokenBalance>, post: seq<TokenBalance>, mint: string)
    requires Conserving(pre, post, mint)
    requires TransferInfo(pre, post, mint).Some?
    ensures LastLoser(pre, post, mint).Some? && LastGainer(pre, post, mint).Some?
    ensures var (info, from) := (TransferInfo(pre, post, mint).value, LastLoser(pre, post, mint).value);
      && info.sender == from.owner && info.amount == -Change(post, from)
      && info.receiver == LastGainer(pre, post, mint).value.owner
      && info.amount - Gained(pre, post, mint, info.receiver) ==
           Elsewhere(pre, post, mint, info.receiver, from)
           + Created(pre, post, mint) - CreatedFor(pre, post, mint, info.receiver)
           + (if from.owner == info.receiver then info.amount else 0)
  {
    SenderIsLastLoser(pre, post, mint);
    ReceiverIsLastGainer(pre, post, mint);
    ChangesAddUp(pre, post, mint);
    ChangesSplit(pre, post, mint, TransferInfo(pre, post, mint).value.receiver, LastLoser(pre, post, mint).value);
  }

  /** With one losing account the call reports that account's whole loss, or fails because all of it went to created
      accounts. The amount is never less than what the reported receiver gained. It is all that the receiver gained if
      and only if nobody else gained anything, on a listed or a created account, and the receiver did not pay itself;
      and it is what the receiver's listed accounts gained if moreover no created account holds tokens. */
  lemma ReportedIsReceivedIff(pre: seq<TokenBalance>, post: seq<TokenBalance>, mint: string, from: TokenBalance)
    requires Conserving(pre, post, mint)
    requires OnlyLoser(pre, post, mint, from)
    ensures match TransferInfo(pre, post, mint)
      case None => Created(pre, post, mint) == -Change(post, from)
      case Some(info) =>
        && info.sender == from.owner && info.amount == -Change(post, from)
        && Gained(pre, post, mint, info.receiver) <= info.amount
        && (info.amount == Gained(pre, post, mint, info.receiver)
            <==> PaidOnly(pre, post, mint, info.receiver, from) && CreatedOnlyFor(pre, post, mint, info.receiver))
        && (info.amount == Received(pre, post, mint, info.receiver)
            <==> PaidOnly(pre, post, mint, info.receiver, from) && Created(pre, post, mint) == 0)
  {
    assert Loser(post, mint, from);
    SenderIsLastLoser(pre, post, mint);
    if TransferInfo(pre, post, mint).Some? {
      var owner := TransferInfo(pre, post, mint).value.receiver;
      Overstatement(pre, post, mint);
      CreatedShare(pre, post, mint, owner);
      ElsewhereGains(pre, post, mint, owner, from);
      assert !Gainer(post, mint, from);
    } else {
      SucceedsIff(pre, post, mint);
      ChangesAddUp(pre, post, mint);
      OneChange(pre, post, mint, from);
    }
  }

  lemma {:induction false} OneChange(pre: seq<TokenBalance>, post: seq<TokenBalance>, mint: string, from: TokenBalance)
    requires UniqueIndices(pre) && from.mint == mint
    requires forall p :: p in pre && p.mint == mint && p != from ==> Change(post, p) == 0
    ensures TotalChange(pre, post, mint) == if from in pre then Change(post, from) else 0
  {
    if pre != [] {
      var prior, p := pre[..|pre| - 1], pre[|pre| - 1];
      forall q ensures q in pre <==> q in prior || q == p {
        MemberSnoc(pre, q);
      }
      OneChange(prior, post, mint, from);
      assert p !in prior;
    }
  }

  /** A payer sends `tip` tokens to the treasury, listed last, and `kept` tokens to a third account, which the
      transaction creates if it is not listed before. */
  ghost predicate Splits(pre: seq<TokenBalance>, post: seq<TokenBalance>, mint: string, treasury: string, kept: nat,
                         tip: nat)
  {
    && |post| == 3 && 2 <= |pre| <= 3 && kept > 0 && tip > 0
    && UniqueIndices(pre) && UniqueIndices(post) && Exact(pre) && Exact(post)
    && (forall n :: 0 <= n < |pre| ==> pre[n].mint == mint) && (forall n :: 0 <= n < |post| ==> post[n].mint == mint)
    && SplitEntries(pre, post, treasury)
    && ValueOf(pre[0].amount) == ValueOf(post[0].amount) + kept + tip
    && ValueOf(post[2].amount) == ValueOf(pre[|pre| - 1].amount) + tip
    && ValueOf(post[1].amount) == (if |pre| == 3 then ValueOf(pre[1].amount) else 0) + kept
  }

  /** Payer first, treasury last, and the third account in between. */
  predicate SplitEntries(pre: seq<TokenBalance>, post: seq<TokenBalance>, treasury: string)
    requires |post| == 3 && 2 <= |pre| <= 3
  {
    && pre[0].accountIndex == post[0].accountIndex && pre[|pre| - 1].accountIndex == post[2].accountIndex
    && pre[0].owner != treasury && pre[|pre| - 1].owner == treasury
    && post[0].owner != treasury && post[1].owner != treasury
    && (|pre| == 3 ==> pre[1].accountIndex == post[1].accountIndex && pre[1].owner != treasury)
  }

  /** With one loser and a gainer in the last place, the two are reported. */
  lemma LastGainerReported(pre: seq<TokenBalance>, post: seq<TokenBalance>, mint: string, from: TokenBalance)
    requires OnlyLoser(pre, post, mint, from) && Gainer(post, mint, pre[|pre| - 1])
    ensures TransferInfo(pre, post, mint) == Some(TxInfo(from.owner, pre[|pre| - 1].owner, -Change(post, from)))
  {
    assert Loser(post, mint, from);
    ScanFinds(pre, post, mint);
    SenderIsLastLoser(pre, post, mint);
  }

  lemma {:induction false} NothingReceived(pre: seq<TokenBalance>, post: seq<TokenBalance>, mint: string, owner: string)
    requires forall n :: 0 <= n < |pre| ==> pre[n].owner != owner
    ensures Received(pre, post, mint, owner) == 0
  {
    if pre != [] {
      NothingReceived(pre[..|pre| - 1], post, mint, owner);
    }
  }

  lemma {:induction false} NothingCreated(pre: seq<TokenBalance>, post: seq<TokenBalance>, mint: string, owner: string)
    requires Exact(post)
    requires forall n :: 0 <= n < |post| ==> post[n].owner == owner ==> Listed(pre, post[n].accountIndex)
    ensures CreatedFor(pre, post, mint, owner) == 0
  {
    if post != [] {
      NothingCreated(pre, post[..|post| - 1], mint, owner);
    }
  }

  lemma SplitConserving(pre: seq<TokenBalance>, post: seq<TokenBalance>, mint: string, treasury: string, kept: nat,
                        tip: nat)
    requires Splits(pre, post, mint, treasury, kept, tip)
    ensures Conserving(pre, post, mint)
  {
    ThreeTotal(post, mint);
    if |pre| == 2 {
      TwoTotal(pre, mint);
    } else {
      ThreeTotal(pre, mint);
    }
  }

  lemma SplitChanges(pre: seq<TokenBalance>, post: seq<TokenBalance>, mint: string, treasury: string, kept: nat,
                     tip: nat)
    requires Splits(pre, post, mint, treasury, kept, tip)
    ensures Change(post, pre[0]) == 0 - (kept + tip) && Change(post, pre[|pre| - 1]) == tip
    ensures |pre| == 3 ==> Change(post, pre[1]) == kept
  {
    AmountChange(post, 0, pre[0]);
    AmountChange(post, 2, pre[|pre| - 1]);
    if |pre| == 3 {
      AmountChange(post, 1, pre[1]);
    }
  }

  lemma SplitBounded(pre: seq<TokenBalance>, post: seq<TokenBalance>, mint: string, treasury: string, kept: nat,
                     tip: nat)
    requires Splits(pre, post, mint, treasury, kept, tip)
    ensures kept + tip <= INT64_MAX
  {
    assert ValueOf(pre[0].amount) <= INT64_MAX;
  }

  /** The first account loses and the others gain. */
  predicate FirstLoses(pre: seq<TokenBalance>, post: seq<TokenBalance>, mint: string) {
    && pre != [] && (forall n :: 0 <= n < |pre| ==> pre[n].mint == mint)
    && Change(post, pre[0]) < 0 && forall n :: 0 < n < |pre| ==> Change(post, pre[n]) > 0
  }

  lemma FirstIsOnlyLoser(pre: seq<TokenBalance>, post: seq<TokenBalance>, mint: string)
    requires FirstLoses(pre, post, mint)
    ensures OnlyLoser(pre, post, mint, pre[0])
  {
    forall p | p in pre ensures Loser(post, mint, p) <==> p == pre[0] {
      var n :| 0 <= n < |pre| && pre[n] == p;
      PlaceDecides(pre, post, mint, n);
    }
  }

  lemma PlaceDecides(pre: seq<TokenBalance>, post: seq<TokenBalance>, mint: string, n: nat)
    requires FirstLoses(pre, post, mint) && n < |pre|
    ensures Loser(post, mint, pre[n]) <==> n == 0
    ensures Gainer(post, mint, pre[n]) <==> n > 0
    ensures pre[n] == pre[0] <==> n == 0
  {
  }

  lemma SecondIsOnlyGainer(pre: seq<TokenBalance>, post: seq<TokenBalance>, mint: string, owner: string)
    requires FirstLoses(pre, post, mint) && |pre| == 2 && pre[0].owner != owner && pre[1].owner == owner
    ensures PaidOnly(pre, post, mint, owner, pre[0])
  {
    forall p | p in pre && Gainer(post, mint, p) ensures p.owner == owner {
      var n :| 0 <= n < |pre| && pre[n] == p;
      PlaceDecides(pre, post, mint, n);
    }
  }

  /** Up to three accounts, by their places. */
  lemma PlacesLose(pre: seq<TokenBalance>, post: seq<TokenBalance>, mint: string)
    requires 2 <= |pre| <= 3 && forall n :: 0 <= n < |pre| ==> pre[n].mint == mint
    requires Change(post, pre[0]) < 0 < Change(post, pre[|pre| - 1]) && (|pre| == 3 ==> Change(post, pre[1]) > 0)
    ensures FirstLoses(pre, post, mint) && Gainer(post, mint, pre[|pre| - 1])
  {
    forall n | 0 < n < |pre| ensures Change(post, pre[n]) > 0 {
      assert n == |pre| - 1 || n == 1;
    }
  }

  lemma SplitPlaces(pre: seq<TokenBalance>, post: seq<TokenBalance>, mint: string, treasury: string,
                    kept: nat, tip: nat)
    requires Splits(pre, post, mint, treasury, kept, tip)
    ensures FirstLoses(pre, post, mint) && Gainer(post, mint, pre[|pre| - 1])
  {
    SplitChanges(pre, post, mint, treasury, kept, tip);
    PlacesLose(pre, post, mint);
  }

  /** The scan sees one loser, and if the third account is a new one, the treasury as the only gainer. */
  lemma SplitLooks(pre: seq<TokenBalance>, post: seq<TokenBalance>, mint: string, treasury: string,
                   kept: nat, tip: nat)
    requires Splits(pre, post, mint, treasury, kept, tip)
    ensures OnlyLoser(pre, post, mint, pre[0]) && Gainer(post, mint, pre[|pre| - 1])
    ensures |pre| == 2 ==> PaidOnly(pre, post, mint, treasury, pre[0])
  {
    SplitPlaces(pre, post, mint, treasury, kept, tip);
    FirstIsOnlyLoser(pre, post, mint);
    if |pre| == 2 {
      SecondIsOnlyGainer(pre, post, mint, treasury);
    }
  }

  lemma SplitGained(pre: seq<TokenBalance>, post: seq<TokenBalance>, mint: string, treasury: string, kept: nat,
                    tip: nat)
    requires Splits(pre, post, mint, treasury, kept, tip)
    ensures Gained(pre, post, mint, treasury) == tip
  {
    SplitChanges(pre, post, mint, treasury, kept, tip);
    NothingReceived(pre[..|pre| - 1], post, mint, treasury);
    assert pre[|pre| - 1] in pre;
    NothingCreated(pre, post, mint, treasury);
  }

  /** A split payment that loses no token is reported as a payment of the whole amount to the treasury, which gained
      only the tip. The listed accounts do not tell: if the third account is a new one, only the treasury gained. */
  lemma SplitPayment(pre: seq<TokenBalance>, post: seq<TokenBalance>, mint: string, treasury: string, kept: nat,
                     tip: nat)
    requires Splits(pre, post, mint, treasury, kept, tip)
    ensures Conserving(pre, post, mint)
    ensures TransferInfo(pre, post, mint) == Some(TxInfo(pre[0].owner, treasury, kept + tip))
    ensures Gained(pre, post, mint, treasury) == tip
    ensures OnlyLoser(pre, post, mint, pre[0]) && (|pre| == 2 ==> PaidOnly(pre, post, mint, treasury, pre[0]))
  {
    SplitConserving(pre, post, mint, treasury, kept, tip);
    SplitLooks(pre, post, mint, treasury, kept, tip);
    SplitGained(pre, post, mint, treasury, kept, tip);
    assert Change(post, pre[0]) == 0 - (kept + tip) by {
      SplitChanges(pre, post, mint, treasury, kept, tip);
    }
    LastGainerReported(pre, post, mint, pre[0]);
  }
}
