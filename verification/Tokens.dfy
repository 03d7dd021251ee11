/** Token balances: spending locked tokens first in, first out, then
    withdrawable, then external ones; granting locked tokens; and refunding a
    spend bucket by bucket and unlock time by unlock time. */
module Tokens {
  import opened Basics

  /** A row of account_tokens; `total` is its token_balance column. */
  datatype Balance = Balance(locked: int, withdrawable: int, external: int, total: int)

  /** A row of locked_token_records; `live` is status LOCKED. */
  datatype Lock = Lock(account: nat, remaining: int, unlockAt: int, live: bool)

  datatype Segment = Segment(amount: int, unlockAt: int)

  /** What a spend took from each bucket, with the locked part by unlock time. */
  datatype Spend = Spend(locked: int, withdrawable: int, external: int, segments: seq<Segment>)

  /** Balances by account id, lock records by record id. */
  datatype Purse = Purse(balances: seq<Balance>, locks: seq<Lock>)

  // ---------------------------------------------------------------------
  // Consuming lock records
  // ---------------------------------------------------------------------

  predicate Usable(r: Lock, account: nat) { r.account == account && r.live && r.remaining > 0 }

  /** The first row of ORDER BY unlock_at, id. */
  function Earliest(locks: seq<Lock>, account: nat): (r: Option<nat>)
    ensures r.Some? ==> r.value < |locks| && Usable(locks[r.value], account)
  {
    if |locks| == 0 then None
    else
      var n := |locks| - 1;
      var best := Earliest(locks[..n], account);
      if Usable(locks[n], account) && (best.None? || locks[n].unlockAt < locks[best.value].unlockAt) then Some(n) else best
  }

  datatype Consumed = Consumed(locks: seq<Lock>, segments: seq<Segment>)

  function TakeFrom(locks: seq<Lock>, id: nat, take: int): seq<Lock>
    requires id < |locks|
  {
    var r := locks[id];
    locks[id := if r.remaining == take then r.(remaining := 0, live := false) else r.(remaining := r.remaining - take)]
  }

  /** consumeLockedTokenFIFO: `amount` taken record by record, earliest first. */
  function ConsumeFifo(locks: seq<Lock>, account: nat, amount: nat): (r: Result<Consumed>)
    ensures r.Ok? ==> |r.value.locks| == |locks|
    decreases amount
  {
    if amount == 0 then Ok(Consumed(locks, []))
    else
      var id := Earliest(locks, account);
      if id.None? then Fail("insufficient balance: locked token records")
      else
        var row := locks[id.value];
        var take := Min(amount, row.remaining);
        var rest :- ConsumeFifo(TakeFrom(locks, id.value, take), account, amount - take);
        Ok(Consumed(rest.locks, [Segment(take, row.unlockAt)] + rest.segments))
  }

  // ---------------------------------------------------------------------
  // Spending, granting, refunding
  // ---------------------------------------------------------------------

  datatype Spending = Spending(purse: Purse, spend: Spend)

  /** spendTokenInTx. */
  function SpendTokens(p: Purse, account: nat, amount: int): (r: Result<Spending>)
    ensures r.Ok? ==> |r.value.purse.balances| == |p.balances|
  {
    if amount <= 0 then Fail("spend amount must be positive")
    else if account >= |p.balances| then Fail("account missing")
    else
      var b := p.balances[account];
      if b.locked + b.withdrawable + b.external < amount then Fail("insufficient balance")
      else
        var locked: nat := if b.locked > 0 then Min(amount, b.locked) else 0;
        var consumed :- ConsumeFifo(p.locks, account, locked);
        var afterLocked := amount - locked;
        var withdrawable := if afterLocked > 0 && b.withdrawable > 0 then Min(afterLocked, b.withdrawable) else 0;
        var external := afterLocked - withdrawable;
        if external > 0 && external > b.external then Fail("insufficient balance")
        else if b.locked < locked || b.withdrawable < withdrawable || b.external < external || b.total < amount
        then Fail("insufficient balance")
        else
          var b' := Balance(b.locked - locked, b.withdrawable - withdrawable, b.external - external, b.total - amount);
          Ok(Spending(Purse(p.balances[account := b'], consumed.locks),
                      Spend(locked, withdrawable, external, consumed.segments)))
  }

  /** grantLockedTokenInTxAt; an amount that is not positive changes nothing. */
  function GrantLocked(p: Purse, account: nat, amount: int, unlockAt: int): (p': Purse)
    requires account < |p.balances|
    ensures |p'.balances| == |p.balances|
  {
    if amount <= 0 then p
    else
      var b := p.balances[account];
      Purse(p.balances[account := b.(locked := b.locked + amount, total := b.total + amount)],
            p.locks + [Lock(account, amount, unlockAt, true)])
  }

  function SegmentAmount(): Segment -> int { (s: Segment) => s.amount }

  predicate SegmentValid(s: Segment) { s.amount > 0 && s.unlockAt != 0 }

  function LocksOf(account: nat, segments: seq<Segment>): seq<Lock> {
    seq(|segments|, i requires 0 <= i < |segments| => Lock(account, segments[i].amount, segments[i].unlockAt, true))
  }

  /** A request from before fee sources were recorded is refunded to the withdrawable bucket. */
  function EffectiveSpend(spend: Spend, fee: int): Spend {
    if spend.locked + spend.withdrawable + spend.external == 0 then spend.(withdrawable := fee) else spend
  }

  /** refundNFTMintFee. */
  function Refund(p: Purse, account: nat, fee: int, recorded: Spend): Result<Purse> {
    var spend := EffectiveSpend(recorded, fee);
    if spend.locked + spend.withdrawable + spend.external != fee then Fail("mint fee snapshot is inconsistent")
    else if exists i :: 0 <= i < |spend.segments| && !SegmentValid(spend.segments[i])
    then Fail("mint fee locked-source snapshot is invalid")
    else if Sum(spend.segments, SegmentAmount()) != spend.locked then Fail("mint fee locked-source snapshot is inconsistent")
    else if account >= |p.balances| then Fail("account missing")
    else
      var b := p.balances[account];
      var b' := Balance(b.locked + spend.locked, b.withdrawable + spend.withdrawable, b.external + spend.external, b.total + fee);
      Ok(Purse(p.balances[account := b'], p.locks + LocksOf(account, spend.segments)))
  }

  // ---------------------------------------------------------------------
  // Weights and invariants
  // ---------------------------------------------------------------------

  function Worth(): Balance -> int { (b: Balance) => b.locked + b.withdrawable + b.external }

  function LiveOf(account: nat): Lock -> int { (r: Lock) => if r.account == account && r.live then r.remaining else 0 }

  function LiveAt(account: nat, t: int): Lock -> int {
    (r: Lock) => if r.account == account && r.live && r.unlockAt == t then r.remaining else 0
  }

  function SegmentAt(t: int): Segment -> int { (s: Segment) => if s.unlockAt == t then s.amount else 0 }

  predicate LockSound(r: Lock) { (r.live ==> r.remaining > 0) && r.unlockAt != 0 }

  predicate BalanceSound(b: Balance) { b.locked >= 0 && b.withdrawable >= 0 && b.external >= 0 && b.total >= 0 }

  /** Balances are not negative, and the locked bucket is what its live records hold. */
  ghost predicate PurseSound(p: Purse) {
    && (forall i :: 0 <= i < |p.locks| ==> LockSound(p.locks[i]))
    && (forall a: nat :: a < |p.balances| ==>
          BalanceSound(p.balances[a]) && p.balances[a].locked == Sum(p.locks, LiveOf(a)))
  }

  // ---------------------------------------------------------------------
  // First in, first out
  // ---------------------------------------------------------------------

  lemma {:induction false} EarliestIsFirst(locks: seq<Lock>, account: nat, k: nat)
    requires k < |locks| && Usable(locks[k], account)
    ensures var e := Earliest(locks, account);
      e.Some? && locks[e.value].unlockAt <= locks[k].unlockAt
      && (locks[e.value].unlockAt == locks[k].unlockAt ==> e.value <= k)
  {
    var n := |locks| - 1;
    if k < n { EarliestIsFirst(locks[..n], account, k); }
  }

  lemma SegmentsCons(s: Segment, rest: seq<Segment>, weight: Segment -> int)
    ensures Sum([s] + rest, weight) == weight(s) + Sum(rest, weight)
  {
    SumConcat([s], rest, weight);
    SumAppend([], s, weight);
    assert [] + [s] == [s];
  }

  /** Taking from one record lowers the account's total and its total at that unlock time. */
  lemma TakeFromLowers(locks: seq<Lock>, id: nat, take: int)
    requires id < |locks| && locks[id].live && 0 < take <= locks[id].remaining
    ensures var locks' := TakeFrom(locks, id, take);
      && (forall a :: Sum(locks', LiveOf(a)) == Sum(locks, LiveOf(a)) - if a == locks[id].account then take else 0)
      && (forall a, t :: Sum(locks', LiveAt(a, t)) ==
            Sum(locks, LiveAt(a, t)) - if a == locks[id].account && t == locks[id].unlockAt then take else 0)
  {
    var r' := TakeFrom(locks, id, take)[id];
    forall a ensures Sum(locks[id := r'], LiveOf(a)) == Sum(locks, LiveOf(a)) - if a == locks[id].account then take else 0 {
      SumUpdate(locks, id, r', LiveOf(a));
    }
    forall a, t ensures Sum(locks[id := r'], LiveAt(a, t)) ==
      Sum(locks, LiveAt(a, t)) - if a == locks[id].account && t == locks[id].unlockAt then take else 0
    {
      SumUpdate(locks, id, r', LiveAt(a, t));
    }
  }

  /** The segments add up to the amount, each unlock time gives exactly what its
      segments say, and no other account is touched. */
  lemma {:induction false} FifoTakesExactly(locks: seq<Lock>, account: nat, amount: nat)
    requires ConsumeFifo(locks, account, amount).Ok?
    ensures var c := ConsumeFifo(locks, account, amount).value;
      && Sum(c.segments, SegmentAmount()) == amount
      && (forall a :: Sum(c.locks, LiveOf(a)) == Sum(locks, LiveOf(a)) - if a == account then amount else 0)
      && (forall a, t :: Sum(c.locks, LiveAt(a, t)) ==
            Sum(locks, LiveAt(a, t)) - if a == account then Sum(c.segments, SegmentAt(t)) else 0)
    decreases amount
  {
    if amount > 0 {
      var id := Earliest(locks, account).value;
      var row := locks[id];
      var take := Min(amount, row.remaining);
      var locks1 := TakeFrom(locks, id, take);
      TakeFromLowers(locks, id, take);
      FifoTakesExactly(locks1, account, amount - take);
      var rest := ConsumeFifo(locks1, account, amount - take).value;
      SegmentsCons(Segment(take, row.unlockAt), rest.segments, SegmentAmount());
      forall t ensures Sum([Segment(take, row.unlockAt)] + rest.segments, SegmentAt(t)) ==
        (if t == row.unlockAt then take else 0) + Sum(rest.segments, SegmentAt(t))
      {
        SegmentsCons(Segment(take, row.unlockAt), rest.segments, SegmentAt(t));
      }
    }
  }

  lemma {:induction false} FifoKeepsSound(locks: seq<Lock>, account: nat, amount: nat)
    requires ConsumeFifo(locks, account, amount).Ok? && forall i :: 0 <= i < |locks| ==> LockSound(locks[i])
    ensures var c := ConsumeFifo(locks, account, amount).value;
      && (forall i :: 0 <= i < |c.locks| ==> LockSound(c.locks[i]))
      && (forall i :: 0 <= i < |c.segments| ==> SegmentValid(c.segments[i]))
    decreases amount
  {
    if amount > 0 {
      var id := Earliest(locks, account).value;
      var take := Min(amount, locks[id].remaining);
      FifoKeepsSound(TakeFrom(locks, id, take), account, amount - take);
    }
  }

  /** First in, first out: segments come in unlock order, and a record that still holds
      tokens unlocks no earlier than anything taken. */
  lemma {:induction false} FifoOrder(locks: seq<Lock>, account: nat, amount: nat)
    requires ConsumeFifo(locks, account, amount).Ok?
    ensures var c := ConsumeFifo(locks, account, amount).value;
      && (forall i, j :: 0 <= i < j < |c.segments| ==> c.segments[i].unlockAt <= c.segments[j].unlockAt)
      && (forall i, k :: 0 <= i < |c.segments| && 0 <= k < |c.locks| && Usable(c.locks[k], account) ==>
            c.segments[i].unlockAt <= c.locks[k].unlockAt)
      && (forall k :: 0 <= k < |c.locks| ==>
            c.locks[k].unlockAt == locks[k].unlockAt && (Usable(c.locks[k], account) ==> Usable(locks[k], account)))
      && (forall i :: 0 <= i < |c.segments| ==>
            exists k :: 0 <= k < |locks| && Usable(locks[k], account) && locks[k].unlockAt == c.segments[i].unlockAt)
    decreases amount
  {
    if amount > 0 {
      var id := Earliest(locks, account).value;
      var row := locks[id];
      var take := Min(amount, row.remaining);
      var locks1 := TakeFrom(locks, id, take);
      FifoOrder(locks1, account, amount - take);
      var rest := ConsumeFifo(locks1, account, amount - take).value;
      forall k | 0 <= k < |locks| && Usable(locks[k], account) ensures row.unlockAt <= locks[k].unlockAt {
        EarliestIsFirst(locks, account, k);
      }
      forall i | 0 <= i < |rest.segments|
        ensures exists k :: 0 <= k < |locks| && Usable(locks[k], account) && locks[k].unlockAt == rest.segments[i].unlockAt
      {
        var k :| 0 <= k < |locks1| && Usable(locks1[k], account) && locks1[k].unlockAt == rest.segments[i].unlockAt;
        assert Usable(locks[k], account) && locks[k].unlockAt == rest.segments[i].unlockAt;
      }
    }
  }

  /** With records that cover it, locked consumption cannot fail. */
  lemma {:induction false} FifoSucceeds(locks: seq<Lock>, account: nat, amount: nat)
    requires amount <= Sum(locks, LiveOf(account)) && forall i :: 0 <= i < |locks| ==> LockSound(locks[i])
    ensures ConsumeFifo(locks, account, amount).Ok?
    decreases amount
  {
    if amount > 0 {
      var k := SumWitness(locks, LiveOf(account));
      EarliestIsFirst(locks, account, k);
      var id := Earliest(locks, account).value;
      var take := Min(amount, locks[id].remaining);
      TakeFromLowers(locks, id, take);
      FifoSucceeds(TakeFrom(locks, id, take), account, amount - take);
    }
  }

  // ---------------------------------------------------------------------
  // Spend, grant and refund on the whole purse
  // ---------------------------------------------------------------------

  /** `p'` is `p` with the given amounts added to one account's buckets and, at each
      unlock time, to its live records. */
  ghost predicate Moves(p: Purse, p': Purse, account: nat, locked: int, withdrawable: int, external: int, total: int,
                        segments: seq<Segment>, sign: int) {
    && account < |p.balances| && |p'.balances| == |p.balances|
    && (forall a :: 0 <= a < |p.balances| && a != account ==> p'.balances[a] == p.balances[a])
    && p'.balances[account] == Balance(p.balances[account].locked + locked, p.balances[account].withdrawable + withdrawable,
                                       p.balances[account].external + external, p.balances[account].total + total)
    && (forall a: nat :: Sum(p'.locks, LiveOf(a)) == Sum(p.locks, LiveOf(a)) + if a == account then locked else 0)
    && (forall a: nat, t :: Sum(p'.locks, LiveAt(a, t)) ==
          Sum(p.locks, LiveAt(a, t)) + if a == account then sign * Sum(segments, SegmentAt(t)) else 0)
  }

  /** A spend is well formed for a later refund of `fee`. */
  predicate SpendSound(s: Spend, fee: int) {
    && s.locked >= 0 && s.withdrawable >= 0 && s.external >= 0
    && s.locked + s.withdrawable + s.external == fee > 0
    && Sum(s.segments, SegmentAmount()) == s.locked
    && (forall i :: 0 <= i < |s.segments| ==> SegmentValid(s.segments[i]))
  }

  /** The order of the buckets: withdrawable tokens are touched only when no locked ones are left,
      external ones only when neither are. */
  predicate InOrder(b: Balance, s: Spend) {
    && (s.withdrawable > 0 ==> s.locked == b.locked)
    && (s.external > 0 ==> s.locked == b.locked && s.withdrawable == b.withdrawable)
  }

  /** A spend takes exactly the amount, from the buckets in their order, and records the locked
      part by unlock time. */
  lemma SpendTakes(p: Purse, account: nat, amount: int)
    requires PurseSound(p) && SpendTokens(p, account, amount).Ok?
    ensures var r := SpendTokens(p, account, amount).value;
      && SpendSound(r.spend, amount) && PurseSound(r.purse) && InOrder(p.balances[account], r.spend)
      && Moves(p, r.purse, account, -r.spend.locked, -r.spend.withdrawable, -r.spend.external, -amount, r.spend.segments, -1)
  {
    var r := SpendTokens(p, account, amount).value;
    FifoTakesExactly(p.locks, account, r.spend.locked);
    FifoKeepsSound(p.locks, account, r.spend.locked);
  }

  /** In a sound purse a spend fails only for want of tokens: the buckets or the
      token_balance column do not cover it. */
  lemma SpendSucceedsIff(p: Purse, account: nat, amount: int)
    requires PurseSound(p) && account < |p.balances| && amount > 0
    ensures SpendTokens(p, account, amount).Ok? <==> Worth()(p.balances[account]) >= amount && p.balances[account].total >= amount
  {
    var b := p.balances[account];
    FifoSucceeds(p.locks, account, Min(amount, b.locked));
  }

  lemma GrantGives(p: Purse, account: nat, amount: int, unlockAt: int)
    requires PurseSound(p) && account < |p.balances| && unlockAt != 0 && amount > 0
    ensures var p' := GrantLocked(p, account, amount, unlockAt);
      PurseSound(p') && Moves(p, p', account, amount, 0, 0, amount, [Segment(amount, unlockAt)], 1)
  {
    var lock := Lock(account, amount, unlockAt, true);
    forall a: nat ensures Sum(p.locks + [lock], LiveOf(a)) == Sum(p.locks, LiveOf(a)) + if a == account then amount else 0 {
      SumAppend(p.locks, lock, LiveOf(a));
    }
    forall a: nat, t ensures Sum(p.locks + [lock], LiveAt(a, t)) ==
      Sum(p.locks, LiveAt(a, t)) + if a == account then Sum([Segment(amount, unlockAt)], SegmentAt(t)) else 0
    {
      SumAppend(p.locks, lock, LiveAt(a, t));
      SegmentsCons(Segment(amount, unlockAt), [], SegmentAt(t));
      assert [Segment(amount, unlockAt)] + [] == [Segment(amount, unlockAt)];
    }
  }

  lemma {:induction false} LocksOfSums(account: nat, segments: seq<Segment>, a: nat, t: int)
    ensures Sum(LocksOf(account, segments), LiveOf(a)) == if a == account then Sum(segments, SegmentAmount()) else 0
    ensures Sum(LocksOf(account, segments), LiveAt(a, t)) == if a == account then Sum(segments, SegmentAt(t)) else 0
  {
    if |segments| > 0 {
      var n := |segments| - 1;
      LocksOfSums(account, segments[..n], a, t);
      assert LocksOf(account, segments)[..n] == LocksOf(account, segments[..n]);
    }
  }

  /** Refunding a recorded spend puts back into each bucket, and at each unlock time,
      exactly what the spend took. */
  lemma RefundReturns(p: Purse, account: nat, fee: int, spend: Spend)
    requires PurseSound(p) && SpendSound(spend, fee) && account < |p.balances|
    ensures Refund(p, account, fee, spend).Ok?
    ensures var p' := Refund(p, account, fee, spend).value;
      && PurseSound(p')
      && Moves(p, p', account, spend.locked, spend.withdrawable, spend.external, fee, spend.segments, 1)
  {
    var added := LocksOf(account, spend.segments);
    forall a: nat ensures Sum(p.locks + added, LiveOf(a)) == Sum(p.locks, LiveOf(a)) + if a == account then spend.locked else 0 {
      SumConcat(p.locks, added, LiveOf(a));
      LocksOfSums(account, spend.segments, a, 0);
    }
    forall a: nat, t ensures Sum(p.locks + added, LiveAt(a, t)) ==
      Sum(p.locks, LiveAt(a, t)) + if a == account then Sum(spend.segments, SegmentAt(t)) else 0
    {
      SumConcat(p.locks, added, LiveAt(a, t));
      LocksOfSums(account, spend.segments, a, t);
    }
  }

  /** A fee that no bucket is recorded for, as before fee sources were, goes to the withdrawable bucket. */
  lemma RefundUnrecorded(p: Purse, account: nat, fee: int)
    requires PurseSound(p) && account < |p.balances| && fee > 0
    ensures Refund(p, account, fee, Spend(0, 0, 0, [])).Ok?
    ensures Moves(p, Refund(p, account, fee, Spend(0, 0, 0, [])).value, account, 0, fee, 0, fee, [], 1)
  {
    RefundReturns(p, account, fee, Spend(0, fee, 0, []));
  }

  /** A recorded spend is refused exactly when its buckets do not add up to the fee, a segment has no
      amount or no unlock time, or the segments do not add up to the locked part. */
  lemma RefundSucceedsIff(p: Purse, account: nat, fee: int, s: Spend)
    requires account < |p.balances| && s.locked + s.withdrawable + s.external != 0
    ensures Refund(p, account, fee, s).Ok? <==>
      && s.locked + s.withdrawable + s.external == fee && Sum(s.segments, SegmentAmount()) == s.locked
      && forall i :: 0 <= i < |s.segments| ==> s.segments[i].amount > 0 && s.segments[i].unlockAt != 0
  {
  }
}
