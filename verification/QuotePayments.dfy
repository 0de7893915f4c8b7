/** Paying quotes through the payment contract: one approval for all, then batches of transfers. */
module QuotePayments {
  import opened Wrappers

  const MAX_TRANSFERS_PER_TRANSACTION: nat := 512

  type QuoteHash = nat
  type TxHash = nat

  datatype Payment = Payment(quote: QuoteHash, amount: nat)

  // ---- the approval ----

  function Royalties(amount: nat): nat
  {
    amount / 10
  }

  function Sum(parts: seq<nat>): nat
  {
    if parts == [] then 0 else Sum(parts[..|parts| - 1]) + parts[|parts| - 1]
  }

  /** What the contract is allowed to take, in 256-bit arithmetic. */
  function Approved(total: nat): nat
  {
    (total + 2 * Royalties(total)) % U256_LIMIT
  }

  /** Royalties charged part by part, each rounded down. */
  function RoundedDown(parts: seq<nat>): nat
  {
    if parts == [] then 0 else RoundedDown(parts[..|parts| - 1]) + parts[|parts| - 1] / 10
  }

  /** Royalties charged part by part, each rounded up. */
  function RoundedUp(parts: seq<nat>): nat
  {
    if parts == [] then 0 else RoundedUp(parts[..|parts| - 1]) + (parts[|parts| - 1] + 9) / 10
  }

  function NonZero(parts: seq<nat>): nat
  {
    if parts == [] then 0 else NonZero(parts[..|parts| - 1]) + if parts[|parts| - 1] > 0 then 1 else 0
  }

  predicate Covers(total: nat, royalties: nat)
  {
    total + royalties <= Approved(total)
  }

  lemma {:induction false} RoundingDownLoses(parts: seq<nat>)
    ensures 10 * RoundedDown(parts) <= Sum(parts)
    decreases |parts|
  {
    if parts != [] {
      RoundingDownLoses(parts[..|parts| - 1]);
    }
  }

  lemma {:induction false} RoundingUpGains(parts: seq<nat>)
    ensures 10 * RoundedUp(parts) <= Sum(parts) + 9 * NonZero(parts) && NonZero(parts) <= Sum(parts)
    decreases |parts|
  {
    if parts != [] {
      RoundingUpGains(parts[..|parts| - 1]);
    }
  }

  lemma ApprovedIs(total: nat)
    requires total + 2 * Royalties(total) < U256_LIMIT
    ensures Approved(total) == total + 2 * Royalties(total)
  {
  }

  /** However the payments are split, the approval covers royalties that are rounded down part by part, if and only if
      it fits in 256 bits. */
  lemma {:induction false} CoversRoundingDown(parts: seq<nat>)
    requires Sum(parts) < U256_LIMIT
    ensures Covers(Sum(parts), RoundedDown(parts)) <==> Sum(parts) + 2 * Royalties(Sum(parts)) < U256_LIMIT
  {
    RoundingDownLoses(parts);
  }

  /** It does not for the largest payment there is. */
  lemma LargestIsNotCovered()
    ensures !Covers(Sum([U256_LIMIT - 1]), RoundedDown([U256_LIMIT - 1]))
  {
    assert [U256_LIMIT - 1][..0] == [];
    CoversRoundingDown([U256_LIMIT - 1]);
  }

  /** The most that `k` parts above zero of a total can be charged when each is rounded up. */
  function WorstCase(total: nat, k: nat): nat
    requires k <= total
  {
    k + (total - k) / 10
  }

  /** The worst split: single units, and the rest in one part. */
  function Slivers(total: nat, k: nat): seq<nat>
    requires 0 < k <= total
  {
    seq(k - 1, _ => 1) + [total - k + 1]
  }

  lemma {:induction false} OnesAre(n: nat)
    ensures var ones := seq(n, _ => 1); Sum(ones) == n && RoundedUp(ones) == n && NonZero(ones) == n
  {
    if n > 0 {
      OnesAre(n - 1);
      assert seq(n, _ => 1)[..n - 1] == seq(n - 1, _ => 1);
    }
  }

  lemma SliversAreWorst(total: nat, k: nat)
    requires 0 < k <= total
    ensures var parts := Slivers(total, k);
            Sum(parts) == total && NonZero(parts) == k && RoundedUp(parts) == WorstCase(total, k)
  {
    OnesAre(k - 1);
    assert Slivers(total, k)[..k - 1] == seq(k - 1, _ => 1);
  }

  /** The approval covers every split into `k` parts above zero, rounded up part by part, exactly when it fits in 256
      bits and covers the worst one. */
  lemma CoversRoundingUpIff(total: nat, k: nat)
    requires 0 < k <= total < U256_LIMIT
    ensures (forall parts | Sum(parts) == total && NonZero(parts) == k :: Covers(total, RoundedUp(parts)))
            <==> total + 2 * Royalties(total) < U256_LIMIT && WorstCase(total, k) <= 2 * Royalties(total)
  {
    SliversAreWorst(total, k);
    if total + 2 * Royalties(total) < U256_LIMIT && WorstCase(total, k) <= 2 * Royalties(total) {
      ApprovedIs(total);
      forall parts | Sum(parts) == total && NonZero(parts) == k ensures Covers(total, RoundedUp(parts)) {
        RoundingUpGains(parts);
      }
    } else {
      var worst := Slivers(total, k);
      assert Sum(worst) == total && NonZero(worst) == k && !Covers(total, RoundedUp(worst));
    }
  }

  /** It does not for a single payment of nine. */
  lemma NineIsNotCovered()
    ensures !Covers(Sum([9]), RoundedUp([9]))
  {
    var none: seq<nat> := [];
    assert [9][..0] == none;
    assert Sum([9]) == 9 && RoundedUp([9]) == 1;
  }

  /** In particular no more parts than a tenth of the total are covered exactly when the approval fits. */
  lemma FewPartsAreCovered(parts: seq<nat>)
    requires Sum(parts) < U256_LIMIT && NonZero(parts) <= Sum(parts) / 10
    ensures Covers(Sum(parts), RoundedUp(parts)) <==> Sum(parts) + 2 * Royalties(Sum(parts)) < U256_LIMIT
  {
    RoundingUpGains(parts);
  }

  // ---- the batches ----

  /** What happens to each transaction: its hash, or none if it fails. */
  type Contract = nat -> Option<TxHash>

  function BatchCount(n: nat): nat
  {
    (n + MAX_TRANSFERS_PER_TRANSACTION - 1) / MAX_TRANSFERS_PER_TRANSACTION
  }

  /** The payments of the first `batches` batches. */
  function PaidCount(n: nat, batches: nat): nat
  {
    if batches * MAX_TRANSFERS_PER_TRANSACTION < n then batches * MAX_TRANSFERS_PER_TRANSACTION else n
  }

  /** The map holds exactly the quotes of the first `n` payments, each with the transaction of its last payment. */
  ghost predicate Receipts(hashes: map<QuoteHash, TxHash>, payments: seq<Payment>, contract: Contract, n: nat)
    requires n <= |payments|
  {
    && (forall i | 0 <= i < n :: payments[i].quote in hashes)
    && (forall q | q in hashes :: exists i :: LastPaid(payments, n, q, i)
                                              && contract(i / MAX_TRANSFERS_PER_TRANSACTION) == Some(hashes[q]))
  }

  ghost predicate LastPaid(payments: seq<Payment>, n: nat, q: QuoteHash, i: int)
    requires n <= |payments|
  {
    0 <= i < n && payments[i].quote == q && forall j | i < j < n :: payments[j].quote != q
  }

  datatype Result = Ok(hashes: map<QuoteHash, TxHash>) | Err(paid: map<QuoteHash, TxHash>)

  lemma OneMoreReceipt(hashes: map<QuoteHash, TxHash>, payments: seq<Payment>, contract: Contract, n: nat, tx: TxHash)
    requires n < |payments| && Receipts(hashes, payments, contract, n)
    requires contract(n / MAX_TRANSFERS_PER_TRANSACTION) == Some(tx)
    ensures Receipts(hashes[payments[n].quote := tx], payments, contract, n + 1)
  {
  }

  function BatchSize(n: nat, done: nat): nat
    requires done <= n
  {
    if n - done < MAX_TRANSFERS_PER_TRANSACTION then n - done else MAX_TRANSFERS_PER_TRANSACTION
  }

  lemma BatchStep(n: nat, batches: nat)
    requires batches * MAX_TRANSFERS_PER_TRANSACTION < n
    ensures var done := batches * MAX_TRANSFERS_PER_TRANSACTION;
            && done / MAX_TRANSFERS_PER_TRANSACTION == batches && done % MAX_TRANSFERS_PER_TRANSACTION == 0
            && batches < BatchCount(n)
            && PaidCount(n, batches + 1) == done + BatchSize(n, done)
            && (done + BatchSize(n, done) == n <==> batches + 1 == BatchCount(n))
            && (done + BatchSize(n, done) < n ==>
                  done + BatchSize(n, done) == (batches + 1) * MAX_TRANSFERS_PER_TRANSACTION)
  {
  }

  /** How many of the first `n` transactions go through before one fails. */
  function BeforeFailure(contract: Contract, n: nat): (b: nat)
    ensures b <= n
  {
    if n == 0 then 0
    else
      var b := BeforeFailure(contract, n - 1);
      if b == n - 1 && contract(b).Some? then n else b
  }

  lemma {:induction false} FirstFailure(contract: Contract, b: nat, n: nat)
    requires b < n && BeforeFailure(contract, b) == b && contract(b).None?
    ensures BeforeFailure(contract, n) == b
    decreases n
  {
    if b < n - 1 {
      FirstFailure(contract, b, n - 1);
    }
  }

  /** Whatever fails and when, the receipts are exactly those of the batches before the first failure; it succeeds
      exactly when the approval and every batch do, and then there is a receipt for every payment. */
  method PayForQuotes(payments: seq<Payment>, approve: bool, contract: Contract) returns (r: Result, approved: nat)
    ensures approved == Approved(Sum(Amounts(payments)) % U256_LIMIT)
    ensures var batches := if approve then BeforeFailure(contract, BatchCount(|payments|)) else 0;
            && Receipts(if r.Ok? then r.hashes else r.paid, payments, contract, PaidCount(|payments|, batches))
            && (r.Ok? <==> approve && batches == BatchCount(|payments|))
            && (r.Ok? ==> PaidCount(|payments|, batches) == |payments|)
  {
    var total := Total(payments);
    approved := (total + 2 * Royalties(total)) % U256_LIMIT;
    if !approve {
      return Err(map[]), approved;
    }
    r := PayBatches(payments, contract);
  }

  method PayBatches(payments: seq<Payment>, contract: Contract) returns (r: Result)
    ensures var batches := BeforeFailure(contract, BatchCount(|payments|));
            && Receipts(if r.Ok? then r.hashes else r.paid, payments, contract, PaidCount(|payments|, batches))
            && (r.Ok? <==> batches == BatchCount(|payments|))
            && (r.Ok? ==> PaidCount(|payments|, batches) == |payments|)
  {
    var hashes: map<QuoteHash, TxHash> := map[];
    ghost var batches := 0;
    var done := 0;
    while done < |payments|
      invariant done == PaidCount(|payments|, batches)
      invariant done < |payments| ==> done == batches * MAX_TRANSFERS_PER_TRANSACTION
      invariant done == |payments| ==> batches == BatchCount(|payments|)
      invariant BeforeFailure(contract, batches) == batches
      invariant Receipts(hashes, payments, contract, done)
      decreases |payments| - done
    {
      BatchStep(|payments|, batches);
      var size := BatchSize(|payments|, done);
      var tx := contract(done / MAX_TRANSFERS_PER_TRANSACTION);
      if tx.None? {
        FirstFailure(contract, batches, BatchCount(|payments|));
        return Err(hashes);
      }
      hashes := Record(hashes, payments, done, size, tx.value, contract);
      done, batches := done + size, batches + 1;
    }
    r := Ok(hashes);
  }

  method Record(hashes: map<QuoteHash, TxHash>, payments: seq<Payment>, from: nat, size: nat, tx: TxHash,
                ghost contract: Contract)
    returns (after: map<QuoteHash, TxHash>)
    requires from + size <= |payments| && from % MAX_TRANSFERS_PER_TRANSACTION == 0
    requires size <= MAX_TRANSFERS_PER_TRANSACTION
    requires Receipts(hashes, payments, contract, from)
    requires contract(from / MAX_TRANSFERS_PER_TRANSACTION) == Some(tx)
    ensures Receipts(after, payments, contract, from + size)
  {
    after := hashes;
    for i := 0 to size
      invariant Receipts(after, payments, contract, from + i)
    {
      assert (from + i) / MAX_TRANSFERS_PER_TRANSACTION == from / MAX_TRANSFERS_PER_TRANSACTION;
      OneMoreReceipt(after, payments, contract, from + i, tx);
      after := after[payments[from + i].quote := tx];
    }
  }

  function Amounts(payments: seq<Payment>): seq<nat>
  {
    seq(|payments|, i requires 0 <= i < |payments| => payments[i].amount)
  }

  method Total(payments: seq<Payment>) returns (total: nat)
    ensures total == Sum(Amounts(payments)) % U256_LIMIT
  {
    total := 0;
    for i := 0 to |payments|
      invariant total == Sum(Amounts(payments[..i])) % U256_LIMIT
    {
      var amounts := Amounts(payments[..i + 1]);
      assert amounts[..i] == Amounts(payments[..i]);
      AddModulo(Sum(amounts[..i]), payments[i].amount);
      total := (total + payments[i].amount) % U256_LIMIT;
    }
    assert payments[..|payments|] == payments;
  }

  lemma AddModulo(a: nat, b: nat)
    ensures (a % U256_LIMIT + b) % U256_LIMIT == (a + b) % U256_LIMIT
  {
  }

  /** A single payment that succeeds has a receipt to return. */
  method PayForQuote(payment: Payment, approve: bool, contract: Contract) returns (tx: Option<TxHash>)
    ensures tx == if approve then contract(0) else None
  {
    var r, _ := PayForQuotes([payment], approve, contract);
    if r.Err? {
      return None;
    }
    assert [payment][0].quote in r.hashes;
    ghost var i :| LastPaid([payment], 1, payment.quote, i)
             && contract(i / MAX_TRANSFERS_PER_TRANSACTION) == Some(r.hashes[payment.quote]);
    tx := Some(r.hashes[payment.quote]);
  }
}
