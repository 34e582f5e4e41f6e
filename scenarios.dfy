/**
 * The unit tests of `src/lib.rs`, restated as facts about the step functions.
 * Each test's fixed client, ids and amounts become parameters, so each lemma
 * covers the test's values and every other choice that meets its requires.
 */
module Scenarios {
  import opened Wrappers
  import opened Ledger

  function Dep(c: u16, id: u64, amount: real): Tx {
    Tx(TypeTx.Deposit, c, id, Some(amount))
  }

  function Wdr(c: u16, id: u64, amount: real): Tx {
    Tx(Withdrawal, c, id, Some(amount))
  }

  /** The client the withdrawal tests build by setting `total` and `available` to `f`. */
  function Funded(c: u16, f: real): ClientState {
    var s := NewClient(c);
    s.(acc := s.acc.(total := f, available := f))
  }

  /** Test `deposit`. */
  lemma DepositCredits(c: u16, id: u64, a: real)
    requires a >= 0.0
    ensures var s := ProcessStep(NewClient(c), Dep(c, id, a));
      && s.acc.total == a && s.acc.held == 0.0 && s.acc.available == a
      && s.history == map[id := ClientTransaction(a, false)]
  {
  }

  /** A deposit without an amount is a zero deposit: it still records an entry. */
  lemma MissingAmountDeposit(c: u16, id: u64)
    ensures var s := ProcessStep(NewClient(c), Tx(TypeTx.Deposit, c, id, None));
      s.acc == NewClient(c).acc && s.history == map[id := ClientTransaction(0.0, false)]
  {
  }

  /** A withdrawal without an amount withdraws zero, which leaves any state as it was. */
  lemma MissingAmountWithdrawal(s: ClientState, id: u64)
    ensures ProcessStep(s, Tx(Withdrawal, s.acc.client, id, None)) == s
  {
  }

  /** Test `deposit_lessthan_zero`. */
  lemma NegativeDepositIgnored(c: u16, id: u64, a: real)
    requires a < 0.0
    ensures ProcessStep(NewClient(c), Dep(c, id, a)) == NewClient(c)
  {
  }

  /** Test `deposit_history`: a negative and a duplicate deposit under the same id leave one entry. */
  lemma DuplicateDepositKeepsOneEntry(c: u16, id: u64, a: real, b: real, d: real)
    requires a >= 0.0
    ensures var s := ProcessStep(ProcessStep(ProcessStep(NewClient(c), Dep(c, id, a)), Dep(c, id, b)), Dep(c, id, d));
      |s.history| == 1 && id in s.history && s.acc.total == a
  {
  }

  /** Tests `withdrawal` and `withdrawal_precision`. */
  lemma WithdrawalDebits(c: u16, id: u64, f: real, w: real)
    requires 0.0 <= w < f
    ensures var s := ProcessStep(Funded(c, f), Wdr(c, id, w));
      s.acc.total == f - w && s.acc.held == 0.0 && s.acc.available == f - w && s.history == map[]
  {
  }

  /** Test `withdrawal_lessthan_zero`. */
  lemma NegativeWithdrawalIgnored(c: u16, id: u64, f: real, w: real)
    requires w < 0.0
    ensures ProcessStep(Funded(c, f), Wdr(c, id, w)) == Funded(c, f)
  {
  }

  /** Test `withdrawal_whentotal_zero`. */
  lemma WithdrawalWithoutFundsIgnored(c: u16, id: u64, w: real)
    ensures ProcessStep(NewClient(c), Wdr(c, id, w)) == NewClient(c)
  {
  }

  /** The funds check is strict: the whole available balance cannot be withdrawn. */
  lemma WithdrawalOfWholeBalanceIgnored(c: u16, id: u64, f: real)
    ensures ProcessStep(Funded(c, f), Wdr(c, id, f)) == Funded(c, f)
  {
  }

  /** Test `dispute_transactions`: a replayed deposit and a dispute of an unrecorded id change nothing. */
  lemma DisputeHoldsDeposit(c: u16, id1: u64, id2: u64, a: real)
    requires a >= 0.0 && id1 != id2
    ensures var s1 := DisputeStep(ProcessStep(NewClient(c), Dep(c, id1, a)), id1);
      var s := DisputeStep(ProcessStep(s1, Dep(c, id1, a)), id2);
      && s.history[id1].inDispute && id2 !in s.history
      && s.acc.held == a && s.acc.available == 0.0 && s.acc.total == a
  {
  }

  /** Test `dispute_multiple_transactions`. */
  lemma DisputeSeveral(c: u16, id1: u64, id2: u64, id3: u64, a: real, b: real, d: real)
    requires a >= 0.0 && b >= 0.0 && d >= 0.0
    requires id1 != id2 && id1 != id3 && id2 != id3
    ensures var s0 := ProcessStep(ProcessStep(ProcessStep(NewClient(c), Dep(c, id1, a)), Dep(c, id2, b)), Dep(c, id3, d));
      var s := DisputeStep(DisputeStep(s0, id2), id3);
      && !s.history[id1].inDispute && s.history[id2].inDispute && s.history[id3].inDispute
      && s.acc.held == b + d && s.acc.available == a && s.acc.total == a + b + d
  {
  }

  /** Test `resolve_transactions`. */
  lemma ResolveReleases(c: u16, id: u64, a: real)
    requires a >= 0.0
    ensures var s := ResolveStep(DisputeStep(ProcessStep(NewClient(c), Dep(c, id, a)), id), id);
      !s.history[id].inDispute && s.acc.held == 0.0 && s.acc.available == a && s.acc.total == a
  {
  }

  /** Test `chargeback_transactions`: the entry stays disputed and the account locks. */
  lemma ChargebackRemoves(c: u16, id: u64, a: real)
    requires a >= 0.0
    ensures var s := ChargebackStep(DisputeStep(ProcessStep(NewClient(c), Dep(c, id, a)), id), id);
      && s.history[id].inDispute && s.acc.locked
      && s.acc.held == 0.0 && s.acc.available == 0.0 && s.acc.total == 0.0
  {
  }

  /** Test `chargeback_transaction_twice`. */
  lemma ChargebackTwiceOnce(c: u16, id: u64, a: real)
    requires a >= 0.0
    ensures var s1 := ChargebackStep(DisputeStep(ProcessStep(NewClient(c), Dep(c, id, a)), id), id);
      var s := ChargebackStep(DisputeStep(s1, id), id);
      s == s1 && s.acc.held == 0.0 && s.acc.available == 0.0 && s.acc.total == 0.0
  {
  }

  /** Test `chargeback_with_disputes`, first half: four deposits, then a dispute and chargeback of the first. */
  lemma ChargebackLocksFunded(c: u16, id1: u64, id2: u64, id3: u64, id4: u64, a: real, b: real, d: real, e: real)
    requires a >= 0.0 && b >= 0.0 && d >= 0.0 && e >= 0.0
    requires id1 != id2 && id1 != id3 && id1 != id4 && id2 != id3 && id2 != id4 && id3 != id4
    ensures var s0 := ProcessStep(ProcessStep(ProcessStep(ProcessStep(NewClient(c),
                        Dep(c, id1, a)), Dep(c, id2, b)), Dep(c, id3, d)), Dep(c, id4, e));
      var s := ChargebackStep(DisputeStep(s0, id1), id1);
      && s.acc.locked && s.acc.held == 0.0 && s.acc.available == b + d + e && s.acc.total == b + d + e
      && id2 in s.history && s.history[id2] == ClientTransaction(b, false)
      && id3 in s.history && s.history[id3] == ClientTransaction(d, false)
      && id4 in s.history && s.history[id4] == ClientTransaction(e, false)
  {
    // the intermediate states are spelled out only to keep the proof cheap
    var s1 := ProcessStep(NewClient(c), Dep(c, id1, a));
    assert s1.acc.available == a && s1.acc.total == a && s1.history == map[id1 := ClientTransaction(a, false)];
    var s2 := ProcessStep(s1, Dep(c, id2, b));
    assert s2.acc.available == a + b && s2.history == s1.history[id2 := ClientTransaction(b, false)];
    var s3 := ProcessStep(s2, Dep(c, id3, d));
    assert s3.acc.available == a + b + d && s3.history == s2.history[id3 := ClientTransaction(d, false)];
    var s4 := ProcessStep(s3, Dep(c, id4, e));
    assert s4.acc.available == a + b + d + e && s4.history == s3.history[id4 := ClientTransaction(e, false)];
  }

  /** Test `chargeback_with_disputes`, second half: disputes are still accepted on the locked account. */
  lemma DisputesAfterLock(s: ClientState, id2: u64, id3: u64, id4: u64, b: real, d: real, e: real)
    requires id2 != id3 && id2 != id4 && id3 != id4
    requires s.acc.locked && s.acc.held == 0.0 && s.acc.available == b + d + e && s.acc.total == b + d + e
    requires id2 in s.history && s.history[id2] == ClientTransaction(b, false)
    requires id3 in s.history && s.history[id3] == ClientTransaction(d, false)
    requires id4 in s.history && s.history[id4] == ClientTransaction(e, false)
    ensures var r := DisputeStep(DisputeStep(DisputeStep(s, id2), id3), id4);
      && r.acc.locked && r.history[id2].inDispute && r.history[id3].inDispute && r.history[id4].inDispute
      && r.acc.held == b + d + e && r.acc.available == 0.0 && r.acc.total == b + d + e
  {
  }

  /** Test `missing_transactions`. */
  lemma UnknownIdIgnored(c: u16, id: u64)
    ensures ChargebackStep(ResolveStep(DisputeStep(NewClient(c), id), id), id) == NewClient(c)
  {
  }

  /** Test `locked_account`. */
  lemma LockedAccountRejectsDeposits(c: u16, id1: u64, id2: u64, a: real, b: real, w: real)
    requires a >= 0.0
    ensures var s1 := ChargebackStep(DisputeStep(ProcessStep(NewClient(c), Dep(c, id1, a)), id1), id1);
      var s := ProcessStep(ProcessStep(s1, Dep(c, id2, b)), Wdr(c, id2, w));
      s == s1 && s.acc.held == 0.0 && s.acc.available == 0.0 && s.acc.total == 0.0
  {
  }

  /** Test `locked_account_chargeback`. */
  lemma LockedAccountRejectsChargeback(c: u16, id1: u64, id2: u64, a: real, b: real)
    requires a >= 0.0 && b >= 0.0 && id1 != id2
    ensures var s0 := ProcessStep(ProcessStep(NewClient(c), Dep(c, id1, a)), Dep(c, id2, b));
      var s1 := ChargebackStep(DisputeStep(s0, id1), id1);
      var s := ChargebackStep(DisputeStep(s1, id2), id2);
      s.acc.held == b && s.acc.available == 0.0 && s.acc.total == b
  {
  }
}
