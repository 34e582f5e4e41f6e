/**
 * The per-client account and transaction state machine of `src/lib.rs`.
 *
 * A client owns an `Account` (available, held, total, locked) and a history
 * of its deposits keyed by transaction id.  Each operation is a guarded
 * transition; the pure functions `ProcessStep`, `DisputeStep`, `ResolveStep`
 * and `ChargebackStep` state it on values, and the `Client` class performs
 * it in place and is proved to agree with them.  Amounts are exact `real`s.
 */
module Ledger {
  import opened Wrappers

  newtype u16 = x: int | 0 <= x < 0x1_0000
  newtype u64 = x: int | 0 <= x < 0x1_0000_0000_0000_0000

  /** The record kinds of the input stream. */
  datatype TypeTx = Deposit | Withdrawal | Dispute | Resolve | Chargeback

  /** One parsed input record. */
  datatype Tx = Tx(kind: TypeTx, client: u16, tx: u64, amount: Option<real>)

  /** A deposit kept in a client's history, with its dispute flag. */
  datatype ClientTransaction = ClientTransaction(amount: real, inDispute: bool)

  datatype Account = Account(client: u16, available: real, held: real, total: real, locked: bool)

  /** The value held by one `Client` object. */
  datatype ClientState = ClientState(acc: Account, history: map<u64, ClientTransaction>)

  /** The account invariant: the total is what is available plus what is held. */
  predicate Balanced(a: Account) {
    a.total == a.available + a.held
  }

  /**
   * What every operation keeps, from state `s` to state `r`: the lock is a
   * latch, history ids are never removed, a stored amount never changes, the
   * owner does not change, and a balanced account stays balanced.
   */
  predicate Evolves(s: ClientState, r: ClientState) {
    && (s.acc.locked ==> r.acc.locked)
    && s.history.Keys <= r.history.Keys
    && (forall k :: k in s.history ==> r.history[k].amount == s.history[k].amount)
    && r.acc.client == s.acc.client
    && (Balanced(s.acc) ==> Balanced(r.acc))
  }

  /** Only the history entry for `id` may be new or different in `r`. */
  predicate TouchesOnly(s: ClientState, r: ClientState, id: u64) {
    forall k :: k in r.history && k != id ==> k in s.history && r.history[k] == s.history[k]
  }

  /** A fresh account: zero balances, unlocked (`Account::new`). */
  function NewAccount(id: u16): (a: Account)
    ensures a.client == id && !a.locked
    ensures a.available == 0.0 && a.held == 0.0 && a.total == 0.0
  {
    Account(id, 0.0, 0.0, 0.0, false)
  }

  /** A fresh client: a fresh account and an empty history (`Client::new`). */
  function NewClient(id: u16): (s: ClientState)
    ensures s.acc.client == id && !s.acc.locked && s.history == map[]
    ensures s.acc.available == 0.0 && s.acc.held == 0.0 && s.acc.total == 0.0
  {
    ClientState(NewAccount(id), map[])
  }

  /** The amount of a record; a missing amount counts as zero. */
  function AmountOf(tx: Tx): (r: real)
    ensures tx.amount.Some? ==> r == tx.amount.value
    ensures tx.amount.None? ==> r == 0.0
  {
    tx.amount.UnwrapOr(0.0)
  }

  /** `dispute_transaction` may act: the deposit exists and is not disputed. */
  predicate Disputable(s: ClientState, id: u64) {
    id in s.history && !s.history[id].inDispute
  }

  /** `resolve_transaction` and `chargeback_transaction` may act. */
  predicate Settleable(s: ClientState, id: u64) {
    !s.acc.locked && id in s.history && s.history[id].inDispute
  }

  /** The deposit guard of `process_transaction`. */
  predicate DepositApplies(s: ClientState, tx: Tx) {
    tx.kind == Deposit && !s.acc.locked && tx.tx !in s.history && AmountOf(tx) >= 0.0
  }

  /** The withdrawal guard of `process_transaction`: funds strictly exceed the amount. */
  predicate WithdrawalApplies(s: ClientState, tx: Tx) {
    tx.kind == Withdrawal && !s.acc.locked && tx.tx !in s.history
    && 0.0 <= AmountOf(tx) < s.acc.available
  }

  /** `process_transaction`: deposits and withdrawals. */
  function ProcessStep(s: ClientState, tx: Tx): (r: ClientState)
    ensures Evolves(s, r) && TouchesOnly(s, r, tx.tx)
    ensures r.acc.locked == s.acc.locked && r.acc.held == s.acc.held
    // the three guards that make the call a complete no-op
    ensures s.acc.locked || tx.tx in s.history || AmountOf(tx) < 0.0 ==> r == s
    ensures DepositApplies(s, tx) ==>
      && r.acc.available == s.acc.available + AmountOf(tx)
      && r.acc.total == s.acc.total + AmountOf(tx)
      && r.history == s.history[tx.tx := ClientTransaction(AmountOf(tx), false)]
    ensures WithdrawalApplies(s, tx) ==>
      && r.acc.available == s.acc.available - AmountOf(tx) > 0.0
      && r.acc.total == s.acc.total - AmountOf(tx)
      && r.history == s.history
    ensures !DepositApplies(s, tx) && !WithdrawalApplies(s, tx) ==> r == s
    // only a deposit adds to history, and only under its own id
    ensures r.history.Keys == s.history.Keys || (tx.kind == Deposit && r.history.Keys == s.history.Keys + {tx.tx})
  {
    if s.acc.locked || tx.tx in s.history then s
    else
      var amount := AmountOf(tx);
      if amount < 0.0 then s
      else match tx.kind
        case Deposit =>
          ClientState(s.acc.(total := s.acc.total + amount, available := s.acc.available + amount),
                      s.history[tx.tx := ClientTransaction(amount, false)])
        case Withdrawal =>
          if s.acc.available > amount then
            ClientState(s.acc.(total := s.acc.total - amount, available := s.acc.available - amount),
                        s.history)
          else s
        case _ => s
  }

  /** `dispute_transaction`: freeze a deposit's amount; the lock is not consulted. */
  function DisputeStep(s: ClientState, id: u64): (r: ClientState)
    ensures Evolves(s, r) && TouchesOnly(s, r, id)
    ensures r.acc.locked == s.acc.locked && r.acc.total == s.acc.total
    // no entry is created: only a recorded deposit can become disputed
    ensures r.history.Keys == s.history.Keys
    ensures Disputable(s, id) ==>
      && r.acc.held == s.acc.held + s.history[id].amount
      && r.acc.available == s.acc.available - s.history[id].amount
      && r.history[id] == s.history[id].(inDispute := true)
    ensures !Disputable(s, id) ==> r == s
    // afterwards a recorded entry is disputed, whatever it was before
    ensures id in r.history ==> r.history[id].inDispute
  {
    if id in s.history && !s.history[id].inDispute then
      var t := s.history[id];
      ClientState(s.acc.(held := s.acc.held + t.amount, available := s.acc.available - t.amount),
                  s.history[id := t.(inDispute := true)])
    else s
  }

  /** `resolve_transaction`: release a disputed amount back to available. */
  function ResolveStep(s: ClientState, id: u64): (r: ClientState)
    ensures Evolves(s, r) && TouchesOnly(s, r, id)
    ensures r.acc.locked == s.acc.locked && r.acc.total == s.acc.total
    ensures r.history.Keys == s.history.Keys
    ensures Settleable(s, id) ==>
      && r.acc.held == s.acc.held - s.history[id].amount
      && r.acc.available == s.acc.available + s.history[id].amount
      && r.history[id] == s.history[id].(inDispute := false)
    ensures !Settleable(s, id) ==> r == s
  {
    if s.acc.locked then s
    else if id in s.history && s.history[id].inDispute then
      var t := s.history[id];
      ClientState(s.acc.(held := s.acc.held - t.amount, available := s.acc.available + t.amount),
                  s.history[id := t.(inDispute := false)])
    else s
  }

  /** `chargeback_transaction`: remove a disputed amount and lock the account. */
  function ChargebackStep(s: ClientState, id: u64): (r: ClientState)
    ensures Evolves(s, r) && TouchesOnly(s, r, id)
    ensures r.acc.available == s.acc.available
    // the history, including the entry's dispute flag, is left as it was
    ensures r.history == s.history
    ensures Settleable(s, id) ==>
      && r.acc.locked
      && r.acc.held == s.acc.held - s.history[id].amount
      && r.acc.total == s.acc.total - s.history[id].amount
    ensures !Settleable(s, id) ==> r == s
  {
    if s.acc.locked then s
    else if id in s.history && s.history[id].inDispute then
      var t := s.history[id];
      ClientState(s.acc.(held := s.acc.held - t.amount, total := s.acc.total - t.amount, locked := true),
                  s.history)
    else s
  }

  /** A repeated dispute changes nothing. */
  lemma DisputeIdempotent(s: ClientState, id: u64)
    ensures DisputeStep(DisputeStep(s, id), id) == DisputeStep(s, id)
  {
  }

  /** Disputing and then resolving an undisputed deposit on an unlocked account restores the state. */
  lemma DisputeResolveRoundTrip(s: ClientState, id: u64)
    requires !s.acc.locked && Disputable(s, id)
    ensures ResolveStep(DisputeStep(s, id), id) == s
  {
  }

  /** On a locked account everything but a dispute is a no-op. */
  lemma LockedAccountFrozen(s: ClientState, tx: Tx, id: u64)
    requires s.acc.locked
    ensures ProcessStep(s, tx) == s && ResolveStep(s, id) == s && ChargebackStep(s, id) == s
    ensures Disputable(s, id) ==> DisputeStep(s, id) != s
  {
  }

  /** A deposit whose id is already stored is ignored, so a second deposit under the same id changes nothing. */
  lemma DuplicateDepositIgnored(s: ClientState, d1: Tx, d2: Tx)
    requires DepositApplies(s, d1) && d2.tx == d1.tx
    ensures ProcessStep(ProcessStep(s, d1), d2) == ProcessStep(s, d1)
  {
  }

  /** Withdrawals leave no history, so two withdrawals under one id are both applied. */
  lemma RepeatedWithdrawalIdApplies(s: ClientState, w1: Tx, w2: Tx)
    requires w1.kind == Withdrawal && w2.kind == Withdrawal && w2.tx == w1.tx
    requires !s.acc.locked && w1.tx !in s.history
    requires 0.0 <= AmountOf(w1) && 0.0 <= AmountOf(w2) && AmountOf(w1) + AmountOf(w2) < s.acc.available
    ensures ProcessStep(ProcessStep(s, w1), w2).acc.available == s.acc.available - AmountOf(w1) - AmountOf(w2)
  {
  }

  /** A client object: its account and its deposit history, updated in place. */
  class Client {
    var acc: Account
    var history: map<u64, ClientTransaction>

    function State(): ClientState
      reads this
    {
      ClientState(acc, history)
    }

    /** `Client::new`. */
    constructor(id: u16)
      ensures State() == NewClient(id)
    {
      acc := NewAccount(id);
      history := map[];
    }

    /** `get_transaction`: the stored entry for `id`, if any. */
    method GetTransaction(id: u64) returns (r: Option<ClientTransaction>)
      ensures r.Some? <==> id in history
      ensures r.Some? ==> r.value == history[id]
    {
      if id in history {
        r := Some(history[id]);
      } else {
        r := None;
      }
    }

    /** `dispute_transaction`. */
    method DisputeTransaction(id: u64)
      modifies this
      ensures State() == DisputeStep(old(State()), id)
      ensures old(Balanced(acc)) ==> Balanced(acc)
    {
      if id in history && !history[id].inDispute {
        var t := history[id];
        acc := acc.(held := acc.held + t.amount);
        acc := acc.(available := acc.available - t.amount);
        history := history[id := t.(inDispute := true)];
      }
    }

    /** `resolve_transaction`. */
    method ResolveTransaction(id: u64)
      modifies this
      ensures State() == ResolveStep(old(State()), id)
      ensures old(Balanced(acc)) ==> Balanced(acc)
    {
      if acc.locked {
        return;
      }
      if id in history && history[id].inDispute {
        var t := history[id];
        acc := acc.(held := acc.held - t.amount);
        acc := acc.(available := acc.available + t.amount);
        history := history[id := t.(inDispute := false)];
      }
    }

    /** `chargeback_transaction`. */
    method ChargebackTransaction(id: u64)
      modifies this
      ensures State() == ChargebackStep(old(State()), id)
      ensures old(Balanced(acc)) ==> Balanced(acc)
    {
      if acc.locked {
        return;
      }
      if id in history && history[id].inDispute {
        var t := history[id];
        acc := acc.(held := acc.held - t.amount);
        acc := acc.(total := acc.total - t.amount);
        acc := acc.(locked := true);
      }
    }

    /** `process_transaction`. */
    method ProcessTransaction(tx: Tx)
      modifies this
      ensures State() == ProcessStep(old(State()), tx)
      ensures old(Balanced(acc)) ==> Balanced(acc)
    {
      if acc.locked || tx.tx in history {
        return;
      }
      var amount := tx.amount.UnwrapOr(0.0);
      if amount < 0.0 {
        return;
      }
      match tx.kind
      case Deposit =>
        acc := acc.(total := acc.total + amount);
        acc := acc.(available := acc.available + amount);
        history := history[tx.tx := ClientTransaction(amount, false)];
      case Withdrawal =>
        if acc.available > amount {
          acc := acc.(total := acc.total - amount);
          acc := acc.(available := acc.available - amount);
        }
      case _ =>
    }
  }
}
