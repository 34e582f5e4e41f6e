# Payments engine: a verified model of the client ledger

The program reads a CSV stream of transactions (deposit, withdrawal, dispute,
resolve, chargeback), each naming a client (a 16-bit id) and a transaction (a
64-bit id), and keeps one account per client: `available`, `held` and `total`
funds plus a `locked` flag. Each client also keeps a history of its deposits,
keyed by transaction id, each marked as disputed or not.

The model has three parts:

- `Ledger` (`ledger.dfy`) models `src/lib.rs`. The records are datatypes:
  `TypeTx`, `Tx`, `ClientTransaction`, `Account`, and `ClientState`, which is
  one client as a value. `Client` is a class whose `acc` and `history` fields
  its methods update in place, as the Rust methods do through `&mut self`.
  Each method is specified by a pure step function (`ProcessStep`,
  `DisputeStep`, `ResolveStep`, `ChargebackStep`). Those functions carry the
  behavioural contracts: they state which guard makes the call a no-op, the
  effect on each balance, the effect on the history, the balance invariant
  `total == available + held`, and the lock latch.
- `Driver` (`driver.dfy`) models the loop of `src/main.rs`:
  - `Engine` is a class holding the map from client id to `Client` object;
    clients are created on first mention;
  - `Apply` routes one record, with `main`'s `get_transaction` pre-checks;
  - `Run` processes a sequence of records.
  A record that failed to parse is `None`. The engine is tied to a value-level
  fold, `RunAll`. Lemmas about the fold prove what holds after any run: which
  clients exist, that every client is balanced, that each client only evolves
  (latch, history growth, fixed amounts), and that untouched clients are
  unchanged.
- `Scenarios` (`scenarios.dfy`) restates each unit test of `src/lib.rs` as a
  lemma. The test's client, ids and amounts become parameters.

Amounts are Dafny `real`s. The model therefore shows the arithmetic the code
intends, not `f64` arithmetic. `u16` and `u64` are range-restricted
`newtype`s. They are only used as keys, so no wrap-around arises.

The behaviour is modelled as the code does it, asymmetries included:

- `dispute_transaction` does not check the lock. A locked account still
  accepts disputes, which move funds from `available` to `held`.
- A chargeback leaves the transaction marked `in_dispute`. A second
  chargeback is stopped only by the lock.
- The withdrawal funds check is strict (`available > amount`).
- Withdrawals are not recorded in the history. Two withdrawals under one id
  are both applied, and a dispute can only name a deposit.
- A missing amount counts as `0`. A deposit without an amount still creates
  a history entry.

A withdrawal with no amount withdraws 0. When `available > 0` it passes the
strict funds check (`src/lib.rs:176`) and subtracts 0; otherwise it is
refused. Either way the state is unchanged (`MissingAmountWithdrawal`).

## Model

| member | source | states |
|---|---|---|
| Wrappers.Option.UnwrapOr | src/lib.rs:167 | the present value, or the default when the value is absent, as Rust's `unwrap_or` |
| Ledger.AmountOf | src/lib.rs:167 | a record's amount is its given amount, and 0 when the amount is missing |
| Ledger.NewAccount | src/lib.rs:186-198 | a new account belongs to `id`, is unlocked and holds zero in available, held and total |
| Ledger.NewClient | src/lib.rs:67-69 | a new client has a fresh account for `id` and an empty history |
| Ledger.ProcessStep | src/lib.rs:164-182 | no-op when locked, when the id is already in the history, or when the amount is negative; an applicable deposit adds the amount to `available` and `total` and records an undisputed entry; an applicable withdrawal needs strictly more available funds than the amount, leaves a positive available balance and adds no history; anything else is a no-op; balance invariant, lock latch, held funds and other entries unchanged |
| Ledger.DisputeStep | src/lib.rs:92-105 | for a recorded, undisputed entry (locked or not) moves its amount from available to held and marks it disputed; otherwise no-op; `total` and the lock never change; an entry becomes disputed only if it was recorded; balance invariant kept |
| Ledger.ResolveStep | src/lib.rs:114-127 | on an unlocked account with a disputed entry moves its amount from held back to available and clears the mark; otherwise no-op; balance invariant kept |
| Ledger.ChargebackStep | src/lib.rs:137-151 | on an unlocked account with a disputed entry removes its amount from held and total and sets the lock; the entry stays disputed and the history is unchanged; otherwise no-op; balance invariant kept |
| Ledger.DisputeIdempotent | src/lib.rs:92-105 | a second dispute of the same id changes nothing |
| Ledger.DisputeResolveRoundTrip | src/lib.rs:92-127 | dispute then resolve of an undisputed deposit on an unlocked account restores the exact prior state |
| Ledger.LockedAccountFrozen | src/lib.rs:114-166 | on a locked account deposits, withdrawals, resolves and chargebacks are no-ops, while a dispute of an undisputed entry still changes the state |
| Ledger.DuplicateDepositIgnored | src/lib.rs:166-174 | once a deposit is recorded, a later transaction with the same id is ignored |
| Ledger.RepeatedWithdrawalIdApplies | src/lib.rs:175-178 | two withdrawals under one id are both debited, because withdrawals leave no history |
| Ledger.Client.constructor | src/lib.rs:67-69 | the new object's state is `NewClient(id)` |
| Ledger.Client.GetTransaction | src/lib.rs:78-86 | returns the entry exactly when the id is in the history, and then the stored entry itself |
| Ledger.Client.DisputeTransaction | src/lib.rs:92-105 | updates the object in place to `DisputeStep` of its prior state; keeps the balance invariant |
| Ledger.Client.ResolveTransaction | src/lib.rs:114-127 | updates the object in place to `ResolveStep` of its prior state; keeps the balance invariant |
| Ledger.Client.ChargebackTransaction | src/lib.rs:137-151 | updates the object in place to `ChargebackStep` of its prior state; keeps the balance invariant |
| Ledger.Client.ProcessTransaction | src/lib.rs:164-182 | updates the object in place to `ProcessStep` of its prior state; keeps the balance invariant |
| Driver.Dispatch | src/main.rs:33-69 | routing a record by kind preserves the balance invariant and lock latch, touches only the record's own history entry, sets the lock only for a chargeback and adds a history key only for a deposit, under its own id |
| Driver.GuardedDispatch | src/main.rs:38-68 | the `get_transaction` and `in_dispute` pre-checks in `main` are redundant: with them the routing equals `Dispatch` |
| Driver.Route | src/main.rs:33-69 | the `match` in `main`, with its pre-checks, leaves the client object in state `Dispatch` of its prior state |
| Driver.Step | src/main.rs:23-69 | a record that failed to parse changes nothing; otherwise the record's client exists afterwards (created fresh if new), only that client changes, it only evolves, and all clients stay balanced |
| Driver.RunAll | src/main.rs:21-70 | the records in order, each applied by `Step`; no client is ever removed; `RunKeys`, `RunBalanced`, `RunEvolves` and `RunUntouched` state the rest |
| Driver.RunKeys | src/main.rs:21-70 | after a run the client ids are those present before plus those named by a parsed record |
| Driver.RunBalanced | src/main.rs:21-70 | if every client is balanced before a run, every client is balanced after it |
| Driver.RunEvolves | src/main.rs:21-70 | a client present before a run is still present and only evolved: the lock latches, history keys only grow, stored amounts never change |
| Driver.RunUntouched | src/main.rs:21-70 | a client named by no parsed record of a run is unchanged |
| Driver.RunFromEmpty | src/main.rs:21-70 | starting from the empty map, the clients are exactly those named by parsed records, and all are balanced |
| Driver.Engine.constructor | src/main.rs:21 | an engine starts with no clients |
| Driver.Engine.ClientFor | src/main.rs:31 | returns the existing client for the id, or creates and inserts `Client::new(id)`; no other entry changes |
| Driver.Engine.RouteClient | src/main.rs:33-69 | routes to the record's client; only that client's state changes, to `Dispatch` of its prior state |
| Driver.Engine.Apply | src/main.rs:23-69 | one loop iteration: the clients' states become `Step` of their prior states |
| Driver.Engine.Run | src/main.rs:21-70 | processing the records in order leaves the clients' states equal to `RunAll` of their prior states |
| Scenarios.DepositCredits | src/lib.rs:233-241 | a non-negative deposit into a new client credits available and total and records one undisputed entry |
| Scenarios.MissingAmountDeposit | src/lib.rs:166-174 | a deposit without an amount leaves the balances at zero but records an entry of amount zero |
| Scenarios.MissingAmountWithdrawal | src/lib.rs:166-178 | a withdrawal without an amount leaves any state unchanged |
| Scenarios.NegativeDepositIgnored | src/lib.rs:243-251 | a negative deposit changes nothing |
| Scenarios.DuplicateDepositKeepsOneEntry | src/lib.rs:253-266 | a deposit followed by two more under the same id leaves one entry and only the first amount |
| Scenarios.WithdrawalDebits | src/lib.rs:268-290 | a withdrawal below the available funds debits available and total and records no history |
| Scenarios.NegativeWithdrawalIgnored | src/lib.rs:292-302 | a negative withdrawal changes nothing |
| Scenarios.WithdrawalWithoutFundsIgnored | src/lib.rs:304-312 | a withdrawal from an empty account changes nothing |
| Scenarios.WithdrawalOfWholeBalanceIgnored | src/lib.rs:176 | withdrawing exactly the available funds is refused |
| Scenarios.DisputeHoldsDeposit | src/lib.rs:314-328 | a dispute holds the deposit; a replayed deposit and a dispute of an unknown id change nothing |
| Scenarios.DisputeSeveral | src/lib.rs:330-349 | disputing two of three deposits holds exactly those two amounts |
| Scenarios.ResolveReleases | src/lib.rs:351-362 | resolving a disputed deposit releases it to available and clears the mark |
| Scenarios.ChargebackRemoves | src/lib.rs:364-375 | a chargeback removes the disputed funds, locks the account and leaves the entry disputed |
| Scenarios.ChargebackTwiceOnce | src/lib.rs:377-389 | a second dispute and chargeback of the same id change nothing |
| Scenarios.ChargebackLocksFunded | src/lib.rs:391-404 | after four deposits and a chargeback of the first, the account is locked with the other three deposits available and undisputed |
| Scenarios.DisputesAfterLock | src/lib.rs:405-414 | on that locked account, disputing the remaining three deposits moves all funds to held |
| Scenarios.UnknownIdIgnored | src/lib.rs:417-428 | dispute, resolve and chargeback of an unknown id change nothing |
| Scenarios.LockedAccountRejectsDeposits | src/lib.rs:430-444 | after a chargeback, further deposits and withdrawals are ignored |
| Scenarios.LockedAccountRejectsChargeback | src/lib.rs:447-464 | after a chargeback, a second deposit can be disputed but not charged back |

## Left out

- CSV reading and `serde` deserialisation (`csv::Reader`, the `Deserialize`
  derives): external libraries. A row that does not parse is `None` in the
  model.
- Opening the input file, reading the command-line argument, and the
  `panic!` when the file cannot be opened: I/O.
- `write_output` and the `Display` implementations of `TypeTx`, `Tx` and
  `Account`: output formatting only. They change no state.
- `f64` semantics: rounding, NaN and infinities are not modelled, since
  amounts are exact reals. Under `f64`, a NaN amount passes the
  negative-amount guard, and the `withdrawal_precision` test depends on how
  `1.0 - 0.0001` rounds. Neither is captured.
- `HashMap` iteration order: only the output order depends on it, and the
  output is not modelled.
- `clients.entry(id).or_insert(Client::new(id))` builds a throw-away
  `Client` even when the id exists. `Engine.ClientFor` builds one only when
  the id is absent, and the difference is not observable.
- Ledger.NewAccount: its contract lists the three zero balances but does not
  state `Balanced` itself. The invariant follows from the zeros.
