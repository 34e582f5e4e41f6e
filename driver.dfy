/**
 * The per-record dispatch of `src/main.rs`: a map from client id to client,
 * populated lazily, and a loop that routes each parsed record by kind to one
 * of the client's operations.  A record that failed to parse is `None`.
 */
module Driver {
  import opened Wrappers
  import opened Ledger

  /** Every client is balanced. */
  predicate AllBalanced(m: map<u16, ClientState>) {
    forall k :: k in m ==> Balanced(m[k].acc)
  }

  /** The client ids named by the records that parsed. */
  function ClientsIn(recs: seq<Option<Tx>>): set<u16> {
    set i | 0 <= i < |recs| && recs[i].Some? :: recs[i].value.client
  }

  /** The routing of `main`, without its pre-checks: each kind goes to its operation. */
  function Dispatch(s: ClientState, tx: Tx): (r: ClientState)
    ensures Evolves(s, r) && TouchesOnly(s, r, tx.tx)
    // only a chargeback sets the lock
    ensures !s.acc.locked && r.acc.locked ==> tx.kind == Chargeback
    // only a deposit adds a history entry, under its own id
    ensures r.history.Keys == s.history.Keys || (tx.kind == Deposit && r.history.Keys == s.history.Keys + {tx.tx})
  {
    match tx.kind
    case Deposit | Withdrawal => ProcessStep(s, tx)
    case Dispute => DisputeStep(s, tx.tx)
    case Resolve => ResolveStep(s, tx.tx)
    case Chargeback => ChargebackStep(s, tx.tx)
  }

  /** The routing of `main` with its `get_transaction` and `in_dispute` pre-checks; they change nothing. */
  function GuardedDispatch(s: ClientState, tx: Tx): (r: ClientState)
    ensures r == Dispatch(s, tx)
  {
    match tx.kind
    case Deposit | Withdrawal => ProcessStep(s, tx)
    case Dispute => if tx.tx in s.history then DisputeStep(s, tx.tx) else s
    case Resolve => if tx.tx in s.history && s.history[tx.tx].inDispute then ResolveStep(s, tx.tx) else s
    case Chargeback => if tx.tx in s.history && s.history[tx.tx].inDispute then ChargebackStep(s, tx.tx) else s
  }

  /** One iteration of the loop in `main`, on the map of client states. */
  function Step(m: map<u16, ClientState>, rec: Option<Tx>): (r: map<u16, ClientState>)
    // a row that did not parse changes nothing
    ensures rec.None? ==> r == m
    // the record's client exists afterwards, even if the record had no effect
    ensures rec.Some? ==> r.Keys == m.Keys + {rec.value.client}
    ensures rec.Some? && rec.value.client !in m ==>
      r[rec.value.client] == Dispatch(NewClient(rec.value.client), rec.value)
    ensures rec.Some? && rec.value.client in m ==> Evolves(m[rec.value.client], r[rec.value.client])
    // no other client changes
    ensures rec.Some? ==> forall k :: k in m && k != rec.value.client ==> r[k] == m[k]
    ensures AllBalanced(m) ==> AllBalanced(r)
  {
    match rec
    case None => m
    case Some(tx) =>
      var c := if tx.client in m then m[tx.client] else NewClient(tx.client);
      m[tx.client := Dispatch(c, tx)]
  }

  /** The whole loop: the records in order, each applied by `Step`. */
  function RunAll(m: map<u16, ClientState>, recs: seq<Option<Tx>>): (r: map<u16, ClientState>)
    // no client is ever removed
    ensures m.Keys <= r.Keys
    decreases |recs|
  {
    if recs == [] then m else Step(RunAll(m, recs[..|recs| - 1]), recs[|recs| - 1])
  }

  lemma ClientsInSnoc(recs: seq<Option<Tx>>, rec: Option<Tx>)
    ensures ClientsIn(recs + [rec]) == ClientsIn(recs) + (if rec.Some? then {rec.value.client} else {})
  {
    var all := recs + [rec];
    forall c | c in ClientsIn(all) ensures c in ClientsIn(recs) || (rec.Some? && c == rec.value.client) {
      var i :| 0 <= i < |all| && all[i].Some? && all[i].value.client == c;
      if i < |recs| {
        assert recs[i] == all[i];
      }
    }
    forall c | c in ClientsIn(recs) ensures c in ClientsIn(all) {
      var i :| 0 <= i < |recs| && recs[i].Some? && recs[i].value.client == c;
      assert all[i] == recs[i];
    }
    if rec.Some? {
      assert all[|recs|] == rec;
    }
  }

  /** After a run the clients are those present before plus those named by a parsed record. */
  lemma {:induction false} RunKeys(m: map<u16, ClientState>, recs: seq<Option<Tx>>)
    ensures RunAll(m, recs).Keys == m.Keys + ClientsIn(recs)
    decreases |recs|
  {
    if recs != [] {
      var init, last := recs[..|recs| - 1], recs[|recs| - 1];
      RunKeys(m, init);
      assert recs == init + [last];
      ClientsInSnoc(init, last);
    }
  }

  /** Every client stays balanced through a run. */
  lemma {:induction false} RunBalanced(m: map<u16, ClientState>, recs: seq<Option<Tx>>)
    requires AllBalanced(m)
    ensures AllBalanced(RunAll(m, recs))
    decreases |recs|
  {
    if recs != [] {
      RunBalanced(m, recs[..|recs| - 1]);
    }
  }

  /** Every client present before a run evolves through it: latch, history growth, fixed amounts. */
  lemma {:induction false} RunEvolves(m: map<u16, ClientState>, recs: seq<Option<Tx>>, k: u16)
    requires k in m
    ensures k in RunAll(m, recs) && Evolves(m[k], RunAll(m, recs)[k])
    decreases |recs|
  {
    if recs != [] {
      var init, last := recs[..|recs| - 1], recs[|recs| - 1];
      RunEvolves(m, init, k);
      var mid := RunAll(m, init);
      var r := Step(mid, last);
      if last.Some? && last.value.client == k {
        assert Evolves(mid[k], r[k]);
      } else {
        assert r[k] == mid[k];
      }
    }
  }

  /** A client named by no parsed record of the run is left exactly as it was. */
  lemma {:induction false} RunUntouched(m: map<u16, ClientState>, recs: seq<Option<Tx>>, k: u16)
    requires k in m && k !in ClientsIn(recs)
    ensures k in RunAll(m, recs) && RunAll(m, recs)[k] == m[k]
    decreases |recs|
  {
    if recs != [] {
      var init, last := recs[..|recs| - 1], recs[|recs| - 1];
      assert recs == init + [last];
      ClientsInSnoc(init, last);
      RunUntouched(m, init, k);
    }
  }

  /** From the empty map: the clients are exactly those of the parsed records, all balanced. */
  lemma RunFromEmpty(recs: seq<Option<Tx>>)
    ensures RunAll(map[], recs).Keys == ClientsIn(recs)
    ensures AllBalanced(RunAll(map[], recs))
  {
    RunKeys(map[], recs);
    RunBalanced(map[], recs);
  }

  /** The `match tx.r#type` of `main`, with its pre-checks, on the record's client. */
  method Route(c: Client, tx: Tx)
    modifies c
    ensures c.State() == Dispatch(old(c.State()), tx)
  {
    ghost var start := c.State();
    match tx.kind
    case Deposit | Withdrawal =>
      c.ProcessTransaction(tx);
    case Dispute =>
      var t := c.GetTransaction(tx.tx);
      if t.Some? {
        c.DisputeTransaction(tx.tx);
      }
    case Resolve =>
      var t := c.GetTransaction(tx.tx);
      if t.Some? && t.value.inDispute {
        c.ResolveTransaction(tx.tx);
      }
    case Chargeback =>
      var t := c.GetTransaction(tx.tx);
      if t.Some? && t.value.inDispute {
        c.ChargebackTransaction(tx.tx);
      }
    assert c.State() == GuardedDispatch(start, tx);
  }

  /** Folds the two updates of a new client's entry (creation, then routing) in the proof of `Engine.Apply`. */
  lemma UpdateTwice(m: map<u16, ClientState>, k: u16, a: ClientState, b: ClientState)
    ensures m[k := a][k := b] == m[k := b]
  {
  }

  /** The engine of `main`: the lazily populated map from client id to client. */
  class Engine {
    var clients: map<u16, Client>
    /** The state of every client, as a value. */
    ghost var model: map<u16, ClientState>

    /**
     * `model` holds the state of each client object, and distinct ids own
     * distinct objects, as the values of a `HashMap` do.
     */
    ghost predicate Valid()
      reads this, clients.Values
    {
      && clients.Keys == model.Keys
      && (forall k :: k in clients ==> clients[k].State() == model[k])
      && (forall a, b :: a in clients && b in clients && a != b ==> clients[a] != clients[b])
    }

    /** `HashMap::new()`. */
    constructor()
      ensures Valid() && model == map[]
    {
      clients := map[];
      model := map[];
    }

    /** `clients.entry(id).or_insert(Client::new(id))`: the client for `id`, created when absent. */
    method ClientFor(id: u16) returns (c: Client)
      requires Valid()
      modifies this
      ensures Valid()
      ensures clients == old(clients)[id := c]
      ensures fresh(clients.Values - old(clients.Values))
      ensures id in model && c.State() == model[id]
      ensures id in old(clients) ==> c == old(clients[id]) && model == old(model)
      ensures id !in old(clients) ==> fresh(c) && model == old(model)[id := NewClient(id)]
    {
      if id !in clients {
        c := new Client(id);
        clients := clients[id := c];
        model := model[id := c.State()];
      } else {
        c := clients[id];
      }
    }

    /** Route `tx` to the client it names, which exists; no other client is touched. */
    method RouteClient(tx: Tx)
      requires Valid() && tx.client in clients
      modifies this`model, clients[tx.client]
      ensures Valid() && clients == old(clients)
      ensures model == old(model)[tx.client := Dispatch(old(model)[tx.client], tx)]
    {
      var c := clients[tx.client];
      assert forall k :: k in clients && k != tx.client ==> clients[k] != c;
      Route(c, tx);
      model := model[tx.client := c.State()];
    }

    /** One iteration of the loop in `main`: create the client if absent, then route the record. */
    method Apply(rec: Option<Tx>)
      requires Valid()
      modifies this, clients.Values
      ensures Valid()
      ensures fresh(clients.Values - old(clients.Values))
      ensures model == Step(old(model), rec)
    {
      if rec.Some? {
        var tx := rec.value;
        ghost var before := model;
        var c := ClientFor(tx.client);
        ghost var start := model[tx.client];
        if tx.client !in before {
          UpdateTwice(before, tx.client, start, Dispatch(start, tx));
        }
        RouteClient(tx);
      }
    }

    /** The whole loop of `main` over the records, in order. */
    method Run(recs: seq<Option<Tx>>)
      requires Valid()
      modifies this, clients.Values
      ensures Valid()
      ensures fresh(clients.Values - old(clients.Values))
      ensures model == RunAll(old(model), recs)
    {
      var i := 0;
      while i < |recs|
        invariant 0 <= i <= |recs|
        invariant Valid()
        invariant fresh(clients.Values - old(clients.Values))
        invariant model == RunAll(old(model), recs[..i])
      {
        Apply(recs[i]);
        assert recs[..i + 1][..i] == recs[..i];
        i := i + 1;
      }
      assert recs[..i] == recs;
    }
  }
}
