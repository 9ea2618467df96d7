/** What holds in every run, however the requests interleave and whatever fails. */
module Interleavings {
  import opened Domain
  import opened Protocol

  lemma {:induction false} EvolvesReflexive(s: State)
    ensures Evolves(s, s)
  {
  }

  lemma {:induction false} EvolvesTransitive(s: State, s': State, s'': State)
    requires Evolves(s, s') && Evolves(s', s'')
    ensures Evolves(s, s'')
  {
  }

  /** From any earlier state of a run to any later one: no order disappears, its
      components, price and creation time never change, and it never goes back to
      pending payment. Results, once given, stay. */
  lemma {:induction false} RunEvolves(b: Backend, es: seq<Event>, i: nat, j: nat)
    requires Valid(b, es) && i <= j <= |es|
    ensures Valid(b, es[..i]) && Valid(b, es[..j])
    ensures Evolves(Run(b, es[..i]), Run(b, es[..j]))
    decreases j - i
  {
    hide Evolves, Inv, SameOrigin;
    PrefixValid(b, INIT, es, i);
    PrefixValid(b, INIT, es, j);
    if i == j {
      EvolvesReflexive(Run(b, es[..i]));
    } else {
      RunEvolves(b, es, i, j - 1);
      assert es[..j][..j - 1] == es[..j - 1];
      RunKeepsInv(b, es[..j - 1]);
      StepEvolves(b, Run(b, es[..j - 1]), es[j - 1]);
      EvolvesTransitive(Run(b, es[..i]), Run(b, es[..j - 1]), Run(b, es[..j]));
    }
  }

  /** Field by field: what a stored order was created with is what it has ever after. */
  lemma {:induction false} OriginNeverChanges(b: Backend, es: seq<Event>, i: nat, j: nat, id: Uuid)
    requires Valid(b, es) && i <= j <= |es|
    ensures Valid(b, es[..i]) && Valid(b, es[..j])
    ensures id in Run(b, es[..i]).db ==>
              var o := Run(b, es[..i]).db[id];
              && id in Run(b, es[..j]).db
              && var o' := Run(b, es[..j]).db[id];
                 && o'.orderUuid == o.orderUuid && o'.hull == o.hull && o'.engine == o.engine
                 && o'.shield == o.shield && o'.weapon == o.weapon
                 && o'.totalPrice == o.totalPrice && o'.createdAt == o.createdAt
                 && (o'.status == PendingPayment ==> o.status == PendingPayment)
  {
    RunEvolves(b, es, i, j);
  }

  /** In every state of every run a stored order is PAID exactly when it has a
      transaction and exactly when it has a payment method; the method is one of the four
      valid ones, and Payment issued the transaction for that order and that method. */
  lemma {:induction false} StoredOrdersCoherent(b: Backend, es: seq<Event>, id: Uuid)
    requires Valid(b, es) && id in Run(b, es).db
    ensures var o := Run(b, es).db[id];
            var ids := Run(b, es).ids;
            && o.orderUuid == id
            && (o.status == Paid <==> o.transaction.Some?)
            && (o.status == Paid <==> o.payMethod.Some?)
            && (o.payMethod.Some? ==> ValidPaymentMethod(o.payMethod.value))
            && (o.transaction.Some? ==>
                  && o.transaction.value in ids
                  && ids[o.transaction.value].Payment?
                  && ids[o.transaction.value].order == id
                  && MethodOf(ids[o.transaction.value].payMethod) == o.payMethod)
  {
    RunKeepsInv(b, es);
  }

  /** No two stored orders ever hold the same transaction. */
  lemma {:induction false} TransactionsNotShared(b: Backend, es: seq<Event>, id: Uuid, id': Uuid)
    requires Valid(b, es) && id in Run(b, es).db && id' in Run(b, es).db
    requires Run(b, es).db[id].transaction.Some?
    requires Run(b, es).db[id].transaction == Run(b, es).db[id'].transaction
    ensures id == id'
  {
    StoredOrdersCoherent(b, es, id);
    StoredOrdersCoherent(b, es, id');
  }

  // ---- Conservation of payments ----

  /** Every transaction id Payment has issued. */
  function Issued(s: State): set<Uuid> {
    set x | x in s.ids && s.ids[x].Payment?
  }

  /** The transaction ids that a successful `Save` wrote to the store during the run. */
  function Written(b: Backend, es: seq<Event>): set<Uuid>
    requires Valid(b, es)
  {
    if es == [] then {}
    else
      var n := |es| - 1;
      var before := Run(b, es[..n]);
      Written(b, es[..n]) +
      (if es[n].Save? && before.reqs[es[n].r].phase.record.transaction.Some?
       then {before.reqs[es[n].r].phase.record.transaction.value} else {})
  }

  /** Issued to a request that then failed. */
  function Lost(s: State): set<Uuid> {
    set x | x in s.ids && s.ids[x].Payment? && s.ids[x].req in s.reqs
            && s.reqs[s.ids[x].req].phase.Done? && s.reqs[s.ids[x].req].phase.outcome.Failed?
  }

  /** Issued to a request that has not tried to save yet. */
  function InFlight(s: State): set<Uuid> {
    set x | x in s.ids && s.ids[x].Payment? && s.ids[x].req in s.reqs
            && s.reqs[s.ids[x].req].phase.Saving?
  }

  /** Issued to a request that reported success. */
  function Reported(s: State): set<Uuid> {
    set x | x in s.ids && s.ids[x].Payment? && s.ids[x].req in s.reqs
            && s.reqs[s.ids[x].req].phase.Done? && s.reqs[s.ids[x].req].phase.outcome.PaidOk?
  }

  lemma {:induction false} StepReported(b: Backend, s: State, e: Event)
    requires Inv(s) && Enabled(s, e)
    ensures Reported(Apply(b, s, e)) == Reported(s) +
              (if e.Save? && s.reqs[e.r].phase.record.transaction.Some?
               then {s.reqs[e.r].phase.record.transaction.value} else {})
  {
    hide StoreOk, Upsert, Coherent, SameOrigin;
    forall x
      ensures x in Reported(Apply(b, s, e)) <==>
              x in Reported(s) || (e.Save? && s.reqs[e.r].phase.record.transaction == Some(x))
    {
      if x in s.ids {
        assert IdOk(s, x);
      }
      if e.Save? {
        assert RequestOk(s, e.r);
      }
    }
  }

  lemma {:induction false} WrittenIsReported(b: Backend, es: seq<Event>)
    requires Valid(b, es)
    ensures Written(b, es) == Reported(Run(b, es))
    decreases |es|
  {
    if es != [] {
      var n := |es| - 1;
      WrittenIsReported(b, es[..n]);
      RunKeepsInv(b, es[..n]);
      StepReported(b, Run(b, es[..n]), es[n]);
    }
  }

  /** Every transaction Payment issued was either written by a successful save, or went to a
      request that failed, or is still in flight, and never two of these. */
  lemma {:induction false} PaymentsConserved(b: Backend, es: seq<Event>)
    requires Valid(b, es)
    ensures Issued(Run(b, es)) == Written(b, es) + Lost(Run(b, es)) + InFlight(Run(b, es))
    ensures Written(b, es) !! Lost(Run(b, es)) !! InFlight(Run(b, es))
  {
    var s := Run(b, es);
    WrittenIsReported(b, es);
    RunKeepsInv(b, es);
    forall x | x in s.ids
      ensures IdOk(s, x)
    {
    }
  }

  /** The ledger has a payment by a request exactly when Payment accepted a charge by it. */
  lemma {:induction false} ChargedExactly(b: Backend, es: seq<Event>, x: Uuid, r: nat)
    requires Valid(b, es)
    ensures x in Run(b, es).ids && Run(b, es).ids[x].Payment? && Run(b, es).ids[x].req == r
       <==> exists i :: 0 <= i < |es| && (es[i] == Charge(r, x) || es[i] == ChargeLost(r, x))
    decreases |es|
  {
    hide NewOrder, AfterRead, Upsert;
    if es != [] {
      var n := |es| - 1;
      ChargedExactly(b, es[..n], x, r);
      assert forall i :: 0 <= i < n ==> es[..n][i] == es[i];
      if es[n] == Charge(r, x) || es[n] == ChargeLost(r, x) {
        assert x in Run(b, es).ids;
      } else {
        LedgerOnlyByCharge(b, Run(b, es[..n]), es[n], x, r);
      }
    }
  }

  lemma {:induction false} LedgerOnlyByCharge(b: Backend, s: State, e: Event, x: Uuid, r: nat)
    requires Enabled(s, e) && e != Charge(r, x) && e != ChargeLost(r, x)
    ensures (x in s.ids && s.ids[x].Payment? && s.ids[x].req == r) <==>
            (x in Apply(b, s, e).ids && Apply(b, s, e).ids[x].Payment? && Apply(b, s, e).ids[x].req == r)
  {
    hide NewOrder, AfterRead, Upsert;
  }

  /** The issued transactions are those of the charges Payment accepted, whether or not its
      answer came back. */
  lemma {:induction false} IssuedExactly(b: Backend, es: seq<Event>, x: Uuid)
    requires Valid(b, es)
    ensures x in Issued(Run(b, es))
       <==> exists i :: 0 <= i < |es| && (es[i].Charge? || es[i].ChargeLost?) && es[i].tx == x
  {
    hide Run, Valid;
    if x in Issued(Run(b, es)) {
      ChargedExactly(b, es, x, Run(b, es).ids[x].req);
    }
    forall i | 0 <= i < |es| && (es[i].Charge? || es[i].ChargeLost?) && es[i].tx == x
      ensures x in Issued(Run(b, es))
    {
      ChargedExactly(b, es, x, es[i].r);
    }
  }

  /** Only a failure loses a payment: the answer of the charge, or anything after it. */
  lemma {:induction false} LostExactly(b: Backend, es: seq<Event>, x: Uuid)
    requires Valid(b, es)
    ensures x in Lost(Run(b, es)) <==> exists i :: 0 <= i < |es| && LosesAt(es, i, x)
    decreases |es|
  {
    hide Inv;
    if es != [] {
      var n := |es| - 1;
      var s, e := Run(b, es[..n]), es[n];
      LostExactly(b, es[..n], x);
      RunKeepsInv(b, es[..n]);
      ChargedExactly(b, es[..n], x, e.r);
      StepLost(b, s, e, x);
      assert forall i :: 0 <= i < n ==> es[..n][i] == es[i];
      if x in Lost(s) {
        var i :| 0 <= i < n && LosesAt(es[..n], i, x);
        LosesLater(es, i, x);
      }
      if e.Fail? && x in s.ids && s.ids[x].Payment? && s.ids[x].req == e.r {
        var i :| 0 <= i < n && (es[..n][i] == Charge(e.r, x) || es[..n][i] == ChargeLost(e.r, x));
        assert LosesAt(es, i, x);
      }
      if e == ChargeLost(e.r, x) {
        assert LosesAt(es, n, x);
      }
      forall i | 0 <= i < |es| && LosesAt(es, i, x)
        ensures x in Lost(Run(b, es))
      {
        if i < n {
          LosesLater(es, i, x);
        }
      }
    }
  }

  /** Event `i` charges `x`, and the answer is lost or the request fails later. */
  ghost predicate LosesAt(es: seq<Event>, i: nat, x: Uuid)
    requires i < |es|
  {
    || (es[i].ChargeLost? && es[i].tx == x)
    || (es[i].Charge? && es[i].tx == x && exists k :: i < k < |es| && es[k] == Fail(es[i].r))
  }

  lemma {:induction false} LosesLater(es: seq<Event>, i: nat, x: Uuid)
    requires i < |es| - 1
    ensures var n := |es| - 1;
            LosesAt(es, i, x) <==> LosesAt(es[..n], i, x) || (es[n] == Fail(es[i].r) && es[i] == Charge(es[i].r, x))
  {
    var n := |es| - 1;
    assert forall k :: 0 <= k < n ==> es[..n][k] == es[k];
  }

  lemma {:induction false} StepLost(b: Backend, s: State, e: Event, x: Uuid)
    requires Inv(s) && Enabled(s, e)
    ensures x in Lost(Apply(b, s, e)) <==>
            || x in Lost(s)
            || (e.ChargeLost? && e.tx == x)
            || (e.Fail? && x in s.ids && s.ids[x].Payment? && s.ids[x].req == e.r)
  {
    hide NewOrder, Upsert, Coherent, StoreOk, AfterRead;
    if x in s.ids {
      assert IdOk(s, x);
    }
  }

  /** Every transaction an order holds belongs to a request that reported it. */
  ghost predicate HeldReported(s: State) {
    forall id :: id in s.db && s.db[id].transaction.Some? ==> s.db[id].transaction.value in Reported(s)
  }

  lemma {:induction false} StepKeepsHeldReported(b: Backend, s: State, e: Event)
    requires Inv(s) && HeldReported(s) && Enabled(s, e)
    ensures HeldReported(Apply(b, s, e))
  {
    hide IdOk, Reported;
    StepReported(b, s, e);
    if e.Save? {
      assert RequestOk(s, e.r);
    }
  }

  lemma {:induction false} RunKeepsHeldReported(b: Backend, es: seq<Event>)
    requires Valid(b, es)
    ensures HeldReported(Run(b, es))
    decreases |es|
  {
    if es != [] {
      var n := |es| - 1;
      RunKeepsHeldReported(b, es[..n]);
      RunKeepsInv(b, es[..n]);
      StepKeepsHeldReported(b, Run(b, es[..n]), es[n]);
    }
  }

  // ---- The two repositories ----

  /** One save leaves the two stores equal exactly when it does not try to change a
      stored creation time. */
  lemma {:induction false} UpsertsAgreeExactly(db: Store, o: Order)
    ensures Upsert(Memory, db, o) == Upsert(Postgres, db, o)
       <==> (o.orderUuid in db ==> db[o.orderUuid].createdAt == o.createdAt)
  {
    if o.orderUuid in db && db[o.orderUuid].createdAt != o.createdAt {
      assert Upsert(Memory, db, o)[o.orderUuid] != Upsert(Postgres, db, o)[o.orderUuid];
    }
  }

  /** No run can tell the repositories apart: they allow the same events and reach
      the same state, so every read and every result is the same. */
  lemma {:induction false} BackendsAgree(es: seq<Event>)
    ensures Valid(Memory, es) <==> Valid(Postgres, es)
    ensures Valid(Memory, es) ==> Run(Memory, es) == Run(Postgres, es)
    decreases |es|
  {
    if es != [] {
      var n := |es| - 1;
      BackendsAgree(es[..n]);
      if Valid(Memory, es) {
        RunKeepsInv(Memory, es[..n]);
        var s := Run(Memory, es[..n]);
        if es[n].Save? {
          assert RequestOk(s, es[n].r);
          UpsertsAgreeExactly(s.db, s.reqs[es[n].r].phase.record);
        }
      }
    }
  }
}
