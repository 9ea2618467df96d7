/** What holds when no two pay or cancel requests on one order are open together
    past the pending check, and exactly when a final order can change without that. */
module Finality {
  import opened Domain
  import opened Protocol
  import opened Interleavings

  /** Past the pending check and not yet answered. */
  predicate Guarded(q: Request) {
    q.phase.Checked? || (q.phase.Saving? && q.phase.base.Some?)
  }

  function BaseCopy(q: Request): Order
    requires Guarded(q)
  {
    if q.phase.Checked? then q.phase.copy else q.phase.base.value
  }

  predicate NoOverlap(s: State) {
    forall r, r' :: r in s.reqs && r' in s.reqs && r != r' && Guarded(s.reqs[r]) && Guarded(s.reqs[r'])
      ==> BaseCopy(s.reqs[r]).orderUuid != BaseCopy(s.reqs[r']).orderUuid
  }

  /** No state of the run has an overlap. */
  ghost predicate NonOverlapping(b: Backend, es: seq<Event>)
    requires Valid(b, es)
    decreases |es|
  {
    NoOverlap(Run(b, es)) && (es != [] ==> NonOverlapping(b, es[..|es| - 1]))
  }

  /** Every guarded request still holds the stored record. */
  ghost predicate Current(s: State) {
    forall r :: r in s.reqs && Guarded(s.reqs[r]) ==>
      var copy := BaseCopy(s.reqs[r]);
      copy.orderUuid in s.db && s.db[copy.orderUuid] == copy
  }

  lemma {:induction false} StepKeepsCurrent(b: Backend, s: State, e: Event)
    requires Inv(s) && Enabled(s, e) && NoOverlap(s) && Current(s)
    ensures Current(Apply(b, s, e))
  {
    hide IdOk, Coherent;
    if e.r in s.reqs {
      assert RequestOk(s, e.r);
    }
  }

  lemma {:induction false} RunKeepsCurrent(b: Backend, es: seq<Event>)
    requires Valid(b, es) && NonOverlapping(b, es)
    ensures Current(Run(b, es))
    decreases |es|
  {
    if es != [] {
      var n := |es| - 1;
      RunKeepsCurrent(b, es[..n]);
      RunKeepsInv(b, es[..n]);
      StepKeepsCurrent(b, Run(b, es[..n]), es[n]);
    }
  }

  /** Two requests are in each other's way: both pay for or cancel one order, and both are past
      the pending check and not answered. */
  predicate InTheWay(s: State, r: nat, r': nat) {
    && r in s.reqs && r' in s.reqs && r != r'
    && (s.reqs[r].phase.Checked? || (s.reqs[r].phase.Saving? && s.reqs[r].phase.base.Some?))
    && (s.reqs[r'].phase.Checked? || (s.reqs[r'].phase.Saving? && s.reqs[r'].phase.base.Some?))
    && (s.reqs[r].call.PayCall? || s.reqs[r].call.CancelCall?) && (s.reqs[r'].call.PayCall? || s.reqs[r'].call.CancelCall?)
    && s.reqs[r].call.id == s.reqs[r'].call.id
  }

  /** A run overlaps iff at some point of it two requests are in each other's way. */
  lemma {:induction false} NonOverlappingExactly(b: Backend, es: seq<Event>)
    requires Valid(b, es)
    ensures NonOverlapping(b, es) <==>
            forall i, r, r' :: 0 <= i <= |es| && Valid(b, es[..i]) ==> !InTheWay(Run(b, es[..i]), r, r')
    decreases |es|
  {
    hide Inv, NoOverlap, InTheWay;
    RunKeepsInv(b, es);
    NoOverlapExactly(Run(b, es));
    assert es[..|es|] == es;
    if es != [] {
      var n := |es| - 1;
      NonOverlappingExactly(b, es[..n]);
      assert forall i :: 0 <= i <= n ==> es[..n][..i] == es[..i];
      if NonOverlapping(b, es) {
        forall i, r, r' | 0 <= i <= |es| && Valid(b, es[..i])
          ensures !InTheWay(Run(b, es[..i]), r, r')
        {
          if i <= n {
            assert Valid(b, es[..n][..i]);
          } else {
            assert es[..i] == es;
          }
        }
      }
    }
  }

  lemma {:induction false} NoOverlapExactly(s: State)
    requires Inv(s)
    ensures NoOverlap(s) <==> forall r, r' :: !InTheWay(s, r, r')
  {
    hide Inv, Guarded, InTheWay;
    forall r, r'
      ensures InTheWay(s, r, r') <==>
              && r in s.reqs && r' in s.reqs && r != r' && Guarded(s.reqs[r]) && Guarded(s.reqs[r'])
              && BaseCopy(s.reqs[r]).orderUuid == BaseCopy(s.reqs[r']).orderUuid
    {
      InTheWayExactly(s, r, r');
    }
  }

  lemma {:induction false} InTheWayExactly(s: State, r: nat, r': nat)
    requires Inv(s)
    ensures InTheWay(s, r, r') <==>
            && r in s.reqs && r' in s.reqs && r != r' && Guarded(s.reqs[r]) && Guarded(s.reqs[r'])
            && BaseCopy(s.reqs[r]).orderUuid == BaseCopy(s.reqs[r']).orderUuid
  {
    hide IdOk, Coherent;
    if r in s.reqs && r' in s.reqs {
      assert RequestOk(s, r) && RequestOk(s, r');
    }
  }

  predicate Final(o: Order) { o.status != PendingPayment }

  ghost predicate FinalKept(s: State, s': State) {
    forall id :: id in s.db && Final(s.db[id]) ==> id in s'.db && s'.db[id] == s.db[id]
  }

  // ---- Exactly when a final record changes ----

  /** A pay or cancel is about to save. */
  predicate Deciding(s: State, e: Event) {
    && e.Save? && Enabled(s, e) && s.reqs[e.r].phase.base.Some?
    && s.reqs[e.r].phase.record.orderUuid in s.db
  }

  function StoredNow(s: State, e: Event): Order
    requires Deciding(s, e)
  {
    s.db[s.reqs[e.r].phase.record.orderUuid]
  }

  /** The save is stale: another request finished the order first. A cancel that finds
      the order cancelled writes the record that is already there. */
  predicate StaleSave(s: State, e: Event) {
    Deciding(s, e) &&
    (StoredNow(s, e).status == Paid || (StoredNow(s, e).status == Cancelled && s.reqs[e.r].call.PayCall?))
  }

  /** One step leaves every final record as it is exactly when it is no stale save. */
  lemma {:induction false} StepFinalExactly(b: Backend, s: State, e: Event)
    requires Inv(s) && HeldReported(s) && Enabled(s, e)
    ensures FinalKept(s, Apply(b, s, e)) <==> !StaleSave(s, e)
  {
    if e.Save? && s.reqs[e.r].phase.base.Some? {
      assert RequestOk(s, e.r);
      var id := s.reqs[e.r].phase.record.orderUuid;
      assert Coherent(s.db[id], s.ids);
      if StaleSave(s, e) {
        assert Apply(b, s, e).db[id] != s.db[id];
      } else if s.db[id].status == Cancelled {
        assert Apply(b, s, e).db[id] == s.db[id];
      }
    }
  }

  /** Final orders stay exactly as they are from each state of the run on. */
  ghost predicate FinalForever(b: Backend, es: seq<Event>)
    requires Valid(b, es)
  {
    forall i, j :: 0 <= i <= j <= |es| && Valid(b, es[..i]) && Valid(b, es[..j])
      ==> FinalKept(Run(b, es[..i]), Run(b, es[..j]))
  }

  ghost predicate NoStaleSave(b: Backend, es: seq<Event>)
    requires Valid(b, es)
    decreases |es|
  {
    es == [] ||
    (var n := |es| - 1; NoStaleSave(b, es[..n]) && !StaleSave(Run(b, es[..n]), es[n]))
  }

  lemma {:induction false} NoStaleSaveSuffices(b: Backend, es: seq<Event>, i: nat)
    requires Valid(b, es) && NoStaleSave(b, es) && i <= |es|
    ensures Valid(b, es[..i]) && FinalKept(Run(b, es[..i]), Run(b, es))
    decreases |es|
  {
    if i == |es| {
      assert es[..i] == es;
    } else {
      var n := |es| - 1;
      NoStaleSaveSuffices(b, es[..n], i);
      assert es[..n][..i] == es[..i];
      RunKeepsInv(b, es[..n]);
      RunKeepsHeldReported(b, es[..n]);
      StepFinalExactly(b, Run(b, es[..n]), es[n]);
    }
  }

  lemma {:induction false} NoStaleSavePrefix(b: Backend, es: seq<Event>, j: nat)
    requires Valid(b, es) && NoStaleSave(b, es) && j <= |es|
    ensures Valid(b, es[..j]) && NoStaleSave(b, es[..j])
    decreases |es|
  {
    if j == |es| {
      assert es[..j] == es;
    } else {
      NoStaleSavePrefix(b, es[..|es| - 1], j);
      assert es[..|es| - 1][..j] == es[..j];
    }
  }

  lemma {:induction false} FinalForeverNeedsNoStaleSave(b: Backend, es: seq<Event>)
    requires Valid(b, es) && FinalForever(b, es)
    ensures NoStaleSave(b, es)
    decreases |es|
  {
    if es != [] {
      var n := |es| - 1;
      PrefixValid(b, INIT, es, n);
      assert FinalForever(b, es[..n]) by {
        forall i, j | 0 <= i <= j <= n && Valid(b, es[..n][..i]) && Valid(b, es[..n][..j])
          ensures FinalKept(Run(b, es[..n][..i]), Run(b, es[..n][..j]))
        {
          assert es[..n][..i] == es[..i] && es[..n][..j] == es[..j];
        }
      }
      FinalForeverNeedsNoStaleSave(b, es[..n]);
      RunKeepsInv(b, es[..n]);
      RunKeepsHeldReported(b, es[..n]);
      assert es[..n + 1] == es;
      assert FinalKept(Run(b, es[..n]), Run(b, es));
      StepFinalExactly(b, Run(b, es[..n]), es[n]);
    }
  }

  /** A run keeps every final order for ever exactly when no save in it is stale. */
  lemma {:induction false} FinalityExactly(b: Backend, es: seq<Event>)
    requires Valid(b, es)
    ensures FinalForever(b, es) <==> NoStaleSave(b, es)
  {
    if FinalForever(b, es) {
      FinalForeverNeedsNoStaleSave(b, es);
    }
    if NoStaleSave(b, es) {
      forall i, j | 0 <= i <= j <= |es| && Valid(b, es[..i]) && Valid(b, es[..j])
        ensures FinalKept(Run(b, es[..i]), Run(b, es[..j]))
      {
        NoStaleSavePrefix(b, es, j);
        NoStaleSaveSuffices(b, es[..j], i);
        assert es[..j][..i] == es[..i];
      }
    }
  }

  // ---- Winners ----

  /** A pay or cancel request was answered with success, and with this record. */
  predicate Won(s: State, r: nat, o: Order) {
    && r in s.reqs && s.reqs[r].phase.Done?
    && (s.reqs[r].phase.outcome == PaidOk(o) || s.reqs[r].phase.outcome == CancelledOk(o))
  }

  /** The order of a winner keeps the record the winner was answered with. */
  ghost predicate AnswerStored(s: State) {
    forall r, o :: Won(s, r, o) ==> Final(o) && o.orderUuid in s.db && s.db[o.orderUuid] == o
  }

  /** An order has at most one winner. */
  ghost predicate OneWinner(s: State) {
    forall r, r', o, o' :: Won(s, r, o) && Won(s, r', o') && r != r' ==> o.orderUuid != o'.orderUuid
  }

  /** The order of a winner is final, and a final record is some winner's answer. */
  ghost predicate FinalMeansWon(s: State) {
    && (forall r, o :: Won(s, r, o) ==> o.orderUuid in s.db && Final(s.db[o.orderUuid]))
    && (forall id :: id in s.db && Final(s.db[id]) ==> exists r :: Won(s, r, s.db[id]))
  }

  /** A deciding save makes one more winner and stores its answer. No other step makes a
      winner, changes a stored record or stores a final one. */
  lemma {:induction false} StepDecides(b: Backend, s: State, e: Event)
    requires Inv(s) && Enabled(s, e)
    ensures var s' := Apply(b, s, e);
      && (forall r, o :: Won(s', r, o) <==> Won(s, r, o) || (Deciding(s, e) && r == e.r && o == s.reqs[e.r].phase.record))
      && (forall o :: !Won(s, e.r, o))
      && (if Deciding(s, e) then
            var o := s.reqs[e.r].phase.record;
            Final(o) && s'.db == s.db[o.orderUuid := o]
          else
            && (forall id :: id in s.db ==> id in s'.db && s'.db[id] == s.db[id])
            && (forall id :: id in s'.db && id !in s.db ==> !Final(s'.db[id])))
  {
    hide IdOk, Coherent;
    if e.r in s.reqs {
      assert RequestOk(s, e.r);
    }
  }

  lemma {:induction false} StepKeepsFinalMeansWon(b: Backend, s: State, e: Event)
    requires Inv(s) && Enabled(s, e) && FinalMeansWon(s)
    ensures FinalMeansWon(Apply(b, s, e))
  {
    hide Apply, RequestOk, IdOk, Coherent, Won, Enabled;
    StepDecides(b, s, e);
    var s' := Apply(b, s, e);
    forall id | id in s'.db && Final(s'.db[id])
      ensures exists r :: Won(s', r, s'.db[id])
    {
      if id in s.db && s'.db[id] == s.db[id] {
        var r :| Won(s, r, s.db[id]);
        assert Won(s', r, s'.db[id]);
      } else {
        assert Won(s', e.r, s'.db[id]);
      }
    }
  }

  lemma {:induction false} RunKeepsFinalMeansWon(b: Backend, es: seq<Event>)
    requires Valid(b, es)
    ensures FinalMeansWon(Run(b, es))
    decreases |es|
  {
    if es != [] {
      var n := |es| - 1;
      RunKeepsFinalMeansWon(b, es[..n]);
      RunKeepsInv(b, es[..n]);
      StepKeepsFinalMeansWon(b, Run(b, es[..n]), es[n]);
    }
  }

  // ---- Exactly when an order has one winner ----

  /** The save is late: the stored order is no longer pending, whoever finished it. */
  predicate LateSave(s: State, e: Event) {
    Deciding(s, e) && Final(StoredNow(s, e))
  }

  ghost predicate NoLateSave(b: Backend, es: seq<Event>)
    requires Valid(b, es)
    decreases |es|
  {
    es == [] ||
    (var n := |es| - 1; NoLateSave(b, es[..n]) && !LateSave(Run(b, es[..n]), es[n]))
  }

  lemma {:induction false} StepOneWinner(b: Backend, s: State, e: Event)
    requires Inv(s) && Enabled(s, e) && FinalMeansWon(s)
    ensures OneWinner(Apply(b, s, e)) <==> OneWinner(s) && !LateSave(s, e)
  {
    hide Apply, RequestOk, IdOk, Coherent, Won;
    StepDecides(b, s, e);
    var s' := Apply(b, s, e);
    if LateSave(s, e) {
      var stored := StoredNow(s, e);
      var r :| Won(s, r, stored);
      assert Won(s', r, stored) && Won(s', e.r, s.reqs[e.r].phase.record);
    }
    if !OneWinner(s) {
      var r, r', o, o' :| Won(s, r, o) && Won(s, r', o') && r != r' && o.orderUuid == o'.orderUuid;
      assert Won(s', r, o) && Won(s', r', o');
    }
  }

  /** At most one pay or cancel of each order succeeds exactly when no save of the run is
      late, that is, when each finds its order still pending. */
  lemma {:induction false} OneWinnerExactly(b: Backend, es: seq<Event>)
    requires Valid(b, es)
    ensures OneWinner(Run(b, es)) <==> NoLateSave(b, es)
    decreases |es|
  {
    hide Inv;
    if es != [] {
      var n := |es| - 1;
      OneWinnerExactly(b, es[..n]);
      RunKeepsInv(b, es[..n]);
      RunKeepsFinalMeansWon(b, es[..n]);
      StepOneWinner(b, Run(b, es[..n]), es[n]);
    }
  }

  // ---- Exactly when every winner's answer stays stored ----

  lemma {:induction false} StepAnswerStored(b: Backend, s: State, e: Event)
    requires Inv(s) && Enabled(s, e) && FinalMeansWon(s)
    ensures AnswerStored(Apply(b, s, e)) <==> AnswerStored(s) && FinalKept(s, Apply(b, s, e))
  {
    hide Apply, RequestOk, IdOk, Coherent, Won, Enabled;
    StepDecides(b, s, e);
    var s' := Apply(b, s, e);
    if AnswerStored(s') {
      forall id | id in s.db && Final(s.db[id])
        ensures id in s'.db && s'.db[id] == s.db[id]
      {
        var r :| Won(s, r, s.db[id]);
        assert Won(s', r, s.db[id]);
      }
      forall r, o | Won(s, r, o)
        ensures Final(o) && o.orderUuid in s.db && s.db[o.orderUuid] == o
      {
        assert Won(s', r, o);
      }
    }
  }

  /** Every order keeps the record each of its winners was answered with exactly when no
      save of the run is stale. */
  lemma {:induction false} AnswerStoredExactly(b: Backend, es: seq<Event>)
    requires Valid(b, es)
    ensures AnswerStored(Run(b, es)) <==> NoStaleSave(b, es)
    decreases |es|
  {
    hide Inv;
    if es != [] {
      var n := |es| - 1;
      AnswerStoredExactly(b, es[..n]);
      RunKeepsInv(b, es[..n]);
      RunKeepsFinalMeansWon(b, es[..n]);
      RunKeepsHeldReported(b, es[..n]);
      StepAnswerStored(b, Run(b, es[..n]), es[n]);
      StepFinalExactly(b, Run(b, es[..n]), es[n]);
    }
  }

  // ---- Exactly when no stored payment is lost ----

  /** A save writes over a paid order. */
  predicate LosesPayment(s: State, e: Event) {
    Deciding(s, e) && StoredNow(s, e).status == Paid
  }

  ghost predicate NoPaymentLost(b: Backend, es: seq<Event>)
    requires Valid(b, es)
    decreases |es|
  {
    es == [] ||
    (var n := |es| - 1; NoPaymentLost(b, es[..n]) && !LosesPayment(Run(b, es[..n]), es[n]))
  }

  /** The order a transaction was issued for holds it. */
  predicate Held(s: State, x: Uuid) {
    && x in s.ids && s.ids[x].Payment?
    && s.ids[x].order in s.db && s.db[s.ids[x].order].transaction == Some(x)
  }

  ghost predicate AllHeld(s: State) {
    forall x :: x in Reported(s) ==> Held(s, x)
  }

  /** A payment that saves is not yet reported, and its record is the order it paid for. */
  lemma {:induction false} SavedPayment(s: State, r: nat)
    requires Inv(s) && r in s.reqs && s.reqs[r].phase.Saving? && s.reqs[r].phase.record.transaction.Some?
    ensures var o := s.reqs[r].phase.record;
            var x := o.transaction.value;
      && x !in Reported(s) && x in s.ids && s.ids[x].Payment? && s.ids[x].order == o.orderUuid
      && Deciding(s, Save(r))
  {
    assert RequestOk(s, r);
  }

  lemma {:induction false} StepAllHeld(b: Backend, s: State, e: Event)
    requires Inv(s) && HeldReported(s) && FinalMeansWon(s) && Enabled(s, e)
    ensures AllHeld(Apply(b, s, e)) <==> AllHeld(s) && !LosesPayment(s, e)
  {
    hide RequestOk, IdOk, Apply, Reported, Won;
    var s' := Apply(b, s, e);
    StepEvolves(b, s, e);
    StepReported(b, s, e);
    StepDecides(b, s, e);
    if e.Save? && s.reqs[e.r].phase.record.transaction.Some? {
      SavedPayment(s, e.r);
    }
    if LosesPayment(s, e) {
      var x := StoredNow(s, e).transaction.value;
      assert x in Reported(s) && s.ids[x].order == StoredNow(s, e).orderUuid;
      assert !Held(s', x);
    }
    if AllHeld(s') {
      forall x | x in Reported(s)
        ensures Held(s, x)
      {
        assert Held(s', x);
        ReportedIsIssued(s, x);
      }
    }
  }

  lemma {:induction false} ReportedIsIssued(s: State, x: Uuid)
    requires Inv(s) && FinalMeansWon(s) && x in Reported(s)
    ensures x in s.ids && s.ids[x].Payment? && s.ids[x].order in s.db
  {
    assert IdOk(s, x);
    var r := s.ids[x].req;
    assert RequestOk(s, r);
    assert Won(s, r, s.reqs[r].phase.outcome.order);
  }

  /** Every payment a save ever wrote is still held by its order, so that there is at most
      one per order, exactly when no save of the run writes over a paid order. */
  lemma {:induction false} PaymentsHeldExactly(b: Backend, es: seq<Event>)
    requires Valid(b, es)
    ensures (forall x :: x in Written(b, es) ==> Held(Run(b, es), x)) <==> NoPaymentLost(b, es)
    ensures NoPaymentLost(b, es) ==>
              forall x, y :: x in Written(b, es) && y in Written(b, es) && x != y
                ==> Run(b, es).ids[x].order != Run(b, es).ids[y].order
  {
    WrittenIsReported(b, es);
    AllHeldExactly(b, es);
    if NoPaymentLost(b, es) {
      forall x, y | x in Written(b, es) && y in Written(b, es) && x != y
        ensures Run(b, es).ids[x].order != Run(b, es).ids[y].order
      {
        assert Held(Run(b, es), x) && Held(Run(b, es), y);
      }
    }
  }

  lemma {:induction false} AllHeldExactly(b: Backend, es: seq<Event>)
    requires Valid(b, es)
    ensures AllHeld(Run(b, es)) <==> NoPaymentLost(b, es)
    decreases |es|
  {
    hide Inv;
    if es != [] {
      var n := |es| - 1;
      AllHeldExactly(b, es[..n]);
      RunKeepsInv(b, es[..n]);
      RunKeepsFinalMeansWon(b, es[..n]);
      RunKeepsHeldReported(b, es[..n]);
      StepAllHeld(b, Run(b, es[..n]), es[n]);
    }
  }

  // ---- Without overlap ----

  lemma {:induction false} NoOverlapNoLateSave(b: Backend, es: seq<Event>)
    requires Valid(b, es) && NonOverlapping(b, es)
    ensures NoLateSave(b, es) && NoStaleSave(b, es) && NoPaymentLost(b, es)
    decreases |es|
  {
    if es != [] {
      var n := |es| - 1;
      NoOverlapNoLateSave(b, es[..n]);
      RunKeepsCurrent(b, es[..n]);
      RunKeepsInv(b, es[..n]);
      if es[n].Save? {
        assert RequestOk(Run(b, es[..n]), es[n].r);
      }
    }
  }

  /** Without overlap, once an order is PAID or CANCELLED its record is the same in every
      later state, whatever requests arrive and whatever saves fail. */
  lemma {:induction false} FinalityWithoutOverlap(b: Backend, es: seq<Event>)
    requires Valid(b, es) && NonOverlapping(b, es)
    ensures FinalForever(b, es)
  {
    NoOverlapNoLateSave(b, es);
    FinalityExactly(b, es);
  }

  /** Without overlap at most one pay or cancel of an order ever succeeds, and the order
      keeps the record that request was answered with. */
  lemma {:induction false} OneWinnerWithoutOverlap(b: Backend, es: seq<Event>)
    requires Valid(b, es) && NonOverlapping(b, es)
    ensures AnswerStored(Run(b, es)) && OneWinner(Run(b, es))
  {
    NoOverlapNoLateSave(b, es);
    AnswerStoredExactly(b, es);
    OneWinnerExactly(b, es);
  }

  /** Without overlap at most one payment per order is ever stored, and no stored
      payment is ever lost: the order it was issued for still holds it. */
  lemma {:induction false} OnePaymentPerOrder(b: Backend, es: seq<Event>, x: Uuid, y: Uuid)
    requires Valid(b, es) && NonOverlapping(b, es)
    requires x in Written(b, es) && y in Written(b, es)
    ensures var s := Run(b, es);
            && x in s.ids && s.ids[x].Payment? && y in s.ids && s.ids[y].Payment?
            && (s.ids[x].order == s.ids[y].order ==> x == y)
            && s.ids[x].order in s.db && s.db[s.ids[x].order].transaction == Some(x)
  {
    NoOverlapNoLateSave(b, es);
    PaymentsHeldExactly(b, es);
    assert Held(Run(b, es), x) && Held(Run(b, es), y);
  }

  // ---- With overlap these properties fail ----

  const DEMO_CREATE := CreateCall(CreateInput(1, 2, None, None))
  const DEMO_ORDER := NewOrder(DEMO_CREATE.input, 7, 100, 0)

  /** A run in which one request pays while another cancels with a stale copy. */
  function StaleCancelRun(): seq<Event> {
    [ Arrive(0, DEMO_CREATE), Build(0, 7, 100, 0), Save(0),
      Arrive(1, PayCall(7, CARD)), Arrive(2, CancelCall(7)), Read(1), Read(2),
      Charge(1, 8), Save(1), Save(2) ]
  }

  /** The states of that run: the order in the store and the phases of the two requests. */
  function DemoState(order: Order, ids: map<Uuid, Issue>, pay: Phase, cancel: Phase): State {
    State(map[7 := order], ids,
          map[0 := Request(DEMO_CREATE, Done(Created(DEMO_ORDER))),
              1 := Request(PayCall(7, CARD), pay), 2 := Request(CancelCall(7), cancel)])
  }

  predicate IsStaleCancelRun(es: seq<Event>) {
    && |es| == 10
    && es[0] == Arrive(0, DEMO_CREATE) && es[1] == Build(0, 7, 100, 0) && es[2] == Save(0)
    && es[3] == Arrive(1, PayCall(7, CARD)) && es[4] == Arrive(2, CancelCall(7))
    && es[5] == Read(1) && es[6] == Read(2)
    && es[7] == Charge(1, 8) && es[8] == Save(1) && es[9] == Save(2)
  }

  lemma {:induction false} NextState(b: Backend, es: seq<Event>, k: nat, s: State, s': State)
    requires k < |es| && Valid(b, es[..k]) && Run(b, es[..k]) == s
    requires Enabled(s, es[k]) && Apply(b, s, es[k]) == s'
    ensures Valid(b, es[..k + 1]) && Run(b, es[..k + 1]) == s'
  {
    assert es[..k + 1] == es[..k] + [es[k]];
    RunSnoc(b, INIT, es[..k], es[k]);
  }

  lemma {:induction false} DemoCreates(b: Backend, es: seq<Event>)
    requires IsStaleCancelRun(es)
    ensures Valid(b, es[..3])
    ensures Run(b, es[..3]) == State(map[7 := DEMO_ORDER], map[7 := OrderId(0)],
                                     map[0 := Request(DEMO_CREATE, Done(Created(DEMO_ORDER)))])
  {
    var ids: map<Uuid, Issue> := map[7 := OrderId(0)];
    var s1 := State(map[], map[], map[0 := Request(DEMO_CREATE, Started)]);
    var s2 := State(map[], ids, map[0 := Request(DEMO_CREATE, Saving(None, DEMO_ORDER))]);
    var s3 := State(map[7 := DEMO_ORDER], ids, map[0 := Request(DEMO_CREATE, Done(Created(DEMO_ORDER)))]);
    NextState(b, es, 0, INIT, s1);
    NextState(b, es, 1, s1, s2);
    NextState(b, es, 2, s2, s3);
  }

  lemma {:induction false} DemoReads(b: Backend, es: seq<Event>)
    requires IsStaleCancelRun(es)
    ensures Valid(b, es[..7])
    ensures Run(b, es[..7]) == DemoState(DEMO_ORDER, map[7 := OrderId(0)],
                                 Checked(DEMO_ORDER), Saving(Some(DEMO_ORDER), CancelledCopy(DEMO_ORDER)))
  {
    DemoCreates(b, es);
    var s3 := Run(b, es[..3]);
    var s4 := Apply(b, s3, es[3]);
    NextState(b, es, 3, s3, s4);
    var s5 := DemoState(DEMO_ORDER, map[7 := OrderId(0)], Started, Started);
    NextState(b, es, 4, s4, s5);
    var s6 := DemoState(DEMO_ORDER, map[7 := OrderId(0)], Checked(DEMO_ORDER), Started);
    NextState(b, es, 5, s5, s6);
    NextState(b, es, 6, s6, DemoState(DEMO_ORDER, map[7 := OrderId(0)],
      Checked(DEMO_ORDER), Saving(Some(DEMO_ORDER), CancelledCopy(DEMO_ORDER))));
  }

  const DEMO_PAID := PaidCopy(DEMO_ORDER, 8, CARD)
  const DEMO_CANCELLED := CancelledCopy(DEMO_ORDER)
  const DEMO_IDS: map<Uuid, Issue> := map[7 := OrderId(0), 8 := Payment(1, 7, Card)]

  lemma {:induction false} DemoCharges(b: Backend, es: seq<Event>)
    requires IsStaleCancelRun(es)
    ensures Valid(b, es[..8])
    ensures Run(b, es[..8]) == DemoState(DEMO_ORDER, DEMO_IDS, Saving(Some(DEMO_ORDER), DEMO_PAID),
                                 Saving(Some(DEMO_ORDER), DEMO_CANCELLED))
  {
    DemoReads(b, es);
    NextState(b, es, 7, Run(b, es[..7]), DemoState(DEMO_ORDER, DEMO_IDS,
      Saving(Some(DEMO_ORDER), DEMO_PAID), Saving(Some(DEMO_ORDER), DEMO_CANCELLED)));
  }

  lemma {:induction false} DemoPays(b: Backend, es: seq<Event>)
    requires IsStaleCancelRun(es)
    ensures Valid(b, es[..9])
    ensures Run(b, es[..9]) == DemoState(DEMO_PAID, DEMO_IDS, Done(PaidOk(DEMO_PAID)),
                                 Saving(Some(DEMO_ORDER), DEMO_CANCELLED))
  {
    DemoCharges(b, es);
    NextState(b, es, 8, Run(b, es[..8]), DemoState(DEMO_PAID, DEMO_IDS, Done(PaidOk(DEMO_PAID)),
      Saving(Some(DEMO_ORDER), DEMO_CANCELLED)));
  }

  lemma {:induction false} DemoCancels(b: Backend, es: seq<Event>)
    requires IsStaleCancelRun(es)
    ensures Valid(b, es[..10])
    ensures Run(b, es[..10]) == DemoState(DEMO_CANCELLED, DEMO_IDS, Done(PaidOk(DEMO_PAID)),
                                  Done(CancelledOk(DEMO_CANCELLED)))
  {
    DemoPays(b, es);
    NextState(b, es, 9, Run(b, es[..9]), DemoState(DEMO_CANCELLED, DEMO_IDS, Done(PaidOk(DEMO_PAID)),
      Done(CancelledOk(DEMO_CANCELLED))));
  }

  /** PAID is not absorbing under overlap: the customer is charged and told so, and the
      order ends CANCELLED without a transaction. */
  lemma {:induction false} StaleCancelOverwritesPaid(b: Backend)
    ensures var es := StaleCancelRun();
      && Valid(b, es) && Valid(b, es[..9])
      && 7 in Run(b, es[..9]).db && Run(b, es[..9]).db[7].status == Paid
      && 7 in Run(b, es).db && Run(b, es).db[7].status == Cancelled
      && Run(b, es).db[7].transaction == None
      && !FinalForever(b, es) && !NonOverlapping(b, es)
  {
    var es := StaleCancelRun();
    assert IsStaleCancelRun(es);
    DemoPays(b, es);
    DemoCancels(b, es);
    assert es[..10] == es;
    var before, after := Run(b, es[..9]), Run(b, es[..10]);
    assert 7 in before.db && Final(before.db[7]) && after.db[7] != before.db[7];
    assert !FinalKept(before, after);
    if NonOverlapping(b, es) {
      FinalityWithoutOverlap(b, es);
    }
  }
}
