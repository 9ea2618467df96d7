/** The code can lose a payment: a schedule under which it performs the stale-cancel run. */
module LostPayment {
  import opened Domain
  import opened Protocol
  import opened Finality
  import opened OrderService
  import Inventory
  import Pricing

  const NO_FAULTS := Faults(false, Fine, false)

  /** An order is created; a pay and a cancel both read it; then the pay charges and saves, and
      the cancel saves. Nothing fails. */
  function StaleCancelTurns(): seq<Turn> {
    [ NewRequest(DEMO_CREATE), Continue(0, 7, 0, NO_FAULTS), Continue(0, 9, 0, NO_FAULTS),
      NewRequest(PayCall(7, CARD)), NewRequest(CancelCall(7)),
      Continue(1, 10, 0, NO_FAULTS), Continue(2, 11, 0, NO_FAULTS),
      Continue(1, 8, 0, NO_FAULTS), Continue(1, 12, 0, NO_FAULTS), Continue(2, 13, 0, NO_FAULTS) ]
  }

  /** Parts 1 and 2 are in the catalogue with stock and cost 100 together. */
  ghost predicate Stocked(parts: Inventory.Catalogue) {
    && 1 in parts && 2 in parts && parts[1].stock > 0 && parts[2].stock > 0
    && parts[1].price as int + parts[2].price as int == 100
  }

  lemma {:induction false} DemoPrice(text: TextCodec, parts: Inventory.Catalogue)
    requires text.UuidsRoundTrip() && Stocked(parts)
    ensures Pricing.PriceOrder(text, parts, DEMO_CREATE.input) == Ok(100)
  {
    hide Pricing.PriceOrder;
    var us: seq<Uuid> := [1, 2];
    assert Pricing.Requested(DEMO_CREATE.input) == us;
    Pricing.PriceOrderExactly(text, parts, DEMO_CREATE.input);
    assert us[..1] == [1] && us[..1][..0] == [];
    assert Pricing.CatalogueTotal(parts, us[..1]) == parts[1].price as int;
    assert Pricing.CatalogueTotal(parts, us) == 100;
  }

  lemma {:induction false} DemoArrivals()
    ensures Arrivals(StaleCancelTurns()[..0]) == 0
    ensures Arrivals(StaleCancelTurns()[..3]) == 1 && Arrivals(StaleCancelTurns()[..4]) == 2
  {
    var ts := StaleCancelTurns();
    assert ts[..1][..0] == [] && ts[..2][..1] == ts[..1] && ts[..3][..2] == ts[..2] && ts[..4][..3] == ts[..3];
    assert Arrivals(ts[..1]) == 1;
    assert Arrivals(ts[..2]) == 1;
  }

  /** Each turn asks for the next event of the run. */
  lemma {:induction false} TurnAsks(svc: Service, k: nat, s: State)
    requires svc.text.UuidsRoundTrip() && Stocked(svc.inventory.parts) && k < 10
    requires Enabled(s, StaleCancelRun()[k]) && (k == 1 ==> 0 in s.reqs && s.reqs[0].call == DEMO_CREATE)
    ensures PerformsLast(svc, StaleCancelTurns()[..k], StaleCancelTurns()[k], s, StaleCancelRun()[k])
  {
    hide Pricing.PriceOrder, Arrivals;
    DemoArrivals();
    DemoPrice(svc.text, svc.inventory.parts);
  }

  lemma {:induction false} PerformsSoFar(svc: Service, k: nat)
    requires svc.text.UuidsRoundTrip() && Stocked(svc.inventory.parts) && k <= 10
    requires Valid(svc.repo.Backend(), StaleCancelRun())
    ensures Performs(svc, StaleCancelTurns()[..k], StaleCancelRun()[..k])
    decreases k
  {
    hide PerformsLast, Performs;
    var b, es := svc.repo.Backend(), StaleCancelRun();
    if k == 0 {
      NothingPerformed(svc);
    } else {
      PerformsSoFar(svc, k - 1);
      PrefixValid(b, INIT, es, k - 1);
      PrefixValid(b, INIT, es, k);
      assert es[..k][..k - 1] == es[..k - 1] && es[..k] == es[..k - 1] + [es[k - 1]];
      if k == 2 {
        assert es[..1][..0] == [] && Run(b, es[..1]) == Apply(b, INIT, es[0]);
      }
      TurnAsks(svc, k - 1, Run(b, es[..k - 1]));
      PerformsNext(svc, StaleCancelTurns(), k - 1, es[..k - 1], es[k - 1]);
    }
  }

  lemma {:induction false} StaleCancelEnds(b: Backend)
    ensures Valid(b, StaleCancelRun())
    ensures var s := Run(b, StaleCancelRun());
      && s.db == map[7 := DEMO_CANCELLED] && 1 in s.reqs && 2 in s.reqs
      && s.reqs[1] == Request(PayCall(7, CARD), Done(PaidOk(DEMO_PAID)))
      && s.reqs[2] == Request(CancelCall(7), Done(CancelledOk(DEMO_CANCELLED)))
  {
    var es := StaleCancelRun();
    assert es[..10] == es && IsStaleCancelRun(es);
    DemoCancels(b, es);
  }

  /** With either repository, and nothing failing, these turns perform exactly the stale-cancel
      run. */
  lemma {:induction false} CodePerformsStaleCancel(svc: Service)
    requires svc.text.UuidsRoundTrip() && Stocked(svc.inventory.parts)
    ensures DistinctDraws(StaleCancelTurns())
    ensures Performs(svc, StaleCancelTurns(), StaleCancelRun())
  {
    hide Performs;
    var es := StaleCancelRun();
    assert es[..10] == es && StaleCancelTurns()[..10] == StaleCancelTurns();
    StaleCancelEnds(svc.repo.Backend());
    PerformsSoFar(svc, 10);
  }

  /** Run on an empty store, they leave both callers with success and the order cancelled,
      without the transaction its customer paid with. */
  method LosePayment(svc: Service) returns (pay: Running, cancel: Running)
    requires svc.text.UuidsRoundTrip() && Stocked(svc.inventory.parts) && svc.repo.Contents() == map[]
    modifies svc.repo.Footprint()
    ensures pay.call == PayCall(7, CARD) && pay.res == Some(Ok(DEMO_PAID)) && DEMO_PAID.transaction == Some(8)
    ensures cancel.call == CancelCall(7) && cancel.res == Some(Ok(DEMO_CANCELLED))
    ensures svc.repo.Contents() == map[7 := DEMO_CANCELLED] && DEMO_CANCELLED.transaction == None
  {
    hide Performs, Valid, Run, StaleCancelRun, StaleCancelTurns, Arrivals, DistinctDraws;
    CodePerformsStaleCancel(svc);
    var qs, es := Interleave(svc, StaleCancelTurns());
    OneRunPerTurns(svc, StaleCancelTurns(), es, StaleCancelRun());
    StaleCancelEnds(svc.repo.Backend());
    pay, cancel := qs[1], qs[2];
  }
}
