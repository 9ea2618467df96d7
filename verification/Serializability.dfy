/** A run does what some serial run of the same requests does exactly when no save of it
    is late. Without same-order overlap no save is late.

    The serial run is built by forward simulation. All events of a request are put, in
    their order, where it takes effect: a request that fails after the pending check at
    its read, and every other request at its last event. */
module Serializability {
  import opened Domain
  import opened Protocol
  import opened Interleavings
  import opened Finality

  /** The events of one request. */
  function Project(es: seq<Event>, r: nat): (p: seq<Event>)
    ensures forall i :: 0 <= i < |p| ==> p[i].r == r
  {
    if es == [] then []
    else Project(es[..|es| - 1], r) + (if es[|es| - 1].r == r then [es[|es| - 1]] else [])
  }

  predicate Answered(s: State, r: nat) {
    r in s.reqs && s.reqs[r].phase.Done?
  }

  predicate AllAnswered(s: State) {
    forall r :: r in s.reqs ==> s.reqs[r].phase.Done?
  }

  /** One request after the other: nothing between two events of a request is another's. */
  ghost predicate Serial(es: seq<Event>) {
    forall i, j, k :: 0 <= i < j < k < |es| && es[i].r == es[k].r ==> es[j].r == es[i].r
  }

  // ---- Restricting a state to some requests ----

  /** A store, with only the requests in `rs` and the identifiers they drew. */
  function Keep(db: Store, s: State, rs: set<nat>): State {
    State(db,
          map x | x in s.ids && s.ids[x].req in rs :: s.ids[x],
          map r | r in s.reqs && r in rs :: s.reqs[r])
  }

  function AnsweredSet(s: State): set<nat> {
    set r | r in s.reqs && s.reqs[r].phase.Done?
  }

  /** What the answered requests did. */
  function Completed(s: State): State {
    Keep(s.db, s, AnsweredSet(s))
  }

  /** `t` is a serial run of what the answered requests of `es` did: it ends with the same
      store, the same identifiers issued to them and the same answers. */
  ghost predicate SerialRunOf(b: Backend, t: seq<Event>, es: seq<Event>)
    requires Valid(b, es)
  {
    Serial(t) && Valid(b, t) && Run(b, t) == Completed(Run(b, es))
  }

  // ---- Where a request is placed ----

  /** The run that ends in `last` answers the request with a failure. */
  predicate Fails(last: State, r: nat) {
    Answered(last, r) && last.reqs[r].phase.outcome.Failed?
  }

  /** The requests placed by the time the run is in `s`: the answered ones, and those past
      the pending check that will fail. */
  function Placed(s: State, last: State): set<nat> {
    set r | r in s.reqs && (s.reqs[r].phase.Done? || (Guarded(s.reqs[r]) && Fails(last, r)))
  }

  /** The serial run of the requests that `es`, the beginning of `all`, has placed. */
  function Serialise(b: Backend, es: seq<Event>, all: seq<Event>): seq<Event>
    requires Valid(b, es) && Valid(b, all)
    decreases |es|
  {
    if es == [] then []
    else
      var n, last := |es| - 1, Run(b, all);
      var r := es[n].r;
      Serialise(b, es[..n], all) +
      (if r in Placed(Run(b, es), last) && r !in Placed(Run(b, es[..n]), last) then Project(all, r) else [])
  }

  // ---- Running one request alone, elsewhere ----

  predicate Wrote(q: Request) {
    q.phase.Done? && (q.phase.outcome.Created? || q.phase.outcome.PaidOk? || q.phase.outcome.CancelledOk?)
  }

  /** The identifiers a request drew. */
  function Own(ids: map<Uuid, Issue>, r: nat): (own: map<Uuid, Issue>)
    ensures own.Keys <= ids.Keys
  {
    map x | x in ids && ids[x].req == r :: ids[x]
  }

  /** `base` after request `r` has done there what it has done by `s`. */
  function With(b: Backend, base: State, s: State, r: nat): State {
    if r !in s.reqs then base
    else State(
      if Wrote(s.reqs[r]) then Upsert(b, base.db, s.reqs[r].phase.outcome.order) else base.db,
      base.ids + Own(s.ids, r),
      base.reqs[r := s.reqs[r]])
  }

  /** Each read of `r` goes as it would with the store `db`. */
  ghost predicate ReadsLike(b: Backend, es: seq<Event>, r: nat, db: Store)
    requires Valid(b, es)
    decreases |es|
  {
    es == [] ||
    (var n := |es| - 1;
     ReadsLike(b, es[..n], r, db)
     && (es[n] == Read(r) ==>
           var s := Run(b, es[..n]);
           AfterRead(s.reqs[r].call, s.db) == AfterRead(s.reqs[r].call, db)))
  }

  /** The identifier an event draws. */
  function Drawn(s: State, e: Event): map<Uuid, Issue>
    requires Enabled(s, e)
  {
    match e
    case Build(r, id, _, _) => map[id := OrderId(r)]
    case Charge(r, tx) => map[tx := Ledger(s, r)]
    case ChargeLost(r, tx) => map[tx := Ledger(s, r)]
    case _ => map[]
  }

  lemma {:induction false} StepEffect(b: Backend, s: State, e: Event)
    requires Enabled(s, e)
    ensures e.r in Apply(b, s, e).reqs
    ensures Apply(b, s, e) == State(if e.Save? then Upsert(b, s.db, s.reqs[e.r].phase.record) else s.db,
                                    s.ids + Drawn(s, e), s.reqs[e.r := Apply(b, s, e).reqs[e.r]])
    ensures forall x :: x in Drawn(s, e) ==> Drawn(s, e)[x].req == e.r && x !in s.ids
  {
    hide Upsert, NewOrder, AfterRead;
  }

  /** An event does the same to its request wherever that request stands alike. */
  lemma {:induction false} SameEffect(b: Backend, s: State, u: State, e: Event)
    requires Enabled(s, e)
    requires if e.r in s.reqs then e.r in u.reqs && u.reqs[e.r] == s.reqs[e.r] else e.r !in u.reqs
    requires e.Build? ==> e.id !in u.ids
    requires e.Charge? || e.ChargeLost? ==> e.tx !in u.ids
    requires e.Read? ==> AfterRead(s.reqs[e.r].call, s.db) == AfterRead(s.reqs[e.r].call, u.db)
    ensures Enabled(u, e) && Drawn(u, e) == Drawn(s, e)
    ensures e.r in Apply(b, s, e).reqs && e.r in Apply(b, u, e).reqs
    ensures Apply(b, u, e).reqs[e.r] == Apply(b, s, e).reqs[e.r]
  {
    hide Upsert, NewOrder, AfterRead;
  }

  lemma {:induction false} SavedIsWrote(b: Backend, s: State, e: Event)
    requires Inv(s) && Enabled(s, e)
    ensures var s' := Apply(b, s, e);
      && e.r in s'.reqs && (e.r in s.reqs ==> !Wrote(s.reqs[e.r]))
      && (if e.Save? then Wrote(s'.reqs[e.r]) && s'.reqs[e.r].phase.outcome.order == s.reqs[e.r].phase.record
          else !Wrote(s'.reqs[e.r]))
  {
    hide StoreOk, IdOk, Upsert, NewOrder;
    if e.r in s.reqs {
      assert RequestOk(s, e.r);
    }
  }

  lemma {:induction false} StepWith(b: Backend, base: State, s: State, e: Event)
    requires Inv(s) && Enabled(s, e) && e.r !in base.reqs
    requires e.Build? ==> e.id !in base.ids
    requires e.Charge? || e.ChargeLost? ==> e.tx !in base.ids
    requires e.Read? ==> AfterRead(s.reqs[e.r].call, s.db) == AfterRead(s.reqs[e.r].call, base.db)
    ensures Enabled(With(b, base, s, e.r), e)
    ensures Apply(b, With(b, base, s, e.r), e) == With(b, base, Apply(b, s, e), e.r)
  {
    hide Apply, Inv, Wrote, Upsert, Drawn, Own, AfterRead;
    var u, s' := With(b, base, s, e.r), Apply(b, s, e);
    if e.r !in s.reqs {
      NothingDrawnYet(s, e.r);
    }
    SavedIsWrote(b, s, e);
    SameEffect(b, s, u, e);
    StepEffect(b, s, e);
    StepEffect(b, u, e);
    OwnGrows(s.ids, Drawn(s, e), e.r);
    OwnAfter(base.ids, Own(s.ids, e.r), Drawn(s, e));
  }

  lemma {:induction false} OwnGrows(ids: map<Uuid, Issue>, drawn: map<Uuid, Issue>, r: nat)
    requires forall x :: x in drawn ==> drawn[x].req == r && x !in ids
    ensures Own(ids + drawn, r) == Own(ids, r) + drawn
  {
  }

  lemma {:induction false} OwnAfter(base: map<Uuid, Issue>, own: map<Uuid, Issue>, drawn: map<Uuid, Issue>)
    ensures (base + own) + drawn == base + (own + drawn)
  {
  }

  lemma {:induction false} NothingDrawnYet(s: State, r: nat)
    requires Inv(s) && r !in s.reqs
    ensures Own(s.ids, r) == map[]
  {
    forall x | x in s.ids
      ensures s.ids[x].req != r
    {
      assert IdOk(s, x);
    }
  }

  lemma {:induction false} OthersKeepWith(b: Backend, base: State, s: State, e: Event, r: nat)
    requires Enabled(s, e) && e.r != r
    ensures With(b, base, Apply(b, s, e), r) == With(b, base, s, r)
  {
    hide Apply, Upsert, Drawn, Wrote;
    StepEffect(b, s, e);
    assert Own(s.ids + Drawn(s, e), r) == Own(s.ids, r);
  }

  /** `base` has none of the identifiers `r` draws. */
  predicate Clear(base: State, last: State, r: nat) {
    r !in base.reqs && forall x :: x in base.ids ==> x in last.ids && last.ids[x].req != r
  }

  /** A request can be run alone from any store in which its reads go the same way, and does
      there what it did in the run. */
  lemma {:induction false} RunsElsewhere(b: Backend, es: seq<Event>, last: State, r: nat, base: State)
    requires Valid(b, es) && Clear(base, last, r)
    requires forall x :: x in Run(b, es).ids ==> x in last.ids && last.ids[x] == Run(b, es).ids[x]
    requires ReadsLike(b, es, r, base.db)
    ensures ValidFrom(b, base, Project(es, r))
    ensures RunFrom(b, base, Project(es, r)) == With(b, base, Run(b, es), r)
    decreases |es|
  {
    hide Inv, Enabled, Apply, With, Wrote;
    if es == [] {
      WithNothing(b, base, r);
    } else {
      var n := |es| - 1;
      var s, e := Run(b, es[..n]), es[n];
      RunKeepsInv(b, es[..n]);
      StepDraws(b, s, e);
      RunsElsewhere(b, es[..n], last, r, base);
      if e.r == r {
        StepWith(b, base, s, e);
        RunSnoc(b, base, Project(es[..n], r), e);
      } else {
        OthersKeepWith(b, base, s, e, r);
        assert Project(es[..n], r) + [] == Project(es[..n], r);
      }
    }
  }

  lemma {:induction false} WithNothing(b: Backend, base: State, r: nat)
    ensures With(b, base, INIT, r) == base
  {
  }

  lemma {:induction false} StepDraws(b: Backend, s: State, e: Event)
    requires Enabled(s, e)
    ensures forall x :: x in s.ids ==> x in Apply(b, s, e).ids && Apply(b, s, e).ids[x] == s.ids[x]
    ensures e.Build? ==> e.id in Apply(b, s, e).ids && Apply(b, s, e).ids[e.id].req == e.r
    ensures e.Charge? || e.ChargeLost? ==> e.tx in Apply(b, s, e).ids && Apply(b, s, e).ids[e.tx].req == e.r
  {
  }

  // ---- The reads of a request that is placed ----

  /** The request has not read, never reads, or holds what the store `db` has. */
  predicate HasRead(q: Request, db: Store) {
    || q.phase.Started?
    || q.call.CreateCall?
    || (Guarded(q) && !q.call.CreateCall? && q.call.id in db && db[q.call.id] == BaseCopy(q))
  }

  lemma {:induction false} StepHasRead(b: Backend, s: State, e: Event, r: nat, db: Store)
    requires Inv(s) && Enabled(s, e)
    requires r in Apply(b, s, e).reqs && HasRead(Apply(b, s, e).reqs[r], db)
    ensures r in s.reqs && e != Read(r) ==> HasRead(s.reqs[r], db)
    ensures e == Read(r) ==>
              HasRead(s.reqs[r], db) && AfterRead(s.reqs[r].call, s.db) == AfterRead(s.reqs[r].call, db)
  {
    hide IdOk, Coherent;
    if e.r in s.reqs {
      assert RequestOk(s, e.r);
    }
  }

  lemma {:induction false} OpenReads(b: Backend, es: seq<Event>, r: nat, db: Store)
    requires Valid(b, es)
    requires r in Run(b, es).reqs ==> HasRead(Run(b, es).reqs[r], db)
    ensures ReadsLike(b, es, r, db)
    decreases |es|
  {
    hide Inv, HasRead;
    if es != [] {
      var n := |es| - 1;
      RunKeepsInv(b, es[..n]);
      RequestStays(b, Run(b, es[..n]), es[n], r);
      if r in Run(b, es).reqs {
        StepHasRead(b, Run(b, es[..n]), es[n], r, db);
      }
      OpenReads(b, es[..n], r, db);
    }
  }

  lemma {:induction false} RequestStays(b: Backend, s: State, e: Event, r: nat)
    requires Enabled(s, e)
    ensures r in s.reqs ==> r in Apply(b, s, e).reqs && (!s.reqs[r].phase.Started? ==> e != Read(r))
    ensures r in s.reqs && !s.reqs[r].phase.Started? ==> !Apply(b, s, e).reqs[r].phase.Started?
    ensures e == Read(r) ==> r in s.reqs
  {
  }

  lemma {:induction false} NoMoreReads(b: Backend, es: seq<Event>, i: nat, r: nat, db: Store)
    requires Valid(b, es) && i <= |es| && Valid(b, es[..i]) && ReadsLike(b, es[..i], r, db)
    requires r in Run(b, es[..i]).reqs && !Run(b, es[..i]).reqs[r].phase.Started?
    ensures ReadsLike(b, es, r, db) && r in Run(b, es).reqs && !Run(b, es).reqs[r].phase.Started?
    decreases |es|
  {
    hide Inv;
    if i == |es| {
      assert es[..i] == es;
    } else {
      var n := |es| - 1;
      assert es[..n][..i] == es[..i];
      NoMoreReads(b, es[..n], i, r, db);
      RequestStays(b, Run(b, es[..n]), es[n], r);
    }
  }

  /** When a request is placed, its reads go as with the store of that moment. */
  lemma {:induction false} PlacedReads(b: Backend, es: seq<Event>, all: seq<Event>)
    requires es != [] && Valid(b, es) && Valid(b, all) && es <= all && NoLateSave(b, es)
    requires var r, n := es[|es| - 1].r, |es| - 1;
             r in Placed(Run(b, es), Run(b, all)) && r !in Placed(Run(b, es[..n]), Run(b, all))
    ensures ReadsLike(b, all, es[|es| - 1].r, Run(b, es[..|es| - 1]).db)
  {
    hide IdOk, Coherent;
    var n := |es| - 1;
    var s, e := Run(b, es[..n]), es[n];
    RunKeepsInv(b, es[..n]);
    LaterAgrees(b, es, all);
    if e.r in s.reqs {
      PlacedHasRead(b, s, e, Run(b, all));
    }
    OpenReads(b, es[..n], e.r, s.db);
    NoMoreReads(b, all, |es|, e.r, s.db);
  }

  lemma {:induction false} PlacedHasRead(b: Backend, s: State, e: Event, last: State)
    requires Inv(s) && Enabled(s, e) && !LateSave(s, e) && e.r in s.reqs
    requires Agrees(Apply(b, s, e), last, e.r)
    requires e.r in Placed(Apply(b, s, e), last) && e.r !in Placed(s, last)
    ensures HasRead(s.reqs[e.r], s.db)
  {
    hide IdOk;
    assert RequestOk(s, e.r);
  }

  /** What is answered in `s` has the same answer at the end. */
  predicate Agrees(s: State, last: State, r: nat) {
    Answered(s, r) ==> r in last.reqs && last.reqs[r] == s.reqs[r]
  }

  lemma {:induction false} LaterAgrees(b: Backend, es: seq<Event>, all: seq<Event>)
    requires Valid(b, es) && Valid(b, all) && es <= all
    ensures forall r :: Agrees(Run(b, es), Run(b, all), r)
    ensures all[..|es|] == es && Evolves(Run(b, es), Run(b, all))
  {
    assert all[..|es|] == es && all[..|all|] == all;
    RunEvolves(b, all, |es|, |all|);
  }

  // ---- Forward simulation ----

  lemma {:induction false} StepPlaces(b: Backend, s: State, e: Event, last: State)
    requires Inv(s) && Enabled(s, e) && Agrees(Apply(b, s, e), last, e.r)
    ensures var s' := Apply(b, s, e);
      var joins := e.r in Placed(s', last) && e.r !in Placed(s, last);
      && Placed(s', last) == Placed(s, last) + (if joins then {e.r} else {})
      && (joins ==> e.r in s'.reqs)
      && (joins && e.r in last.reqs ==>
            s'.db == if Wrote(last.reqs[e.r]) then Upsert(b, s.db, last.reqs[e.r].phase.outcome.order) else s.db)
      && (!joins ==> s'.db == s.db)
  {
    hide StoreOk, IdOk, Coherent, Upsert;
    if e.r in s.reqs {
      assert RequestOk(s, e.r);
    }
  }

  lemma {:induction false} WithIsKeep(b: Backend, db: Store, last: State, rs: set<nat>, r: nat)
    requires r in last.reqs && r !in rs
    ensures var base := Keep(db, last, rs);
      Clear(base, last, r) && With(b, base, last, r) == Keep(With(b, base, last, r).db, last, rs + {r})
  {
    hide Upsert;
    var u := With(b, Keep(db, last, rs), last, r);
    var v := Keep(u.db, last, rs + {r});
    assert u.ids == v.ids && u.reqs == v.reqs;
  }

  lemma {:induction false} SimulateStep(b: Backend, es: seq<Event>, all: seq<Event>)
    requires es != [] && Valid(b, es) && Valid(b, all) && es <= all && NoLateSave(b, es)
    ensures var n, last := |es| - 1, Run(b, all);
      var r, s, s' := es[n].r, Run(b, es[..n]), Run(b, es);
      var before, after := Keep(s.db, last, Placed(s, last)), Keep(s'.db, last, Placed(s', last));
      if r in Placed(s', last) && r !in Placed(s, last) then
        ValidFrom(b, before, Project(all, r)) && RunFrom(b, before, Project(all, r)) == after
      else before == after
  {
    hide Inv, Enabled, Apply, Placed, NoLateSave, Keep, Wrote, Upsert, ReadsLike, Clear;
    var n, last := |es| - 1, Run(b, all);
    var r, s, s' := es[n].r, Run(b, es[..n]), Run(b, es);
    RunKeepsInv(b, es[..n]);
    LaterAgrees(b, es, all);
    StepPlaces(b, s, es[n], last);
    if r in Placed(s', last) && r !in Placed(s, last) {
      var base := Keep(s.db, last, Placed(s, last));
      KeepsStore(s.db, last, Placed(s, last));
      PlacedReads(b, es, all);
      WithIsKeep(b, s.db, last, Placed(s, last), r);
      RunsElsewhere(b, all, last, r, base);
    } else {
      assert Placed(s, last) + {} == Placed(s, last);
    }
  }

  lemma {:induction false} KeepsStore(db: Store, s: State, rs: set<nat>)
    ensures Keep(db, s, rs).db == db
  {
  }

  lemma {:induction false} Simulation(b: Backend, es: seq<Event>, all: seq<Event>)
    requires Valid(b, es) && Valid(b, all) && es <= all && NoLateSave(b, es)
    ensures Valid(b, Serialise(b, es, all))
    ensures var s, last := Run(b, es), Run(b, all);
            Run(b, Serialise(b, es, all)) == Keep(s.db, last, Placed(s, last))
    decreases |es|
  {
    hide Inv, Placed, Enabled, Apply;
    if es == [] {
      NonePlaced(Run(b, all));
    } else {
      var n := |es| - 1;
      var r := es[n].r;
      Simulation(b, es[..n], all);
      SimulateStep(b, es, all);
      if r in Placed(Run(b, es), Run(b, all)) && r !in Placed(Run(b, es[..n]), Run(b, all)) {
        RunConcat(b, INIT, Serialise(b, es[..n], all), Project(all, r));
      } else {
        assert Serialise(b, es[..n], all) + [] == Serialise(b, es[..n], all);
      }
    }
  }

  lemma {:induction false} NonePlaced(last: State)
    ensures Keep(map[], last, Placed(INIT, last)) == INIT
  {
    assert Placed(INIT, last) == {};
  }

  // ---- The serial run has the same requests, event for event ----

  lemma {:induction false} ProjectConcat(xs: seq<Event>, ys: seq<Event>, r: nat)
    ensures Project(xs + ys, r) == Project(xs, r) + Project(ys, r)
    decreases |ys|
  {
    if ys == [] {
      assert xs + ys == xs;
    } else {
      var n := |ys| - 1;
      assert (xs + ys)[..|xs| + n] == xs + ys[..n];
      assert (xs + ys)[|xs| + n] == ys[n];
      ProjectConcat(xs, ys[..n], r);
    }
  }

  lemma {:induction false} ProjectAll(es: seq<Event>, r: nat)
    requires forall i :: 0 <= i < |es| ==> es[i].r == r
    ensures Project(es, r) == es
    decreases |es|
  {
    if es != [] {
      ProjectAll(es[..|es| - 1], r);
    }
  }

  lemma {:induction false} ProjectNone(es: seq<Event>, r: nat)
    requires forall i :: 0 <= i < |es| ==> es[i].r != r
    ensures Project(es, r) == []
    decreases |es|
  {
    if es != [] {
      ProjectNone(es[..|es| - 1], r);
    }
  }

  lemma {:induction false} ProjectEmpty(es: seq<Event>, r: nat)
    requires Project(es, r) == []
    ensures forall i :: 0 <= i < |es| ==> es[i].r != r
    decreases |es|
  {
    if es != [] {
      ProjectEmpty(es[..|es| - 1], r);
    }
  }

  lemma {:induction false} ProjectTwice(es: seq<Event>, x: nat, r: nat)
    ensures Project(Project(es, x), r) == if r == x then Project(es, x) else []
  {
    if r == x {
      ProjectAll(Project(es, x), r);
    } else {
      ProjectNone(Project(es, x), r);
    }
  }

  /** The placed requests have the same events in the same order; the others have none. */
  lemma {:induction false} SameRequests(b: Backend, es: seq<Event>, all: seq<Event>, r: nat)
    requires Valid(b, es) && Valid(b, all) && es <= all
    ensures Project(Serialise(b, es, all), r) == if r in Placed(Run(b, es), Run(b, all)) then Project(all, r) else []
    decreases |es|
  {
    hide Apply, Enabled, Placed, Inv;
    if es == [] {
      NonePlaced(Run(b, all));
      NoneIn(Run(b, all), r);
    } else {
      var n, last := |es| - 1, Run(b, all);
      var x := es[n].r;
      SameRequests(b, es[..n], all, r);
      RunKeepsInv(b, es[..n]);
      LaterAgrees(b, es, all);
      StepPlaces(b, Run(b, es[..n]), es[n], last);
      var joins := x in Placed(Run(b, es), last) && x !in Placed(Run(b, es[..n]), last);
      ProjectConcat(Serialise(b, es[..n], all), if joins then Project(all, x) else [], r);
      ProjectTwice(all, x, r);
    }
  }

  lemma {:induction false} NoneIn(last: State, r: nat)
    ensures r !in Placed(INIT, last)
  {
  }

  lemma {:induction false} SerialiseIsSerial(b: Backend, es: seq<Event>, all: seq<Event>)
    requires Valid(b, es) && Valid(b, all) && es <= all
    ensures Serial(Serialise(b, es, all))
    decreases |es|
  {
    hide Apply, Enabled, Placed, Inv;
    if es != [] {
      var n, last := |es| - 1, Run(b, all);
      var r := es[n].r;
      SerialiseIsSerial(b, es[..n], all);
      if r in Placed(Run(b, es), last) && r !in Placed(Run(b, es[..n]), last) {
        SameRequests(b, es[..n], all, r);
        ProjectEmpty(Serialise(b, es[..n], all), r);
      } else {
        assert Serialise(b, es[..n], all) + [] == Serialise(b, es[..n], all);
      }
    }
  }

  // ---- Serializability ----

  lemma {:induction false} PlacedAtEnd(s: State)
    ensures Placed(s, s) == AnsweredSet(s)
  {
  }

  /** When no save is late, the run has a serial run of its answered requests, each with the
      same events in the same order, that ends with the same store, the same identifiers
      issued to them and the same answers. */
  lemma {:induction false} Serializable(b: Backend, es: seq<Event>)
    requires Valid(b, es) && NoLateSave(b, es)
    ensures var t := Serialise(b, es, es);
      && SerialRunOf(b, t, es)
      && (forall r :: Project(t, r) == if Answered(Run(b, es), r) then Project(es, r) else [])
  {
    hide NoLateSave, Placed, Keep;
    PlacedAtEnd(Run(b, es));
    Simulation(b, es, es);
    SerialiseIsSerial(b, es, es);
    forall r
      ensures Project(Serialise(b, es, es), r) == if Answered(Run(b, es), r) then Project(es, r) else []
    {
      SameRequests(b, es, es, r);
    }
  }

  lemma {:induction false} SerializableWithoutOverlap(b: Backend, es: seq<Event>)
    requires Valid(b, es) && NonOverlapping(b, es)
    ensures SerialRunOf(b, Serialise(b, es, es), es)
  {
    NoOverlapNoLateSave(b, es);
    Serializable(b, es);
  }

  /** The serial order respects real time: at every point of the run the requests placed so
      far come first; every request answered by then is among them with all its events, and
      no request that arrives later. */
  lemma {:induction false} RespectsRealTime(b: Backend, es: seq<Event>, i: nat)
    requires Valid(b, es) && i <= |es|
    ensures Valid(b, es[..i]) && Serialise(b, es[..i], es) <= Serialise(b, es, es)
    ensures forall r :: Answered(Run(b, es[..i]), r) ==> Project(Serialise(b, es[..i], es), r) == Project(es, r)
    ensures forall r :: r !in Run(b, es[..i]).reqs ==> Project(Serialise(b, es[..i], es), r) == []
  {
    PrefixValid(b, INIT, es, i);
    PlacedSoFar(b, es, i, es);
    forall r
      ensures Answered(Run(b, es[..i]), r) ==> Project(Serialise(b, es[..i], es), r) == Project(es, r)
      ensures r !in Run(b, es[..i]).reqs ==> Project(Serialise(b, es[..i], es), r) == []
    {
      SameRequests(b, es[..i], es, r);
    }
  }

  lemma {:induction false} PlacedSoFar(b: Backend, es: seq<Event>, i: nat, all: seq<Event>)
    requires Valid(b, es) && Valid(b, all) && i <= |es| && Valid(b, es[..i])
    ensures Serialise(b, es[..i], all) <= Serialise(b, es, all)
    decreases |es|
  {
    if i == |es| {
      assert es[..i] == es;
    } else {
      var n := |es| - 1;
      assert es[..n][..i] == es[..i];
      PlacedSoFar(b, es[..n], i, all);
    }
  }

  // ---- The condition is exact ----

  lemma {:induction false} Occurs(b: Backend, es: seq<Event>, r: nat) returns (i: nat)
    requires Valid(b, es) && r in Run(b, es).reqs
    ensures i < |es| && es[i].r == r
    decreases |es|
  {
    hide Inv;
    var n := |es| - 1;
    if es[n].r == r {
      i := n;
    } else {
      i := Occurs(b, es[..n], r);
    }
  }

  /** A request that is open after `i` events and answered at the end moves in between. */
  lemma {:induction false} MovesLater(b: Backend, es: seq<Event>, i: nat, r: nat) returns (k: nat)
    requires Valid(b, es) && i <= |es| && Valid(b, es[..i])
    requires r in Run(b, es[..i]).reqs && !Answered(Run(b, es[..i]), r) && Answered(Run(b, es), r)
    ensures i <= k < |es| && es[k].r == r
    decreases |es|
  {
    assert es[..|es|] == es;
    var n := |es| - 1;
    if es[n].r == r {
      k := n;
    } else {
      assert es[..n][..i] == es[..i];
      k := MovesLater(b, es[..n], i, r);
    }
  }

  /** In a complete serial run only one request is open at a time. */
  lemma {:induction false} OneOpenRequest(b: Backend, t: seq<Event>, i: nat, r: nat, r': nat)
    requires Valid(b, t) && Serial(t) && AllAnswered(Run(b, t)) && i <= |t| && Valid(b, t[..i])
    requires r in Run(b, t[..i]).reqs && !Answered(Run(b, t[..i]), r)
    requires r' in Run(b, t[..i]).reqs && !Answered(Run(b, t[..i]), r')
    ensures r == r'
  {
    RequestsStay(b, t, i);
    var x := Occurs(b, t[..i], r);
    var x' := Occurs(b, t[..i], r');
    var y := MovesLater(b, t, i, r);
    var y' := MovesLater(b, t, i, r');
    assert t[x].r == t[y].r && t[x'].r == t[y'].r;
    assert x < x' < y || x' < x < y' || x == x';
  }

  lemma {:induction false} RequestsStay(b: Backend, t: seq<Event>, i: nat)
    requires Valid(b, t) && i <= |t| && Valid(b, t[..i])
    ensures forall r :: r in Run(b, t[..i]).reqs ==> r in Run(b, t).reqs
  {
    RunEvolves(b, t, i, |t|);
    assert t[..|t|] == t;
  }

  lemma {:induction false} SerialPrefixNoOverlap(b: Backend, t: seq<Event>, i: nat)
    requires Valid(b, t) && Serial(t) && AllAnswered(Run(b, t)) && i <= |t|
    ensures Valid(b, t[..i]) && NonOverlapping(b, t[..i])
    decreases i
  {
    PrefixValid(b, INIT, t, i);
    var s := Run(b, t[..i]);
    forall r, r' | r in s.reqs && r' in s.reqs && Guarded(s.reqs[r]) && Guarded(s.reqs[r'])
      ensures r == r'
    {
      OneOpenRequest(b, t, i, r, r');
    }
    if i > 0 {
      SerialPrefixNoOverlap(b, t, i - 1);
      assert t[..i][..i - 1] == t[..i - 1];
    }
  }

  /** In a complete serial run two requests never both pay for or cancel one order. */
  lemma {:induction false} SerialRunsHaveOneWinner(b: Backend, t: seq<Event>)
    requires Valid(b, t) && Serial(t) && AllAnswered(Run(b, t))
    ensures OneWinner(Run(b, t))
  {
    assert t[..|t|] == t;
    SerialPrefixNoOverlap(b, t, |t|);
    OneWinnerWithoutOverlap(b, t);
  }

  lemma {:induction false} SerialNeedsNoLateSave(b: Backend, t: seq<Event>, es: seq<Event>)
    requires Valid(b, es) && SerialRunOf(b, t, es)
    ensures NoLateSave(b, es)
  {
    hide NoLateSave, Serial;
    SerialRunsHaveOneWinner(b, t);
    var s := Run(b, es);
    forall r, r', o, o' | Won(s, r, o) && Won(s, r', o') && r != r'
      ensures o.orderUuid != o'.orderUuid
    {
      assert Won(Run(b, t), r, o) && Won(Run(b, t), r', o');
    }
    OneWinnerExactly(b, es);
  }

  /** Serializability, exactly: what the answered requests of a run did is what some serial
      run does iff no save of the run is late, that is, iff every pay and cancel that saves
      finds its order still pending. Failures after the pending check do no harm. */
  lemma {:induction false} SerializableExactly(b: Backend, es: seq<Event>)
    requires Valid(b, es)
    ensures (exists t :: SerialRunOf(b, t, es)) <==> NoLateSave(b, es)
  {
    hide SerialRunOf, NoLateSave;
    if NoLateSave(b, es) {
      Serializable(b, es);
    }
    forall t | SerialRunOf(b, t, es)
      ensures NoLateSave(b, es)
    {
      SerialNeedsNoLateSave(b, t, es);
    }
  }

  /** Once every request is answered, the serial run ends in the very same state. */
  lemma {:induction false} SerializableComplete(b: Backend, es: seq<Event>)
    requires Valid(b, es) && AllAnswered(Run(b, es))
    ensures (exists t :: Serial(t) && Valid(b, t) && Run(b, t) == Run(b, es)) <==> NoLateSave(b, es)
  {
    hide NoLateSave, Serial, Valid, Run;
    RunKeepsInv(b, es);
    CompletedIsAll(Run(b, es));
    SerializableExactly(b, es);
    if NoLateSave(b, es) {
      Serializable(b, es);
      assert Serial(Serialise(b, es, es));
    }
    forall t | Serial(t) && Valid(b, t) && Run(b, t) == Run(b, es)
      ensures NoLateSave(b, es)
    {
      assert SerialRunOf(b, t, es);
    }
  }

  lemma {:induction false} CompletedIsAll(s: State)
    requires Inv(s) && AllAnswered(s)
    ensures Completed(s) == s
  {
    forall x | x in s.ids
      ensures s.ids[x].req in AnsweredSet(s)
    {
      assert IdOk(s, x);
    }
    assert Completed(s).ids == s.ids && Completed(s).reqs == s.reqs;
  }

  /** With overlap serializability fails: no complete serial run gives the two requests of
      the stale-cancel run the answers they got in it. */
  lemma {:induction false} OverlapIsNotSerializable(b: Backend, t: seq<Event>)
    requires Valid(b, t) && Serial(t) && AllAnswered(Run(b, t))
    ensures Valid(b, StaleCancelRun())
    ensures var s := Run(b, StaleCancelRun());
            && AllAnswered(s) && 1 in s.reqs && 2 in s.reqs
            && !(1 in Run(b, t).reqs && Run(b, t).reqs[1] == s.reqs[1]
                 && 2 in Run(b, t).reqs && Run(b, t).reqs[2] == s.reqs[2])
  {
    hide Valid, Run, Serial, Coherent;
    var es := StaleCancelRun();
    assert es[..10] == es && IsStaleCancelRun(es);
    DemoCancels(b, es);
    SerialRunsHaveOneWinner(b, t);
    var s := Run(b, es);
    if 1 in Run(b, t).reqs && Run(b, t).reqs[1] == s.reqs[1] && 2 in Run(b, t).reqs {
      assert Won(Run(b, t), 1, DEMO_PAID);
      assert !Won(Run(b, t), 2, DEMO_CANCELLED);
    }
  }
}
