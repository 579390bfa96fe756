/** When a cost is booked, and for how much. */
module Bookings {
  import opened Wrappers
  import opened CaseStores
  import opened Pipeline
  import opened PipelineLaws
  import opened ChainLaws
  import opened OutcomeLaws
  import opened CompletedRuns

  lemma SpentMore(spend: seq<Booking>, b: Booking, kind: CostKind)
    ensures Spent(spend + [b], kind) == Spent(spend, kind) + (if b.kind == kind then [b.amount] else [])
  {
    assert (spend + [b])[..|spend|] == spend;
  }

  lemma MarkedNow(d: CaseData, kind: CostKind, amount: int)
    requires !HasMark(d, kind)
    ensures MarkedAs(Appended(d, CallerId(CostBookedKey(kind)), Caller(CostBooked(kind, amount))).events, kind, amount)
  {
    var after := Appended(d, CallerId(CostBookedKey(kind)), Caller(CostBooked(kind, amount))).events;
    assert after[|d.events|].id == CallerId(CostBookedKey(kind));
  }

  /** What booking does to a world: nothing, or the marker and then the spend. */
  lemma BookPlay(w: World, d: CaseData, o: Oracle, kind: CostKind)
    requires HasMark(w.data, kind) <==> HasMark(d, kind)
    ensures var p := Play(w, BookSteps(d, o, kind, CostOf(o, kind)));
            p.error.None?
            && p.world.spend == w.spend + (if Billed(d, o, kind) then [Booking(kind, CostOf(o, kind))] else [])
            && (Billed(d, o, kind) ==> MarkedAs(p.world.data.events, kind, CostOf(o, kind)))
            && w.data.events <= p.world.data.events
            && forall other :: other != kind ==> (HasMark(p.world.data, other) <==> HasMark(w.data, other))
  {
    var steps := BookSteps(d, o, kind, CostOf(o, kind));
    PublicOriginIs(d.events);
    LogOnlyGrows(w, steps);
    if Billed(d, o, kind) {
      var mark, add := steps[0], steps[1];
      var w1 := Perform(w, mark).world;
      assert steps == [mark] + [add];
      PlayConcat(w, [mark], [add]);
      PlayOne(w, mark);
      PlayOne(w1, add);
      MarkedNow(w.data, kind, CostOf(o, kind));
      forall other | other != kind ensures HasMark(w1.data, other) <==> HasMark(w.data, other) {
        LogsStep(w, mark, CostBookedKey(other));
      }
    } else {
      assert steps == [];
    }
  }

  /** The photo, and what is paid for it. */
  lemma PhotoPlay(w: World, o: Oracle)
    ensures var p := Play(w, PhotoSteps(w.data, o));
            p.error.None?
            && p.world.spend == w.spend + (if Billed(w.data, o, StreetViewFetch) then [Booking(StreetViewFetch, CostOf(o, StreetViewFetch))] else [])
            && (Billed(w.data, o, StreetViewFetch) ==> MarkedAs(p.world.data.events, StreetViewFetch, CostOf(o, StreetViewFetch)))
            && (HasMark(p.world.data, TribunalLedger) <==> HasMark(w.data, TribunalLedger))
  {
    if o.fallbackPhoto.Some? {
      var note := LogNote(DocumentUploadedKey(o.fallbackPhoto.value.0), "document_uploaded");
      PlayOne(w, note);
      var w1 := Perform(w, note).world;
      CostlessStep(w, note);
      PlayConcat(w, [note], BookSteps(w.data, o, StreetViewFetch, CostOf(o, StreetViewFetch)));
      BookPlay(w1, w.data, o, StreetViewFetch);
    } else {
      assert Play(w, []) == Progress(w, None);
    }
  }

  ghost function Bill(d: CaseData, o: Oracle, kind: CostKind): seq<Booking> {
    if Billed(d, o, kind) then [Booking(kind, CostOf(o, kind))] else []
  }

  lemma SpentOfBill(spend: seq<Booking>, d: CaseData, o: Oracle, billed: CostKind, kind: CostKind)
    ensures Spent(spend + Bill(d, o, billed), kind)
            == Spent(spend, kind) + (if billed == kind && Billed(d, o, kind) then [CostOf(o, kind)] else [])
  {
    SpentMore(spend, Booking(billed, CostOf(o, billed)), kind);
    assert spend + [] == spend;
  }

  /** The photo is paid for first, the ledger last, and nothing else is. */
  lemma CompletedPlay(w: World, o: Oracle) returns (w1: World, w3: World, after: World)
    requires !Composed(w.data.events)
    ensures after == Play(w, Plan(w.data, o)).world
    ensures after.spend == w.spend + Bill(w.data, o, StreetViewFetch) + Bill(w.data, o, TribunalLedger)
    ensures w1.data.events <= w3.data.events <= after.data.events
    ensures Billed(w.data, o, StreetViewFetch) ==> MarkedAs(w1.data.events, StreetViewFetch, CostOf(o, StreetViewFetch))
    ensures Billed(w.data, o, TribunalLedger) ==> MarkedAs(w3.data.events, TribunalLedger, CostOf(o, TribunalLedger))
  {
    var d := w.data;
    ExecutionIsLegal(w, o);
    PlanAroundBookings(d, o);
    var photo, middle := PhotoSteps(d, o), MiddleSteps(d, o);
    var book, close := BookSteps(d, o, TribunalLedger, o.ledgerTotal), CloseSteps(o);
    PlayParts(w, photo, middle, book, close);
    w1 := Play(w, photo).world;
    var w2 := Play(w1, middle).world;
    w3 := Play(w2, book).world;
    after := Play(w3, close).world;
    PhotoPlay(w, o);
    CostlessPlay(w1, middle);
    LogOnlyGrows(w1, middle);
    BookPlay(w2, d, o, TribunalLedger);
    CostlessPlay(w3, close);
    LogOnlyGrows(w3, close);
  }

  /** A completed execution books each kind of cost exactly when the case was created public,
      the guard is wired, the amount is positive and no marker was there when it started;
      it books that amount, and the marker names it. Otherwise spend and marker stay. */
  lemma CompletedBooks(w: World, o: Oracle, kind: CostKind)
    requires !Composed(w.data.events)
    ensures var after := Play(w, Plan(w.data, o)).world;
            Spent(after.spend, kind) == Spent(w.spend, kind) + (if Billed(w.data, o, kind) then [CostOf(o, kind)] else [])
            && (Billed(w.data, o, kind) ==> MarkedAs(after.data.events, kind, CostOf(o, kind)))
            && (HasMark(after.data, kind) <==> HasMark(w.data, kind) || Billed(w.data, o, kind))
  {
    LoggedIff(w, o, CostBookedKey(kind));
    var w1, w3, after := CompletedPlay(w, o);
    SpentOfBill(w.spend, w.data, o, StreetViewFetch, kind);
    SpentOfBill(w.spend + Bill(w.data, o, StreetViewFetch), w.data, o, TribunalLedger, kind);
    if Billed(w.data, o, kind) {
      MarkedStays(if kind == StreetViewFetch then w1.data.events else w3.data.events, after.data.events, kind, CostOf(o, kind));
    }
  }

  lemma PlayParts(w: World, a: seq<Step>, b: seq<Step>, c: seq<Step>, e: seq<Step>)
    requires Play(w, a + b + c + e).error.None?
    ensures Play(w, a).error.None? && Play(Play(w, a).world, b).error.None?
    ensures var w2 := Play(Play(w, a).world, b).world;
            Play(w2, c).error.None? && Play(w, a + b + c + e) == Play(Play(w2, c).world, e)
  {
    PlayConcat(w, a + b + c, e);
    PlayConcat(w, a + b, c);
    PlayConcat(w, a, b);
  }

  // ---------------------------------------------------------------- from a new case

  lemma {:induction false} PreparedKeepsLog(d: CaseData, ops: seq<Op>)
    ensures d.events <= Prepared(d, ops).events
  {
    if ops != [] {
      PreparedKeepsLog(d, ops[..|ops| - 1]);
    }
  }

  /** The origin a case was created with stays, whatever residents do to it. */
  lemma OriginStays(c: CaseId, publicOrigin: bool, judgeOrigin: bool, ops: seq<Op>)
    ensures MadePublic(Prepared(NewCase(c, publicOrigin, judgeOrigin), ops).events) <==> publicOrigin
  {
    var d := NewCase(c, publicOrigin, judgeOrigin);
    PreparedKeepsLog(d, ops);
    assert |d.events| == 1 && d.events[0].body == CaseCreated(publicOrigin, judgeOrigin);
    assert Prepared(d, ops).events[0] == d.events[0];
  }

  /** From a new case and whatever residents then did, the first execution to complete books
      each cost exactly when the case is public, and its other origin does not matter. */
  lemma NewCaseBooks(c: CaseId, publicOrigin: bool, judgeOrigin: bool, ops: seq<Op>, o: Oracle, kind: CostKind)
    requires !Composed(Prepared(NewCase(c, publicOrigin, judgeOrigin), ops).events)
    ensures var d := Prepared(NewCase(c, publicOrigin, judgeOrigin), ops);
            var after := Play(World(d, []), Plan(d, o)).world;
            Spent(after.spend, kind) ==
            if publicOrigin && o.guardWired && CostOf(o, kind) > 0 && !HasMark(d, kind) then [CostOf(o, kind)] else []
  {
    OriginStays(c, publicOrigin, judgeOrigin, ops);
    CompletedBooks(World(Prepared(NewCase(c, publicOrigin, judgeOrigin), ops), []), o, kind);
  }
}
