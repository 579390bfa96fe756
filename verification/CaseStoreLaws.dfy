/** Laws of the case store: the log determines the records, and replaying operations
    on their own result changes nothing. */
module CaseStoreLaws {
  import opened Wrappers
  import opened CaseStores

  // ---------------------------------------------------------------- event sourcing

  /** The status every ground must have, read off the log alone. */
  function StatusFold(events: seq<CaseEvent>): map<GroundId, GroundStatus> {
    if events == [] then map[]
    else
      var before := StatusFold(events[..|events| - 1]);
      match events[|events| - 1].body
      case GroundProposed(g, _) => before[g := Proposed]
      case StatusChanged(g, _, to) => before[g := to]
      case _ => before
  }

  function Statuses(d: CaseData): map<GroundId, GroundStatus> {
    map g | g in d.grounds :: d.grounds[g].status
  }

  /** A ground that reads `current` has been through `s`. */
  predicate Passed(s: GroundStatus, current: GroundStatus) {
    s == current || s == Proposed || (s == UnderReview && Terminal(current))
  }

  /** Every event is of the type its id announces, and tells the truth. */
  ghost predicate Truthful(d: CaseData, e: CaseEvent) {
    match e.id
    case CreatedId => e.body.CaseCreated?
    case ProposedId(g) => g in d.grounds && e.body == GroundProposed(g, d.grounds[g].claim)
    case StatusId(g, s) =>
      g in d.grounds && s != Proposed && Passed(s, d.grounds[g].status)
      && e.body.StatusChanged? && e.body.g == g && e.body.to == s && Allowed(e.body.from, s)
    case AnchoredId(g, doc, page, _) => g in d.grounds && e.body == EvidenceAnchored(g, doc, page)
    case CallerId(_) => e.body.Caller?
  }

  ghost predicate LogInOrder(events: seq<CaseEvent>) {
    && (forall i :: 0 <= i < |events| ==> events[i].sequence == i)
    && (forall i, j :: 0 <= i < j < |events| ==> events[i].id != events[j].id)
    && events != [] && events[0].id == CreatedId
  }

  ghost predicate Keyed(d: CaseData) {
    && (forall i, j :: 0 <= i < j < |d.order| ==> d.order[i] != d.order[j])
    && (forall g :: g in d.order <==> g in d.grounds)
    && (forall g :: g in d.grounds ==> d.grounds[g].id == g)
  }

  /** Nothing happened to a ground that the log does not show. */
  ghost predicate Complete(d: CaseData) {
    && (forall g :: g in d.grounds ==> Logged(d.events, ProposedId(g)))
    && (forall g, s :: g in d.grounds && s != Proposed && Passed(s, d.grounds[g].status) ==>
          Logged(d.events, StatusId(g, s)))
  }

  ghost predicate AllTruthful(d: CaseData) {
    forall i :: 0 <= i < |d.events| ==> Truthful(d, d.events[i])
  }

  ghost predicate Coherent(d: CaseData) {
    LogInOrder(d.events) && Keyed(d) && Complete(d) && AllTruthful(d) && StatusFold(d.events) == Statuses(d)
  }

  /** No ground loses its claim or its past. */
  ghost predicate Advances(d: CaseData, d': CaseData) {
    forall g :: g in d.grounds ==>
      g in d'.grounds && d'.grounds[g].claim == d.grounds[g].claim
      && (d'.grounds[g].status == d.grounds[g].status || Allowed(d.grounds[g].status, d'.grounds[g].status))
  }

  lemma NotYetProposed(d: CaseData, g: GroundId)
    requires AllTruthful(d) && g !in d.grounds
    ensures !Logged(d.events, ProposedId(g))
  {
    forall i | 0 <= i < |d.events| ensures d.events[i].id != ProposedId(g) {
      assert Truthful(d, d.events[i]);
    }
  }

  lemma NotYetPassed(d: CaseData, g: GroundId, s: GroundStatus)
    requires AllTruthful(d) && g in d.grounds && !Passed(s, d.grounds[g].status)
    ensures !Logged(d.events, StatusId(g, s))
  {
    forall i | 0 <= i < |d.events| ensures d.events[i].id != StatusId(g, s) {
      assert Truthful(d, d.events[i]);
    }
  }

  lemma LoggedStays(d: CaseData, id: EventId, body: Body, other: EventId)
    requires Logged(d.events, other) || other == id
    ensures Logged(Appended(d, id, body).events, other)
  {
    var d' := Appended(d, id, body);
    if Logged(d.events, other) {
      var i :| 0 <= i < |d.events| && d.events[i].id == other;
      assert d'.events[i].id == other;
    } else {
      assert d'.events[|d.events|].id == id;
    }
  }

  lemma FoldOfAppend(d: CaseData, id: EventId, body: Body)
    ensures StatusFold(Appended(d, id, body).events) ==
            if Logged(d.events, id) then StatusFold(d.events)
            else match body
                 case GroundProposed(g, _) => StatusFold(d.events)[g := Proposed]
                 case StatusChanged(g, _, to) => StatusFold(d.events)[g := to]
                 case _ => StatusFold(d.events)
  {
    var d' := Appended(d, id, body);
    if !Logged(d.events, id) {
      assert d'.events[..|d'.events| - 1] == d.events;
    }
  }

  lemma StillTruthful(d: CaseData, d': CaseData, e: CaseEvent)
    requires Truthful(d, e) && Advances(d, d')
    ensures Truthful(d', e)
  {}

  /** After the records moved on, one truthful event may be added to the log. */
  lemma LogGrows(d: CaseData, mid: CaseData, id: EventId, body: Body)
    requires Coherent(d) && mid.events == d.events && Advances(d, mid)
    requires Truthful(mid, CaseEvent(id, body, |d.events|))
    ensures var d' := Appended(mid, id, body);
            LogInOrder(d'.events) && AllTruthful(d') && d.events <= d'.events
  {
    var d' := Appended(mid, id, body);
    forall i | 0 <= i < |d'.events| ensures Truthful(d', d'.events[i]) {
      if i < |d.events| {
        assert d'.events[i] == d.events[i];
        StillTruthful(d, d', d.events[i]);
      } else {
        assert d'.events[i] == CaseEvent(id, body, |d.events|);
      }
    }
  }

  lemma ProposalStaysComplete(d: CaseData, mid: CaseData, g: GroundId, body: Body)
    requires Complete(d) && g !in d.grounds && mid.events == d.events
    requires mid.grounds.Keys == d.grounds.Keys + {g} && mid.grounds[g].status == Proposed
    requires forall h :: h in d.grounds ==> mid.grounds[h] == d.grounds[h]
    ensures Complete(Appended(mid, ProposedId(g), body))
  {
    var id := ProposedId(g);
    var d' := Appended(mid, id, body);
    forall h | h in d'.grounds ensures Logged(d'.events, ProposedId(h)) {
      LoggedStays(mid, id, body, ProposedId(h));
    }
    forall h, s | h in d'.grounds && s != Proposed && Passed(s, d'.grounds[h].status)
      ensures Logged(d'.events, StatusId(h, s))
    {
      assert h in d.grounds && Logged(d.events, StatusId(h, s));
      LoggedStays(mid, id, body, StatusId(h, s));
    }
  }

  lemma ProposalAdvances(d: CaseData, g: GroundId, record: GroundRecord)
    requires Keyed(d) && g !in d.grounds && record.id == g && record.status == Proposed
    ensures var mid := d.(order := d.order + [g], grounds := d.grounds[g := record]);
            Keyed(mid) && Advances(d, mid) && Statuses(mid) == Statuses(d)[g := Proposed]
  {
    var mid := d.(order := d.order + [g], grounds := d.grounds[g := record]);
    assert mid.grounds.Keys == d.grounds.Keys + {g};
    forall h ensures h in mid.order <==> h in mid.grounds {
      assert h in d.order <==> h in d.grounds;
    }
  }

  lemma ProposeIsSourced(d: CaseData, g: GroundId, claim: string, anchors: seq<Anchor>)
    requires Coherent(d)
    ensures var d' := Apply(d, Propose(g, claim, anchors)).value; Coherent(d') && d.events <= d'.events
  {
    if g !in d.grounds {
      var record := GroundRecord(g, claim, Proposed, anchors);
      var mid := d.(order := d.order + [g], grounds := d.grounds[g := record]);
      var id, body := ProposedId(g), GroundProposed(g, claim);
      NotYetProposed(d, g);
      ProposalAdvances(d, g, record);
      LogGrows(d, mid, id, body);
      FoldOfAppend(mid, id, body);
      ProposalStaysComplete(d, mid, g, body);
      assert Statuses(Appended(mid, id, body)) == Statuses(mid);
    }
  }

  lemma TransitionStaysComplete(d: CaseData, mid: CaseData, g: GroundId, status: GroundStatus, body: Body)
    requires Complete(d) && g in d.grounds && Allowed(d.grounds[g].status, status)
    requires mid == d.(grounds := d.grounds[g := d.grounds[g].(status := status)])
    ensures Complete(Appended(mid, StatusId(g, status), body))
  {
    var id := StatusId(g, status);
    var d' := Appended(mid, id, body);
    forall h | h in d'.grounds ensures Logged(d'.events, ProposedId(h)) {
      LoggedStays(mid, id, body, ProposedId(h));
    }
    forall h, s | h in d'.grounds && s != Proposed && Passed(s, d'.grounds[h].status)
      ensures Logged(d'.events, StatusId(h, s))
    {
      if h != g || s != status {
        assert Passed(s, d.grounds[h].status);
        assert Logged(d.events, StatusId(h, s));
      }
      LoggedStays(mid, id, body, StatusId(h, s));
    }
  }

  /** Replacing one ground's record by a later one of its own. */
  lemma RecordMoves(d: CaseData, g: GroundId, record: GroundRecord)
    requires Keyed(d) && g in d.grounds && record.id == g && record.claim == d.grounds[g].claim
    requires record.status == d.grounds[g].status || Allowed(d.grounds[g].status, record.status)
    ensures var mid := d.(grounds := d.grounds[g := record]);
            Keyed(mid) && Advances(d, mid) && Statuses(mid) == Statuses(d)[g := record.status]
  {
    var mid := d.(grounds := d.grounds[g := record]);
    assert mid.grounds.Keys == d.grounds.Keys;
    forall h ensures h in mid.order <==> h in mid.grounds {
      assert h in d.order <==> h in d.grounds;
    }
  }

  lemma MovedRecords(d: CaseData, mid: CaseData, g: GroundId, status: GroundStatus, body: Body)
    requires Keyed(d) && Complete(d) && StatusFold(d.events) == Statuses(d)
    requires g in d.grounds && Allowed(d.grounds[g].status, status) && !Logged(d.events, StatusId(g, status))
    requires mid == d.(grounds := d.grounds[g := d.grounds[g].(status := status)])
    requires body == StatusChanged(g, d.grounds[g].status, status)
    ensures var d' := Appended(mid, StatusId(g, status), body);
            Keyed(d') && Complete(d') && StatusFold(d'.events) == Statuses(d')
  {
    var d' := Appended(mid, StatusId(g, status), body);
    RecordMoves(d, g, d.grounds[g].(status := status));
    TransitionStaysComplete(d, mid, g, status, body);
    FoldOfAppend(mid, StatusId(g, status), body);
    assert Statuses(d') == Statuses(mid);
  }

  lemma MovedLog(d: CaseData, mid: CaseData, g: GroundId, status: GroundStatus, body: Body)
    requires Coherent(d) && g in d.grounds && Allowed(d.grounds[g].status, status)
    requires mid == d.(grounds := d.grounds[g := d.grounds[g].(status := status)])
    requires body == StatusChanged(g, d.grounds[g].status, status)
    ensures var d' := Appended(mid, StatusId(g, status), body);
            LogInOrder(d'.events) && AllTruthful(d') && d.events <= d'.events
    ensures !Logged(d.events, StatusId(g, status))
  {
    assert !Passed(status, d.grounds[g].status);
    NotYetPassed(d, g, status);
    RecordMoves(d, g, d.grounds[g].(status := status));
    LogGrows(d, mid, StatusId(g, status), body);
  }

  lemma TransitionIsSourced(d: CaseData, g: GroundId, status: GroundStatus)
    requires Coherent(d) && Apply(d, Transition(g, status)).Ok?
    ensures var d' := Apply(d, Transition(g, status)).value; Coherent(d') && d.events <= d'.events
  {
    var current := d.grounds[g];
    if current.status != status {
      var mid := d.(grounds := d.grounds[g := current.(status := status)]);
      MovedLog(d, mid, g, status, StatusChanged(g, current.status, status));
      MovedRecords(d, mid, g, status, StatusChanged(g, current.status, status));
    }
  }

  /** Records whose status did not move, and an event of another kind. */
  lemma OtherwiseSourced(d: CaseData, mid: CaseData, id: EventId, body: Body)
    requires Coherent(d) && Keyed(mid) && mid.events == d.events
    requires Statuses(mid) == Statuses(d) && Advances(d, mid)
    requires Truthful(mid, CaseEvent(id, body, |d.events|))
    requires body.EvidenceAnchored? || body.Caller?
    ensures var d' := Appended(mid, id, body); Coherent(d') && d.events <= d'.events
  {
    var d' := Appended(mid, id, body);
    LogGrows(d, mid, id, body);
    FoldOfAppend(mid, id, body);
    assert Statuses(d') == Statuses(mid);
    forall h | h in d'.grounds ensures h in d.grounds && d.grounds[h].status == d'.grounds[h].status {
      assert h in Statuses(mid) && Statuses(mid)[h] == d'.grounds[h].status;
      assert h in Statuses(d);
    }
    forall h | h in d'.grounds ensures Logged(d'.events, ProposedId(h)) {
      LoggedStays(mid, id, body, ProposedId(h));
    }
    forall h, s | h in d'.grounds && s != Proposed && Passed(s, d'.grounds[h].status)
      ensures Logged(d'.events, StatusId(h, s))
    {
      assert Logged(d.events, StatusId(h, s));
      LoggedStays(mid, id, body, StatusId(h, s));
    }
  }

  lemma AnchoredIsSourced(d: CaseData, mid: CaseData, g: GroundId, anchors: seq<Anchor>, id: EventId, body: Body)
    requires Coherent(d) && g in d.grounds
    requires mid == d.(grounds := d.grounds[g := d.grounds[g].(anchors := anchors)])
    requires id.AnchoredId? && id.g == g && body == EvidenceAnchored(g, id.doc, id.page)
    ensures var d' := Appended(mid, id, body); Coherent(d') && d.events <= d'.events
  {
    RecordMoves(d, g, d.grounds[g].(anchors := anchors));
    assert Statuses(mid) == Statuses(d);
    OtherwiseSourced(d, mid, id, body);
  }

  lemma AnchorIsSourced(d: CaseData, g: GroundId, anchor: Anchor)
    requires Coherent(d) && g in d.grounds
    ensures var d' := Apply(d, AddAnchor(g, anchor)).value; Coherent(d') && d.events <= d'.events
  {
    var current := d.grounds[g];
    if anchor !in current.anchors {
      var anchors := current.anchors + [anchor];
      AnchoredIsSourced(d, d.(grounds := d.grounds[g := current.(anchors := anchors)]), g, anchors,
                        AnchorEventId(g, anchor), EvidenceAnchored(g, anchor.sourceDoc, anchor.page));
    }
  }

  lemma NoteIsSourced(d: CaseData, key: Key, note: Note)
    requires Coherent(d)
    ensures var d' := Apply(d, Append(key, note)).value; Coherent(d') && d.events <= d'.events
  {
    OtherwiseSourced(d, d, CallerId(key), Caller(note));
  }

  lemma SaveIsSourced(d: CaseData, d': CaseData)
    requires Coherent(d) && d'.events == d.events && d'.grounds == d.grounds && d'.order == d.order
    ensures Coherent(d')
  {
    forall i | 0 <= i < |d'.events| ensures Truthful(d', d'.events[i]) {
      assert Truthful(d, d.events[i]);
    }
    assert Statuses(d') == Statuses(d);
  }

  /** Every operation that does not raise keeps log and records in agreement, and only
      ever adds to the log. */
  lemma ApplyIsSourced(d: CaseData, op: Op)
    requires Coherent(d) && Apply(d, op).Ok?
    ensures Coherent(Apply(d, op).value) && d.events <= Apply(d, op).value.events
  {
    match op
    case Propose(g, claim, anchors) => ProposeIsSourced(d, g, claim, anchors);
    case Transition(g, status) => TransitionIsSourced(d, g, status);
    case AddAnchor(g, anchor) => AnchorIsSourced(d, g, anchor);
    case Append(key, note) => NoteIsSourced(d, key, note);
    case SaveBreaker(name, snapshot) => SaveIsSourced(d, Apply(d, op).value);
    case SaveLedger(calls) => SaveIsSourced(d, Apply(d, op).value);
  }

  /** Operations in order, an exception leaving the store as it was. */
  function RunAll(cases: Cases, ops: seq<StoreOp>): Cases {
    if ops == [] then cases
    else After(RunAll(cases, ops[..|ops| - 1]), ops[|ops| - 1])
  }

  ghost predicate AllCoherent(cases: Cases) {
    forall c :: c in cases ==> Coherent(cases[c])
  }

  /** Old logs are prefixes of new ones, and no case is ever lost. */
  ghost predicate Grown(before: Cases, after: Cases) {
    forall c :: c in before ==> c in after && before[c].events <= after[c].events
  }

  lemma NewCaseIsSourced(c: CaseId, publicOrigin: bool, judgeOrigin: bool)
    ensures Coherent(NewCase(c, publicOrigin, judgeOrigin))
  {
    var d := NewCase(c, publicOrigin, judgeOrigin);
    assert d.events == [CaseEvent(CreatedId, CaseCreated(publicOrigin, judgeOrigin), 0)];
    assert StatusFold(d.events) == Statuses(d) == map[];
  }

  lemma PutIsSourced(cases: Cases, c: CaseId, d: CaseData)
    requires AllCoherent(cases) && Coherent(d) && (c in cases ==> cases[c].events <= d.events)
    ensures AllCoherent(cases[c := d]) && Grown(cases, cases[c := d])
  {}

  lemma AfterIsSourced(cases: Cases, op: StoreOp)
    requires AllCoherent(cases)
    ensures AllCoherent(After(cases, op)) && Grown(cases, After(cases, op))
  {
    match op
    case Create(app, session, public, judge) =>
      var c := CaseId(app, session);
      if c !in cases {
        NewCaseIsSourced(c, public, judge);
        PutIsSourced(cases, c, NewCase(c, public, judge));
      }
    case On(c, op) =>
      if c in cases && Apply(cases[c], op).Ok? {
        ApplyIsSourced(cases[c], op);
        PutIsSourced(cases, c, Apply(cases[c], op).value);
      }
  }

  /** In every store state any operations can reach, for every case: each ground's
      status is the fold of its events, the i-th event has sequence i, ids are unique,
      and the log at any earlier time is a prefix of the log now. */
  lemma {:induction false} StoreIsEventSourced(ops: seq<StoreOp>, k: nat)
    requires k <= |ops|
    ensures AllCoherent(RunAll(map[], ops))
    ensures Grown(RunAll(map[], ops[..k]), RunAll(map[], ops))
  {
    if ops == [] {
      assert ops[..k] == [];
    } else {
      var init := ops[..|ops| - 1];
      StoreIsEventSourced(init, if k < |ops| then k else 0);
      AfterIsSourced(RunAll(map[], init), ops[|ops| - 1]);
      if k < |ops| {
        assert init[..k] == ops[..k];
      } else {
        assert ops[..k] == ops;
      }
    }
  }

  // ---------------------------------------------------------------- resuming

  /** The operations whose replay is meant to be harmless; a saved breaker or ledger is
      simply overwritten. */
  predicate Replayable(op: StoreOp) { op.Create? || (!op.op.SaveBreaker? && !op.op.SaveLedger?) }

  predicate AllSucceed(cases: Cases, ops: seq<StoreOp>) {
    ops == [] || (AllSucceed(cases, ops[..|ops| - 1])
                  && ApplyStore(RunAll(cases, ops[..|ops| - 1]), ops[|ops| - 1]).Ok?)
  }

  /** What `op` asks for has been done, or has been gone past. */
  predicate Absorbed(cases: Cases, op: StoreOp) {
    match op
    case Create(app, session, _, _) => CaseId(app, session) in cases
    case On(c, op) =>
      c in cases && match op
        case Propose(g, _, _) => g in cases[c].grounds
        case Transition(g, s) => g in cases[c].grounds && Passed(s, cases[c].grounds[g].status)
        case AddAnchor(g, a) => g in cases[c].grounds && a in cases[c].grounds[g].anchors
        case Append(key, _) => Logged(cases[c].events, CallerId(key))
        case _ => false
  }

  /** A transition that has been gone past, not merely reached. */
  predicate Overtaken(cases: Cases, op: StoreOp) {
    op.On? && op.op.Transition? && op.c in cases && op.op.g in cases[op.c].grounds
    && cases[op.c].grounds[op.op.g].status != op.op.status
  }

  lemma SuccessAbsorbs(cases: Cases, op: StoreOp)
    requires Replayable(op) && ApplyStore(cases, op).Ok?
    ensures Absorbed(After(cases, op), op)
  {
    if op.On? && op.op.Append? {
      var d := cases[op.c];
      var d' := Apply(d, op.op).value;
      if !Logged(d.events, CallerId(op.op.key)) {
        assert d'.events[|d.events|].id == CallerId(op.op.key);
      }
    }
  }

  lemma AbsorbedStays(cases: Cases, op: StoreOp, next: StoreOp)
    requires Absorbed(cases, op)
    ensures Absorbed(After(cases, next), op)
  {
    var cases' := After(cases, next);
    if next.On? && next.c in cases && Apply(cases[next.c], next.op).Ok? {
      var d, d' := cases[next.c], Apply(cases[next.c], next.op).value;
      assert d.events <= d'.events;
      if op.On? && op.c == next.c && op.op.Append? {
        var i :| 0 <= i < |d.events| && d.events[i].id == CallerId(op.op.key);
        assert d'.events[i].id == CallerId(op.op.key);
      }
    }
  }

  /** Replayed on a store that has absorbed it, an operation changes nothing, and it is
      refused exactly when it is a transition gone past. */
  lemma AbsorbedIsIdle(cases: Cases, op: StoreOp)
    requires Absorbed(cases, op)
    ensures After(cases, op) == cases
    ensures ApplyStore(cases, op).Err? <==> Overtaken(cases, op)
  {
    if op.On? {
      assert cases[op.c := cases[op.c]] == cases;
    }
  }

  lemma {:induction false} RunAllConcat(cases: Cases, a: seq<StoreOp>, b: seq<StoreOp>)
    ensures RunAll(cases, a + b) == RunAll(RunAll(cases, a), b)
  {
    if b == [] {
      assert a + b == a;
    } else {
      assert (a + b)[..|a + b| - 1] == a + b[..|b| - 1];
      RunAllConcat(cases, a, b[..|b| - 1]);
    }
  }

  lemma {:induction false} StaysThrough(cases: Cases, op: StoreOp, ops: seq<StoreOp>)
    requires Absorbed(cases, op)
    ensures Absorbed(RunAll(cases, ops), op)
  {
    if ops != [] {
      StaysThrough(cases, op, ops[..|ops| - 1]);
      AbsorbedStays(RunAll(cases, ops[..|ops| - 1]), op, ops[|ops| - 1]);
    }
  }

  lemma {:induction false} RunAbsorbs(cases: Cases, ops: seq<StoreOp>, i: nat)
    requires AllSucceed(cases, ops) && i < |ops| && forall j :: 0 <= j < |ops| ==> Replayable(ops[j])
    ensures Absorbed(RunAll(cases, ops), ops[i])
  {
    var init := ops[..|ops| - 1];
    if i < |ops| - 1 {
      assert forall j :: 0 <= j < |init| ==> init[j] == ops[j];
      RunAbsorbs(cases, init, i);
      AbsorbedStays(RunAll(cases, init), ops[i], ops[|ops| - 1]);
    } else {
      SuccessAbsorbs(RunAll(cases, init), ops[i]);
    }
  }

  lemma {:induction false} IdleRun(cases: Cases, ops: seq<StoreOp>)
    requires forall i :: 0 <= i < |ops| ==> Absorbed(cases, ops[i])
    ensures RunAll(cases, ops) == cases
  {
    if ops != [] {
      var init := ops[..|ops| - 1];
      assert forall i :: 0 <= i < |init| ==> init[i] == ops[i];
      IdleRun(cases, init);
      assert Absorbed(cases, ops[|ops| - 1]);
      AbsorbedIsIdle(cases, ops[|ops| - 1]);
    }
  }

  /** Replaying a sequence that succeeded on its own result changes no ground and no
      event; the i-th operation is refused exactly when it is a transition its ground has
      since left behind. */
  lemma ReplayChangesNothing(cases: Cases, ops: seq<StoreOp>)
    requires AllSucceed(cases, ops) && forall j :: 0 <= j < |ops| ==> Replayable(ops[j])
    ensures var done := RunAll(cases, ops);
            RunAll(done, ops) == done
            && forall i :: 0 <= i < |ops| ==>
                 (ApplyStore(RunAll(done, ops[..i]), ops[i]).Err? <==> Overtaken(done, ops[i]))
  {
    var done := RunAll(cases, ops);
    forall i | 0 <= i < |ops| ensures Absorbed(done, ops[i]) {
      RunAbsorbs(cases, ops, i);
    }
    IdleRun(done, ops);
    forall i | 0 <= i < |ops|
      ensures ApplyStore(RunAll(done, ops[..i]), ops[i]).Err? <==> Overtaken(done, ops[i])
    {
      assert forall j :: 0 <= j < i ==> ops[..i][j] == ops[j];
      IdleRun(done, ops[..i]);
      assert Absorbed(done, ops[i]);
      AbsorbedIsIdle(done, ops[i]);
    }
  }

  /** So a replay raises nothing exactly when no ground has left a status the sequence
      drove it to: the promise that a resumed run never fails on work already done does
      not cover a ground driven to its end. */
  lemma ReplaySucceedsIff(cases: Cases, ops: seq<StoreOp>)
    requires AllSucceed(cases, ops) && forall j :: 0 <= j < |ops| ==> Replayable(ops[j])
    ensures var done := RunAll(cases, ops);
            AllSucceed(done, ops) <==> forall i :: 0 <= i < |ops| ==> !Overtaken(done, ops[i])
  {
    ReplayChangesNothing(cases, ops);
    var done := RunAll(cases, ops);
    AllSucceedIff(done, ops);
    forall i | 0 <= i < |ops| ensures SucceedsAt(done, ops, i) <==> !Overtaken(done, ops[i]) {}
  }

  predicate SucceedsAt(cases: Cases, ops: seq<StoreOp>, i: nat)
    requires i < |ops|
  {
    ApplyStore(RunAll(cases, ops[..i]), ops[i]).Ok?
  }

  lemma {:induction false} AllSucceedIff(cases: Cases, ops: seq<StoreOp>)
    ensures AllSucceed(cases, ops) <==> forall i :: 0 <= i < |ops| ==> SucceedsAt(cases, ops, i)
  {
    if ops != [] {
      var init := ops[..|ops| - 1];
      AllSucceedIff(cases, init);
      forall i | 0 <= i < |init| ensures SucceedsAt(cases, init, i) <==> SucceedsAt(cases, ops, i) {
        assert init[..i] == ops[..i];
      }
      assert SucceedsAt(cases, ops, |init|) <==> ApplyStore(RunAll(cases, init), ops[|init|]).Ok?;
    }
  }

  lemma OneMoreSucceeds(cases: Cases, ops: seq<StoreOp>, op: StoreOp)
    requires AllSucceed(cases, ops) && ApplyStore(RunAll(cases, ops), op).Ok?
    ensures AllSucceed(cases, ops + [op]) && RunAll(cases, ops + [op]) == After(RunAll(cases, ops), op)
  {
    assert (ops + [op])[..|ops|] == ops;
  }

  lemma ThenSucceeds(cases: Cases, ops: seq<StoreOp>, c: CaseId, op: Op, d: CaseData, d': CaseData)
    requires AllSucceed(cases, ops) && c in RunAll(cases, ops) && RunAll(cases, ops)[c] == d && Apply(d, op) == Ok(d')
    ensures AllSucceed(cases, ops + [On(c, op)])
    ensures c in RunAll(cases, ops + [On(c, op)]) && RunAll(cases, ops + [On(c, op)])[c] == d'
  {
    OneMoreSucceeds(cases, ops, On(c, op));
  }

  /** Propose a ground and review it to an end. */
  function ReviewedOnce(c: CaseId, g: GroundId): seq<StoreOp> {
    [Create(c.applicationNumber, c.residentSession, false, false), On(c, Propose(g, "", [])),
     On(c, Transition(g, UnderReview)), On(c, Transition(g, Supported))]
  }

  lemma CreatedOnce(c: CaseId)
    ensures var ops := [Create(c.applicationNumber, c.residentSession, false, false)];
            AllSucceed(map[], ops) && c in RunAll(map[], ops) && RunAll(map[], ops)[c] == NewCase(c, false, false)
  {
    var none: seq<StoreOp> := [];
    OneMoreSucceeds(map[], none, Create(c.applicationNumber, c.residentSession, false, false));
    assert none + [Create(c.applicationNumber, c.residentSession, false, false)]
           == [Create(c.applicationNumber, c.residentSession, false, false)];
  }

  lemma ReviewSucceeds(c: CaseId, g: GroundId)
    ensures var ops := ReviewedOnce(c, g);
            AllSucceed(map[], ops) && c in RunAll(map[], ops) && g in RunAll(map[], ops)[c].grounds
            && RunAll(map[], ops)[c].grounds[g].status == Supported
  {
    var ops := ReviewedOnce(c, g);
    var d0 := NewCase(c, false, false);
    var d1 := Apply(d0, ops[1].op).value;
    var d2 := Apply(d1, ops[2].op).value;
    CreatedOnce(c);
    ThenSucceeds(map[], [ops[0]], c, ops[1].op, d0, d1);
    ThenSucceeds(map[], [ops[0]] + [ops[1]], c, ops[2].op, d1, d2);
    ThenSucceeds(map[], [ops[0]] + [ops[1]] + [ops[2]], c, ops[3].op, d2, Apply(d2, ops[3].op).value);
    assert [ops[0]] + [ops[1]] + [ops[2]] + [ops[3]] == ops;
  }

  lemma OvertakenRaises(cases: Cases, ops: seq<StoreOp>, i: nat)
    requires AllSucceed(cases, ops) && forall j :: 0 <= j < |ops| ==> Replayable(ops[j])
    requires i < |ops| && Overtaken(RunAll(cases, ops), ops[i])
    ensures !AllSucceed(RunAll(cases, ops), ops)
  {
    ReplaySucceedsIff(cases, ops);
  }

  /** The shortest sequence whose replay raises. */
  lemma ReplayMayRaise(c: CaseId, g: GroundId)
    ensures var ops := ReviewedOnce(c, g);
            AllSucceed(map[], ops) && Overtaken(RunAll(map[], ops), ops[2]) && !AllSucceed(RunAll(map[], ops), ops)
  {
    ReviewSucceeds(c, g);
    OvertakenRaises(map[], ReviewedOnce(c, g), 2);
  }

  /** Executions that each stopped after some prefix. */
  function Crashed(cases: Cases, ops: seq<StoreOp>, stops: seq<nat>): Cases {
    if stops == [] then cases
    else
      var stop := if stops[|stops| - 1] <= |ops| then stops[|stops| - 1] else |ops|;
      RunAll(Crashed(cases, ops, stops[..|stops| - 1]), ops[..stop])
  }

  /** How far the furthest of them got, of `n` operations. */
  function Furthest(n: nat, stops: seq<nat>): (far: nat)
    ensures far <= n
    ensures forall i :: 0 <= i < |stops| ==> stops[i] <= far || far == n
    ensures far == 0 || far == n || far in stops
  {
    if stops == [] then 0
    else
      var before := Furthest(n, stops[..|stops| - 1]);
      var last := stops[|stops| - 1];
      if last <= before then before else if last <= n then last else n
  }

  /** Any chain of interrupted executions gets exactly as far as the furthest of them. */
  lemma {:induction false} CrashesReachAPrefix(cases: Cases, ops: seq<StoreOp>, stops: seq<nat>)
    requires AllSucceed(cases, ops) && forall j :: 0 <= j < |ops| ==> Replayable(ops[j])
    ensures Crashed(cases, ops, stops) == RunAll(cases, ops[..Furthest(|ops|, stops)])
  {
    if stops != [] {
      var init := stops[..|stops| - 1];
      CrashesReachAPrefix(cases, ops, init);
      var stop := if stops[|stops| - 1] <= |ops| then stops[|stops| - 1] else |ops|;
      CatchUp(cases, ops, Furthest(|ops|, init), stop);
    }
  }

  lemma {:induction false} PrefixSucceeds(cases: Cases, ops: seq<StoreOp>, k: nat)
    requires AllSucceed(cases, ops) && k <= |ops|
    ensures AllSucceed(cases, ops[..k])
  {
    if k < |ops| {
      assert ops[..|ops| - 1][..k] == ops[..k];
      PrefixSucceeds(cases, ops[..|ops| - 1], k);
    } else {
      assert ops[..k] == ops;
    }
  }

  /** Starting over after `k` operations and getting as far as `n`. */
  lemma CatchUp(cases: Cases, ops: seq<StoreOp>, k: nat, n: nat)
    requires AllSucceed(cases, ops) && k <= |ops| && n <= |ops| && forall j :: 0 <= j < |ops| ==> Replayable(ops[j])
    ensures RunAll(RunAll(cases, ops[..k]), ops[..n]) == RunAll(cases, ops[..if n <= k then k else n])
  {
    PrefixSucceeds(cases, ops, k);
    var there := RunAll(cases, ops[..k]);
    var shared := if n <= k then n else k;
    forall i | 0 <= i < shared ensures Absorbed(there, ops[..shared][i]) {
      RunAbsorbs(cases, ops[..k], i);
    }
    IdleRun(there, ops[..shared]);
    if k < n {
      assert ops[..n] == ops[..k] + ops[k..n];
      RunAllConcat(there, ops[..k], ops[k..n]);
      RunAllConcat(cases, ops[..k], ops[k..n]);
    }
  }

  /** Resume: whatever chain of interrupted executions came before, one that runs to the
      end reaches the state a single uninterrupted execution would have. */
  lemma ResumeTheorem(cases: Cases, ops: seq<StoreOp>, stops: seq<nat>)
    requires AllSucceed(cases, ops) && forall j :: 0 <= j < |ops| ==> Replayable(ops[j])
    ensures RunAll(Crashed(cases, ops, stops), ops) == RunAll(cases, ops)
  {
    CrashesReachAPrefix(cases, ops, stops);
    CatchUp(cases, ops, Furthest(|ops|, stops), |ops|);
    assert ops[..|ops|] == ops;
  }
}
