/** One execution of the tribunal job for one case: a sequence of store operations and
    spend bookings that may stop after any of them, and the sequence it issues. */
module Pipeline {
  import opened Wrappers
  import opened Breakers
  import opened Ledgers
  import opened CaseStores
  import opened Dossiers
  import opened Courts
  import opened Gates
  import opened Intake
  import opened Propagation
  import opened Composers

  // ---------------------------------------------------------------- what an execution touches

  datatype Booking = Booking(kind: CostKind, amount: int)

  /** The case in the store, and the public-spend aggregate as the bookings made for it. */
  datatype World = World(data: CaseData, spend: seq<Booking>)

  datatype Step = Do(op: Op) | AddSpend(kind: CostKind, amount: int)

  /** A store error is an exception that ends the execution. */
  datatype Progress = Progress(world: World, error: Option<StoreError>)

  function Perform(w: World, step: Step): Progress {
    match step
    case AddSpend(kind, amount) => Progress(w.(spend := w.spend + [Booking(kind, amount)]), None)
    case Do(op) =>
      match Apply(w.data, op)
      case Ok(d) => Progress(w.(data := d), None)
      case Err(e) => Progress(w, Some(e))
  }

  function Play(w: World, steps: seq<Step>): Progress {
    if steps == [] then Progress(w, None)
    else
      var p := Play(w, steps[..|steps| - 1]);
      if p.error.Some? then p else Perform(p.world, steps[|steps| - 1])
  }

  /** Everything one execution meets outside the store: the dossier it assembles and
      grounds, what the court hears, clock readings, its ledger, and whether a fallback
      photo was fetched, an overlay drawn, or a video attempted. */
  datatype Oracle = Oracle(
    dossier: CaseDossier,
    fallbackPhoto: Option<(string, int)>,
    guardWired: bool,
    overlay: Option<string>,
    hearings: GroundId -> Hearing,
    times: GroundId -> Times,
    loadedAt: real,
    savedAt: GroundId -> real,
    adjudicator: Snapshot,
    ledger: LedgerSnapshot,
    ledgerTotal: int,
    illustration: seq<string>)

  // ---------------------------------------------------------------- reading the snapshot

  predicate Composed(events: seq<CaseEvent>) {
    exists i :: 0 <= i < |events| && events[i].body == Caller(SubmissionComposed)
  }

  function PublicOrigin(events: seq<CaseEvent>): bool {
    if events == [] then false
    else if events[0].body.CaseCreated? then events[0].body.publicOrigin
    else PublicOrigin(events[1..])
  }

  predicate Undecided(d: CaseData, g: GroundId) {
    g in d.grounds && !Terminal(d.grounds[g].status)
  }

  function BreakerFields(d: CaseData, o: Oracle, g: GroundId): Fields {
    if GateBreaker(g) in d.breakers then Restored(d.breakers[GateBreaker(g)], o.loadedAt) else FRESH
  }

  function BreakerSettings(d: CaseData, g: GroundId): Settings {
    if GateBreaker(g) in d.breakers then d.breakers[GateBreaker(g)].settings
    else Settings(DEFAULT_THRESHOLD, DEFAULT_TIMEOUT)
  }

  // ---------------------------------------------------------------- one ground

  function VerdictOn(o: Oracle, c: GroundIntake): Verdict {
    Judge(c.id, o.hearings(c.id), KnownRefs(o.dossier))
  }

  /** A relevant ground the court did not support never reaches the gate. */
  predicate CourtRejects(o: Oracle, c: GroundIntake) {
    ClassifyRelevance(c.category).relevant && VerdictOn(o, c).stance == Reject
  }

  function CandidateOf(o: Oracle, c: GroundIntake): CandidateGround {
    CandidateGround(c.id, c.category, Kept(VerdictOn(o, c).cited, o.dossier))
  }

  function DecisionOn(d: CaseData, o: Oracle, c: GroundIntake): GateDecision {
    if CourtRejects(o, c) then
      GateDecision(c.id, RefusedUnsubstantiated, c.category, ClassifyRelevance(c.category).basis, [CourtDidNotSupport])
    else Decide(CandidateOf(o, c), ToGate(o.dossier), Some(BreakerFields(d, o, c.id)), BreakerSettings(d, c.id), o.times(c.id))
  }

  function GroundStatusFor(s: GateStatus): GroundStatus {
    match s
    case Shipped => Supported
    case FlaggedForReview => Flagged
    case _ => Refused
  }

  function EndStatus(d: CaseData, o: Oracle, c: GroundIntake): GroundStatus {
    GroundStatusFor(DecisionOn(d, o, c).status)
  }

  function SavedGateBreaker(d: CaseData, o: Oracle, c: GroundIntake): Snapshot {
    var s := BreakerSettings(d, c.id);
    var after := BreakerAfter(BreakerFields(d, o, c.id), s, Gates.Reported(CandidateOf(o, c), ToGate(o.dossier), o.times(c.id)));
    SnapshotOf(after, s, o.savedAt(c.id))
  }

  /** The boxes a verdict cites, as anchors on the ground's record. */
  function AnchorSteps(g: GroundId, refs: seq<Ref>, d: CaseDossier): seq<Step> {
    if refs == [] then []
    else
      var before := AnchorSteps(g, refs[..|refs| - 1], d);
      var last := refs[|refs| - 1];
      if last.Evidence? && last.anchor in d.anchors.at && d.anchors.at[last.anchor].box.Some? then
        var a := d.anchors.at[last.anchor];
        before + [Do(AddAnchor(g, Anchor(a.sourceDoc, a.page, a.box.value, a.grade)))]
      else before
  }

  function LogNote(key: Key, name: string): Step { Do(Append(key, Plain(name))) }

  /** Both opinions, and the bench's if the court needed or lacked it. */
  function OpinionSteps(g: GroundId, v: Verdict): seq<Step> {
    [LogNote(ReviewVerdictKey(g, true), "review_verdict"), LogNote(ReviewVerdictKey(g, false), "review_verdict")]
    + (if v.source == Adjudicated || v.outcome == UnresolvedFlagged
       then [LogNote(AdjudicationKey(g), "adjudication_decision")] else [])
  }

  function ReviewSteps(o: Oracle, c: GroundIntake): seq<Step> {
    OpinionSteps(c.id, VerdictOn(o, c)) + AnchorSteps(c.id, VerdictOn(o, c).cited, o.dossier)
  }

  function GateSteps(d: CaseData, o: Oracle, c: GroundIntake): seq<Step> {
    (if CourtRejects(o, c) then [] else [Do(SaveBreaker(GateBreaker(c.id), SavedGateBreaker(d, o, c)))])
    + [Do(Append(GateDecisionKey(c.id), GateDecided(c.id, DecisionOn(d, o, c).status)))]
  }

  /** What an execution does about one candidate. */
  datatype Block = Skipped(g: GroundId) | Reviewed(g: GroundId, middle: seq<Step>, end: GroundStatus)

  function BlockSteps(b: Block): seq<Step> {
    match b
    case Skipped(g) => [LogNote(GroundRerunSkippedKey(g), "ground_rerun_skipped")]
    case Reviewed(g, middle, end) => [Do(Transition(g, UnderReview))] + middle + [Do(Transition(g, end))]
  }

  /** A ground decided before this execution started is only noted as skipped. */
  function BlockOf(d: CaseData, o: Oracle, c: GroundIntake): Block {
    if !Undecided(d, c.id) then Skipped(c.id)
    else Reviewed(c.id, ReviewSteps(o, c) + GateSteps(d, o, c), EndStatus(d, o, c))
  }

  function Blocks(d: CaseData, o: Oracle, cs: seq<GroundIntake>): seq<Block> {
    if cs == [] then [] else Blocks(d, o, cs[..|cs| - 1]) + [BlockOf(d, o, cs[|cs| - 1])]
  }

  function AllSteps(bs: seq<Block>): seq<Step> {
    if bs == [] then [] else AllSteps(bs[..|bs| - 1]) + BlockSteps(bs[|bs| - 1])
  }

  // ---------------------------------------------------------------- the whole execution

  /** Marker first, then the spend; nothing if the snapshot already holds the marker. */
  function BookSteps(d: CaseData, o: Oracle, kind: CostKind, amount: int): seq<Step> {
    if !o.guardWired || amount <= 0 || !PublicOrigin(d.events) || Logged(d.events, CallerId(CostBookedKey(kind))) then []
    else [Do(Append(CostBookedKey(kind), CostBooked(kind, amount))), AddSpend(kind, amount)]
  }

  function PhotoSteps(d: CaseData, o: Oracle): seq<Step> {
    if o.fallbackPhoto.None? then []
    else [LogNote(DocumentUploadedKey(o.fallbackPhoto.value.0), "document_uploaded")]
         + BookSteps(d, o, StreetViewFetch, o.fallbackPhoto.value.1)
  }

  function SettleSteps(o: Oracle): seq<Step> {
    (if o.overlay.Some? then [LogNote(AnnotatedOverlayKey(o.overlay.value), "annotated_overlay")] else [])
    + [Do(SaveBreaker(AdjudicatorBreaker, o.adjudicator)), Do(SaveLedger(o.ledger))]
  }

  function IllustrationSteps(names: seq<string>): seq<Step> {
    if names == [] then []
    else IllustrationSteps(names[..|names| - 1]) + [LogNote(IllustrationKey(names[|names| - 1]), "illustration")]
  }

  function CloseSteps(o: Oracle): seq<Step> {
    [Do(Append(SubmissionComposedKey, SubmissionComposed))] + IllustrationSteps(o.illustration)
  }

  function CandidatesIn(d: CaseData): seq<GroundIntake> { Candidates(d.events, d.grounds) }

  /** Everything an execution issues, given the snapshot it starts from. */
  function Plan(d: CaseData, o: Oracle): seq<Step> {
    if Composed(d.events) then [LogNote(RerunIgnoredKey, "tribunal_rerun_ignored")]
    else
      PhotoSteps(d, o) + [LogNote(IngestResolvedKey, "ingest_resolved")]
      + AllSteps(Blocks(d, o, CandidatesIn(d)))
      + SettleSteps(o) + BookSteps(d, o, TribunalLedger, o.ledgerTotal) + CloseSteps(o)
  }

  // ---------------------------------------------------------------- what it hands to the composer

  function ContentOf(o: Oracle, c: GroundIntake): GroundContent {
    var citations := CandidateOf(o, c).citations;
    if citations == [] then GroundContent(c.claim, "the case dossier", 1, None)
    else
      var first := citations[0];
      GroundContent(c.claim,
                    if first.doc in o.dossier.documents.at then o.dossier.documents.at[first.doc].title else "the case dossier",
                    first.page,
                    if o.overlay == Some(first.doc) then Some(first.doc + " (grounded overlay)") else None)
  }

  /** The last ground of this execution to cite each reference. */
  function CiteAll(cited: Cited, refs: seq<Ref>, g: GroundId): Cited {
    if refs == [] then cited else CiteAll(cited, refs[..|refs| - 1], g)[refs[|refs| - 1] := g]
  }

  /** Every ground of this execution that cited each page as a whole, in order. */
  function CitePages(pages: PageLevel, refs: seq<Ref>, g: GroundId, d: CaseDossier): PageLevel {
    if refs == [] then pages
    else
      var before := CitePages(pages, refs[..|refs| - 1], g, d);
      var last := refs[|refs| - 1];
      if last.Evidence? && last.anchor in d.anchors.at && d.anchors.at[last.anchor].box.None? then
        before[last.anchor := (if last.anchor in before then before[last.anchor] else []) + [g]]
      else before
  }

  /** Every document with a page, and every document a box lies on: what each ground's
      evidence reviewer is shown. */
  function ShownDocuments(d: CaseDossier): set<string> {
    (set doc | doc in d.documents.at && d.documents.at[doc].pages != [])
    + (set id | id in d.anchors.at && d.anchors.at[id].box.Some? :: d.anchors.at[id].sourceDoc)
  }

  /** The local state the loop over candidate grounds carries. */
  datatype Carried = Carried(
    decisions: seq<GateDecision>, content: map<GroundId, GroundContent>, cited: Cited, pages: PageLevel,
    shown: map<GroundId, set<string>>)

  function Carry(d: CaseData, o: Oracle, k: Carried, c: GroundIntake): Carried {
    if !Undecided(d, c.id) then k
    else
      var refs := VerdictOn(o, c).cited;
      Carried(k.decisions + [DecisionOn(d, o, c)],
              if DecisionOn(d, o, c).status == Shipped then k.content[c.id := ContentOf(o, c)] else k.content,
              CiteAll(k.cited, refs, c.id), CitePages(k.pages, refs, c.id, o.dossier),
              k.shown[c.id := ShownDocuments(o.dossier)])
  }

  function CarriedOver(d: CaseData, o: Oracle, cs: seq<GroundIntake>): Carried {
    if cs == [] then Carried([], map[], map[], map[], map[])
    else Carry(d, o, CarriedOver(d, o, cs[..|cs| - 1]), cs[|cs| - 1])
  }

  function Decisions(d: CaseData, o: Oracle): seq<GateDecision> { CarriedOver(d, o, CandidatesIn(d)).decisions }

  function StatusIn(decisions: seq<GateDecision>): Statuses {
    if decisions == [] then map[]
    else StatusIn(decisions[..|decisions| - 1])[decisions[|decisions| - 1].id := decisions[|decisions| - 1].status]
  }

  /** The ground each reference is coloured by on the overlay. */
  function OverlayGrounds(d: CaseData, o: Oracle): Cited {
    var k := CarriedOver(d, o, CandidatesIn(d));
    Propagated(o.dossier.anchors.at, k.cited, k.pages, StatusIn(k.decisions), Some(k.shown))
  }

  // ---------------------------------------------------------------- the job, imperatively

  /** A process working on one case. It survives `allowance` steps; what it issues after
      that, or after an exception, has no effect. */
  class Execution {
    const store: InMemoryCaseStore
    const c: CaseId
    const allowance: nat
    var spend: seq<Booking>
    var taken: nat
    var error: Option<StoreError>
    ghost const start: World
    ghost var issued: seq<Step>

    ghost predicate Valid()
      reads this, store
    {
      && c in store.cases
      && taken == (if |issued| <= allowance then |issued| else allowance)
      && Play(start, issued[..taken]) == Progress(World(store.cases[c], spend), error)
    }

    constructor (store: InMemoryCaseStore, c: CaseId, allowance: nat, spend: seq<Booking>)
      requires c in store.cases
      ensures Valid() && issued == [] && start == World(store.cases[c], spend)
      ensures this.store == store && this.c == c && this.allowance == allowance
    {
      this.store := store;
      this.c := c;
      this.allowance := allowance;
      this.spend := spend;
      taken := 0;
      error := None;
      start := World(store.cases[c], spend);
      issued := [];
    }

    /** Issues one step, which takes effect only while the process is alive. */
    method Issue(step: Step)
      requires Valid()
      modifies this, store
      ensures Valid() && issued == old(issued) + [step]
      ensures forall other :: other in old(store.cases) && other != c ==>
                other in store.cases && store.cases[other] == old(store.cases)[other]
    {
      ghost var was := World(store.cases[c], spend);
      var alive := taken < allowance;
      if alive && error.None? {
        match step {
          case AddSpend(kind, amount) =>
            spend := spend + [Booking(kind, amount)];
          case Do(op) =>
            var r := Call(op);
            if r.Err? {
              error := Some(r.error);
            }
        }
      }
      ghost var before := issued;
      issued := issued + [step];
      if alive {
        taken := taken + 1;
        assert issued[..taken][..|before|] == before[..taken - 1];
      } else {
        assert issued[..taken] == before[..taken];
      }
    }

    method Call(op: Op) returns (r: Result<(), StoreError>)
      requires c in store.cases
      modifies store
      ensures c in store.cases
      ensures match Apply(old(store.cases[c]), op)
              case Ok(d) => r.Ok? && store.cases == old(store.cases)[c := d]
              case Err(e) => r == Err(e) && store.cases == old(store.cases)
    {
      match op {
        case Propose(g, claim, anchors) => r := store.ProposeGround(c, g, claim, anchors);
        case Transition(g, status) => r := store.TransitionGround(c, g, status);
        case AddAnchor(g, anchor) => r := store.AddEvidenceAnchor(c, g, anchor);
        case Append(key, note) => r := store.AppendEvent(c, key, note);
        case SaveBreaker(name, snapshot) => r := store.SaveBreakerSnapshot(c, name, snapshot);
        case SaveLedger(calls) => r := store.SaveLedgerSnapshot(c, calls);
      }
    }
  }

  lemma Regroup(a: seq<Step>, b: seq<Step>, c: seq<Step>)
    ensures (a + b) + c == a + (b + c)
  {}

  lemma OneMoreCandidate(d: CaseData, o: Oracle, cs: seq<GroundIntake>, i: nat, before: seq<Step>)
    requires i < |cs|
    ensures (before + AllSteps(Blocks(d, o, cs[..i]))) + BlockSteps(BlockOf(d, o, cs[i]))
            == before + AllSteps(Blocks(d, o, cs[..i + 1]))
    ensures CarriedOver(d, o, cs[..i + 1]) == Carry(d, o, CarriedOver(d, o, cs[..i]), cs[i])
  {
    assert cs[..i + 1][..i] == cs[..i];
    var bs, b := Blocks(d, o, cs[..i]), BlockOf(d, o, cs[i]);
    assert (bs + [b])[..|bs|] == bs;
    assert Blocks(d, o, cs[..i + 1]) == bs + [b];
    Regroup(before, AllSteps(bs), BlockSteps(b));
  }

  method BookPublicGuardCost(ex: Execution, d: CaseData, o: Oracle, kind: CostKind, amount: int)
    requires ex.Valid()
    modifies ex, ex.store
    ensures ex.Valid() && ex.issued == old(ex.issued) + BookSteps(d, o, kind, amount)
  {
    if !o.guardWired || amount <= 0 {
      return;
    }
    if !PublicOrigin(d.events) {
      return;
    }
    if Logged(d.events, CallerId(CostBookedKey(kind))) {
      return;
    }
    ex.Issue(Do(Append(CostBookedKey(kind), CostBooked(kind, amount))));
    ex.Issue(AddSpend(kind, amount));
  }

  /** Records what a verdict cites, and anchors its boxes on the ground. */
  method CiteVerdict(ex: Execution, o: Oracle, g: GroundId, refs: seq<Ref>, cited0: Cited, pages0: PageLevel)
    returns (cited: Cited, pages: PageLevel)
    requires ex.Valid()
    modifies ex, ex.store
    ensures ex.Valid() && ex.issued == old(ex.issued) + AnchorSteps(g, refs, o.dossier)
    ensures cited == CiteAll(cited0, refs, g) && pages == CitePages(pages0, refs, g, o.dossier)
  {
    cited, pages := cited0, pages0;
    var i := 0;
    while i < |refs|
      invariant 0 <= i <= |refs| && ex.Valid()
      invariant ex.issued == old(ex.issued) + AnchorSteps(g, refs[..i], o.dossier)
      invariant cited == CiteAll(cited0, refs[..i], g) && pages == CitePages(pages0, refs[..i], g, o.dossier)
    {
      assert refs[..i + 1][..i] == refs[..i];
      cited := cited[refs[i] := g];
      if refs[i].Evidence? && refs[i].anchor in o.dossier.anchors.at {
        var a := o.dossier.anchors.at[refs[i].anchor];
        if a.box.None? {
          var before := if refs[i].anchor in pages then pages[refs[i].anchor] else [];
          pages := pages[refs[i].anchor := before + [g]];
        } else {
          ex.Issue(Do(AddAnchor(g, Anchor(a.sourceDoc, a.page, a.box.value, a.grade))));
        }
      }
      i := i + 1;
    }
    assert refs[..i] == refs;
  }

  /** The gate's ruling, under a breaker restored or new, and the breaker afterwards. */
  method AskGate(d: CaseData, o: Oracle, c: GroundIntake, v: Verdict)
    returns (decision: GateDecision, built: CandidateGround, snapshot: Snapshot)
    requires v == VerdictOn(o, c)
    ensures built == CandidateOf(o, c) && snapshot == SavedGateBreaker(d, o, c)
    ensures decision ==
            Decide(built, ToGate(o.dossier), Some(BreakerFields(d, o, c.id)), BreakerSettings(d, c.id), o.times(c.id))
  {
    built := CandidateGroundFor(c, v.cited, o.dossier);
    var breaker;
    if GateBreaker(c.id) in d.breakers {
      breaker := RestoreBreaker("", d.breakers[GateBreaker(c.id)], _ => o.loadedAt);
    } else {
      breaker := new CircuitBreaker("", Settings(DEFAULT_THRESHOLD, DEFAULT_TIMEOUT));
    }
    decision := ValidateGround(built, ToGate(o.dossier), breaker, o.times(c.id));
    snapshot := TakeSnapshot(breaker, o.savedAt(c.id));
  }

  /** The gate's part: what it decides, and the record of it. */
  method GateGround(ex: Execution, d: CaseData, o: Oracle, c: GroundIntake, v: Verdict)
    returns (decision: GateDecision, candidate: Option<CandidateGround>)
    requires ex.Valid() && v == VerdictOn(o, c)
    modifies ex, ex.store
    ensures ex.Valid() && decision == DecisionOn(d, o, c)
    ensures candidate == if CourtRejects(o, c) then None else Some(CandidateOf(o, c))
    ensures ex.issued == old(ex.issued) + GateSteps(d, o, c)
  {
    var ruling := ClassifyRelevance(c.category);
    candidate := None;
    if ruling.relevant && v.stance == Reject {
      decision := GateDecision(c.id, RefusedUnsubstantiated, c.category, ruling.basis, [CourtDidNotSupport]);
    } else {
      var built, snapshot;
      decision, built, snapshot := AskGate(d, o, c, v);
      candidate := Some(built);
      ex.Issue(Do(SaveBreaker(GateBreaker(c.id), snapshot)));
    }
    ex.Issue(Do(Append(GateDecisionKey(c.id), GateDecided(c.id, decision.status))));
  }

  method LogOpinions(ex: Execution, g: GroundId, v: Verdict)
    requires ex.Valid()
    modifies ex, ex.store
    ensures ex.Valid() && ex.issued == old(ex.issued) + OpinionSteps(g, v)
  {
    ex.Issue(LogNote(ReviewVerdictKey(g, true), "review_verdict"));
    ex.Issue(LogNote(ReviewVerdictKey(g, false), "review_verdict"));
    if v.source == Adjudicated || v.outcome == UnresolvedFlagged {
      ex.Issue(LogNote(AdjudicationKey(g), "adjudication_decision"));
    }
  }

  /** The court's part: both opinions logged, and what the verdict cites. */
  method HearGround(ex: Execution, o: Oracle, c: GroundIntake, cited0: Cited, pages0: PageLevel)
    returns (v: Verdict, cited: Cited, pages: PageLevel)
    requires ex.Valid()
    modifies ex, ex.store
    ensures ex.Valid() && ex.issued == old(ex.issued) + ReviewSteps(o, c)
    ensures v == VerdictOn(o, c)
    ensures cited == CiteAll(cited0, v.cited, c.id) && pages == CitePages(pages0, v.cited, c.id, o.dossier)
  {
    ghost var before := ex.issued;
    v := Judge(c.id, o.hearings(c.id), KnownRefs(o.dossier));
    LogOpinions(ex, c.id, v);
    cited, pages := CiteVerdict(ex, o, c.id, v.cited, cited0, pages0);
    Regroup(before, OpinionSteps(c.id, v), AnchorSteps(c.id, v.cited, o.dossier));
  }

  /** The court, then the gate, and what the loop carries away. */
  method DecideGround(ex: Execution, d: CaseData, o: Oracle, c: GroundIntake, k0: Carried) returns (k: Carried)
    requires ex.Valid() && Undecided(d, c.id)
    modifies ex, ex.store
    ensures ex.Valid() && ex.issued == old(ex.issued) + (ReviewSteps(o, c) + GateSteps(d, o, c))
    ensures k == Carry(d, o, k0, c)
    ensures k.decisions == k0.decisions + [DecisionOn(d, o, c)]
  {
    ghost var before := ex.issued;
    k := k0.(shown := k0.shown[c.id := ShownDocuments(o.dossier)]);
    var v, cited, pages := HearGround(ex, o, c, k.cited, k.pages);
    var decision, candidate := GateGround(ex, d, o, c, v);
    Regroup(before, ReviewSteps(o, c), GateSteps(d, o, c));
    k := k.(decisions := k.decisions + [decision], cited := cited, pages := pages);
    if decision.status == Shipped && candidate.Some? {
      k := k.(content := k.content[c.id := ContentOf(o, c)]);
    }
  }

  /** One candidate: skipped if already decided, otherwise reviewed to its final status. */
  method ReviewGround(ex: Execution, d: CaseData, o: Oracle, c: GroundIntake, k0: Carried) returns (k: Carried)
    requires ex.Valid()
    modifies ex, ex.store
    ensures ex.Valid() && ex.issued == old(ex.issued) + BlockSteps(BlockOf(d, o, c))
    ensures k == Carry(d, o, k0, c)
  {
    if !Undecided(d, c.id) {
      ex.Issue(LogNote(GroundRerunSkippedKey(c.id), "ground_rerun_skipped"));
      return k0;
    }
    ghost var before := ex.issued;
    ghost var first := [Do(Transition(c.id, UnderReview))];
    ex.Issue(Do(Transition(c.id, UnderReview)));
    k := DecideGround(ex, d, o, c, k0);
    var end := GroundStatusFor(k.decisions[|k.decisions| - 1].status);
    ex.Issue(Do(Transition(c.id, end)));
    Regroup(before, first, ReviewSteps(o, c) + GateSteps(d, o, c));
    Regroup(before, first + (ReviewSteps(o, c) + GateSteps(d, o, c)), [Do(Transition(c.id, end))]);
  }

  method FetchPhoto(ex: Execution, d: CaseData, o: Oracle)
    requires ex.Valid()
    modifies ex, ex.store
    ensures ex.Valid() && ex.issued == old(ex.issued) + PhotoSteps(d, o)
  {
    if o.fallbackPhoto.Some? {
      ex.Issue(LogNote(DocumentUploadedKey(o.fallbackPhoto.value.0), "document_uploaded"));
      BookPublicGuardCost(ex, d, o, StreetViewFetch, o.fallbackPhoto.value.1);
    }
  }

  method ReviewAll(ex: Execution, d: CaseData, o: Oracle) returns (k: Carried)
    requires ex.Valid()
    modifies ex, ex.store
    ensures ex.Valid() && ex.issued == old(ex.issued) + AllSteps(Blocks(d, o, CandidatesIn(d)))
    ensures k == CarriedOver(d, o, CandidatesIn(d))
  {
    var cs := CandidateGrounds(d.events, d.grounds);
    k := Carried([], map[], map[], map[], map[]);
    ghost var before := ex.issued;
    var i := 0;
    while i < |cs|
      invariant 0 <= i <= |cs| && ex.Valid()
      invariant ex.issued == before + AllSteps(Blocks(d, o, cs[..i]))
      invariant k == CarriedOver(d, o, cs[..i])
    {
      OneMoreCandidate(d, o, cs, i, before);
      k := ReviewGround(ex, d, o, cs[i], k);
      i := i + 1;
    }
    assert cs[..i] == cs;
  }

  method Settle(ex: Execution, o: Oracle)
    requires ex.Valid()
    modifies ex, ex.store
    ensures ex.Valid() && ex.issued == old(ex.issued) + SettleSteps(o)
  {
    if o.overlay.Some? {
      ex.Issue(LogNote(AnnotatedOverlayKey(o.overlay.value), "annotated_overlay"));
    }
    ex.Issue(Do(SaveBreaker(AdjudicatorBreaker, o.adjudicator)));
    ex.Issue(Do(SaveLedger(o.ledger)));
  }

  method Close(ex: Execution, o: Oracle)
    requires ex.Valid()
    modifies ex, ex.store
    ensures ex.Valid() && ex.issued == old(ex.issued) + CloseSteps(o)
  {
    ghost var before := ex.issued;
    ex.Issue(Do(Append(SubmissionComposedKey, SubmissionComposed)));
    var j := 0;
    while j < |o.illustration|
      invariant 0 <= j <= |o.illustration| && ex.Valid()
      invariant ex.issued == before + [Do(Append(SubmissionComposedKey, SubmissionComposed))]
                             + IllustrationSteps(o.illustration[..j])
    {
      assert o.illustration[..j + 1][..j] == o.illustration[..j];
      ex.Issue(LogNote(IllustrationKey(o.illustration[j]), "illustration"));
      j := j + 1;
    }
    assert o.illustration[..j] == o.illustration;
  }

  /** What a run leaves behind besides the store: the two documents, or the error their
      assembly raises, and the colouring of the overlay. */
  datatype Report = Ignored | Ran(package: Result<Package, ComposeError>, overlay: Cited)

  /** The package says what the decisions say. */
  ghost predicate Renders(package: Result<Package, ComposeError>, decisions: seq<GateDecision>,
                          content: map<GroundId, GroundContent>)
  {
    var shipped := ShippedOnes(decisions);
    && (package.Ok? <==>
          forall i :: 0 <= i < |decisions| && decisions[i].status == Shipped ==> decisions[i].id in content)
    && (package.Ok? ==>
          |package.value.submission| == |shipped|
          && (forall i :: 0 <= i < |shipped| ==>
                Prints(package.value.submission[i], i, shipped[i], content))
          && package.value.refused == Section(Unshipped(decisions), false)
          && package.value.flagged == Section(Unshipped(decisions), true))
  }

  method Run(ex: Execution, d: CaseData, o: Oracle) returns (report: Report)
    requires ex.Valid()
    requires o.dossier.anchors.Valid() && KeyedById(o.dossier.anchors.at)
    modifies ex, ex.store
    ensures ex.Valid() && ex.issued == old(ex.issued) + Plan(d, o)
    ensures report.Ignored? <==> Composed(d.events)
    ensures report.Ran? ==>
              report.overlay == OverlayGrounds(d, o)
              && Renders(report.package, Decisions(d, o), CarriedOver(d, o, CandidatesIn(d)).content)
  {
    if Composed(d.events) {
      ex.Issue(LogNote(RerunIgnoredKey, "tribunal_rerun_ignored"));
      return Ignored;
    }
    ghost var before := ex.issued;
    ghost var cs := CandidatesIn(d);
    FetchPhoto(ex, d, o);
    ghost var s1 := PhotoSteps(d, o);
    ex.Issue(LogNote(IngestResolvedKey, "ingest_resolved"));
    Regroup(before, s1, [LogNote(IngestResolvedKey, "ingest_resolved")]);
    s1 := s1 + [LogNote(IngestResolvedKey, "ingest_resolved")];
    var k := ReviewAll(ex, d, o);
    Regroup(before, s1, AllSteps(Blocks(d, o, cs)));
    s1 := s1 + AllSteps(Blocks(d, o, cs));
    var overlay := PropagatePageLevel(o.dossier, k.cited, k.pages, StatusIn(k.decisions), Some(k.shown));
    Settle(ex, o);
    Regroup(before, s1, SettleSteps(o));
    s1 := s1 + SettleSteps(o);
    BookPublicGuardCost(ex, d, o, TribunalLedger, o.ledgerTotal);
    Regroup(before, s1, BookSteps(d, o, TribunalLedger, o.ledgerTotal));
    s1 := s1 + BookSteps(d, o, TribunalLedger, o.ledgerTotal);
    var package := Compose(k.decisions, k.content);
    Close(ex, o);
    Regroup(before, s1, CloseSteps(o));
    report := Ran(package, overlay);
  }
}
