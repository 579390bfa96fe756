/** What an execution that completes adds to a case, part by part: the log, the saved
    breakers and ledger, and the anchors on each ground's record. */
module CompletedRuns {
  import opened Wrappers
  import opened Breakers
  import Ledgers
  import opened CaseStores
  import opened Dossiers
  import opened Courts
  import opened Gates
  import opened Intake
  import opened Findings
  import opened Pipeline
  import opened PipelineLaws
  import opened ChainLaws
  import opened OutcomeLaws

  // ---------------------------------------------------------------- what is in a plan

  /** Some candidate's block issues it. */
  ghost predicate FromABlock(d: CaseData, o: Oracle, cs: seq<GroundIntake>, step: Step) {
    exists c :: c in cs && step in BlockSteps(BlockOf(d, o, c))
  }

  lemma {:induction false} StepsOfBlocks(d: CaseData, o: Oracle, cs: seq<GroundIntake>, step: Step)
    ensures step in AllSteps(Blocks(d, o, cs)) <==> FromABlock(d, o, cs, step)
  {
    if cs != [] {
      var init, last := cs[..|cs| - 1], cs[|cs| - 1];
      var bs := Blocks(d, o, cs);
      assert cs == init + [last] && bs[..|bs| - 1] == Blocks(d, o, init);
      StepsOfBlocks(d, o, init, step);
    }
  }

  lemma StepsOfPlan(d: CaseData, o: Oracle, step: Step)
    requires !Composed(d.events)
    ensures step in Plan(d, o) <==>
            step in HeadSteps(d, o) || FromABlock(d, o, CandidatesIn(d), step) || step in TailSteps(d, o)
  {
    PlanInThree(d, o);
    StepsOfBlocks(d, o, CandidatesIn(d), step);
  }

  lemma {:induction false} StepsOfIllustration(names: seq<string>, step: Step)
    ensures step in IllustrationSteps(names) <==>
            step.Do? && step.op.Append? && step.op.key.IllustrationKey? && step.op.key.step in names
            && step.op.note == Plain("illustration")
  {
    if names != [] {
      assert names == names[..|names| - 1] + [names[|names| - 1]];
      StepsOfIllustration(names[..|names| - 1], step);
    }
  }

  // ---------------------------------------------------------------- the log

  predicate Logs(step: Step, key: Key) { step.Do? && step.op.Append? && step.op.key == key }

  ghost predicate SomeLogs(steps: seq<Step>, key: Key) { exists step :: step in steps && Logs(step, key) }

  lemma LogsStep(w: World, step: Step, key: Key)
    ensures Logged(Perform(w, step).world.data.events, CallerId(key)) <==>
            Logged(w.data.events, CallerId(key)) || Logs(step, key)
  {
    var after := Perform(w, step).world.data.events;
    assert after == w.data.events || (|after| == |w.data.events| + 1 && after[..|w.data.events|] == w.data.events);
    if Logged(w.data.events, CallerId(key)) {
      LoggedInPrefix(w.data.events, after, CallerId(key));
    }
    if Logs(step, key) {
      AppendLogs(w.data, CallerId(key), Caller(step.op.note));
    }
  }

  /** After steps that raise nothing the log holds a caller's id exactly if it did before
      or one of them appends it. */
  lemma {:induction false} LogsPlay(w: World, steps: seq<Step>, key: Key)
    requires Play(w, steps).error.None?
    ensures Logged(Play(w, steps).world.data.events, CallerId(key)) <==>
            Logged(w.data.events, CallerId(key)) || SomeLogs(steps, key)
  {
    if steps != [] {
      var init, last := steps[..|steps| - 1], steps[|steps| - 1];
      assert steps == init + [last];
      LogsPlay(w, init, key);
      LogsStep(Play(w, init).world, last, key);
    }
  }

  /** What a run that decides one candidate, or finds it decided, notes of it. */
  predicate NotedOf(d: CaseData, o: Oracle, c: GroundIntake, key: Key) {
    if !Undecided(d, c.id) then key == GroundRerunSkippedKey(c.id)
    else
      key == ReviewVerdictKey(c.id, true) || key == ReviewVerdictKey(c.id, false) || key == GateDecisionKey(c.id)
      || (key == AdjudicationKey(c.id) && !Findings.Unanimous(o.hearings(c.id), o.dossier))
  }

  /** The kinds of cost a run is to book, and how much. */
  function CostOf(o: Oracle, kind: CostKind): int {
    match kind
    case StreetViewFetch => if o.fallbackPhoto.Some? then o.fallbackPhoto.value.1 else 0
    case TribunalLedger => o.ledgerTotal
  }

  /** The first creation event says the case is public. */
  ghost predicate MadePublic(events: seq<CaseEvent>) {
    exists i :: 0 <= i < |events| && events[i].body.CaseCreated? && events[i].body.publicOrigin
                && forall j :: 0 <= j < i ==> !events[j].body.CaseCreated?
  }

  lemma {:induction false} PublicOriginIs(events: seq<CaseEvent>)
    ensures PublicOrigin(events) <==> MadePublic(events)
  {
    if events != [] && !events[0].body.CaseCreated? {
      var rest := events[1..];
      PublicOriginIs(rest);
      if MadePublic(rest) {
        var i :| 0 <= i < |rest| && rest[i].body.CaseCreated? && rest[i].body.publicOrigin
                 && forall j :: 0 <= j < i ==> !rest[j].body.CaseCreated?;
        assert events[i + 1] == rest[i];
        assert forall j :: 1 <= j < i + 1 ==> events[j] == rest[j - 1];
      }
      if MadePublic(events) {
        var i :| 0 <= i < |events| && events[i].body.CaseCreated? && events[i].body.publicOrigin
                 && forall j :: 0 <= j < i ==> !events[j].body.CaseCreated?;
        assert rest[i - 1] == events[i];
        assert forall j :: 0 <= j < i - 1 ==> rest[j] == events[j + 1];
      }
    }
  }

  /** The case was created public, the guard is wired, there is something to book, and no
      earlier run has marked it. */
  ghost predicate Billed(d: CaseData, o: Oracle, kind: CostKind) {
    && MadePublic(d.events) && o.guardWired && CostOf(o, kind) > 0
    && !Logged(d.events, CallerId(CostBookedKey(kind)))
  }

  /** What a run notes, whatever it decides. */
  ghost predicate NotedOnce(d: CaseData, o: Oracle, key: Key) {
    match key
    case DocumentUploadedKey(doc) => o.fallbackPhoto.Some? && o.fallbackPhoto.value.0 == doc
    case IngestResolvedKey => true
    case AnnotatedOverlayKey(doc) => o.overlay == Some(doc)
    case CostBookedKey(kind) => Billed(d, o, kind)
    case SubmissionComposedKey => true
    case IllustrationKey(step) => step in o.illustration
    case _ => false
  }

  lemma BookNotes(d: CaseData, o: Oracle, kind: CostKind, key: Key)
    ensures SomeLogs(BookSteps(d, o, kind, CostOf(o, kind)), key) <==> key == CostBookedKey(kind) && Billed(d, o, kind)
  {
    PublicOriginIs(d.events);
    var steps := BookSteps(d, o, kind, CostOf(o, kind));
    if Billed(d, o, kind) {
      assert steps[0] in steps && Logs(steps[0], CostBookedKey(kind));
    }
  }

  lemma OneNotes(key: Key, name: string, other: Key)
    ensures SomeLogs([LogNote(key, name)], other) <==> other == key
  {
    assert LogNote(key, name) in [LogNote(key, name)];
  }

  lemma PhotoNotes(d: CaseData, o: Oracle, key: Key)
    ensures SomeLogs(PhotoSteps(d, o), key) <==>
            NotedOnce(d, o, key) && (key.DocumentUploadedKey? || key == CostBookedKey(StreetViewFetch))
  {
    if o.fallbackPhoto.Some? {
      var note := [LogNote(DocumentUploadedKey(o.fallbackPhoto.value.0), "document_uploaded")];
      OneNotes(DocumentUploadedKey(o.fallbackPhoto.value.0), "document_uploaded", key);
      BookNotes(d, o, StreetViewFetch, key);
      JoinNotes(note, BookSteps(d, o, StreetViewFetch, CostOf(o, StreetViewFetch)), key);
    }
  }

  lemma HeadNotes(d: CaseData, o: Oracle, key: Key)
    ensures SomeLogs(HeadSteps(d, o), key) <==>
            NotedOnce(d, o, key) && (key.DocumentUploadedKey? || key.IngestResolvedKey? || key == CostBookedKey(StreetViewFetch))
  {
    PhotoNotes(d, o, key);
    OneNotes(IngestResolvedKey, "ingest_resolved", key);
    JoinNotes(PhotoSteps(d, o), [LogNote(IngestResolvedKey, "ingest_resolved")], key);
  }

  lemma SettleNotes(o: Oracle, key: Key)
    ensures SomeLogs(SettleSteps(o), key) <==> key.AnnotatedOverlayKey? && o.overlay == Some(key.doc)
  {
    var saves := [Do(SaveBreaker(AdjudicatorBreaker, o.adjudicator)), Do(SaveLedger(o.ledger))];
    assert !SomeLogs(saves, key);
    if o.overlay.Some? {
      OneNotes(AnnotatedOverlayKey(o.overlay.value), "annotated_overlay", key);
      JoinNotes([LogNote(AnnotatedOverlayKey(o.overlay.value), "annotated_overlay")], saves, key);
    } else {
      assert SettleSteps(o) == saves;
    }
  }

  lemma CloseNotes(o: Oracle, key: Key)
    ensures SomeLogs(CloseSteps(o), key) <==>
            key.SubmissionComposedKey? || (key.IllustrationKey? && key.step in o.illustration)
  {
    var composed := [Do(Append(SubmissionComposedKey, SubmissionComposed))];
    assert composed[0] in composed;
    forall step { StepsOfIllustration(o.illustration, step); }
    if key.IllustrationKey? && key.step in o.illustration {
      assert LogNote(key, "illustration") in IllustrationSteps(o.illustration);
    }
    JoinNotes(composed, IllustrationSteps(o.illustration), key);
  }

  lemma TailNotes(d: CaseData, o: Oracle, key: Key)
    ensures SomeLogs(TailSteps(d, o), key) <==>
            NotedOnce(d, o, key)
            && (key.AnnotatedOverlayKey? || key == CostBookedKey(TribunalLedger) || key.SubmissionComposedKey? || key.IllustrationKey?)
  {
    var book := BookSteps(d, o, TribunalLedger, CostOf(o, TribunalLedger));
    SettleNotes(o, key);
    BookNotes(d, o, TribunalLedger, key);
    CloseNotes(o, key);
    JoinNotes(SettleSteps(o), book, key);
    JoinNotes(SettleSteps(o) + book, CloseSteps(o), key);
  }

  lemma SourceIs(o: Oracle, c: GroundIntake)
    ensures var v := VerdictOn(o, c);
            (v.source == Adjudicated || v.outcome == UnresolvedFlagged) <==> !Findings.Unanimous(o.hearings(c.id), o.dossier)
  {
    CitedIs(c.id, o.hearings(c.id), o.dossier);
  }

  lemma OpinionNotes(o: Oracle, c: GroundIntake, key: Key)
    ensures SomeLogs(OpinionSteps(c.id, VerdictOn(o, c)), key) <==>
            key == ReviewVerdictKey(c.id, true) || key == ReviewVerdictKey(c.id, false)
            || (key == AdjudicationKey(c.id) && !Findings.Unanimous(o.hearings(c.id), o.dossier))
  {
    var v := VerdictOn(o, c);
    var steps := OpinionSteps(c.id, v);
    SourceIs(o, c);
    assert steps[0] in steps && steps[1] in steps;
    if !Findings.Unanimous(o.hearings(c.id), o.dossier) {
      assert steps[2] in steps;
    }
  }

  lemma {:induction false} AnchorsNoteNothing(g: GroundId, refs: seq<Ref>, d: CaseDossier, key: Key)
    ensures !SomeLogs(AnchorSteps(g, refs, d), key)
  {
    if refs != [] {
      AnchorsNoteNothing(g, refs[..|refs| - 1], d, key);
    }
  }

  lemma JoinNotes(a: seq<Step>, b: seq<Step>, key: Key)
    ensures SomeLogs(a + b, key) <==> SomeLogs(a, key) || SomeLogs(b, key)
  {
    if SomeLogs(a, key) {
      var step :| step in a && Logs(step, key);
      assert step in a + b;
    }
    if SomeLogs(b, key) {
      var step :| step in b && Logs(step, key);
      assert step in a + b;
    }
  }

  lemma GateNotes(d: CaseData, o: Oracle, c: GroundIntake, key: Key)
    ensures SomeLogs(GateSteps(d, o, c), key) <==> key == GateDecisionKey(c.id)
  {
    var steps := GateSteps(d, o, c);
    assert steps[|steps| - 1] in steps;
  }

  lemma BlockNotes(d: CaseData, o: Oracle, c: GroundIntake, key: Key)
    ensures SomeLogs(BlockSteps(BlockOf(d, o, c)), key) <==> NotedOf(d, o, c, key)
  {
    var steps := BlockSteps(BlockOf(d, o, c));
    if Undecided(d, c.id) {
      var review, gate := ReviewSteps(o, c), GateSteps(d, o, c);
      OpinionNotes(o, c, key);
      AnchorsNoteNothing(c.id, VerdictOn(o, c).cited, o.dossier, key);
      JoinNotes(OpinionSteps(c.id, VerdictOn(o, c)), AnchorSteps(c.id, VerdictOn(o, c).cited, o.dossier), key);
      GateNotes(d, o, c, key);
      JoinNotes(review, gate, key);
      JoinNotes([Do(Transition(c.id, UnderReview))], review + gate, key);
      JoinNotes([Do(Transition(c.id, UnderReview))] + (review + gate), [Do(Transition(c.id, EndStatus(d, o, c)))], key);
    } else {
      assert steps[0] in steps;
    }
  }

  ghost predicate NotedOfSome(d: CaseData, o: Oracle, cs: seq<GroundIntake>, key: Key) {
    exists c :: c in cs && NotedOf(d, o, c, key)
  }

  lemma {:induction false} BlocksNote(d: CaseData, o: Oracle, cs: seq<GroundIntake>, key: Key)
    ensures SomeLogs(AllSteps(Blocks(d, o, cs)), key) <==> NotedOfSome(d, o, cs, key)
  {
    if cs != [] {
      var init, last := cs[..|cs| - 1], cs[|cs| - 1];
      var bs := Blocks(d, o, cs);
      assert cs == init + [last] && bs[..|bs| - 1] == Blocks(d, o, init);
      BlocksNote(d, o, init, key);
      BlockNotes(d, o, last, key);
      JoinNotes(AllSteps(Blocks(d, o, init)), BlockSteps(BlockOf(d, o, last)), key);
    }
  }

  /** Head and tail between them note everything that is noted whatever is decided. */
  lemma EndsNote(d: CaseData, o: Oracle, key: Key)
    ensures SomeLogs(HeadSteps(d, o), key) || SomeLogs(TailSteps(d, o), key) <==> NotedOnce(d, o, key)
  {
    HeadNotes(d, o, key);
    TailNotes(d, o, key);
  }

  /** Everything a completed execution logs under callers' ids, and nothing else: which
      opinions, which adjudications, which decisions, which skips, which costs. */
  lemma LoggedIff(w: World, o: Oracle, key: Key)
    requires !Composed(w.data.events)
    ensures Logged(Play(w, Plan(w.data, o)).world.data.events, CallerId(key)) <==>
            Logged(w.data.events, CallerId(key)) || NotedOnce(w.data, o, key) || NotedOfSome(w.data, o, CandidatesIn(w.data), key)
  {
    var d, blocks := w.data, AllSteps(Blocks(w.data, o, CandidatesIn(w.data)));
    ExecutionIsLegal(w, o);
    LogsPlay(w, Plan(d, o), key);
    PlanInThree(d, o);
    JoinNotes(HeadSteps(d, o), blocks, key);
    JoinNotes(HeadSteps(d, o) + blocks, TailSteps(d, o), key);
    BlocksNote(d, o, CandidatesIn(d), key);
    EndsNote(d, o, key);
  }

  // ---------------------------------------------------------------- the ruling that is logged

  ghost predicate NotedBy(steps: seq<Step>, key: Key, body: Body) {
    exists note :: Do(Append(key, note)) in steps && body == Caller(note)
  }

  /** What is new in the log under an id is what one of the steps appended under it. */
  lemma {:induction false} NewNote(w: World, steps: seq<Step>, key: Key, j: nat)
    requires |w.data.events| <= j < |Play(w, steps).world.data.events|
    requires Play(w, steps).world.data.events[j].id == CallerId(key)
    ensures NotedBy(steps, key, Play(w, steps).world.data.events[j].body)
  {
    var init, last := steps[..|steps| - 1], steps[|steps| - 1];
    assert steps == init + [last];
    if j < |Play(w, init).world.data.events| {
      NewNote(w, init, key, j);
    } else {
      assert last.Do? && last.op.Append? && last == Do(Append(key, last.op.note));
    }
  }

  lemma GateStepsRule(d: CaseData, o: Oracle, c: GroundIntake, g: GroundId, note: Note)
    requires Do(Append(GateDecisionKey(g), note)) in GateSteps(d, o, c)
    ensures c.id == g && note == GateDecided(g, DecisionOn(d, o, c).status)
  {}

  lemma OpinionsRuleNothing(g: GroundId, v: Verdict, h: GroundId, note: Note)
    ensures Do(Append(GateDecisionKey(h), note)) !in OpinionSteps(g, v)
  {}

  lemma BlockRules(d: CaseData, o: Oracle, c: GroundIntake, g: GroundId, note: Note)
    requires Do(Append(GateDecisionKey(g), note)) in BlockSteps(BlockOf(d, o, c))
    ensures c.id == g && Undecided(d, g) && note == GateDecided(g, DecisionOn(d, o, c).status)
  {
    var step := Do(Append(GateDecisionKey(g), note));
    if Undecided(d, c.id) {
      StepsOfBlock(d, o, c, step);
      OpinionsRuleNothing(c.id, VerdictOn(o, c), g, note);
      AnchorStepsAre(c.id, VerdictOn(o, c).cited, o.dossier);
      GateStepsRule(d, o, c, g, note);
    }
  }

  lemma PlanRules(d: CaseData, o: Oracle, g: GroundId, note: Note) returns (c: GroundIntake)
    requires !Composed(d.events) && Do(Append(GateDecisionKey(g), note)) in Plan(d, o)
    ensures c in CandidatesIn(d) && c.id == g && Undecided(d, g) && note == GateDecided(g, DecisionOn(d, o, c).status)
  {
    var step := Do(Append(GateDecisionKey(g), note));
    StepsOfPlan(d, o, step);
    StepsOfIllustration(o.illustration, step);
    c :| c in CandidatesIn(d) && step in BlockSteps(BlockOf(d, o, c));
    BlockRules(d, o, c, g, note);
  }

  /** The gate's ruling on an undecided candidate, read off its hearing. */
  ghost function RulingOn(d: CaseData, o: Oracle, c: GroundIntake): GateStatus {
    if Justified(o, c) then Shipped
    else if ForReview(d, o, c) then FlaggedForReview
    else if c.category in PLANNING_HEADS then RefusedUnsubstantiated
    else RefusedIrrelevant
  }

  lemma RulingIs(d: CaseData, o: Oracle, c: GroundIntake)
    ensures DecisionOn(d, o, c).status == RulingOn(d, o, c)
  {
    EndIs(d, o, c);
    RefusalsApart(d, o, c);
  }

  /** A completed execution logs, of every undecided candidate of which no ruling was logged
      before, this ruling: which of the two refusals, if it is refused. */
  lemma RulingIsLogged(w: World, o: Oracle, i: nat) returns (j: nat)
    requires !Composed(w.data.events) && i < |CandidatesIn(w.data)| && Undecided(w.data, CandidatesIn(w.data)[i].id)
    requires !Logged(w.data.events, CallerId(GateDecisionKey(CandidatesIn(w.data)[i].id)))
    ensures var c, after := CandidatesIn(w.data)[i], Play(w, Plan(w.data, o)).world.data.events;
            j < |after| && after[j].id == CallerId(GateDecisionKey(c.id))
            && after[j].body == Caller(GateDecided(c.id, RulingOn(w.data, o, c)))
  {
    var c, after := CandidatesIn(w.data)[i], Play(w, Plan(w.data, o)).world.data.events;
    var key := GateDecisionKey(c.id);
    assert NotedOf(w.data, o, c, key) && c in CandidatesIn(w.data);
    LoggedIff(w, o, key);
    LogOnlyGrows(w, Plan(w.data, o));
    j :| 0 <= j < |after| && after[j].id == CallerId(key);
    OldIsLogged(w.data.events, after, CallerId(key), j);
    NewNote(w, Plan(w.data, o), key, j);
    var note :| Do(Append(key, note)) in Plan(w.data, o) && after[j].body == Caller(note);
    var ruled := PlanRules(w.data, o, c.id, note);
    OneCandidate(w.data, ruled, c);
    RulingIs(w.data, o, c);
  }

  // ---------------------------------------------------------------- anchors on the records

  ghost predicate EachOnce(anchors: seq<Anchor>) {
    forall i, j :: 0 <= i < j < |anchors| ==> anchors[i] != anchors[j]
  }

  /** A record's anchors kept in place, and those of `added` after them, none twice. */
  ghost predicate Gained(before: seq<Anchor>, after: seq<Anchor>, added: iset<Anchor>) {
    && before <= after && (forall a :: a in after <==> a in before || a in added)
    && (EachOnce(before) ==> EachOnce(after))
  }

  ghost function AddedTo(steps: seq<Step>, g: GroundId): iset<Anchor> { iset a | Do(AddAnchor(g, a)) in steps }

  lemma AnchorsStep(w: World, step: Step, g: GroundId)
    requires g in w.data.grounds && Perform(w, step).error.None?
    ensures g in Perform(w, step).world.data.grounds
    ensures Gained(w.data.grounds[g].anchors, Perform(w, step).world.data.grounds[g].anchors, AddedTo([step], g))
  {}

  lemma GainedTwice(a: seq<Anchor>, b: seq<Anchor>, c: seq<Anchor>, x: iset<Anchor>, y: iset<Anchor>, z: iset<Anchor>)
    requires Gained(a, b, x) && Gained(b, c, y) && z == x + y
    ensures Gained(a, c, z)
  {}

  lemma {:induction false} AnchorsPlay(w: World, steps: seq<Step>, g: GroundId)
    requires g in w.data.grounds && Play(w, steps).error.None?
    ensures g in Play(w, steps).world.data.grounds
    ensures Gained(w.data.grounds[g].anchors, Play(w, steps).world.data.grounds[g].anchors, AddedTo(steps, g))
  {
    if steps != [] {
      var init, last := steps[..|steps| - 1], steps[|steps| - 1];
      assert steps == init + [last];
      AnchorsPlay(w, init, g);
      var v := Play(w, init).world;
      AnchorsStep(v, last, g);
      assert AddedTo(steps, g) == AddedTo(init, g) + AddedTo([last], g);
      GainedTwice(w.data.grounds[g].anchors, v.data.grounds[g].anchors, Play(w, steps).world.data.grounds[g].anchors,
                  AddedTo(init, g), AddedTo([last], g), AddedTo(steps, g));
    }
  }

  /** The box of a manifest entry, as an anchor on a record. */
  predicate AnchorOf(id: AnchorId, d: CaseDossier, a: Anchor) {
    id in d.anchors.at
    && var e := d.anchors.at[id];
       e.box.Some? && a == Anchor(e.sourceDoc, e.page, e.box.value, e.grade)
  }

  ghost predicate BoxIn(refs: seq<Ref>, d: CaseDossier, a: Anchor) {
    exists id :: Evidence(id) in refs && AnchorOf(id, d, a)
  }

  /** A box that counts in the hearing. */
  ghost predicate BoxCited(o: Oracle, c: GroundIntake, a: Anchor) {
    BoxIn(Weighed(o.hearings(c.id), o.dossier), o.dossier, a)
  }

  lemma {:induction false} AnchorStepsAdd(g: GroundId, refs: seq<Ref>, d: CaseDossier, h: GroundId, a: Anchor)
    ensures Do(AddAnchor(h, a)) in AnchorSteps(g, refs, d) <==> h == g && BoxIn(refs, d, a)
  {
    if refs != [] {
      var init, last := refs[..|refs| - 1], refs[|refs| - 1];
      assert refs == init + [last];
      AnchorStepsAdd(g, init, d, h, a);
      if last.Evidence? && AnchorOf(last.anchor, d, a) {
        assert Evidence(last.anchor) in refs;
      }
    }
  }

  lemma SameBoxes(refs: seq<Ref>, same: seq<Ref>, d: CaseDossier, a: Anchor)
    requires forall r :: r in refs <==> r in same
    ensures BoxIn(refs, d, a) <==> BoxIn(same, d, a)
  {}

  lemma StepsOfBlock(d: CaseData, o: Oracle, c: GroundIntake, step: Step)
    requires Undecided(d, c.id)
    ensures step in BlockSteps(BlockOf(d, o, c)) <==>
            step == Do(Transition(c.id, UnderReview)) || step in OpinionSteps(c.id, VerdictOn(o, c))
            || step in AnchorSteps(c.id, VerdictOn(o, c).cited, o.dossier) || step in GateSteps(d, o, c)
            || step == Do(Transition(c.id, EndStatus(d, o, c)))
  {}

  lemma BlockAdds(d: CaseData, o: Oracle, c: GroundIntake, g: GroundId, a: Anchor)
    ensures Do(AddAnchor(g, a)) in BlockSteps(BlockOf(d, o, c)) <==> g == c.id && Undecided(d, g) && BoxCited(o, c, a)
  {
    if Undecided(d, c.id) {
      StepsOfBlock(d, o, c, Do(AddAnchor(g, a)));
      CitedIs(c.id, o.hearings(c.id), o.dossier);
      AnchorStepsAdd(c.id, VerdictOn(o, c).cited, o.dossier, g, a);
      SameBoxes(VerdictOn(o, c).cited, Weighed(o.hearings(c.id), o.dossier), o.dossier, a);
    }
  }

  /** Some undecided candidate for the ground had the box count in its hearing. */
  ghost predicate AnchoredBy(d: CaseData, o: Oracle, g: GroundId, a: Anchor) {
    Undecided(d, g) && exists c :: c in CandidatesIn(d) && c.id == g && BoxCited(o, c, a)
  }

  lemma PlanAdds(d: CaseData, o: Oracle, g: GroundId, a: Anchor)
    requires !Composed(d.events)
    ensures Do(AddAnchor(g, a)) in Plan(d, o) <==> AnchoredBy(d, o, g, a)
  {
    var step := Do(AddAnchor(g, a));
    StepsOfPlan(d, o, step);
    StepsOfIllustration(o.illustration, step);
    forall c { BlockAdds(d, o, c, g, a); }
    if FromABlock(d, o, CandidatesIn(d), step) {
      var c :| c in CandidatesIn(d) && step in BlockSteps(BlockOf(d, o, c));
      assert c.id == g && BoxCited(o, c, a);
    }
    if AnchoredBy(d, o, g, a) {
      var c :| c in CandidatesIn(d) && c.id == g && BoxCited(o, c, a);
      assert step in BlockSteps(BlockOf(d, o, c));
    }
  }

  /** A completed execution anchors on each ground's record exactly the boxes that count in
      the hearing of an undecided candidate for it, after the anchors it had, each once. */
  lemma AnchorsAre(w: World, o: Oracle, g: GroundId)
    requires !Composed(w.data.events) && g in w.data.grounds
    ensures var after := Play(w, Plan(w.data, o)).world.data;
            g in after.grounds
            && Gained(w.data.grounds[g].anchors, after.grounds[g].anchors, iset a | AnchoredBy(w.data, o, g, a))
  {
    ExecutionIsLegal(w, o);
    AnchorsPlay(w, Plan(w.data, o), g);
    forall a ensures Do(AddAnchor(g, a)) in Plan(w.data, o) <==> AnchoredBy(w.data, o, g, a) {
      PlanAdds(w.data, o, g, a);
    }
  }

  // ---------------------------------------------------------------- what is saved

  /** The only snapshot these steps save under a name. */
  ghost predicate OnlySaves(steps: seq<Step>, name: BreakerName, snapshot: Snapshot) {
    && Do(SaveBreaker(name, snapshot)) in steps
    && forall other :: Do(SaveBreaker(name, other)) in steps ==> other == snapshot
  }

  ghost predicate SavesNone(steps: seq<Step>, name: BreakerName) {
    forall other :: Do(SaveBreaker(name, other)) !in steps
  }

  lemma {:induction false} SavedNone(w: World, steps: seq<Step>, name: BreakerName)
    requires SavesNone(steps, name)
    ensures var after := Play(w, steps).world.data.breakers;
            (name in after <==> name in w.data.breakers) && (name in after ==> after[name] == w.data.breakers[name])
  {
    if steps != [] {
      var init, last := steps[..|steps| - 1], steps[|steps| - 1];
      assert steps == init + [last];
      SavedNone(w, init, name);
    }
  }

  lemma {:induction false} SavedOnly(w: World, steps: seq<Step>, name: BreakerName, snapshot: Snapshot)
    requires OnlySaves(steps, name, snapshot) && Play(w, steps).error.None?
    ensures name in Play(w, steps).world.data.breakers && Play(w, steps).world.data.breakers[name] == snapshot
  {
    var init, last := steps[..|steps| - 1], steps[|steps| - 1];
    assert steps == init + [last];
    if Do(SaveBreaker(name, snapshot)) in init {
      SavedOnly(w, init, name, snapshot);
    }
    assert last.Do? && last.op.SaveBreaker? && last.op.name == name ==> last == Do(SaveBreaker(name, snapshot)) by {
      assert last in steps;
      if last.Do? && last.op.SaveBreaker? && last.op.name == name {
        assert last == Do(SaveBreaker(name, last.op.snapshot));
      }
    }
  }

  lemma BlockSaves(d: CaseData, o: Oracle, c: GroundIntake, name: BreakerName, snapshot: Snapshot)
    ensures Do(SaveBreaker(name, snapshot)) in BlockSteps(BlockOf(d, o, c)) <==>
            Undecided(d, c.id) && !CourtRejects(o, c) && name == GateBreaker(c.id) && snapshot == SavedGateBreaker(d, o, c)
  {
    var step := Do(SaveBreaker(name, snapshot));
    if Undecided(d, c.id) {
      StepsOfBlock(d, o, c, step);
      NoSaveInReview(c.id, VerdictOn(o, c), o.dossier, step);
    }
  }

  lemma {:induction false} NoSaveInReview(g: GroundId, v: Verdict, d: CaseDossier, step: Step)
    requires step.Do? && step.op.SaveBreaker?
    ensures step !in OpinionSteps(g, v) && step !in AnchorSteps(g, v.cited, d)
  {
    AnchorStepsAre(g, v.cited, d);
  }

  lemma PlanSaves(d: CaseData, o: Oracle, name: BreakerName, snapshot: Snapshot)
    requires !Composed(d.events)
    ensures Do(SaveBreaker(name, snapshot)) in Plan(d, o) <==>
            (name == AdjudicatorBreaker && snapshot == o.adjudicator)
            || exists c :: c in CandidatesIn(d) && Undecided(d, c.id) && !CourtRejects(o, c)
                           && name == GateBreaker(c.id) && snapshot == SavedGateBreaker(d, o, c)
  {
    var step := Do(SaveBreaker(name, snapshot));
    StepsOfPlan(d, o, step);
    StepsOfIllustration(o.illustration, step);
    forall c { BlockSaves(d, o, c, name, snapshot); }
    if name == AdjudicatorBreaker && snapshot == o.adjudicator {
      assert step in SettleSteps(o);
    }
  }

  /** The breaker a gate ruling leaves, read off the hearing and what was saved before: closed
      by proof; opened by a failure if it was saved tripped or trips at one; else as saved. */
  ghost function BreakerLeft(d: CaseData, o: Oracle, c: GroundIntake): Snapshot {
    var known := GateBreaker(c.id) in d.breakers;
    var settings := if known then d.breakers[GateBreaker(c.id)].settings else Settings(DEFAULT_THRESHOLD, DEFAULT_TIMEOUT);
    var tripped := known && d.breakers[GateBreaker(c.id)].state != Closed && settings.threshold >= 1;
    var h, t := o.hearings(c.id), o.times(c.id);
    if c.category !in PLANNING_HEADS then
      Snapshot(if !tripped then Closed
               else if o.savedAt(c.id) - o.loadedAt >= settings.timeout then HalfOpen else Open, settings)
    else if Proven(Weighed(h, o.dossier), o.dossier) || (!tripped && settings.threshold > 1) then Snapshot(Closed, settings)
    else Snapshot(if o.savedAt(c.id) - t.stampedAt >= settings.timeout then HalfOpen else Open, settings)
  }

  lemma SavedBreakerIs(d: CaseData, o: Oracle, c: GroundIntake)
    ensures SavedGateBreaker(d, o, c) == BreakerLeft(d, o, c)
  {
    GateJudges(o, c);
    RelevantIffAHead(c.category);
  }

  /** Whether the gate rules on an undecided candidate at all. */
  ghost predicate GateRules(o: Oracle, c: GroundIntake) {
    c.category in PLANNING_HEADS ==> Supports(o.hearings(c.id), o.dossier)
  }

  lemma GateRulesIs(o: Oracle, c: GroundIntake)
    ensures CourtRejects(o, c) <==> !GateRules(o, c)
  {
    SupportsIs(c.id, o.hearings(c.id), o.dossier);
    RelevantIffAHead(c.category);
  }

  lemma OneCandidate(d: CaseData, c: GroundIntake, c': GroundIntake)
    requires c in CandidatesIn(d) && c' in CandidatesIn(d) && c.id == c'.id
    ensures c == c'
  {
    CandidatesAre(d.events, d.grounds);
    var cs := CandidatesIn(d);
    var i :| 0 <= i < |cs| && cs[i] == c;
    var j :| 0 <= j < |cs| && cs[j] == c';
  }

  /** A completed execution saves the gate's breaker for every undecided candidate it rules
      on, and leaves every other gate breaker as it was saved before. */
  lemma GateBreakersAre(w: World, o: Oracle, g: GroundId)
    requires !Composed(w.data.events)
    ensures var after := Play(w, Plan(w.data, o)).world.data.breakers;
            (forall c :: c in CandidatesIn(w.data) && c.id == g && Undecided(w.data, g) && GateRules(o, c) ==>
               GateBreaker(g) in after && after[GateBreaker(g)] == BreakerLeft(w.data, o, c))
            && ((forall c :: c in CandidatesIn(w.data) && c.id == g ==> !Undecided(w.data, g) || !GateRules(o, c)) ==>
                  (GateBreaker(g) in after <==> GateBreaker(g) in w.data.breakers)
                  && (GateBreaker(g) in after ==> after[GateBreaker(g)] == w.data.breakers[GateBreaker(g)]))
  {
    var d, plan := w.data, Plan(w.data, o);
    ExecutionIsLegal(w, o);
    forall s { PlanSaves(d, o, GateBreaker(g), s); }
    forall c ensures CourtRejects(o, c) <==> !GateRules(o, c) { GateRulesIs(o, c); }
    if c :| c in CandidatesIn(d) && c.id == g && Undecided(d, g) && GateRules(o, c) {
      forall c' | c' in CandidatesIn(d) && c'.id == g ensures c' == c { OneCandidate(d, c, c'); }
      SavedBreakerIs(d, o, c);
      SavedOnly(w, plan, GateBreaker(g), SavedGateBreaker(d, o, c));
    } else {
      SavedNone(w, plan, GateBreaker(g));
    }
  }

  /** And the adjudicator's breaker and the ledger as the run leaves them. */
  lemma SettledIs(w: World, o: Oracle)
    requires !Composed(w.data.events)
    ensures var after := Play(w, Plan(w.data, o)).world.data;
            AdjudicatorBreaker in after.breakers && after.breakers[AdjudicatorBreaker] == o.adjudicator
            && after.ledger == Some(o.ledger)
  {
    var plan := Plan(w.data, o);
    ExecutionIsLegal(w, o);
    forall s { PlanSaves(w.data, o, AdjudicatorBreaker, s); }
    SavedOnly(w, plan, AdjudicatorBreaker, o.adjudicator);
    forall l ensures Do(SaveLedger(l)) in plan <==> l == o.ledger { PlanSavesLedger(w.data, o, l); }
    LedgerOnly(w, plan, o.ledger);
  }

  lemma BlockSavesNoLedger(d: CaseData, o: Oracle, c: GroundIntake, l: Ledgers.LedgerSnapshot)
    ensures Do(SaveLedger(l)) !in BlockSteps(BlockOf(d, o, c))
  {
    if Undecided(d, c.id) {
      StepsOfBlock(d, o, c, Do(SaveLedger(l)));
      AnchorStepsAre(c.id, VerdictOn(o, c).cited, o.dossier);
    }
  }

  lemma PlanSavesLedger(d: CaseData, o: Oracle, l: Ledgers.LedgerSnapshot)
    requires !Composed(d.events)
    ensures Do(SaveLedger(l)) in Plan(d, o) <==> l == o.ledger
  {
    var step := Do(SaveLedger(l));
    StepsOfPlan(d, o, step);
    StepsOfIllustration(o.illustration, step);
    forall c { BlockSavesNoLedger(d, o, c, l); }
    assert Do(SaveLedger(o.ledger)) in SettleSteps(o);
  }

  lemma {:induction false} LedgerOnly(w: World, steps: seq<Step>, l: Ledgers.LedgerSnapshot)
    requires Play(w, steps).error.None? && Do(SaveLedger(l)) in steps && forall m :: Do(SaveLedger(m)) in steps ==> m == l
    ensures Play(w, steps).world.data.ledger == Some(l)
  {
    var init, last := steps[..|steps| - 1], steps[|steps| - 1];
    assert steps == init + [last];
    if Do(SaveLedger(l)) in init {
      LedgerOnly(w, init, l);
    }
    if last.Do? && last.op.SaveLedger? {
      assert last in steps && last == Do(SaveLedger(last.op.calls));
    }
  }
}
