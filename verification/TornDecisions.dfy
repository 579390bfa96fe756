/** A gate decision that outlives the execution that made it, with an input on which the log
    and the status end up telling different stories. */
module TornDecisions {
  import opened Wrappers
  import opened Breakers
  import L = Ledgers
  import opened CaseStores
  import opened CaseStoreLaws
  import opened Dossiers
  import opened Courts
  import opened Gates
  import opened Intake
  import opened Findings
  import opened Pipeline
  import opened PipelineLaws
  import opened ChainLaws
  import opened OutcomeLaws

  /** A block stopped just before its last transition. */
  function BlockCutShort(b: Block): seq<Step>
    requires b.Reviewed?
  {
    [Do(Transition(b.g, UnderReview))] + b.middle
  }

  lemma CutShortPlay(w: World, b: Block)
    requires Runnable(b, StatusMap(w.data)) && Reporting(b)
    ensures var p := Play(w, BlockCutShort(b));
            p.error.None? && b.g in p.world.data.grounds && p.world.data.grounds[b.g].status == UnderReview
            && Logged(p.world.data.events, CallerId(GateDecisionKey(b.g)))
  {
    var first := Do(Transition(b.g, UnderReview));
    var w1 := Perform(w, first).world;
    PlayOne(w, first);
    MoveStep(w, b.g, UnderReview);
    PlayConcat(w, [first], b.middle);
    QuietPlay(w1, b.middle);
    AppendedIsLogged(w1, b.middle, |b.middle| - 1, GateDecisionKey(b.g), b.middle[|b.middle| - 1].op.note);
  }

  lemma {:induction false} BlocksSplit(bs: seq<Block>, i: nat)
    requires i < |bs|
    ensures AllSteps(bs[..i]) + BlockSteps(bs[i]) <= AllSteps(bs)
  {
    if i < |bs| - 1 {
      var init := bs[..|bs| - 1];
      assert init[..i] == bs[..i] && init[i] == bs[i];
      BlocksSplit(init, i);
    }
  }

  lemma HeadThenBlocks(w: World, head: seq<Step>, bs: seq<Block>, i: nat)
    requires i < |bs| && AllQuiet(w.data.grounds.Keys, head) && DistinctBlocks(bs)
    requires forall j :: 0 <= j < |bs| ==> bs[j].g in w.data.grounds && Runnable(bs[j], StatusMap(w.data))
    ensures Play(w, head + AllSteps(bs[..i])).error.None?
    ensures Runnable(bs[i], StatusMap(Play(w, head + AllSteps(bs[..i])).world.data))
  {
    var before := bs[..i];
    var v := Play(w, head + AllSteps(before)).world;
    assert forall j :: 0 <= j < i ==> before[j] == bs[j];
    assert head + AllSteps(before) + [] == head + AllSteps(before);
    ThreePartPlay(w, head, before, []);
    LandingIs(before, StatusMap(w.data));
    assert StatusMap(v.data) == Landing(before, StatusMap(w.data));
  }

  /** Where to stop an execution so that candidate `i` keeps a logged decision but no end. */
  function TornSteps(d: CaseData, o: Oracle, i: nat): seq<Step>
    requires i < |BlocksIn(d, o)| && BlocksIn(d, o)[i].Reviewed?
  {
    HeadSteps(d, o) + AllSteps(BlocksIn(d, o)[..i]) + BlockCutShort(BlocksIn(d, o)[i])
  }

  lemma PrefixWithin(a: seq<Step>, b: seq<Step>, c: seq<Step>, d: seq<Step>)
    requires b <= c
    ensures a + b <= a + c + d
  {}

  /** An execution of any undecided candidate can stop with a decision logged and the ground
      still under review; if none was logged before, it is that execution's own. */
  lemma DecisionsCanBeTorn(w: World, o: Oracle, i: nat)
    requires !Composed(w.data.events) && i < |CandidatesIn(w.data)| && Undecided(w.data, CandidatesIn(w.data)[i].id)
    ensures |BlocksIn(w.data, o)| == |CandidatesIn(w.data)| && BlocksIn(w.data, o)[i].Reviewed?
    ensures TornSteps(w.data, o, i) <= Plan(w.data, o)
    ensures var torn := Play(w, TornSteps(w.data, o, i)).world.data;
            var g := CandidatesIn(w.data)[i].id;
            Undecided(torn, g) && torn.grounds[g].status == UnderReview && !Composed(torn.events)
            && CandidatesIn(torn) == CandidatesIn(w.data) && Logged(torn.events, CallerId(GateDecisionKey(g)))
            && (!Logged(w.data.events, CallerId(GateDecisionKey(g))) ==>
                  ShowsDecision(torn.events, g, EndStatus(w.data, o, CandidatesIn(w.data)[i])))
  {
    var bs, head := BlocksIn(w.data, o), HeadSteps(w.data, o);
    CandidateBlocks(w.data, o);
    HeadAndTailAreQuiet(w.data, o, w.data.grounds.Keys);
    BlockReports(w.data, o, CandidatesIn(w.data)[i]);
    TornIsWithin(w.data, o, i);
    TornPlay(w, head, bs, i);
    TornKeeps(w, o, i);
    if !Logged(w.data.events, CallerId(GateDecisionKey(CandidatesIn(w.data)[i].id))) {
      TornShows(w, o, i);
    }
  }

  /** Short of composing, and with the candidates it had. */
  lemma TornKeeps(w: World, o: Oracle, i: nat)
    requires !Composed(w.data.events) && i < |BlocksIn(w.data, o)| && BlocksIn(w.data, o)[i].Reviewed?
    ensures var torn := Play(w, TornSteps(w.data, o, i)).world.data;
            !Composed(torn.events) && CandidatesIn(torn) == CandidatesIn(w.data)
  {
    var steps, plan := TornSteps(w.data, o, i), Plan(w.data, o);
    TornIsWithin(w.data, o, i);
    PlanMatches(w.data, o);
    assert forall k :: 0 <= k < |steps| ==> steps[k] == plan[k];
    CandidatesStay(w, steps);
    TornIsEarly(w.data, o, i);
    EarlyCut(w.data, o, |steps|);
    assert Prefix(plan, |steps|) == steps;
    UnfinishedPlay(w, steps);
  }

  lemma {:induction false} UpToBlock(bs: seq<Block>, i: nat)
    requires i < |bs|
    ensures |AllSteps(bs[..i])| + |BlockSteps(bs[i])| <= |AllSteps(bs)|
  {
    BlocksSplit(bs, i);
  }

  lemma TornIsEarly(d: CaseData, o: Oracle, i: nat)
    requires i < |BlocksIn(d, o)| && BlocksIn(d, o)[i].Reviewed?
    ensures |TornSteps(d, o, i)| <= |BeforeClose(d, o)|
  {
    UpToBlock(BlocksIn(d, o), i);
  }

  lemma NewlyLogged(before: seq<CaseEvent>, after: seq<CaseEvent>, id: EventId) returns (j: nat)
    requires before <= after && !Logged(before, id) && Logged(after, id)
    ensures |before| <= j < |after| && after[j].id == id
  {
    j :| 0 <= j < |after| && after[j].id == id;
    OldIsLogged(before, after, id, j);
  }

  lemma TornShows(w: World, o: Oracle, i: nat)
    requires !Composed(w.data.events) && i < |CandidatesIn(w.data)| && Undecided(w.data, CandidatesIn(w.data)[i].id)
    requires |BlocksIn(w.data, o)| == |CandidatesIn(w.data)| && BlocksIn(w.data, o)[i].Reviewed?
    requires !Logged(w.data.events, CallerId(GateDecisionKey(CandidatesIn(w.data)[i].id)))
    requires Logged(Play(w, TornSteps(w.data, o, i)).world.data.events, CallerId(GateDecisionKey(CandidatesIn(w.data)[i].id)))
    ensures ShowsDecision(Play(w, TornSteps(w.data, o, i)).world.data.events, CandidatesIn(w.data)[i].id,
                          EndStatus(w.data, o, CandidatesIn(w.data)[i]))
  {
    var steps, bs, g := TornSteps(w.data, o, i), BlocksIn(w.data, o), CandidatesIn(w.data)[i].id;
    var after := Play(w, steps).world.data.events;
    LogOnlyGrows(w, steps);
    var j := NewlyLogged(w.data.events, after, CallerId(GateDecisionKey(g)));
    TornIsWithin(w.data, o, i);
    PlanIsLicensed(w.data, o);
    assert forall k :: 0 <= k < |steps| ==> steps[k] == Plan(w.data, o)[k];
    NewDecisionsAreLicensed(bs, w, steps, g, j);
    var s :| EndsABlock(bs, g, s) && Decides(after[j].body, g, s);
    BlocksEnd(w.data, o, g, s);
    TheOnlyEnd(w.data, o, i, s);
  }

  lemma TwoDecisionsDiffer(events: seq<CaseEvent>, g: GroundId, s: GroundStatus, t: GroundStatus)
    requires LogInOrder(events) && ShowsDecision(events, g, s) && s != t
    ensures !ShowsDecision(events, g, t)
  {
    var j :| 0 <= j < |events| && events[j].id == CallerId(GateDecisionKey(g)) && Decides(events[j].body, g, s);
    OnlyOneDecision(events, g, j, t);
  }

  /** A later execution that then ends the ground otherwise leaves a log whose one decision
      on it is not the one its status came from. */
  lemma TornThenOtherwise(w: World, o: Oracle, i: nat, later: Oracle)
    requires Coherent(w.data) && !Composed(w.data.events)
    requires i < |CandidatesIn(w.data)| && Undecided(w.data, CandidatesIn(w.data)[i].id)
    requires !Logged(w.data.events, CallerId(GateDecisionKey(CandidatesIn(w.data)[i].id)))
    requires |BlocksIn(w.data, o)| == |CandidatesIn(w.data)| && BlocksIn(w.data, o)[i].Reviewed?
    requires EndStatus(Play(w, TornSteps(w.data, o, i)).world.data, later, CandidatesIn(w.data)[i])
             != EndStatus(w.data, o, CandidatesIn(w.data)[i])
    ensures var c, torn := CandidatesIn(w.data)[i], Play(w, TornSteps(w.data, o, i)).world;
            var after := Play(torn, Plan(torn.data, later)).world.data;
            Reads(after, c.id, EndStatus(torn.data, later, c))
            && ShowsDecision(after.events, c.id, EndStatus(w.data, o, c))
            && !ShowsDecision(after.events, c.id, after.grounds[c.id].status)
  {
    var c, torn := CandidatesIn(w.data)[i], Play(w, TornSteps(w.data, o, i)).world;
    var first, second := EndStatus(w.data, o, c), EndStatus(torn.data, later, c);
    DecisionsCanBeTorn(w, o, i);
    CoherentPlay(w, TornSteps(w.data, o, i));
    CoherentPlay(torn, Plan(torn.data, later));
    CompletedIsTerminal(torn, later);
    LogOnlyGrows(torn, Plan(torn.data, later));
    DecisionStays(torn.data.events, Play(torn, Plan(torn.data, later)).world.data.events, c.id, first);
    TwoDecisionsDiffer(Play(torn, Plan(torn.data, later)).world.data.events, c.id, first, second);
  }

  lemma DecisionStays(before: seq<CaseEvent>, after: seq<CaseEvent>, g: GroundId, s: GroundStatus)
    requires before <= after && ShowsDecision(before, g, s)
    ensures ShowsDecision(after, g, s)
  {
    var j :| 0 <= j < |before| && before[j].id == CallerId(GateDecisionKey(g)) && Decides(before[j].body, g, s);
    assert after[j] == before[j];
  }

  lemma TornPlay(w: World, head: seq<Step>, bs: seq<Block>, i: nat)
    requires i < |bs| && AllQuiet(w.data.grounds.Keys, head) && DistinctBlocks(bs) && Reporting(bs[i])
    requires forall j :: 0 <= j < |bs| ==> bs[j].g in w.data.grounds && Runnable(bs[j], StatusMap(w.data))
    ensures var torn := Play(w, head + AllSteps(bs[..i]) + BlockCutShort(bs[i])).world.data;
            Undecided(torn, bs[i].g) && torn.grounds[bs[i].g].status == UnderReview
            && Logged(torn.events, CallerId(GateDecisionKey(bs[i].g)))
  {
    HeadThenBlocks(w, head, bs, i);
    PlayConcat(w, head + AllSteps(bs[..i]), BlockCutShort(bs[i]));
    CutShortPlay(Play(w, head + AllSteps(bs[..i])).world, bs[i]);
  }

  lemma TornIsWithin(d: CaseData, o: Oracle, i: nat)
    requires !Composed(d.events) && i < |BlocksIn(d, o)| && BlocksIn(d, o)[i].Reviewed?
    ensures TornSteps(d, o, i) <= Plan(d, o)
  {
    var bs, head := BlocksIn(d, o), HeadSteps(d, o);
    PlanInThree(d, o);
    BlocksSplit(bs, i);
    Regroup(head, AllSteps(bs[..i]), BlockCutShort(bs[i]));
    assert BlockCutShort(bs[i]) <= BlockSteps(bs[i]);
    assert AllSteps(bs[..i]) + BlockCutShort(bs[i]) <= AllSteps(bs[..i]) + BlockSteps(bs[i]);
    PrefixWithin(head, AllSteps(bs[..i]) + BlockCutShort(bs[i]), AllSteps(bs), TailSteps(d, o));
  }

  // ---------------------------------------------------------------- an input that tears one

  const EXHIBIT := AnchorFor("plan", 1, None, DocumentsOnly, "Plan")

  /** One document of one page. */
  function Exhibits(): CaseDossier {
    CaseDossier(Dict(["plan"], map["plan" := SourceDocument("plan", "Plan", DocumentsOnly, [RenderedPage(1, 400.0, 400.0)])]),
                Dict([EXHIBIT.id], map[EXHIBIT.id := EXHIBIT]), ClauseSlice([], []))
  }

  /** Both reviewers take `stance`, citing that page; no adjudicator is available. */
  function Unanimously(g: GroundId, stance: Stance): Hearing {
    var review := Review(g, stance, 0.9, [Evidence(EXHIBIT.id)]);
    Hearing(review, review, false, review, None)
  }

  function Hearings(stance: Stance): Oracle {
    Oracle(Exhibits(), None, false, None, g => Unanimously(g, stance), g => Times(0.0, 0.0, 0.0), 0.0, g => 0.0,
           Snapshot(Closed, Settings(DEFAULT_THRESHOLD, DEFAULT_TIMEOUT)), L.LedgerSnapshot(0, []), 0, [])
  }

  lemma RejectedIsNotJustified(c: GroundIntake)
    ensures !Justified(Hearings(Reject), c)
  {}

  /** The page holds, and it is all either reviewer cites. */
  lemma SupportedIsJustified(c: GroundIntake)
    requires c.category in PLANNING_HEADS
    ensures Justified(Hearings(Support), c)
  {
    var ref, h := Evidence(EXHIBIT.id), Hearings(Support).hearings(c.id);
    assert ref in h.clause.cited + h.evidence.cited && Citable(ref, Exhibits());
    assert AnchorHolds(EXHIBIT, Exhibits());
    assert forall r :: r in h.clause.cited + h.evidence.cited ==> r == ref;
  }

  /** A new case with one ground a resident filed. */
  function FiledCase(c: CaseId): CaseData {
    Prepared(NewCase(c, false, false), FilingOps())
  }

  function FilingOps(): seq<Op> {
    [Propose("g", "it blocks the sun", []),
     Append(GroundCategoryKey("g"), CategoryAssigned("g", "environmental_and_social_impacts", ConcernType.Other, []))]
  }

  lemma OneMoreOp(d: CaseData, ops: seq<Op>, op: Op, next: CaseData)
    requires Apply(Prepared(d, ops), op) == Ok(next)
    ensures Prepared(d, ops + [op]) == next
  {
    assert (ops + [op])[..|ops|] == ops;
  }

  function Filed1(c: CaseId): CaseData { Apply(NewCase(c, false, false), FilingOps()[0]).value }

  function Filed2(c: CaseId): CaseData { Apply(Filed1(c), FilingOps()[1]).value }

  lemma FiledSteps(c: CaseId)
    ensures FiledCase(c) == Filed2(c)
  {
    var none: seq<Op> := [];
    OneMoreOp(NewCase(c, false, false), none, FilingOps()[0], Filed1(c));
    OneMoreOp(NewCase(c, false, false), none + [FilingOps()[0]], FilingOps()[1], Filed2(c));
    assert none + [FilingOps()[0]] + [FilingOps()[1]] == FilingOps();
  }

  /** The filed case, spelled out. */
  lemma FiledCaseIs(c: CaseId)
    ensures var d := FiledCase(c);
            d.grounds == map["g" := GroundRecord("g", "it blocks the sun", Proposed, [])]
            && d.events == [CaseEvent(CreatedId, CaseCreated(false, false), 0),
                            CaseEvent(ProposedId("g"), GroundProposed("g", "it blocks the sun"), 1),
                            CaseEvent(CallerId(GroundCategoryKey("g")),
                                      Caller(CategoryAssigned("g", "environmental_and_social_impacts", ConcernType.Other, [])), 2)]
  {
    FiledSteps(c);
    assert NewCase(c, false, false).events == [CaseEvent(CreatedId, CaseCreated(false, false), 0)];
  }

  lemma FiledCaseIsCoherent(c: CaseId)
    ensures Coherent(FiledCase(c))
  {
    FiledSteps(c);
    NewCaseIsSourced(c, false, false);
    ApplyIsSourced(NewCase(c, false, false), FilingOps()[0]);
    ApplyIsSourced(Filed1(c), FilingOps()[1]);
  }

  lemma OneTag(before: seq<CaseEvent>, e: CaseEvent, grounds: map<GroundId, GroundRecord>)
    requires Candidates(before, grounds) == [] && Assigns(e, grounds)
    ensures Candidates(before + [e], grounds) ==
            [GroundIntake(e.body.note.g, e.body.note.category, grounds[e.body.note.g].claim)]
  {
    assert (before + [e])[..|before|] == before;
  }

  lemma FiledCandidates(c: CaseId)
    ensures CandidatesIn(FiledCase(c)) == [GroundIntake("g", "environmental_and_social_impacts", "it blocks the sun")]
  {
    FiledCaseIs(c);
    var d := FiledCase(c);
    var none: seq<CaseEvent> := [];
    UntaggedEvent(none, d.events[0], d.grounds);
    UntaggedEvent(none + [d.events[0]], d.events[1], d.grounds);
    OneTag(none + [d.events[0]] + [d.events[1]], d.events[2], d.grounds);
    assert d.events == none + [d.events[0]] + [d.events[1]] + [d.events[2]];
  }

  lemma FiledCaseIsOpen(c: CaseId)
    ensures Undecided(FiledCase(c), "g") && !Composed(FiledCase(c).events)
    ensures !Logged(FiledCase(c).events, CallerId(GateDecisionKey("g")))
  {
    FiledCaseIs(c);
  }

  /** On that case: an execution the reviewers reject is stopped once its decision is logged,
      and one they support completes. The ground reads supported; the log's one decision
      on it says refused. */
  lemma LogAndStatusCanDisagree(c: CaseId) returns (cut: nat, torn: World, after: CaseData)
    ensures torn == AfterAttempt(World(FiledCase(c), []), Attempt(Hearings(Reject), cut, None))
    ensures after == Play(torn, Plan(torn.data, Hearings(Support))).world.data
    ensures Reads(after, "g", Supported) && ShowsDecision(after.events, "g", Refused)
    ensures !ShowsDecision(after.events, "g", after.grounds["g"].status)
  {
    var w, o, later := World(FiledCase(c), []), Hearings(Reject), Hearings(Support);
    FiledCaseIsCoherent(c);
    FiledCandidates(c);
    FiledCaseIsOpen(c);
    DecisionsCanBeTorn(w, o, 0);
    var steps := TornSteps(w.data, o, 0);
    cut := |steps|;
    torn := Play(w, steps).world;
    StoppedThere(w, o, steps);
    after := Play(torn, Plan(torn.data, later)).world.data;
    EndsDiffer(w.data, torn.data, CandidatesIn(w.data)[0]);
    TornThenOtherwise(w, o, 0, later);
  }

  lemma StoppedThere(w: World, o: Oracle, steps: seq<Step>)
    requires steps <= Plan(w.data, o)
    ensures AfterAttempt(w, Attempt(o, |steps|, None)) == Play(w, steps).world
  {
    assert Prefix(Plan(w.data, o), |steps|) == steps;
    assert steps + [] == steps;
  }

  lemma EndsDiffer(d: CaseData, torn: CaseData, c: GroundIntake)
    requires c.category in PLANNING_HEADS
    ensures EndStatus(d, Hearings(Reject), c) == Refused && EndStatus(torn, Hearings(Support), c) == Supported
  {
    RejectedIsNotJustified(c);
    SupportedIsJustified(c);
    SupportedIffJustified(torn, Hearings(Support), c);
    RejectsEnd(d, c);
  }

  lemma RejectsEnd(d: CaseData, c: GroundIntake)
    requires c.category in PLANNING_HEADS
    ensures EndStatus(d, Hearings(Reject), c) == Refused
  {
    SupportedIff(c.id, Hearings(Reject).hearings(c.id), KnownRefs(Exhibits()));
    RelevantIffAHead(c.category);
  }
}
