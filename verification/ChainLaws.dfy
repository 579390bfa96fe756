/** What every chain of executions of one case keeps, each run alone, each cut off
    anywhere, some recording a failure on the way out. */
module ChainLaws {
  import opened Wrappers
  import opened Breakers
  import opened CaseStores
  import opened Dossiers
  import opened Courts
  import opened Gates
  import opened Intake
  import opened Pipeline
  import opened PipelineLaws

  /** One execution: what it meets, after how many steps it stops, and the exception the
      job wrapper then records, if it still can. */
  datatype Attempt = Attempt(o: Oracle, cut: nat, failure: Option<string>)

  function Prefix(steps: seq<Step>, cut: nat): seq<Step> {
    if cut <= |steps| then steps[..cut] else steps
  }

  function FailureSteps(failure: Option<string>): seq<Step> {
    if failure.None? then [] else [LogNote(JobFailedKey(failure.value), "job_failed")]
  }

  function AttemptSteps(w: World, a: Attempt): seq<Step> {
    Prefix(Plan(w.data, a.o), a.cut) + FailureSteps(a.failure)
  }

  function AfterAttempt(w: World, a: Attempt): World { Play(w, AttemptSteps(w, a)).world }

  /** Each execution loads the state the one before left. */
  function AfterChain(w: World, chain: seq<Attempt>): World {
    if chain == [] then w else AfterAttempt(AfterChain(w, chain[..|chain| - 1]), chain[|chain| - 1])
  }

  lemma CutOfConcat(w: World, a: seq<Step>, b: seq<Step>, k: nat)
    requires k <= |a + b|
    ensures Play(w, (a + b)[..k]) ==
            if k <= |a| then Play(w, a[..k])
            else if Play(w, a).error.Some? then Play(w, a)
            else Play(Play(w, a).world, b[..k - |a|])
  {
    if k <= |a| {
      assert (a + b)[..k] == a[..k];
    } else {
      assert (a + b)[..k] == a + b[..k - |a|];
      PlayConcat(w, a, b[..k - |a|]);
    }
  }

  // ---------------------------------------------------------------- legality

  /** No execution of any chain raises a store error. */
  lemma ChainIsLegal(w: World, chain: seq<Attempt>, i: nat)
    requires i < |chain|
    ensures Play(AfterChain(w, chain[..i]), AttemptSteps(AfterChain(w, chain[..i]), chain[i])).error.None?
  {
    var v := AfterChain(w, chain[..i]);
    var plan := Plan(v.data, chain[i].o);
    ExecutionIsLegal(v, chain[i].o);
    assert plan[..|plan|] == plan;
    var cut := Prefix(plan, chain[i].cut);
    assert Play(v, cut).error.None?;
    PlayConcat(v, cut, FailureSteps(chain[i].failure));
    QuietPlay(Play(v, cut).world, FailureSteps(chain[i].failure));
  }

  // ---------------------------------------------------------------- keys and the log

  /** Callers keep to the ids of their event types. */
  predicate Matches(key: Key, note: Note) {
    && (key == SubmissionComposedKey <==> note == SubmissionComposed)
    && (key.CostBookedKey? <==> note.CostBooked?) && (key.CostBookedKey? ==> key.kind == note.kind)
    && (key.GateDecisionKey? <==> note.GateDecided?) && (key.GateDecisionKey? ==> key.g == note.g)
  }

  predicate KeysKept(events: seq<CaseEvent>) {
    forall i :: 0 <= i < |events| ==>
      (events[i].id.CallerId? <==> events[i].body.Caller?)
      && (events[i].id.CallerId? ==> Matches(events[i].id.key, events[i].body.note))
  }

  /** What the job issues proposes no ground, tags none, and keeps to its ids. */
  predicate Matched(step: Step) {
    step.Do? ==>
      !step.op.Propose?
      && (step.op.Append? ==> Matches(step.op.key, step.op.note) && !step.op.note.CategoryAssigned?)
  }

  ghost predicate AllMatched(steps: seq<Step>) {
    forall i :: 0 <= i < |steps| ==> Matched(steps[i])
  }

  lemma MatchedStep(w: World, step: Step)
    requires KeysKept(w.data.events) && Matched(step)
    ensures KeysKept(Perform(w, step).world.data.events)
  {}

  lemma {:induction false} MatchedPlay(w: World, steps: seq<Step>)
    requires KeysKept(w.data.events) && AllMatched(steps)
    ensures KeysKept(Play(w, steps).world.data.events)
  {
    if steps != [] {
      var init := steps[..|steps| - 1];
      assert forall i :: 0 <= i < |init| ==> init[i] == steps[i];
      MatchedPlay(w, init);
      MatchedStep(Play(w, init).world, steps[|steps| - 1]);
    }
  }

  lemma {:induction false} LogOnlyGrows(w: World, steps: seq<Step>)
    ensures w.data.events <= Play(w, steps).world.data.events
  {
    if steps != [] {
      LogOnlyGrows(w, steps[..|steps| - 1]);
    }
  }

  lemma LoggedInPrefix(a: seq<CaseEvent>, b: seq<CaseEvent>, id: EventId)
    requires a <= b && Logged(a, id)
    ensures Logged(b, id)
  {
    var i :| 0 <= i < |a| && a[i].id == id;
    assert b[i].id == id;
  }

  lemma AppendLogs(d: CaseData, id: EventId, body: Body)
    ensures Logged(Appended(d, id, body).events, id)
  {
    if !Logged(d.events, id) {
      assert Appended(d, id, body).events[|d.events|].id == id;
    }
  }

  /** Whatever a run that raises nothing was to append is in the log afterwards. */
  lemma {:induction false} AppendedIsLogged(w: World, steps: seq<Step>, i: nat, key: Key, note: Note)
    requires i < |steps| && steps[i] == Do(Append(key, note)) && Play(w, steps).error.None?
    ensures Logged(Play(w, steps).world.data.events, CallerId(key))
  {
    assert steps == steps[..i] + [steps[i]] + steps[i + 1..];
    PlayConcat(w, steps[..i] + [steps[i]], steps[i + 1..]);
    PlayConcat(w, steps[..i], [steps[i]]);
    var v := Play(w, steps[..i]).world;
    PlayOne(v, steps[i]);
    AppendLogs(v.data, CallerId(key), Caller(note));
    var u := Perform(v, steps[i]).world;
    LogOnlyGrows(u, steps[i + 1..]);
    LoggedInPrefix(u.data.events, Play(w, steps).world.data.events, CallerId(key));
  }

  // ---------------------------------------------------------------- the parts of a plan

  lemma {:induction false} IllustrationStepsMatch(names: seq<string>)
    ensures AllMatched(IllustrationSteps(names))
    ensures forall i :: 0 <= i < |IllustrationSteps(names)| ==> Costless(IllustrationSteps(names)[i])
  {
    if names != [] {
      IllustrationStepsMatch(names[..|names| - 1]);
    }
  }

  /** A step that neither books nor marks any cost. */
  predicate Costless(step: Step) {
    step.Do? && (step.op.Append? ==> !step.op.key.CostBookedKey?)
  }

  ghost predicate AllCostless(steps: seq<Step>) {
    forall i :: 0 <= i < |steps| ==> Costless(steps[i])
  }

  lemma MiddleMatches(g: GroundId, saved: Snapshot, end: GroundStatus, middle: seq<Step>)
    requires MiddleIs(g, saved, end, middle)
    ensures AllMatched(middle) && AllCostless(middle)
  {
    forall i | 0 <= i < |middle| ensures Matched(middle[i]) && Costless(middle[i]) {
      assert OfReview(g, middle[i]) || OfGate(g, saved, end, middle[i]);
    }
  }

  lemma BlockMatches(d: CaseData, o: Oracle, c: GroundIntake)
    ensures AllMatched(BlockSteps(BlockOf(d, o, c))) && AllCostless(BlockSteps(BlockOf(d, o, c)))
  {
    BlockIs(d, o, c);
    var b := BlockOf(d, o, c);
    if b.Reviewed? {
      MiddleMatches(c.id, SavedGateBreaker(d, o, c), b.end, b.middle);
    }
  }

  lemma {:induction false} BlocksMatch(d: CaseData, o: Oracle, cs: seq<GroundIntake>)
    ensures AllMatched(AllSteps(Blocks(d, o, cs))) && AllCostless(AllSteps(Blocks(d, o, cs)))
  {
    if cs != [] {
      var bs := Blocks(d, o, cs);
      assert bs[..|bs| - 1] == Blocks(d, o, cs[..|cs| - 1]);
      BlocksMatch(d, o, cs[..|cs| - 1]);
      BlockMatches(d, o, cs[|cs| - 1]);
    }
  }

  lemma EndsMatch(d: CaseData, o: Oracle)
    ensures AllMatched(HeadSteps(d, o)) && AllMatched(TailSteps(d, o))
  {
    IllustrationStepsMatch(o.illustration);
    assert AllMatched(SettleSteps(o));
    assert AllMatched(BookSteps(d, o, TribunalLedger, o.ledgerTotal));
    assert AllMatched(CloseSteps(o));
    JoinMatched(SettleSteps(o), BookSteps(d, o, TribunalLedger, o.ledgerTotal));
  }

  lemma PlanMatches(d: CaseData, o: Oracle)
    ensures AllMatched(Plan(d, o))
  {
    if !Composed(d.events) {
      var blocks := AllSteps(Blocks(d, o, CandidatesIn(d)));
      PlanInThree(d, o);
      BlocksMatch(d, o, CandidatesIn(d));
      EndsMatch(d, o);
      JoinMatched(HeadSteps(d, o), blocks);
      JoinMatched(HeadSteps(d, o) + blocks, TailSteps(d, o));
    }
  }

  lemma JoinMatched(a: seq<Step>, b: seq<Step>)
    requires AllMatched(a) && AllMatched(b)
    ensures AllMatched(a + b)
  {}

  lemma AttemptMatches(w: World, a: Attempt)
    ensures AllMatched(AttemptSteps(w, a))
  {
    PlanMatches(w.data, a.o);
  }

  // ---------------------------------------------------------------- completion and after

  /** A completed execution has logged that the submission was composed. */
  lemma CompletedIsComposed(w: World, o: Oracle)
    requires KeysKept(w.data.events)
    ensures Composed(Play(w, Plan(w.data, o)).world.data.events)
    ensures KeysKept(Play(w, Plan(w.data, o)).world.data.events)
  {
    var plan := Plan(w.data, o);
    var after := Play(w, plan).world.data.events;
    PlanMatches(w.data, o);
    MatchedPlay(w, plan);
    LogOnlyGrows(w, plan);
    if Composed(w.data.events) {
      var i :| 0 <= i < |w.data.events| && w.data.events[i].body == Caller(SubmissionComposed);
      assert after[i].body == Caller(SubmissionComposed);
    } else {
      ExecutionIsLegal(w, o);
      var i := |plan| - |CloseSteps(o)|;
      assert plan[i] == CloseSteps(o)[0];
      AppendedIsLogged(w, plan, i, SubmissionComposedKey, SubmissionComposed);
      var j :| 0 <= j < |after| && after[j].id == CallerId(SubmissionComposedKey);
      assert after[j].body == Caller(SubmissionComposed);
    }
  }

  /** The part of a world that later executions must leave alone. */
  ghost predicate SameButLog(a: World, b: World) {
    && b.spend == a.spend && b.data.grounds == a.data.grounds && b.data.order == a.data.order
    && b.data.breakers == a.data.breakers && b.data.ledger == a.data.ledger
    && a.data.events <= b.data.events
  }

  ghost predicate OnlyAfterthoughts(a: seq<CaseEvent>, b: seq<CaseEvent>) {
    a <= b && forall i :: |a| <= i < |b| ==>
      b[i].id == CallerId(RerunIgnoredKey) || (b[i].id.CallerId? && b[i].id.key.JobFailedKey?)
  }

  function Ignoring(d: CaseData): CaseData { Appended(d, CallerId(RerunIgnoredKey), Caller(Plain("tribunal_rerun_ignored"))) }

  /** All an execution can do to a composed case. */
  lemma LaterPlan(w: World, o: Oracle, cut: nat)
    requires Composed(w.data.events)
    ensures var p := Play(w, Prefix(Plan(w.data, o), cut));
            p.error.None? && (p.world == w || p.world == w.(data := Ignoring(w.data)))
  {
    var plan := Plan(w.data, o);
    var steps := Prefix(plan, cut);
    assert steps == [] || steps == plan;
    if steps != [] {
      PlayOne(w, plan[0]);
    }
  }

  lemma FailurePlay(w: World, failure: Option<string>)
    ensures Play(w, FailureSteps(failure)) ==
            Progress(if failure.None? then w
                     else w.(data := Appended(w.data, CallerId(JobFailedKey(failure.value)), Caller(Plain("job_failed")))), None)
  {
    if failure.Some? {
      PlayOne(w, FailureSteps(failure)[0]);
    }
  }

  lemma LaterAttempt(w: World, a: Attempt)
    requires Composed(w.data.events)
    ensures var v := AfterAttempt(w, a);
            SameButLog(w, v) && OnlyAfterthoughts(w.data.events, v.data.events) && Composed(v.data.events)
            && (a.failure.None? ==> v.data.events == w.data.events || v.data == Ignoring(w.data))
  {
    var cut := Prefix(Plan(w.data, a.o), a.cut);
    LaterPlan(w, a.o, a.cut);
    PlayConcat(w, cut, FailureSteps(a.failure));
    FailurePlay(Play(w, cut).world, a.failure);
    var after := AfterAttempt(w, a).data.events;
    var i :| 0 <= i < |w.data.events| && w.data.events[i].body == Caller(SubmissionComposed);
    assert after[i].body == Caller(SubmissionComposed);
  }

  /** Once a submission is composed, any chain of later executions leaves every ground,
      breaker, ledger and booking as it was, and only notes that it was ignored, or that
      it failed. */
  lemma {:induction false} LaterChain(w: World, chain: seq<Attempt>)
    requires Composed(w.data.events)
    ensures var v := AfterChain(w, chain);
            SameButLog(w, v) && OnlyAfterthoughts(w.data.events, v.data.events) && Composed(v.data.events)
  {
    if chain != [] {
      LaterChain(w, chain[..|chain| - 1]);
      LaterAttempt(AfterChain(w, chain[..|chain| - 1]), chain[|chain| - 1]);
    }
  }

  /** Without failures, all later executions together add at most one event. */
  lemma {:induction false} LaterChainAddsOne(w: World, chain: seq<Attempt>)
    requires Composed(w.data.events)
    requires forall i :: 0 <= i < |chain| ==> chain[i].failure.None?
    ensures var events := AfterChain(w, chain).data.events;
            events == w.data.events
            || (|events| == |w.data.events| + 1 && Logged(events, CallerId(RerunIgnoredKey)))
  {
    LaterChain(w, chain);
    if chain != [] {
      var init, last := chain[..|chain| - 1], chain[|chain| - 1];
      assert forall i :: 0 <= i < |init| ==> init[i] == chain[i];
      LaterChainAddsOne(w, init);
      LaterChain(w, init);
      var v := AfterChain(w, init);
      LaterAttempt(v, last);
      AppendLogs(v.data, CallerId(RerunIgnoredKey), Caller(Plain("tribunal_rerun_ignored")));
    }
  }

  // ---------------------------------------------------------------- the candidates stay

  lemma {:induction false} CandidatesRead(events: seq<CaseEvent>, a: map<GroundId, GroundRecord>, b: map<GroundId, GroundRecord>)
    requires a.Keys == b.Keys && forall g :: g in a ==> a[g].claim == b[g].claim
    ensures Candidates(events, a) == Candidates(events, b)
  {
    if events != [] {
      CandidatesRead(events[..|events| - 1], a, b);
    }
  }

  lemma UntaggedEvent(events: seq<CaseEvent>, e: CaseEvent, grounds: map<GroundId, GroundRecord>)
    requires !(e.body.Caller? && e.body.note.CategoryAssigned?)
    ensures Candidates(events + [e], grounds) == Candidates(events, grounds)
  {
    assert (events + [e])[..|events|] == events;
  }

  lemma CandidatesStep(w: World, step: Step)
    requires Matched(step)
    ensures CandidatesIn(Perform(w, step).world.data) == CandidatesIn(w.data)
  {
    var v := Perform(w, step).world;
    CandidatesRead(v.data.events, w.data.grounds, v.data.grounds);
    if v.data.events != w.data.events {
      UntaggedEvent(w.data.events, v.data.events[|w.data.events|], w.data.grounds);
    }
  }

  /** The job never changes who its candidates are. */
  lemma {:induction false} CandidatesStay(w: World, steps: seq<Step>)
    requires AllMatched(steps)
    ensures CandidatesIn(Play(w, steps).world.data) == CandidatesIn(w.data)
  {
    if steps != [] {
      var init := steps[..|steps| - 1];
      assert forall i :: 0 <= i < |init| ==> init[i] == steps[i];
      CandidatesStay(w, init);
      CandidatesStep(Play(w, init).world, steps[|steps| - 1]);
    }
  }

  // ---------------------------------------------------------------- what comes before composing

  predicate Unfinished(step: Step) { step.Do? && step.op.Append? ==> step.op.note != SubmissionComposed }

  ghost predicate AllUnfinished(steps: seq<Step>) {
    forall i :: 0 <= i < |steps| ==> Unfinished(steps[i])
  }

  lemma JoinUnfinished(a: seq<Step>, b: seq<Step>)
    requires AllUnfinished(a) && AllUnfinished(b)
    ensures AllUnfinished(a + b)
  {}

  lemma {:induction false} UnfinishedPlay(w: World, steps: seq<Step>)
    requires !Composed(w.data.events) && AllUnfinished(steps)
    ensures !Composed(Play(w, steps).world.data.events)
  {
    if steps != [] {
      var init := steps[..|steps| - 1];
      assert forall i :: 0 <= i < |init| ==> init[i] == steps[i];
      UnfinishedPlay(w, init);
    }
  }

  lemma BlockIsUnfinished(d: CaseData, o: Oracle, c: GroundIntake)
    ensures AllUnfinished(BlockSteps(BlockOf(d, o, c)))
  {
    BlockIs(d, o, c);
    var b := BlockOf(d, o, c);
    if b.Reviewed? {
      forall i | 0 <= i < |b.middle| ensures Unfinished(b.middle[i]) {
        assert OfReview(c.id, b.middle[i]) || OfGate(c.id, SavedGateBreaker(d, o, c), b.end, b.middle[i]);
      }
      JoinUnfinished([Do(Transition(b.g, UnderReview))], b.middle);
      JoinUnfinished([Do(Transition(b.g, UnderReview))] + b.middle, [Do(Transition(b.g, b.end))]);
    }
  }

  lemma {:induction false} BlocksAreUnfinished(d: CaseData, o: Oracle, cs: seq<GroundIntake>)
    ensures AllUnfinished(AllSteps(Blocks(d, o, cs)))
  {
    if cs != [] {
      var init := cs[..|cs| - 1];
      BlocksAreUnfinished(d, o, init);
      BlockIsUnfinished(d, o, cs[|cs| - 1]);
      assert Blocks(d, o, cs)[..|Blocks(d, o, init)|] == Blocks(d, o, init);
      JoinUnfinished(AllSteps(Blocks(d, o, init)), BlockSteps(BlockOf(d, o, cs[|cs| - 1])));
    }
  }

  function BeforeClose(d: CaseData, o: Oracle): seq<Step> {
    HeadSteps(d, o) + AllSteps(Blocks(d, o, CandidatesIn(d))) + (SettleSteps(o) + BookSteps(d, o, TribunalLedger, o.ledgerTotal))
  }

  lemma BeforeCloseIsUnfinished(d: CaseData, o: Oracle)
    ensures AllUnfinished(BeforeClose(d, o))
  {
    var settle, book := SettleSteps(o), BookSteps(d, o, TribunalLedger, o.ledgerTotal);
    BlocksAreUnfinished(d, o, CandidatesIn(d));
    assert AllUnfinished(HeadSteps(d, o));
    JoinUnfinished(settle, book);
    JoinUnfinished(HeadSteps(d, o), AllSteps(Blocks(d, o, CandidatesIn(d))));
    JoinUnfinished(HeadSteps(d, o) + AllSteps(Blocks(d, o, CandidatesIn(d))), settle + book);
  }

  // ---------------------------------------------------------------- composed means decided

  ghost predicate AllDecided(d: CaseData) {
    forall i :: 0 <= i < |CandidatesIn(d)| ==>
      CandidatesIn(d)[i].id in d.grounds && Terminal(d.grounds[CandidatesIn(d)[i].id].status)
  }

  lemma LandedIsDecided(d: CaseData, o: Oracle, after: CaseData)
    requires ReadsAs(d, after, Landing(Blocks(d, o, CandidatesIn(d)), StatusMap(d))) && CandidatesIn(after) == CandidatesIn(d)
    ensures AllDecided(after)
  {
    var cs, bs := CandidatesIn(d), Blocks(d, o, CandidatesIn(d));
    CandidateBlocks(d, o);
    LandingIs(bs, StatusMap(d));
    forall i | 0 <= i < |cs| ensures cs[i].id in after.grounds && Terminal(after.grounds[cs[i].id].status) {
      assert bs[i].g == cs[i].id;
      BlockIs(d, o, cs[i]);
    }
  }

  /** Cut after its last block, an execution has decided every candidate. */
  lemma LateCutDecides(w: World, o: Oracle, late: seq<Step>)
    requires AllQuiet(w.data.grounds.Keys, late) && AllMatched(late)
    ensures AllDecided(Play(w, HeadSteps(w.data, o) + AllSteps(Blocks(w.data, o, CandidatesIn(w.data))) + late).world.data)
  {
    var head, blocks := HeadSteps(w.data, o), AllSteps(Blocks(w.data, o, CandidatesIn(w.data)));
    CandidateBlocks(w.data, o);
    HeadAndTailAreQuiet(w.data, o, w.data.grounds.Keys);
    ThreePartPlay(w, head, Blocks(w.data, o, CandidatesIn(w.data)), late);
    BlocksMatch(w.data, o, CandidatesIn(w.data));
    EndsMatch(w.data, o);
    JoinMatched(head, blocks);
    JoinMatched(head + blocks, late);
    CandidatesStay(w, head + blocks + late);
    LandedIsDecided(w.data, o, Play(w, head + blocks + late).world.data);
  }

  lemma EarlyCut(d: CaseData, o: Oracle, cut: nat)
    requires !Composed(d.events) && cut <= |BeforeClose(d, o)|
    ensures AllUnfinished(Prefix(Plan(d, o), cut))
  {
    var blocks, book := AllSteps(Blocks(d, o, CandidatesIn(d))), BookSteps(d, o, TribunalLedger, o.ledgerTotal);
    BeforeCloseIsUnfinished(d, o);
    Regroup(HeadSteps(d, o) + blocks, SettleSteps(o), book);
    assert Plan(d, o) == BeforeClose(d, o) + CloseSteps(o);
    assert Plan(d, o)[..cut] == BeforeClose(d, o)[..cut];
  }

  lemma LateCut(d: CaseData, o: Oracle, cut: nat) returns (late: seq<Step>)
    requires !Composed(d.events) && cut > |HeadSteps(d, o) + AllSteps(Blocks(d, o, CandidatesIn(d)))|
    ensures late <= TailSteps(d, o)
    ensures Prefix(Plan(d, o), cut) == HeadSteps(d, o) + AllSteps(Blocks(d, o, CandidatesIn(d))) + late
  {
    var before := HeadSteps(d, o) + AllSteps(Blocks(d, o, CandidatesIn(d)));
    PlanInThree(d, o);
    late := if cut <= |Plan(d, o)| then TailSteps(d, o)[..cut - |before|] else TailSteps(d, o);
  }

  lemma PartsOf(ids: set<GroundId>, steps: seq<Step>, part: seq<Step>)
    requires AllQuiet(ids, steps) && AllMatched(steps) && part <= steps
    ensures AllQuiet(ids, part) && AllMatched(part)
  {
    assert forall i :: 0 <= i < |part| ==> part[i] == steps[i];
  }

  /** Whichever execution composes first has decided every candidate. */
  lemma ComposingDecides(w: World, a: Attempt)
    requires !Composed(w.data.events) && Composed(AfterAttempt(w, a).data.events)
    ensures AllDecided(AfterAttempt(w, a).data)
  {
    var d, failure := w.data, FailureSteps(a.failure);
    assert AllQuiet(d.grounds.Keys, failure) && AllMatched(failure) && AllUnfinished(failure);
    if a.cut <= |BeforeClose(d, a.o)| {
      EarlyCut(d, a.o, a.cut);
      JoinUnfinished(Prefix(Plan(d, a.o), a.cut), failure);
      UnfinishedPlay(w, AttemptSteps(w, a));
    } else {
      var late := LateCut(d, a.o, a.cut);
      HeadAndTailAreQuiet(d, a.o, d.grounds.Keys);
      EndsMatch(d, a.o);
      PartsOf(d.grounds.Keys, TailSteps(d, a.o), late);
      JoinMatched(late, failure);
      LateCutDecides(w, a.o, late + failure);
      Regroup(HeadSteps(d, a.o) + AllSteps(Blocks(d, a.o, CandidatesIn(d))), late, failure);
    }
  }

  /** Over any chain, a composed case has every candidate decided. */
  lemma {:induction false} ComposedIsDecided(w: World, chain: seq<Attempt>)
    requires Composed(w.data.events) ==> AllDecided(w.data)
    ensures var d := AfterChain(w, chain).data; Composed(d.events) ==> AllDecided(d)
  {
    if chain != [] {
      var last := chain[|chain| - 1];
      var v := AfterChain(w, chain[..|chain| - 1]);
      ComposedIsDecided(w, chain[..|chain| - 1]);
      if Composed(v.data.events) {
        StillDecided(v, last);
      } else if Composed(AfterAttempt(v, last).data.events) {
        ComposingDecides(v, last);
      }
    }
  }

  lemma StillDecided(v: World, a: Attempt)
    requires Composed(v.data.events) && AllDecided(v.data)
    ensures AllDecided(AfterAttempt(v, a).data)
  {
    LaterAttempt(v, a);
    AttemptMatches(v, a);
    CandidatesStay(v, AttemptSteps(v, a));
  }

  /** From any state that any chain of executions of an uncomposed case left, an execution
      that completes raises nothing, leaves every candidate terminal and the submission
      composed, and whatever runs later changes no ground. */
  lemma ChainThenComplete(w: World, chain: seq<Attempt>, o: Oracle, later: seq<Attempt>)
    requires KeysKept(w.data.events) && !Composed(w.data.events)
    ensures var v := AfterChain(w, chain);
            var done := Play(v, Plan(v.data, o));
            done.error.None? && Composed(done.world.data.events)
            && AllDecided(done.world.data) && CandidatesIn(done.world.data) == CandidatesIn(w.data)
            && AfterChain(done.world, later).data.grounds == done.world.data.grounds
  {
    var v := AfterChain(w, chain);
    ChainKeepsKeys(w, chain);
    ChainKeepsCandidates(w, chain);
    ComposedIsDecided(w, chain);
    ExecutionIsLegal(v, o);
    CompletedIsComposed(v, o);
    WholeAttempt(v, o);
    AttemptMatches(v, Attempt(o, |Plan(v.data, o)|, None));
    CandidatesStay(v, AttemptSteps(v, Attempt(o, |Plan(v.data, o)|, None)));
    if Composed(v.data.events) {
      StillDecided(v, Attempt(o, |Plan(v.data, o)|, None));
    } else {
      ComposingDecides(v, Attempt(o, |Plan(v.data, o)|, None));
    }
    LaterChain(Play(v, Plan(v.data, o)).world, later);
  }

  lemma WholeAttempt(v: World, o: Oracle)
    ensures AttemptSteps(v, Attempt(o, |Plan(v.data, o)|, None)) == Plan(v.data, o)
  {}

  lemma {:induction false} ChainKeepsCandidates(w: World, chain: seq<Attempt>)
    ensures CandidatesIn(AfterChain(w, chain).data) == CandidatesIn(w.data)
  {
    if chain != [] {
      var v := AfterChain(w, chain[..|chain| - 1]);
      ChainKeepsCandidates(w, chain[..|chain| - 1]);
      AttemptMatches(v, chain[|chain| - 1]);
      CandidatesStay(v, AttemptSteps(v, chain[|chain| - 1]));
    }
  }

  lemma {:induction false} ChainKeepsKeys(w: World, chain: seq<Attempt>)
    requires KeysKept(w.data.events)
    ensures KeysKept(AfterChain(w, chain).data.events)
  {
    if chain != [] {
      var v := AfterChain(w, chain[..|chain| - 1]);
      ChainKeepsKeys(w, chain[..|chain| - 1]);
      AttemptMatches(v, chain[|chain| - 1]);
      MatchedPlay(v, AttemptSteps(v, chain[|chain| - 1]));
    }
  }

  // ---------------------------------------------------------------- booking

  function Spent(spend: seq<Booking>, kind: CostKind): seq<int> {
    if spend == [] then []
    else Spent(spend[..|spend| - 1], kind)
         + (if spend[|spend| - 1].kind == kind then [spend[|spend| - 1].amount] else [])
  }

  ghost predicate MarkedAs(events: seq<CaseEvent>, kind: CostKind, amount: int) {
    exists i :: 0 <= i < |events| && events[i].id == CallerId(CostBookedKey(kind))
                && events[i].body == Caller(CostBooked(kind, amount))
  }

  /** Nothing is booked under `kind`, or one amount that the log's marker names. */
  ghost predicate BookedOnce(w: World, kind: CostKind) {
    Spent(w.spend, kind) == []
    || (|Spent(w.spend, kind)| == 1 && MarkedAs(w.data.events, kind, Spent(w.spend, kind)[0]))
  }

  ghost predicate Booked(w: World) {
    forall kind: CostKind :: BookedOnce(w, kind)
  }

  predicate HasMark(d: CaseData, kind: CostKind) { Logged(d.events, CallerId(CostBookedKey(kind))) }

  lemma MarkedStays(a: seq<CaseEvent>, b: seq<CaseEvent>, kind: CostKind, amount: int)
    requires a <= b && MarkedAs(a, kind, amount)
    ensures MarkedAs(b, kind, amount)
  {
    var i :| 0 <= i < |a| && a[i].id == CallerId(CostBookedKey(kind)) && a[i].body == Caller(CostBooked(kind, amount));
    assert b[i] == a[i];
  }

  lemma BookedStays(w: World, v: World)
    requires Booked(w) && v.spend == w.spend && w.data.events <= v.data.events
    ensures Booked(v)
  {
    forall kind: CostKind ensures BookedOnce(v, kind) {
      assert BookedOnce(w, kind);
      if Spent(w.spend, kind) != [] {
        MarkedStays(w.data.events, v.data.events, kind, Spent(w.spend, kind)[0]);
      }
    }
  }

  lemma CostlessStep(w: World, step: Step)
    requires Costless(step)
    ensures var v := Perform(w, step).world; v.spend == w.spend && forall kind :: HasMark(v.data, kind) <==> HasMark(w.data, kind)
  {
    var v := Perform(w, step).world;
    forall kind ensures HasMark(v.data, kind) <==> HasMark(w.data, kind) {
      if HasMark(w.data, kind) {
        LoggedInPrefix(w.data.events, v.data.events, CallerId(CostBookedKey(kind)));
      }
    }
  }

  lemma {:induction false} CostlessPlay(w: World, steps: seq<Step>)
    requires AllCostless(steps)
    ensures var v := Play(w, steps).world; v.spend == w.spend && forall kind :: HasMark(v.data, kind) <==> HasMark(w.data, kind)
  {
    if steps != [] {
      var init := steps[..|steps| - 1];
      assert forall i :: 0 <= i < |init| ==> init[i] == steps[i];
      CostlessPlay(w, init);
      CostlessStep(Play(w, init).world, steps[|steps| - 1]);
    }
  }

  /** Wherever the steps are cut, bookings and markers agree. */
  ghost predicate SafeCuts(w: World, steps: seq<Step>) {
    forall k :: 0 <= k <= |steps| ==> Booked(Play(w, steps[..k]).world)
  }

  lemma CostlessIsSafe(w: World, steps: seq<Step>)
    requires Booked(w) && AllCostless(steps)
    ensures SafeCuts(w, steps)
  {
    forall k | 0 <= k <= |steps| ensures Booked(Play(w, steps[..k]).world) {
      CostlessPlay(w, steps[..k]);
      LogOnlyGrows(w, steps[..k]);
      BookedStays(w, Play(w, steps[..k]).world);
    }
  }

  lemma SafeConcat(w: World, a: seq<Step>, b: seq<Step>)
    requires SafeCuts(w, a) && (Play(w, a).error.None? ==> SafeCuts(Play(w, a).world, b))
    ensures SafeCuts(w, a + b)
  {
    assert a[..|a|] == a;
    forall k | 0 <= k <= |a + b| ensures Booked(Play(w, (a + b)[..k]).world) {
      CutOfConcat(w, a, b, k);
    }
  }

  lemma SpentIsMarked(w: World, kind: CostKind)
    requires BookedOnce(w, kind) && Spent(w.spend, kind) != []
    ensures HasMark(w.data, kind)
  {
    var i :| 0 <= i < |w.data.events| && w.data.events[i].id == CallerId(CostBookedKey(kind));
  }

  lemma BookingIsSafe(w: World, d: CaseData, o: Oracle, kind: CostKind, amount: int)
    requires Booked(w) && (HasMark(w.data, kind) <==> HasMark(d, kind))
    ensures SafeCuts(w, BookSteps(d, o, kind, amount))
    ensures Play(w, BookSteps(d, o, kind, amount)).error.None?
    ensures forall other :: other != kind ==>
              (HasMark(Play(w, BookSteps(d, o, kind, amount)).world.data, other) <==> HasMark(w.data, other))
  {
    var steps := BookSteps(d, o, kind, amount);
    assert Play(w, []).world == w;
    if steps != [] {
      var mark, add := steps[0], steps[1];
      var w1 := Perform(w, mark).world;
      var w2 := Perform(w1, add).world;
      assert steps[..0] == [] && steps[..1] == [mark] && steps[..2] == steps && [mark, add][..1] == [mark];
      PlayOne(w, mark);
      assert Play(w, steps) == Progress(w2, None);
      assert BookedOnce(w, kind);
      if Spent(w.spend, kind) != [] {
        SpentIsMarked(w, kind);
      }
      assert w1.data.events[|w.data.events|].id == CallerId(CostBookedKey(kind));
      assert MarkedAs(w1.data.events, kind, amount);
      BookedStays(w, w1);
      assert w2.spend[..|w.spend|] == w.spend;
      forall k: CostKind ensures BookedOnce(w2, k) {
        assert BookedOnce(w1, k);
      }
      forall other | other != kind ensures HasMark(w2.data, other) <==> HasMark(w.data, other) {
        if HasMark(w.data, other) {
          LoggedInPrefix(w.data.events, w2.data.events, CallerId(CostBookedKey(other)));
        }
      }
    }
  }

  /** Everything of a plan before the ledger is booked, after the photo is paid for. */
  function MiddleSteps(d: CaseData, o: Oracle): seq<Step> {
    [LogNote(IngestResolvedKey, "ingest_resolved")] + AllSteps(Blocks(d, o, CandidatesIn(d))) + SettleSteps(o)
  }

  lemma PlanAroundBookings(d: CaseData, o: Oracle)
    requires !Composed(d.events)
    ensures Plan(d, o) == PhotoSteps(d, o) + MiddleSteps(d, o) + BookSteps(d, o, TribunalLedger, o.ledgerTotal) + CloseSteps(o)
    ensures AllCostless(MiddleSteps(d, o)) && AllCostless(CloseSteps(o))
  {
    var ingest := [LogNote(IngestResolvedKey, "ingest_resolved")];
    var blocks := AllSteps(Blocks(d, o, CandidatesIn(d)));
    Regroup(PhotoSteps(d, o), ingest, blocks);
    Regroup(PhotoSteps(d, o), ingest + blocks, SettleSteps(o));
    BlocksMatch(d, o, CandidatesIn(d));
    IllustrationStepsMatch(o.illustration);
  }

  lemma PhotoIsSafe(w: World, o: Oracle)
    requires Booked(w)
    ensures SafeCuts(w, PhotoSteps(w.data, o))
    ensures HasMark(Play(w, PhotoSteps(w.data, o)).world.data, TribunalLedger) <==> HasMark(w.data, TribunalLedger)
  {
    var d := w.data;
    if o.fallbackPhoto.Some? {
      var note := [LogNote(DocumentUploadedKey(o.fallbackPhoto.value.0), "document_uploaded")];
      var book := BookSteps(d, o, StreetViewFetch, o.fallbackPhoto.value.1);
      CostlessIsSafe(w, note);
      CostlessPlay(w, note);
      assert note[..1] == note;
      BookingIsSafe(Play(w, note).world, d, o, StreetViewFetch, o.fallbackPhoto.value.1);
      SafeConcat(w, note, book);
      PlayConcat(w, note, book);
    } else {
      CostlessIsSafe(w, []);
    }
  }

  lemma ExecutionBooksOnce(w: World, o: Oracle)
    requires Booked(w)
    ensures SafeCuts(w, Plan(w.data, o))
  {
    var d := w.data;
    if Composed(d.events) {
      CostlessIsSafe(w, Plan(d, o));
    } else {
      PlanAroundBookings(d, o);
      var photo, middle := PhotoSteps(d, o), MiddleSteps(d, o);
      var book, close := BookSteps(d, o, TribunalLedger, o.ledgerTotal), CloseSteps(o);
      PhotoIsSafe(w, o);
      var w1 := Play(w, photo).world;
      assert photo[..|photo|] == photo;
      CostlessIsSafe(w1, middle);
      CostlessPlay(w1, middle);
      SafeConcat(w, photo, middle);
      PlayConcat(w, photo, middle);
      if Play(w, photo + middle).error.None? {
        var w2 := Play(w, photo + middle).world;
        assert (photo + middle)[..|photo + middle|] == photo + middle;
        BookingIsSafe(w2, d, o, TribunalLedger, o.ledgerTotal);
        SafeConcat(w, photo + middle, book);
        PlayConcat(w, photo + middle, book);
        var w3 := Play(w2, book).world;
        assert book[..|book|] == book;
        CostlessIsSafe(w3, close);
      } else {
        SafeConcat(w, photo + middle, book);
        PlayConcat(w, photo + middle, book);
      }
      SafeConcat(w, photo + middle + book, close);
    }
  }

  /** Over any chain of executions cut anywhere, what is booked for a cost kind is nothing,
      or exactly one call's amount, and then its marker is in the log with that amount. */
  lemma {:induction false} ChainBooksOnce(w: World, chain: seq<Attempt>)
    requires Booked(w)
    ensures Booked(AfterChain(w, chain))
  {
    if chain != [] {
      var last := chain[|chain| - 1];
      var v := AfterChain(w, chain[..|chain| - 1]);
      ChainBooksOnce(w, chain[..|chain| - 1]);
      var plan := Plan(v.data, last.o);
      ExecutionBooksOnce(v, last.o);
      var cut := Prefix(plan, last.cut);
      assert plan[..|plan|] == plan;
      var u := Play(v, cut).world;
      assert Booked(u);
      PlayConcat(v, cut, FailureSteps(last.failure));
      CostlessPlay(u, FailureSteps(last.failure));
      LogOnlyGrows(u, FailureSteps(last.failure));
      BookedStays(u, Play(u, FailureSteps(last.failure)).world);
    }
  }

  /** So over any chain on a case for which nothing was booked yet, each cost kind ends up
      booked at most once, for the amount its marker names. */
  lemma FreshCaseBooksOnce(d: CaseData, chain: seq<Attempt>)
    ensures Booked(AfterChain(World(d, []), chain))
  {
    assert Booked(World(d, []));
    ChainBooksOnce(World(d, []), chain);
  }
}
