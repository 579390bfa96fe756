/** What one execution of the job does to a case, cut off anywhere or not at all. */
module PipelineLaws {
  import opened Wrappers
  import opened Breakers
  import opened CaseStores
  import opened Dossiers
  import opened Courts
  import opened Gates
  import opened Intake
  import opened Composers
  import opened Pipeline

  // ---------------------------------------------------------------- playing steps

  lemma {:induction false} PlayConcat(w: World, a: seq<Step>, b: seq<Step>)
    ensures Play(w, a + b) == if Play(w, a).error.Some? then Play(w, a) else Play(Play(w, a).world, b)
  {
    if b == [] {
      assert a + b == a;
    } else {
      assert (a + b)[..|a + b| - 1] == a + b[..|b| - 1];
      PlayConcat(w, a, b[..|b| - 1]);
    }
  }

  lemma PlayOne(w: World, step: Step)
    ensures Play(w, [step]) == Perform(w, step)
  {
    assert [step][..0] == [];
    assert Play(w, [step][..0]) == Progress(w, None);
  }

  /** An execution that would raise nothing raises nothing when cut short. */
  lemma {:induction false} CutRaisesNothing(w: World, steps: seq<Step>, k: nat)
    requires k <= |steps| && Play(w, steps).error.None?
    ensures Play(w, steps[..k]).error.None?
  {
    assert steps == steps[..k] + steps[k..];
    PlayConcat(w, steps[..k], steps[k..]);
  }

  /** Same grounds, same claims, and statuses as `status` says. */
  ghost predicate ReadsAs(before: CaseData, after: CaseData, status: map<GroundId, GroundStatus>) {
    && after.grounds.Keys == before.grounds.Keys == status.Keys
    && forall g :: g in before.grounds ==>
         after.grounds[g].claim == before.grounds[g].claim && after.grounds[g].status == status[g]
  }

  function StatusMap(d: CaseData): map<GroundId, GroundStatus> {
    map g | g in d.grounds :: d.grounds[g].status
  }

  /** A step that moves no ground and cannot raise. */
  predicate Quiet(ids: set<GroundId>, step: Step) {
    match step
    case AddSpend(_, _) => true
    case Do(op) =>
      match op
      case Propose(_, _, _) => false
      case Transition(_, _) => false
      case AddAnchor(g, _) => g in ids
      case _ => true
  }

  lemma QuietStep(w: World, step: Step)
    requires Quiet(w.data.grounds.Keys, step)
    ensures var p := Perform(w, step); p.error.None? && ReadsAs(w.data, p.world.data, StatusMap(w.data))
  {}

  ghost predicate AllQuiet(ids: set<GroundId>, steps: seq<Step>) {
    forall i :: 0 <= i < |steps| ==> Quiet(ids, steps[i])
  }

  lemma {:induction false} QuietPlay(w: World, steps: seq<Step>)
    requires AllQuiet(w.data.grounds.Keys, steps)
    ensures var p := Play(w, steps); p.error.None? && ReadsAs(w.data, p.world.data, StatusMap(w.data))
  {
    if steps != [] {
      var init := steps[..|steps| - 1];
      assert forall i :: 0 <= i < |init| ==> init[i] == steps[i];
      QuietPlay(w, init);
      QuietStep(Play(w, init).world, steps[|steps| - 1]);
    }
  }

  // ---------------------------------------------------------------- blocks

  /** A block that can run on grounds reading `status`. */
  ghost predicate Runnable(b: Block, status: map<GroundId, GroundStatus>) {
    b.Reviewed? ==>
      b.g in status && !Terminal(status[b.g]) && Terminal(b.end) && AllQuiet(status.Keys, b.middle)
  }

  function Lands(b: Block, status: map<GroundId, GroundStatus>): map<GroundId, GroundStatus> {
    if b.Reviewed? then status[b.g := b.end] else status
  }

  lemma MoveStep(w: World, g: GroundId, s: GroundStatus)
    requires g in w.data.grounds
    requires w.data.grounds[g].status == s || Allowed(w.data.grounds[g].status, s)
    ensures var p := Perform(w, Do(Transition(g, s)));
            p.error.None? && ReadsAs(w.data, p.world.data, StatusMap(w.data)[g := s])
            && StatusMap(p.world.data) == StatusMap(w.data)[g := s]
  {
    assert ReadsAs(w.data, Perform(w, Do(Transition(g, s))).world.data, StatusMap(w.data)[g := s]);
  }

  lemma ReadsAsThen(a: CaseData, b: CaseData, c: CaseData, status: map<GroundId, GroundStatus>)
    requires a.grounds.Keys == b.grounds.Keys && ReadsAs(b, c, status)
    requires forall g :: g in a.grounds ==> b.grounds[g].claim == a.grounds[g].claim
    ensures ReadsAs(a, c, status)
  {}

  /** Under review and through everything in between. */
  lemma UnderReviewPlay(w: World, g: GroundId, middle: seq<Step>)
    requires g in w.data.grounds && !Terminal(w.data.grounds[g].status) && AllQuiet(w.data.grounds.Keys, middle)
    ensures var p := Play(w, [Do(Transition(g, UnderReview))] + middle);
            p.error.None? && ReadsAs(w.data, p.world.data, StatusMap(w.data)[g := UnderReview])
  {
    var first := Do(Transition(g, UnderReview));
    var w1 := Perform(w, first).world;
    PlayOne(w, first);
    MoveStep(w, g, UnderReview);
    PlayConcat(w, [first], middle);
    QuietPlay(w1, middle);
    ReadsAsThen(w.data, w1.data, Play(w1, middle).world.data, StatusMap(w1.data));
  }

  lemma EndStep(d: CaseData, v: World, g: GroundId, end: GroundStatus)
    requires g in d.grounds && Terminal(end) && ReadsAs(d, v.data, StatusMap(d)[g := UnderReview])
    ensures var p := Perform(v, Do(Transition(g, end)));
            p.error.None? && ReadsAs(d, p.world.data, StatusMap(d)[g := end])
  {
    MoveStep(v, g, end);
    assert StatusMap(v.data) == StatusMap(d)[g := UnderReview];
    assert StatusMap(v.data)[g := end] == StatusMap(d)[g := end];
  }

  lemma EndPlay(w: World, v: World, steps: seq<Step>, g: GroundId, end: GroundStatus)
    requires Play(w, steps) == Progress(v, None) && g in w.data.grounds && Terminal(end)
    requires ReadsAs(w.data, v.data, StatusMap(w.data)[g := UnderReview])
    ensures var p := Play(w, steps + [Do(Transition(g, end))]);
            p.error.None? && ReadsAs(w.data, p.world.data, StatusMap(w.data)[g := end])
  {
    PlayConcat(w, steps, [Do(Transition(g, end))]);
    PlayOne(v, Do(Transition(g, end)));
    EndStep(w.data, v, g, end);
  }

  /** From any status that is not terminal, the ground goes through review to its end, and
      no other ground moves. */
  lemma BlockPlay(w: World, b: Block)
    requires Runnable(b, StatusMap(w.data))
    ensures var p := Play(w, BlockSteps(b));
            p.error.None? && ReadsAs(w.data, p.world.data, Lands(b, StatusMap(w.data)))
  {
    if b.Reviewed? {
      var steps := [Do(Transition(b.g, UnderReview))] + b.middle;
      assert StatusMap(w.data).Keys == w.data.grounds.Keys;
      UnderReviewPlay(w, b.g, b.middle);
      EndPlay(w, Play(w, steps).world, steps, b.g, b.end);
    } else {
      QuietPlay(w, BlockSteps(b));
    }
  }

  ghost predicate DistinctBlocks(bs: seq<Block>) {
    forall i, j :: 0 <= i < j < |bs| ==> bs[i].g != bs[j].g
  }

  function Landing(bs: seq<Block>, status: map<GroundId, GroundStatus>): map<GroundId, GroundStatus> {
    if bs == [] then status else Lands(bs[|bs| - 1], Landing(bs[..|bs| - 1], status))
  }

  lemma {:induction false} LandingIs(bs: seq<Block>, status: map<GroundId, GroundStatus>)
    requires DistinctBlocks(bs) && forall i :: 0 <= i < |bs| ==> bs[i].g in status
    ensures Landing(bs, status).Keys == status.Keys
    ensures forall i :: 0 <= i < |bs| ==>
              Landing(bs, status)[bs[i].g] == if bs[i].Reviewed? then bs[i].end else status[bs[i].g]
    ensures forall g :: g in status && (forall i :: 0 <= i < |bs| ==> bs[i].g != g) ==>
              Landing(bs, status)[g] == status[g]
  {
    if bs != [] {
      var n := |bs| - 1;
      var init := bs[..n];
      assert forall i :: 0 <= i < n ==> init[i] == bs[i];
      LandingIs(init, status);
      var before, after := Landing(init, status), Landing(bs, status);
      forall i | 0 <= i < |bs| ensures after[bs[i].g] == if bs[i].Reviewed? then bs[i].end else status[bs[i].g] {
        assert i < n ==> init[i] == bs[i] && bs[i].g != bs[n].g;
      }
    }
  }

  lemma OneMoreBlock(w: World, init: seq<Block>, last: Block, status: map<GroundId, GroundStatus>)
    requires var p := Play(w, AllSteps(init)); p.error.None? && ReadsAs(w.data, p.world.data, status)
    requires last.g in w.data.grounds && last.g in status && Runnable(last, status)
    ensures var p := Play(w, AllSteps(init) + BlockSteps(last));
            p.error.None? && ReadsAs(w.data, p.world.data, Lands(last, status))
  {
    PlayConcat(w, AllSteps(init), BlockSteps(last));
    BlockPlay(Play(w, AllSteps(init)).world, last);
  }

  lemma {:induction false} BlocksPlay(w: World, bs: seq<Block>)
    requires DistinctBlocks(bs)
    requires forall i :: 0 <= i < |bs| ==> bs[i].g in w.data.grounds && Runnable(bs[i], StatusMap(w.data))
    ensures var p := Play(w, AllSteps(bs));
            p.error.None? && ReadsAs(w.data, p.world.data, Landing(bs, StatusMap(w.data)))
  {
    if bs != [] {
      var n := |bs| - 1;
      var init, last := bs[..n], bs[n];
      assert forall i :: 0 <= i < n ==> init[i] == bs[i];
      BlocksPlay(w, init);
      LandingIs(init, StatusMap(w.data));
      assert Runnable(last, StatusMap(w.data));
      OneMoreBlock(w, init, last, Landing(init, StatusMap(w.data)));
    }
  }

  // ---------------------------------------------------------------- the blocks of an execution

  /** A step of a review: an opinion noted, or a box anchored on the ground. */
  predicate OfReview(g: GroundId, step: Step) {
    step.Do?
    && match step.op
       case AddAnchor(h, _) => h == g
       case Append(key, note) => note.Plain? && (key.ReviewVerdictKey? || key.AdjudicationKey?)
       case _ => false
  }

  lemma {:induction false} AnchorStepsAre(g: GroundId, refs: seq<Ref>, d: CaseDossier)
    ensures forall i :: 0 <= i < |AnchorSteps(g, refs, d)| ==> OfReview(g, AnchorSteps(g, refs, d)[i])
  {
    if refs != [] {
      AnchorStepsAre(g, refs[..|refs| - 1], d);
    }
  }

  lemma ReviewStepsAre(o: Oracle, c: GroundIntake)
    ensures forall i :: 0 <= i < |ReviewSteps(o, c)| ==> OfReview(c.id, ReviewSteps(o, c)[i])
  {
    var v := VerdictOn(o, c);
    var opinions, anchors := OpinionSteps(c.id, v), AnchorSteps(c.id, v.cited, o.dossier);
    AnchorStepsAre(c.id, v.cited, o.dossier);
    forall i | 0 <= i < |opinions| ensures OfReview(c.id, opinions[i]) {}
  }

  /** A logged gate decision on `g` that ends it as `end`. */
  predicate Decides(body: Body, g: GroundId, end: GroundStatus) {
    body.Caller? && body.note.GateDecided? && body.note.g == g && GroundStatusFor(body.note.outcome) == end
  }

  /** The one decision reported of `g`. */
  predicate Reports(g: GroundId, end: GroundStatus, step: Step) {
    step.Do? && step.op.Append? && step.op.key == GateDecisionKey(g) && Decides(Caller(step.op.note), g, end)
  }

  /** A step of the gate: the breaker saved, or the decision reported. */
  predicate OfGate(g: GroundId, saved: Snapshot, end: GroundStatus, step: Step) {
    step == Do(SaveBreaker(GateBreaker(g), saved)) || Reports(g, end, step)
  }

  lemma GateStepsAre(d: CaseData, o: Oracle, c: GroundIntake)
    ensures var steps := GateSteps(d, o, c);
            steps != [] && Reports(c.id, EndStatus(d, o, c), steps[|steps| - 1])
            && forall i :: 0 <= i < |steps| ==> OfGate(c.id, SavedGateBreaker(d, o, c), EndStatus(d, o, c), steps[i])
  {}

  lemma EndIsTerminal(d: CaseData, o: Oracle, c: GroundIntake)
    ensures Terminal(EndStatus(d, o, c))
  {}

  /** Everything between a ground's two transitions. */
  ghost predicate MiddleIs(g: GroundId, saved: Snapshot, end: GroundStatus, middle: seq<Step>) {
    && middle != [] && Reports(g, end, middle[|middle| - 1])
    && forall i :: 0 <= i < |middle| ==> OfReview(g, middle[i]) || OfGate(g, saved, end, middle[i])
  }

  lemma MiddleOfBlock(d: CaseData, o: Oracle, c: GroundIntake)
    ensures MiddleIs(c.id, SavedGateBreaker(d, o, c), EndStatus(d, o, c), ReviewSteps(o, c) + GateSteps(d, o, c))
  {
    ReviewStepsAre(o, c);
    GateStepsAre(d, o, c);
    JoinMiddle(c.id, SavedGateBreaker(d, o, c), EndStatus(d, o, c), ReviewSteps(o, c), GateSteps(d, o, c));
  }

  lemma JoinMiddle(g: GroundId, saved: Snapshot, end: GroundStatus, review: seq<Step>, gate: seq<Step>)
    requires gate != [] && Reports(g, end, gate[|gate| - 1])
    requires forall i :: 0 <= i < |review| ==> OfReview(g, review[i])
    requires forall i :: 0 <= i < |gate| ==> OfGate(g, saved, end, gate[i])
    ensures MiddleIs(g, saved, end, review + gate)
  {}

  lemma MiddleIsQuiet(g: GroundId, saved: Snapshot, end: GroundStatus, middle: seq<Step>, ids: set<GroundId>)
    requires MiddleIs(g, saved, end, middle) && g in ids
    ensures AllQuiet(ids, middle)
  {
    forall i | 0 <= i < |middle| ensures Quiet(ids, middle[i]) {
      assert OfReview(g, middle[i]) || OfGate(g, saved, end, middle[i]);
    }
  }

  /** What the block of an undecided candidate is. */
  lemma BlockIs(d: CaseData, o: Oracle, c: GroundIntake)
    ensures var b := BlockOf(d, o, c);
            b.g == c.id && (b.Reviewed? <==> Undecided(d, c.id))
            && (b.Reviewed? ==> b.end == EndStatus(d, o, c) && Terminal(b.end)
                                && MiddleIs(c.id, SavedGateBreaker(d, o, c), b.end, b.middle))
  {
    if Undecided(d, c.id) {
      MiddleOfBlock(d, o, c);
      EndIsTerminal(d, o, c);
    }
  }

  lemma BlockIsRunnable(d: CaseData, o: Oracle, c: GroundIntake)
    requires c.id in d.grounds
    ensures Runnable(BlockOf(d, o, c), StatusMap(d))
  {
    BlockIs(d, o, c);
    var b := BlockOf(d, o, c);
    if b.Reviewed? {
      MiddleIsQuiet(c.id, SavedGateBreaker(d, o, c), b.end, b.middle, StatusMap(d).Keys);
    }
  }

  lemma {:induction false} BlocksAre(d: CaseData, o: Oracle, cs: seq<GroundIntake>)
    ensures |Blocks(d, o, cs)| == |cs|
    ensures forall i :: 0 <= i < |cs| ==> Blocks(d, o, cs)[i] == BlockOf(d, o, cs[i])
  {
    if cs != [] {
      BlocksAre(d, o, cs[..|cs| - 1]);
    }
  }

  lemma CandidateBlocks(d: CaseData, o: Oracle)
    ensures var cs := CandidatesIn(d);
            var bs := Blocks(d, o, cs);
            DistinctBlocks(bs) && |bs| == |cs|
            && (forall i :: 0 <= i < |bs| ==>
                  bs[i] == BlockOf(d, o, cs[i]) && bs[i].g == cs[i].id && bs[i].g in d.grounds
                  && Runnable(bs[i], StatusMap(d)))
  {
    var cs := CandidatesIn(d);
    CandidatesAre(d.events, d.grounds);
    BlocksAre(d, o, cs);
    forall i | 0 <= i < |cs| ensures Runnable(BlockOf(d, o, cs[i]), StatusMap(d)) {
      BlockIsRunnable(d, o, cs[i]);
    }
  }

  // ---------------------------------------------------------------- a whole execution

  lemma {:induction false} IllustrationStepsAreQuiet(names: seq<string>, ids: set<GroundId>)
    ensures AllQuiet(ids, IllustrationSteps(names))
  {
    if names != [] {
      IllustrationStepsAreQuiet(names[..|names| - 1], ids);
    }
  }

  function HeadSteps(d: CaseData, o: Oracle): seq<Step> {
    PhotoSteps(d, o) + [LogNote(IngestResolvedKey, "ingest_resolved")]
  }

  function TailSteps(d: CaseData, o: Oracle): seq<Step> {
    SettleSteps(o) + BookSteps(d, o, TribunalLedger, o.ledgerTotal) + CloseSteps(o)
  }

  lemma PlanInThree(d: CaseData, o: Oracle)
    requires !Composed(d.events)
    ensures Plan(d, o) == HeadSteps(d, o) + AllSteps(Blocks(d, o, CandidatesIn(d))) + TailSteps(d, o)
  {
    var s := HeadSteps(d, o) + AllSteps(Blocks(d, o, CandidatesIn(d)));
    var book := BookSteps(d, o, TribunalLedger, o.ledgerTotal);
    Regroup(s, SettleSteps(o), book);
    Regroup(s, SettleSteps(o) + book, CloseSteps(o));
  }

  lemma HeadAndTailAreQuiet(d: CaseData, o: Oracle, ids: set<GroundId>)
    ensures AllQuiet(ids, HeadSteps(d, o)) && AllQuiet(ids, TailSteps(d, o))
  {
    IllustrationStepsAreQuiet(o.illustration, ids);
  }

  /** Where the grounds of a case end when an execution on it completes. */
  function Final(d: CaseData, o: Oracle): map<GroundId, GroundStatus> {
    if Composed(d.events) then StatusMap(d) else Landing(Blocks(d, o, CandidatesIn(d)), StatusMap(d))
  }

  lemma ThreePartPlay(w: World, head: seq<Step>, bs: seq<Block>, tail: seq<Step>)
    requires AllQuiet(w.data.grounds.Keys, head) && AllQuiet(w.data.grounds.Keys, tail)
    requires DistinctBlocks(bs)
    requires forall i :: 0 <= i < |bs| ==> bs[i].g in w.data.grounds && Runnable(bs[i], StatusMap(w.data))
    ensures var p := Play(w, head + AllSteps(bs) + tail);
            p.error.None? && ReadsAs(w.data, p.world.data, Landing(bs, StatusMap(w.data)))
  {
    QuietPlay(w, head);
    var w1 := Play(w, head).world;
    PlayConcat(w, head, AllSteps(bs));
    assert StatusMap(w1.data) == StatusMap(w.data);
    BlocksPlay(w1, bs);
    var w2 := Play(w1, AllSteps(bs)).world;
    PlayConcat(w, head + AllSteps(bs), tail);
    QuietPlay(w2, tail);
  }

  /** Started on the state it loaded, and whatever that state and everything outside the
      store are: an execution attempts no illegal transition and raises no store error,
      wherever it is cut; left to run, it moves exactly the undecided candidates, each to
      the status its decision gives it. */
  lemma ExecutionIsLegal(w: World, o: Oracle)
    ensures var p := Play(w, Plan(w.data, o));
            p.error.None?
            && (forall k :: 0 <= k <= |Plan(w.data, o)| ==> Play(w, Plan(w.data, o)[..k]).error.None?)
            && ReadsAs(w.data, p.world.data, Final(w.data, o))
  {
    var plan := Plan(w.data, o);
    if Composed(w.data.events) {
      QuietPlay(w, plan);
    } else {
      CandidateBlocks(w.data, o);
      PlanInThree(w.data, o);
      HeadAndTailAreQuiet(w.data, o, w.data.grounds.Keys);
      ThreePartPlay(w, HeadSteps(w.data, o), Blocks(w.data, o, CandidatesIn(w.data)), TailSteps(w.data, o));
    }
    forall k | 0 <= k <= |plan| ensures Play(w, plan[..k]).error.None? {
      CutRaisesNothing(w, plan, k);
    }
  }

  /** A completed execution leaves each candidate terminal: an undecided one as its
      decision says, a decided one as it was. Everything else keeps its status. */
  lemma CompletedIsTerminal(w: World, o: Oracle)
    requires !Composed(w.data.events)
    ensures var after := Play(w, Plan(w.data, o)).world.data;
            var cs := CandidatesIn(w.data);
            after.grounds.Keys == w.data.grounds.Keys
            && (forall i :: 0 <= i < |cs| ==>
                  cs[i].id in after.grounds && Terminal(after.grounds[cs[i].id].status)
                  && after.grounds[cs[i].id].status ==
                     if Undecided(w.data, cs[i].id) then EndStatus(w.data, o, cs[i]) else w.data.grounds[cs[i].id].status)
            && (forall g :: g in w.data.grounds && !Seen(cs, g) ==>
                  after.grounds[g].status == w.data.grounds[g].status)
  {
    var cs := CandidatesIn(w.data);
    var bs := Blocks(w.data, o, cs);
    ExecutionIsLegal(w, o);
    CandidateBlocks(w.data, o);
    LandingIs(bs, StatusMap(w.data));
    forall g | g in w.data.grounds && !Seen(cs, g) ensures forall i :: 0 <= i < |bs| ==> bs[i].g != g {
      forall i | 0 <= i < |bs| ensures bs[i].g != g {
        assert bs[i].g == cs[i].id;
      }
    }
  }
}
