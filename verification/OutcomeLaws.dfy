/** What the statuses an execution assigns mean: why a ground is supported, why none is
    ever flagged, what the documents list, and what the log says about it afterwards. */
module OutcomeLaws {
  import opened Wrappers
  import opened Breakers
  import opened CaseStores
  import opened Dossiers
  import opened Courts
  import opened Gates
  import opened Intake
  import opened Findings
  import opened Composers
  import opened Pipeline
  import opened PipelineLaws
  import opened ChainLaws
  import opened CaseStoreLaws

  // ---------------------------------------------------------------- why a ground is supported

  /** The category is a s4.15(1) head, and either both reviewers, citing only what exists,
      are confident of their support and what either cited proves it, or they are not of one
      mind and a confident adjudicator's citations do. */
  ghost predicate Justified(o: Oracle, c: GroundIntake) {
    var h, dossier := o.hearings(c.id), o.dossier;
    && c.category in PLANNING_HEADS
    && ((BothSay(h, dossier, Support) && Proven(h.clause.cited + h.evidence.cited, dossier))
        || (BenchSays(h, dossier, Support) && Proven(h.adjudication.cited, dossier)))
  }

  /** What the gate is asked to judge proves the ground or does not. */
  lemma GateJudges(o: Oracle, c: GroundIntake)
    ensures CitationIssues(CandidateOf(o, c), ToGate(o.dossier)) == [] <==> Proven(Weighed(o.hearings(c.id), o.dossier), o.dossier)
  {
    var h, dossier := o.hearings(c.id), o.dossier;
    CitedIs(c.id, h, dossier);
    SubstantiatedIff(CandidateOf(o, c), ToGate(dossier));
    ProvenIff(VerdictOn(o, c).cited, dossier);
    SameProof(VerdictOn(o, c).cited, Weighed(h, dossier), dossier);
  }

  /** An execution ends a ground as supported exactly when that is justified. */
  lemma SupportedIffJustified(d: CaseData, o: Oracle, c: GroundIntake)
    ensures EndStatus(d, o, c) == Supported <==> Justified(o, c)
  {
    SupportsIs(c.id, o.hearings(c.id), o.dossier);
    GateJudges(o, c);
    RelevantIffAHead(c.category);
  }

  /** The gate's breaker for the ground was saved tripped, or trips at one failure, and its
      cooldown is not over by the time it is read. */
  predicate Escalated(d: CaseData, o: Oracle, g: GroundId) {
    GateBreaker(g) in d.breakers
    && var saved := d.breakers[GateBreaker(g)];
       (saved.state != Closed || saved.settings.threshold <= 1)
       && o.times(g).readAt - o.times(g).stampedAt < saved.settings.timeout
  }

  /** The court supports the ground, what counts does not prove it, and the breaker is open. */
  ghost predicate ForReview(d: CaseData, o: Oracle, c: GroundIntake) {
    var h, dossier := o.hearings(c.id), o.dossier;
    c.category in PLANNING_HEADS && Supports(h, dossier) && !Proven(Weighed(h, dossier), dossier) && Escalated(d, o, c.id)
  }

  /** One failure leaves the restored breaker open exactly if it is escalated. */
  lemma TripsIff(d: CaseData, o: Oracle, g: GroundId)
    ensures var f, s, t := BreakerFields(d, o, g), BreakerSettings(d, g), o.times(g);
            StateAt(AfterFailure(f, s, t.probedAt, t.stampedAt), s.timeout, t.readAt) == Open <==> Escalated(d, o, g)
  {}

  lemma FlaggedBy(ground: CandidateGround, d: GateDossier, f: Fields, s: Settings, t: Times)
    ensures GroundStatusFor(Decide(ground, d, Some(f), s, t).status) == Flagged <==>
            ground.category in PLANNING_HEADS && CitationIssues(ground, d) != []
            && StateAt(AfterFailure(f, s, t.probedAt, t.stampedAt), s.timeout, t.readAt) == Open
  {
    RelevantIffAHead(ground.category);
  }

  /** Flagged exactly if it is for review. */
  lemma FlaggedIffForReview(d: CaseData, o: Oracle, c: GroundIntake)
    ensures EndStatus(d, o, c) == Flagged <==> ForReview(d, o, c)
  {
    SupportsIs(c.id, o.hearings(c.id), o.dossier);
    GateJudges(o, c);
    RelevantIffAHead(c.category);
    TripsIff(d, o, c.id);
    FlaggedBy(CandidateOf(o, c), ToGate(o.dossier), BreakerFields(d, o, c.id), BreakerSettings(d, c.id), o.times(c.id));
  }

  lemma EndIs(d: CaseData, o: Oracle, c: GroundIntake)
    ensures EndStatus(d, o, c) == if Justified(o, c) then Supported else if ForReview(d, o, c) then Flagged else Refused
  {
    SupportedIffJustified(d, o, c);
    FlaggedIffForReview(d, o, c);
    EndIsTerminal(d, o, c);
  }

  /** Every outcome, end to end: where a completed execution leaves an undecided candidate. */
  lemma OutcomeIs(w: World, o: Oracle, i: nat)
    requires !Composed(w.data.events) && i < |CandidatesIn(w.data)|
    requires Undecided(w.data, CandidatesIn(w.data)[i].id)
    ensures var c := CandidatesIn(w.data)[i];
            Reads(Play(w, Plan(w.data, o)).world.data, c.id,
                  if Justified(o, c) then Supported else if ForReview(w.data, o, c) then Flagged else Refused)
  {
    CompletedIsTerminal(w, o);
    EndIs(w.data, o, CandidatesIn(w.data)[i]);
  }

  /** Of the two refusals, irrelevance is for categories that are no head, and only for them. */
  lemma RefusalsApart(d: CaseData, o: Oracle, c: GroundIntake)
    ensures DecisionOn(d, o, c).status == RefusedIrrelevant <==> c.category !in PLANNING_HEADS
    ensures DecisionOn(d, o, c).status == RefusedUnsubstantiated <==>
            c.category in PLANNING_HEADS && EndStatus(d, o, c) == Refused
  {
    RelevantIffAHead(c.category);
  }

  /** Shipping soundness, end to end: after a completed execution an undecided candidate
      reads supported exactly when that is justified. */
  lemma ShippedSoundly(w: World, o: Oracle, i: nat)
    requires !Composed(w.data.events) && i < |CandidatesIn(w.data)|
    requires Undecided(w.data, CandidatesIn(w.data)[i].id)
    ensures var c := CandidatesIn(w.data)[i];
            var after := Play(w, Plan(w.data, o)).world.data;
            c.id in after.grounds && (after.grounds[c.id].status == Supported <==> Justified(o, c))
  {
    CompletedIsTerminal(w, o);
    SupportedIffJustified(w.data, o, CandidatesIn(w.data)[i]);
  }

  /** A ground on which the court reaches no verdict is refused, never flagged, whatever its
      category: the court's own "unresolved, flagged" outcome does not reach the ground. */
  lemma UnresolvedIsRefused(d: CaseData, o: Oracle, c: GroundIntake)
    requires VerdictOn(o, c).outcome == UnresolvedFlagged
    ensures EndStatus(d, o, c) == Refused
  {
    SupportedIff(c.id, o.hearings(c.id), KnownRefs(o.dossier));
    RelevantIffAHead(c.category);
  }

  lemma UnresolvedEndsRefused(w: World, o: Oracle, i: nat)
    requires !Composed(w.data.events) && i < |CandidatesIn(w.data)|
    requires Undecided(w.data, CandidatesIn(w.data)[i].id)
    requires VerdictOn(o, CandidatesIn(w.data)[i]).outcome == UnresolvedFlagged
    ensures Reads(Play(w, Plan(w.data, o)).world.data, CandidatesIn(w.data)[i].id, Refused)
  {
    CompletedIsTerminal(w, o);
    UnresolvedIsRefused(w.data, o, CandidatesIn(w.data)[i]);
  }

  // ---------------------------------------------------------------- transitions of a plan

  /** A step that moves no ground and reports no gate decision. */
  predicate Still(step: Step) {
    step.Do? ==>
      !step.op.Propose? && !step.op.Transition? && (step.op.Append? ==> !step.op.key.GateDecisionKey?)
  }

  ghost predicate AllStill(steps: seq<Step>) {
    forall i :: 0 <= i < |steps| ==> Still(steps[i])
  }

  ghost predicate MiddleOf(b: Block)
    requires b.Reviewed?
  {
    forall i :: 0 <= i < |b.middle| ==> Still(b.middle[i]) || Reports(b.g, b.end, b.middle[i])
  }

  lemma MiddleIsItsOwn(d: CaseData, o: Oracle, c: GroundIntake)
    requires Undecided(d, c.id)
    ensures MiddleOf(BlockOf(d, o, c))
  {
    BlockIs(d, o, c);
    var b := BlockOf(d, o, c);
    forall i | 0 <= i < |b.middle| ensures Still(b.middle[i]) || Reports(b.g, b.end, b.middle[i]) {
      assert OfReview(c.id, b.middle[i]) || OfGate(c.id, SavedGateBreaker(d, o, c), b.end, b.middle[i]);
    }
  }

  /** Some block ends `g` as `s`. */
  ghost predicate EndsABlock(bs: seq<Block>, g: GroundId, s: GroundStatus) {
    exists i :: 0 <= i < |bs| && bs[i].Reviewed? && bs[i].g == g && bs[i].end == s
  }

  /** What a step may do: begin a review, or report or make the end of some block. */
  ghost predicate Licensed(bs: seq<Block>, step: Step) {
    step.Do? ==>
      !step.op.Propose?
      && (step.op.Transition? ==> step.op.status == UnderReview || EndsABlock(bs, step.op.g, step.op.status))
      && (step.op.Append? && step.op.key.GateDecisionKey? ==>
            step.op.note.GateDecided? && step.op.note.g == step.op.key.g
            && EndsABlock(bs, step.op.key.g, GroundStatusFor(step.op.note.outcome)))
  }

  ghost predicate AllLicensed(bs: seq<Block>, steps: seq<Step>) {
    forall k :: 0 <= k < |steps| ==> Licensed(bs, steps[k])
  }

  lemma JoinLicensed(bs: seq<Block>, a: seq<Step>, b: seq<Step>)
    requires AllLicensed(bs, a) && AllLicensed(bs, b)
    ensures AllLicensed(bs, a + b)
  {}

  lemma StillIsLicensed(bs: seq<Block>, steps: seq<Step>)
    requires AllStill(steps)
    ensures AllLicensed(bs, steps)
  {
    forall k | 0 <= k < |steps| ensures Licensed(bs, steps[k]) {
      assert Still(steps[k]);
    }
  }

  lemma BlockIsLicensed(bs: seq<Block>, i: nat)
    requires i < |bs| && (bs[i].Reviewed? ==> MiddleOf(bs[i]))
    ensures AllLicensed(bs, BlockSteps(bs[i]))
  {
    var b := bs[i];
    if b.Reviewed? {
      assert EndsABlock(bs, b.g, b.end);
      forall k | 0 <= k < |b.middle| ensures Licensed(bs, b.middle[k]) {
        assert Still(b.middle[k]) || Reports(b.g, b.end, b.middle[k]);
      }
      JoinLicensed(bs, [Do(Transition(b.g, UnderReview))], b.middle);
      JoinLicensed(bs, [Do(Transition(b.g, UnderReview))] + b.middle, [Do(Transition(b.g, b.end))]);
    }
  }

  lemma {:induction false} BlocksAreLicensed(bs: seq<Block>, n: nat)
    requires n <= |bs| && forall i :: 0 <= i < |bs| ==> bs[i].Reviewed? ==> MiddleOf(bs[i])
    ensures AllLicensed(bs, AllSteps(bs[..n]))
  {
    if n > 0 {
      assert bs[..n][..n - 1] == bs[..n - 1] && bs[..n][n - 1] == bs[n - 1];
      assert AllSteps(bs[..n]) == AllSteps(bs[..n - 1]) + BlockSteps(bs[n - 1]);
      BlocksAreLicensed(bs, n - 1);
      BlockIsLicensed(bs, n - 1);
      JoinLicensed(bs, AllSteps(bs[..n - 1]), BlockSteps(bs[n - 1]));
    }
  }

  lemma {:induction false} IllustrationsAreStill(names: seq<string>)
    ensures AllStill(IllustrationSteps(names))
  {
    if names != [] {
      IllustrationsAreStill(names[..|names| - 1]);
    }
  }

  lemma HeadAndTailAreStill(d: CaseData, o: Oracle)
    ensures AllStill(HeadSteps(d, o)) && AllStill(TailSteps(d, o))
  {
    IllustrationsAreStill(o.illustration);
  }

  function BlocksIn(d: CaseData, o: Oracle): seq<Block> { Blocks(d, o, CandidatesIn(d)) }

  lemma PlanIsLicensed(d: CaseData, o: Oracle)
    ensures AllLicensed(BlocksIn(d, o), Plan(d, o))
  {
    if !Composed(d.events) {
      var cs, bs := CandidatesIn(d), BlocksIn(d, o);
      PlanInThree(d, o);
      HeadAndTailAreStill(d, o);
      BlocksAre(d, o, cs);
      forall i | 0 <= i < |bs| && bs[i].Reviewed? ensures MiddleOf(bs[i]) {
        BlockIs(d, o, cs[i]);
        MiddleIsItsOwn(d, o, cs[i]);
      }
      BlocksAreLicensed(bs, |bs|);
      assert bs[..|bs|] == bs;
      StillIsLicensed(bs, HeadSteps(d, o));
      StillIsLicensed(bs, TailSteps(d, o));
      JoinLicensed(bs, HeadSteps(d, o), AllSteps(bs));
      JoinLicensed(bs, HeadSteps(d, o) + AllSteps(bs), TailSteps(d, o));
    }
  }

  lemma AttemptIsLicensed(w: World, a: Attempt)
    ensures AllLicensed(BlocksIn(w.data, a.o), AttemptSteps(w, a))
  {
    PlanIsLicensed(w.data, a.o);
  }

  lemma LicensedStep(bs: seq<Block>, w: World, step: Step, g: GroundId)
    requires Licensed(bs, step)
    ensures var v := Perform(w, step).world;
            (g in v.data.grounds <==> g in w.data.grounds)
            && (g in w.data.grounds ==>
                  v.data.grounds[g].status == w.data.grounds[g].status || v.data.grounds[g].status == UnderReview
                  || EndsABlock(bs, g, v.data.grounds[g].status))
  {}

  /** After licensed steps a ground reads as before, as under review, or as the end of a
      block of its own. */
  lemma {:induction false} LicensedPlay(bs: seq<Block>, w: World, steps: seq<Step>, g: GroundId)
    requires AllLicensed(bs, steps)
    ensures var v := Play(w, steps).world;
            (g in v.data.grounds <==> g in w.data.grounds)
            && (g in w.data.grounds ==>
                  v.data.grounds[g].status == w.data.grounds[g].status || v.data.grounds[g].status == UnderReview
                  || EndsABlock(bs, g, v.data.grounds[g].status))
  {
    if steps != [] {
      var init := steps[..|steps| - 1];
      assert forall i :: 0 <= i < |init| ==> init[i] == steps[i];
      LicensedPlay(bs, w, init, g);
      LicensedStep(bs, Play(w, init).world, steps[|steps| - 1], g);
    }
  }

  /** Some execution on state `d` had a candidate for `g`, undecided, and ended it as `s`. */
  ghost predicate EndedBy(d: CaseData, o: Oracle, g: GroundId, s: GroundStatus) {
    exists i :: 0 <= i < |CandidatesIn(d)| && CandidatesIn(d)[i].id == g && Undecided(d, g)
                && EndStatus(d, o, CandidatesIn(d)[i]) == s
  }

  lemma BlocksEnd(d: CaseData, o: Oracle, g: GroundId, s: GroundStatus)
    requires EndsABlock(BlocksIn(d, o), g, s)
    ensures EndedBy(d, o, g, s)
  {
    var cs, bs := CandidatesIn(d), BlocksIn(d, o);
    BlocksAre(d, o, cs);
    var i :| 0 <= i < |bs| && bs[i].Reviewed? && bs[i].g == g && bs[i].end == s;
    BlockIs(d, o, cs[i]);
  }

  /** Cut anywhere, an execution leaves each ground as it was, under review, or ended as
      its own decision says. */
  lemma AttemptStatuses(w: World, a: Attempt, g: GroundId)
    requires g in w.data.grounds
    ensures var v := AfterAttempt(w, a);
            g in v.data.grounds
            && (v.data.grounds[g].status == w.data.grounds[g].status || v.data.grounds[g].status == UnderReview
                || EndedBy(w.data, a.o, g, v.data.grounds[g].status))
  {
    AttemptIsLicensed(w, a);
    LicensedPlay(BlocksIn(w.data, a.o), w, AttemptSteps(w, a), g);
    var s := AfterAttempt(w, a).data.grounds[g].status;
    if EndsABlock(BlocksIn(w.data, a.o), g, s) {
      BlocksEnd(w.data, a.o, g, s);
    }
  }

  /** An execution that leaves a ground newly supported had a justified candidate for it. */
  lemma SupportedNow(v: World, a: Attempt, g: GroundId) returns (c: GroundIntake)
    requires g in v.data.grounds && v.data.grounds[g].status != Supported
    requires g in AfterAttempt(v, a).data.grounds && AfterAttempt(v, a).data.grounds[g].status == Supported
    ensures c in CandidatesIn(v.data) && c.id == g && Undecided(v.data, g) && Justified(a.o, c)
  {
    AttemptStatuses(v, a, g);
    c := EnderOf(v.data, a.o, g, Supported);
    SupportedIffJustified(v.data, a.o, c);
  }

  lemma EnderOf(d: CaseData, o: Oracle, g: GroundId, s: GroundStatus) returns (c: GroundIntake)
    requires EndedBy(d, o, g, s)
    ensures c in CandidatesIn(d) && c.id == g && Undecided(d, g) && EndStatus(d, o, c) == s
  {
    var k :| 0 <= k < |CandidatesIn(d)| && CandidatesIn(d)[k].id == g && Undecided(d, g)
             && EndStatus(d, o, CandidatesIn(d)[k]) == s;
    c := CandidatesIn(d)[k];
  }

  predicate Reads(d: CaseData, g: GroundId, s: GroundStatus) { g in d.grounds && d.grounds[g].status == s }

  predicate MadeSupported(v: World, a: Attempt, g: GroundId) {
    g in v.data.grounds && !Reads(v.data, g, Supported) && Reads(AfterAttempt(v, a).data, g, Supported)
  }

  lemma OneMoreAttempt(w: World, chain: seq<Attempt>, n: nat)
    requires n < |chain|
    ensures AfterChain(w, chain[..n + 1]) == AfterAttempt(AfterChain(w, chain[..n]), chain[n])
  {
    assert chain[..n + 1][..n] == chain[..n];
  }

  lemma NotAtFirst(w: World, chain: seq<Attempt>, n: nat, g: GroundId)
    requires n <= |chain| && !Reads(w.data, g, Supported) && Reads(AfterChain(w, chain[..n]).data, g, Supported)
    ensures n > 0
  {}

  /** Among the first `n` executions, the one that made the difference. */
  lemma {:induction false} FirstToSupport(w: World, chain: seq<Attempt>, n: nat, g: GroundId) returns (i: nat)
    requires n <= |chain| && g in w.data.grounds && !Reads(w.data, g, Supported)
    requires Reads(AfterChain(w, chain[..n]).data, g, Supported)
    ensures i < n && MadeSupported(AfterChain(w, chain[..i]), chain[i], g)
  {
    NotAtFirst(w, chain, n, g);
    i := n - 1;
    OneMoreAttempt(w, chain, i);
    GroundsStay(w, chain[..i], g);
    if Reads(AfterChain(w, chain[..i]).data, g, Supported) {
      i := FirstToSupport(w, chain, i, g);
    }
  }

  /** Over any chain: a ground that reads supported and did not at first was supported by
      one of the executions, which had every reason to. */
  lemma SupportHasAReason(w: World, chain: seq<Attempt>, g: GroundId) returns (i: nat, c: GroundIntake)
    requires g in w.data.grounds && !Reads(w.data, g, Supported) && Reads(AfterChain(w, chain).data, g, Supported)
    ensures i < |chain|
    ensures var d := AfterChain(w, chain[..i]).data;
            c in CandidatesIn(d) && c.id == g && Undecided(d, g) && Justified(chain[i].o, c)
  {
    assert chain[..|chain|] == chain;
    i := FirstToSupport(w, chain, |chain|, g);
    c := SupportedNow(AfterChain(w, chain[..i]), chain[i], g);
  }

  lemma {:induction false} GroundsStay(w: World, chain: seq<Attempt>, g: GroundId)
    ensures g in AfterChain(w, chain).data.grounds <==> g in w.data.grounds
  {
    if chain != [] {
      var v := AfterChain(w, chain[..|chain| - 1]);
      GroundsStay(w, chain[..|chain| - 1], g);
      AttemptIsLicensed(v, chain[|chain| - 1]);
      LicensedPlay(BlocksIn(v.data, chain[|chain| - 1].o), v, AttemptSteps(v, chain[|chain| - 1]), g);
    }
  }

  // ---------------------------------------------------------------- nothing is ever flagged

  predicate CalmSnapshot(s: Snapshot) { s.state == Closed && s.settings.threshold >= 2 }

  /** Every saved gate breaker is closed and takes two failures to trip. A case no
      execution has touched has none saved at all. */
  ghost predicate GatesCalm(d: CaseData) {
    forall g :: GateBreaker(g) in d.breakers ==> CalmSnapshot(d.breakers[GateBreaker(g)])
  }

  /** A saved breaker drops its failure count, so each execution starts a ground's
      escalation over: one failure, below any threshold of two. */
  lemma NeverFlags(d: CaseData, o: Oracle, c: GroundIntake)
    requires GatesCalm(d)
    ensures EndStatus(d, o, c) != Flagged
    ensures CalmSnapshot(SavedGateBreaker(d, o, c))
  {
    assert BreakerFields(d, o, c.id) == FRESH && BreakerSettings(d, c.id).threshold >= 2;
  }

  predicate CalmStep(step: Step) {
    step.Do? && step.op.SaveBreaker? && step.op.name.GateBreaker? ==> CalmSnapshot(step.op.snapshot)
  }

  ghost predicate AllCalm(steps: seq<Step>) {
    forall k :: 0 <= k < |steps| ==> CalmStep(steps[k])
  }

  lemma JoinCalm(a: seq<Step>, b: seq<Step>)
    requires AllCalm(a) && AllCalm(b)
    ensures AllCalm(a + b)
  {}

  lemma BlockIsCalm(d: CaseData, o: Oracle, c: GroundIntake)
    requires GatesCalm(d)
    ensures AllCalm(BlockSteps(BlockOf(d, o, c)))
  {
    BlockIs(d, o, c);
    NeverFlags(d, o, c);
    var b := BlockOf(d, o, c);
    if b.Reviewed? {
      forall i | 0 <= i < |b.middle| ensures CalmStep(b.middle[i]) {
        assert OfReview(c.id, b.middle[i]) || OfGate(c.id, SavedGateBreaker(d, o, c), b.end, b.middle[i]);
      }
      JoinCalm([Do(Transition(b.g, UnderReview))], b.middle);
      JoinCalm([Do(Transition(b.g, UnderReview))] + b.middle, [Do(Transition(b.g, b.end))]);
    }
  }

  lemma {:induction false} BlocksAreCalm(d: CaseData, o: Oracle, cs: seq<GroundIntake>)
    requires GatesCalm(d)
    ensures AllCalm(AllSteps(Blocks(d, o, cs)))
  {
    if cs != [] {
      var init := cs[..|cs| - 1];
      BlocksAreCalm(d, o, init);
      BlockIsCalm(d, o, cs[|cs| - 1]);
      assert Blocks(d, o, cs)[..|Blocks(d, o, init)|] == Blocks(d, o, init);
      JoinCalm(AllSteps(Blocks(d, o, init)), BlockSteps(BlockOf(d, o, cs[|cs| - 1])));
    }
  }

  lemma {:induction false} IllustrationsAreCalm(names: seq<string>)
    ensures AllCalm(IllustrationSteps(names))
  {
    if names != [] {
      IllustrationsAreCalm(names[..|names| - 1]);
    }
  }

  lemma EndsAreCalm(d: CaseData, o: Oracle)
    ensures AllCalm(HeadSteps(d, o)) && AllCalm(TailSteps(d, o))
  {
    IllustrationsAreCalm(o.illustration);
    assert AllCalm(SettleSteps(o));
    assert AllCalm(BookSteps(d, o, TribunalLedger, o.ledgerTotal));
    assert AllCalm(CloseSteps(o));
    JoinCalm(SettleSteps(o), BookSteps(d, o, TribunalLedger, o.ledgerTotal));
  }

  lemma PlanIsCalm(d: CaseData, o: Oracle)
    requires GatesCalm(d)
    ensures AllCalm(Plan(d, o))
  {
    if !Composed(d.events) {
      var bs := BlocksIn(d, o);
      PlanInThree(d, o);
      BlocksAreCalm(d, o, CandidatesIn(d));
      EndsAreCalm(d, o);
      JoinCalm(HeadSteps(d, o), AllSteps(bs));
      JoinCalm(HeadSteps(d, o) + AllSteps(bs), TailSteps(d, o));
    }
  }

  lemma CalmPerform(w: World, step: Step)
    requires GatesCalm(w.data) && CalmStep(step)
    ensures GatesCalm(Perform(w, step).world.data)
  {}

  lemma {:induction false} CalmPlay(w: World, steps: seq<Step>)
    requires GatesCalm(w.data) && AllCalm(steps)
    ensures GatesCalm(Play(w, steps).world.data)
  {
    if steps != [] {
      var init := steps[..|steps| - 1];
      assert forall i :: 0 <= i < |init| ==> init[i] == steps[i];
      CalmPlay(w, init);
      CalmPerform(Play(w, init).world, steps[|steps| - 1]);
    }
  }

  /** Over any chain of executions, cut anywhere, no ground is ever moved to flagged: the
      escalation from refusal to human review needs failures remembered across
      executions, and none are. */
  lemma {:induction false} NothingIsEverFlagged(w: World, chain: seq<Attempt>, g: GroundId)
    requires GatesCalm(w.data) && g in w.data.grounds && w.data.grounds[g].status != Flagged
    ensures GatesCalm(AfterChain(w, chain).data)
    ensures g in AfterChain(w, chain).data.grounds && AfterChain(w, chain).data.grounds[g].status != Flagged
  {
    if chain != [] {
      var last := chain[|chain| - 1];
      var v := AfterChain(w, chain[..|chain| - 1]);
      NothingIsEverFlagged(w, chain[..|chain| - 1], g);
      PlanIsCalm(v.data, last.o);
      CalmPlay(v, AttemptSteps(v, last));
      AttemptStatuses(v, last, g);
      var s := AfterAttempt(v, last).data.grounds[g].status;
      if EndedBy(v.data, last.o, g, s) {
        var i :| 0 <= i < |CandidatesIn(v.data)| && CandidatesIn(v.data)[i].id == g && Undecided(v.data, g)
                 && EndStatus(v.data, last.o, CandidatesIn(v.data)[i]) == s;
        NeverFlags(v.data, last.o, CandidatesIn(v.data)[i]);
      }
    }
  }

  /** What residents do to a case: propose grounds and append events. */
  predicate OfResident(op: Op) { op.Propose? || op.Append? }

  function Prepared(d: CaseData, ops: seq<Op>): CaseData {
    if ops == [] then d
    else match Apply(Prepared(d, ops[..|ops| - 1]), ops[|ops| - 1])
      case Ok(after) => after
      case Err(_) => Prepared(d, ops[..|ops| - 1])
  }

  lemma {:induction false} PreparedIsUntouched(d: CaseData, ops: seq<Op>)
    requires forall i :: 0 <= i < |ops| ==> OfResident(ops[i])
    requires d.breakers == map[] && forall g :: g in d.grounds ==> d.grounds[g].status == Proposed
    ensures var p := Prepared(d, ops); p.breakers == map[] && forall g :: g in p.grounds ==> p.grounds[g].status == Proposed
  {
    if ops != [] {
      assert forall i :: 0 <= i < |ops| - 1 ==> ops[..|ops| - 1][i] == ops[i];
      PreparedIsUntouched(d, ops[..|ops| - 1]);
    }
  }

  /** So from a new case, whatever residents put into it and whatever chain of executions
      follows, no ground is ever flagged. */
  lemma NewCaseIsNeverFlagged(c: CaseId, publicOrigin: bool, judgeOrigin: bool, ops: seq<Op>, chain: seq<Attempt>, g: GroundId)
    requires forall i :: 0 <= i < |ops| ==> OfResident(ops[i])
    ensures !Reads(AfterChain(World(Prepared(NewCase(c, publicOrigin, judgeOrigin), ops), []), chain).data, g, Flagged)
  {
    var d := Prepared(NewCase(c, publicOrigin, judgeOrigin), ops);
    PreparedIsUntouched(NewCase(c, publicOrigin, judgeOrigin), ops);
    if g in d.grounds {
      NothingIsEverFlagged(World(d, []), chain, g);
    } else {
      GroundsStay(World(d, []), chain, g);
    }
  }

  // ---------------------------------------------------------------- the logged decision

  ghost predicate ShowsDecision(events: seq<CaseEvent>, g: GroundId, s: GroundStatus) {
    exists i :: 0 <= i < |events| && events[i].id == CallerId(GateDecisionKey(g)) && Decides(events[i].body, g, s)
  }

  lemma {:induction false} CoherentPlay(w: World, steps: seq<Step>)
    requires Coherent(w.data)
    ensures Coherent(Play(w, steps).world.data)
  {
    if steps != [] {
      var v, last := Play(w, steps[..|steps| - 1]).world, steps[|steps| - 1];
      CoherentPlay(w, steps[..|steps| - 1]);
      if last.Do? && Apply(v.data, last.op).Ok? {
        ApplyIsSourced(v.data, last.op);
      }
    }
  }

  /** No chain of executions breaks the agreement of log and records. */
  lemma {:induction false} ChainIsCoherent(w: World, chain: seq<Attempt>)
    requires Coherent(w.data)
    ensures Coherent(AfterChain(w, chain).data)
  {
    if chain != [] {
      var v := AfterChain(w, chain[..|chain| - 1]);
      ChainIsCoherent(w, chain[..|chain| - 1]);
      CoherentPlay(v, AttemptSteps(v, chain[|chain| - 1]));
    }
  }

  /** A decision that was not in the log before is one that a block reports. */
  lemma {:induction false} NewDecisionsAreLicensed(bs: seq<Block>, w: World, steps: seq<Step>, g: GroundId, i: nat)
    requires AllLicensed(bs, steps)
    requires |w.data.events| <= i < |Play(w, steps).world.data.events|
    requires Play(w, steps).world.data.events[i].id == CallerId(GateDecisionKey(g))
    ensures exists s :: EndsABlock(bs, g, s) && Decides(Play(w, steps).world.data.events[i].body, g, s)
  {
    var init, last := steps[..|steps| - 1], steps[|steps| - 1];
    var p := Play(w, init);
    assert forall k :: 0 <= k < |init| ==> init[k] == steps[k];
    assert Licensed(bs, last);
    if i < |p.world.data.events| {
      NewDecisionsAreLicensed(bs, w, init, g, i);
    } else {
      assert last.Do? && last.op == Append(GateDecisionKey(g), last.op.note);
      assert EndsABlock(bs, g, GroundStatusFor(last.op.note.outcome));
    }
  }

  lemma TheOnlyEnd(d: CaseData, o: Oracle, i: nat, s: GroundStatus)
    requires i < |CandidatesIn(d)| && EndedBy(d, o, CandidatesIn(d)[i].id, s)
    ensures s == EndStatus(d, o, CandidatesIn(d)[i])
  {
    CandidatesAre(d.events, d.grounds);
    var cs := CandidatesIn(d);
    var j :| 0 <= j < |cs| && cs[j].id == cs[i].id && Undecided(d, cs[i].id) && EndStatus(d, o, cs[j]) == s;
    assert i == j;
  }

  /** A block whose last act before its final transition is to report its end. */
  predicate Reporting(b: Block) {
    b.Reviewed? && b.middle != [] && Reports(b.g, b.end, b.middle[|b.middle| - 1])
  }

  lemma BlockReports(d: CaseData, o: Oracle, c: GroundIntake)
    requires Undecided(d, c.id)
    ensures Reporting(BlockOf(d, o, c))
  {
    BlockIs(d, o, c);
  }

  lemma StillLogged(w: World, a: seq<Step>, b: seq<Step>, id: EventId)
    requires Play(w, a).error.None? && Logged(Play(w, a).world.data.events, id)
    ensures Logged(Play(w, a + b).world.data.events, id)
  {
    var v := Play(w, a).world;
    PlayConcat(w, a, b);
    LogOnlyGrows(v, b);
    LoggedInPrefix(v.data.events, Play(v, b).world.data.events, id);
  }

  lemma BlockIsLogged(w: World, b: Block)
    requires Reporting(b) && Play(w, BlockSteps(b)).error.None?
    ensures Logged(Play(w, BlockSteps(b)).world.data.events, CallerId(GateDecisionKey(b.g)))
  {
    assert BlockSteps(b)[|b.middle|] == b.middle[|b.middle| - 1];
    AppendedIsLogged(w, BlockSteps(b), |b.middle|, GateDecisionKey(b.g), BlockSteps(b)[|b.middle|].op.note);
  }

  lemma BlockAfterIsLogged(w: World, init: seq<Step>, b: Block)
    requires Reporting(b) && Play(w, init + BlockSteps(b)).error.None?
    ensures Logged(Play(w, init + BlockSteps(b)).world.data.events, CallerId(GateDecisionKey(b.g)))
  {
    PlayConcat(w, init, BlockSteps(b));
    BlockIsLogged(Play(w, init).world, b);
  }

  lemma EarlierRaisesNothing(w: World, a: seq<Step>, b: seq<Step>)
    requires Play(w, a + b).error.None?
    ensures Play(w, a).error.None?
  {
    PlayConcat(w, a, b);
  }

  lemma {:induction false} BlocksAreLogged(w: World, bs: seq<Block>, i: nat, g: GroundId)
    requires i < |bs| && Reporting(bs[i]) && bs[i].g == g && Play(w, AllSteps(bs)).error.None?
    ensures Logged(Play(w, AllSteps(bs)).world.data.events, CallerId(GateDecisionKey(g)))
  {
    var init, last := bs[..|bs| - 1], bs[|bs| - 1];
    if i < |bs| - 1 {
      EarlierRaisesNothing(w, AllSteps(init), BlockSteps(last));
      BlocksAreLogged(w, init, i, g);
      StillLogged(w, AllSteps(init), BlockSteps(last), CallerId(GateDecisionKey(g)));
    } else {
      BlockAfterIsLogged(w, AllSteps(init), last);
    }
  }

  lemma ReportIsLogged(w: World, o: Oracle, i: nat)
    requires !Composed(w.data.events) && i < |CandidatesIn(w.data)| && Undecided(w.data, CandidatesIn(w.data)[i].id)
    ensures Logged(Play(w, Plan(w.data, o)).world.data.events, CallerId(GateDecisionKey(CandidatesIn(w.data)[i].id)))
  {
    BlocksAre(w.data, o, CandidatesIn(w.data));
    PlanInThree(w.data, o);
    ExecutionIsLegal(w, o);
    BlockReports(w.data, o, CandidatesIn(w.data)[i]);
    var head, steps := HeadSteps(w.data, o), AllSteps(BlocksIn(w.data, o));
    PlayConcat(w, head + steps, TailSteps(w.data, o));
    PlayConcat(w, head, steps);
    BlocksAreLogged(Play(w, head).world, BlocksIn(w.data, o), i, CandidatesIn(w.data)[i].id);
    StillLogged(w, head + steps, TailSteps(w.data, o), CallerId(GateDecisionKey(CandidatesIn(w.data)[i].id)));
  }

  lemma OldIsLogged(before: seq<CaseEvent>, after: seq<CaseEvent>, id: EventId, j: int)
    requires before <= after && 0 <= j < |after| && after[j].id == id
    ensures j < |before| ==> Logged(before, id)
  {
    if j < |before| {
      assert before[j].id == id;
    }
  }

  /** An undecided candidate's first report is the end its status came from. */
  lemma FirstReport(w: World, o: Oracle, i: nat, j: nat)
    requires !Composed(w.data.events) && i < |CandidatesIn(w.data)|
    requires |w.data.events| <= j < |Play(w, Plan(w.data, o)).world.data.events|
    requires Play(w, Plan(w.data, o)).world.data.events[j].id == CallerId(GateDecisionKey(CandidatesIn(w.data)[i].id))
    ensures Decides(Play(w, Plan(w.data, o)).world.data.events[j].body, CandidatesIn(w.data)[i].id,
                    EndStatus(w.data, o, CandidatesIn(w.data)[i]))
  {
    var g, bs := CandidatesIn(w.data)[i].id, BlocksIn(w.data, o);
    PlanIsLicensed(w.data, o);
    NewDecisionsAreLicensed(bs, w, Plan(w.data, o), g, j);
    var s :| EndsABlock(bs, g, s) && Decides(Play(w, Plan(w.data, o)).world.data.events[j].body, g, s);
    BlocksEnd(w.data, o, g, s);
    TheOnlyEnd(w.data, o, i, s);
  }

  /** What the log ends up showing, from what it showed before. */
  lemma LogShows(before: seq<CaseEvent>, after: seq<CaseEvent>, g: GroundId, end: GroundStatus)
    requires LogInOrder(before) && LogInOrder(after) && before <= after
    requires Logged(after, CallerId(GateDecisionKey(g)))
    requires forall j :: |before| <= j < |after| && after[j].id == CallerId(GateDecisionKey(g)) ==>
               Decides(after[j].body, g, end)
    ensures ShowsDecision(after, g, end) <==>
            !Logged(before, CallerId(GateDecisionKey(g))) || ShowsDecision(before, g, end)
  {
    var key := CallerId(GateDecisionKey(g));
    if Logged(before, key) {
      var k :| 0 <= k < |before| && before[k].id == key;
      assert after[k] == before[k];
      OnlyOneDecision(before, g, k, end);
      OnlyOneDecision(after, g, k, end);
    } else {
      var j :| 0 <= j < |after| && after[j].id == key;
      OldIsLogged(before, after, key, j);
      OnlyOneDecision(after, g, j, end);
    }
  }

  /** After a completed execution, the decision in the log is the one the ground's status
      came from exactly when no earlier execution had logged another: the first event under
      an id stays, the status follows the last decision. */
  lemma LoggedDecisionAgreesIff(w: World, o: Oracle, i: nat)
    requires Coherent(w.data) && !Composed(w.data.events)
    requires i < |CandidatesIn(w.data)| && Undecided(w.data, CandidatesIn(w.data)[i].id)
    ensures var c := CandidatesIn(w.data)[i];
            var after := Play(w, Plan(w.data, o)).world.data;
            c.id in after.grounds
            && (ShowsDecision(after.events, c.id, after.grounds[c.id].status) <==>
                  !Logged(w.data.events, CallerId(GateDecisionKey(c.id)))
                  || ShowsDecision(w.data.events, c.id, EndStatus(w.data, o, c)))
  {
    var g := CandidatesIn(w.data)[i].id;
    var before, after := w.data.events, Play(w, Plan(w.data, o)).world.data.events;
    CompletedIsTerminal(w, o);
    CoherentPlay(w, Plan(w.data, o));
    LogOnlyGrows(w, Plan(w.data, o));
    ReportIsLogged(w, o, i);
    forall j | |before| <= j < |after| && after[j].id == CallerId(GateDecisionKey(g))
      ensures Decides(after[j].body, g, EndStatus(w.data, o, CandidatesIn(w.data)[i]))
    {
      FirstReport(w, o, i, j);
    }
    LogShows(before, after, g, EndStatus(w.data, o, CandidatesIn(w.data)[i]));
  }

  lemma OnlyOneDecision(events: seq<CaseEvent>, g: GroundId, j: nat, s: GroundStatus)
    requires LogInOrder(events) && j < |events| && events[j].id == CallerId(GateDecisionKey(g))
    ensures ShowsDecision(events, g, s) <==> Decides(events[j].body, g, s)
  {
    if ShowsDecision(events, g, s) {
      var k :| 0 <= k < |events| && events[k].id == CallerId(GateDecisionKey(g)) && Decides(events[k].body, g, s);
      assert k == j;
    }
  }
}
