/** A state that executions leave and from which the next submission is incomplete. */
module ResumedRuns {
  import opened Wrappers
  import opened CaseStores
  import opened Courts
  import opened Intake
  import opened Pipeline
  import opened PipelineLaws
  import opened ChainLaws
  import opened Conservation
  import T = TornDecisions

  /** An execution stopped just after it ended candidate `i`. */
  function UpTo(d: CaseData, o: Oracle, i: nat): seq<Step>
    requires i < |Blocks(d, o, CandidatesIn(d))|
  {
    HeadSteps(d, o) + AllSteps(Blocks(d, o, CandidatesIn(d))[..i + 1])
  }

  lemma {:induction false} ThroughBlock(bs: seq<Block>, i: nat)
    requires i < |bs|
    ensures AllSteps(bs[..i + 1]) <= AllSteps(bs)
  {
    if i < |bs| - 1 {
      var init := bs[..|bs| - 1];
      assert init[..i + 1] == bs[..i + 1];
      ThroughBlock(init, i);
    } else {
      assert bs[..i + 1] == bs;
    }
  }

  lemma UpToIsEarly(d: CaseData, o: Oracle, i: nat)
    requires !Composed(d.events) && i < |Blocks(d, o, CandidatesIn(d))|
    ensures UpTo(d, o, i) <= Plan(d, o) && |UpTo(d, o, i)| <= |BeforeClose(d, o)|
  {
    var bs := Blocks(d, o, CandidatesIn(d));
    PlanInThree(d, o);
    ThroughBlock(bs, i);
    T.PrefixWithin(HeadSteps(d, o), AllSteps(bs[..i + 1]), AllSteps(bs), TailSteps(d, o));
  }

  /** Stopped there, nothing is composed and the candidates are who they were. */
  lemma UpToKeeps(w: World, o: Oracle, i: nat)
    requires !Composed(w.data.events) && i < |Blocks(w.data, o, CandidatesIn(w.data))|
    ensures var v := Play(w, UpTo(w.data, o, i)).world;
            !Composed(v.data.events) && CandidatesIn(v.data) == CandidatesIn(w.data)
  {
    var steps, plan := UpTo(w.data, o, i), Plan(w.data, o);
    UpToIsEarly(w.data, o, i);
    EarlyCut(w.data, o, |steps|);
    assert Prefix(plan, |steps|) == steps;
    UnfinishedPlay(w, steps);
    PlanMatches(w.data, o);
    assert forall k :: 0 <= k < |steps| ==> steps[k] == plan[k];
    CandidatesStay(w, steps);
  }

  lemma UpToLands(w: World, o: Oracle, i: nat)
    requires i < |CandidatesIn(w.data)| == |Blocks(w.data, o, CandidatesIn(w.data))|
    requires Undecided(w.data, CandidatesIn(w.data)[i].id)
    ensures var after, g := Play(w, UpTo(w.data, o, i)).world.data, CandidatesIn(w.data)[i].id;
            g in after.grounds && after.grounds[g].status == EndStatus(w.data, o, CandidatesIn(w.data)[i])
  {
    var head, bs := HeadSteps(w.data, o), Blocks(w.data, o, CandidatesIn(w.data));
    var early := bs[..i + 1];
    CandidateBlocks(w.data, o);
    HeadAndTailAreQuiet(w.data, o, w.data.grounds.Keys);
    assert forall j :: 0 <= j <= i ==> early[j] == bs[j];
    ThreePartPlay(w, head, early, []);
    assert UpTo(w.data, o, i) + [] == UpTo(w.data, o, i);
    LandingIs(early, StatusMap(w.data));
    BlockIs(w.data, o, CandidatesIn(w.data)[i]);
    assert early[i].g == CandidatesIn(w.data)[i].id;
  }

  /** That state is one executions leave: stopped just after supporting a candidate, an
      execution has composed nothing, and the next one's submission omits that candidate. */
  lemma StoppedAfterSupport(w: World, o: Oracle, i: nat, later: Oracle)
    requires !Composed(w.data.events) && i < |CandidatesIn(w.data)| && Undecided(w.data, CandidatesIn(w.data)[i].id)
    requires EndStatus(w.data, o, CandidatesIn(w.data)[i]) == Supported
    ensures |Blocks(w.data, o, CandidatesIn(w.data))| == |CandidatesIn(w.data)| && UpTo(w.data, o, i) <= Plan(w.data, o)
    ensures var v := Play(w, UpTo(w.data, o, i)).world;
            var after := Play(v, Plan(v.data, later)).world.data;
            !Composed(v.data.events) && HadAlready(v.data, Supported)
            && Ended(CandidatesIn(v.data), v.data, after, Supported) != Reading(CandidatesIn(v.data), after, Supported)
  {
    CandidateBlocks(w.data, o);
    UpToIsEarly(w.data, o, i);
    UpToKeeps(w, o, i);
    UpToLands(w, o, i);
    HasAlready(Play(w, UpTo(w.data, o, i)).world.data, Supported, i);
    SubmissionIsCompleteIff(Play(w, UpTo(w.data, o, i)).world, later);
  }

  lemma HasAlready(d: CaseData, s: GroundStatus, i: nat)
    requires i < |CandidatesIn(d)| && CandidatesIn(d)[i].id in d.grounds && d.grounds[CandidatesIn(d)[i].id].status == s
    ensures HadAlready(d, s)
  {}

  /** On the filed case, supported and stopped there, whatever runs next composes without it. */
  lemma ResumedRunOmits(c: CaseId, later: Oracle) returns (v: World, after: CaseData)
    ensures exists cut :: v == AfterAttempt(World(T.FiledCase(c), []), Attempt(T.Hearings(Support), cut, None))
    ensures after == Play(v, Plan(v.data, later)).world.data
    ensures Ended(CandidatesIn(v.data), v.data, after, Supported) != Reading(CandidatesIn(v.data), after, Supported)
  {
    var w, o := World(T.FiledCase(c), []), T.Hearings(Support);
    T.FiledCandidates(c);
    T.FiledCaseIsOpen(c);
    T.EndsDiffer(w.data, w.data, CandidatesIn(w.data)[0]);
    StoppedAfterSupport(w, o, 0, later);
    v := Play(w, UpTo(w.data, o, 0)).world;
    after := Play(v, Plan(v.data, later)).world.data;
    T.StoppedThere(w, o, UpTo(w.data, o, 0));
  }
}
