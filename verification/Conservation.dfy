/** What the two documents of a run list, against the statuses the run leaves behind. */
module Conservation {
  import opened Wrappers
  import opened CaseStores
  import opened Gates
  import opened Intake
  import opened Composers
  import opened Pipeline
  import opened PipelineLaws

  // ---------------------------------------------------------------- the three lists

  function Ids(decisions: seq<GateDecision>): seq<GroundId> {
    seq(|decisions|, i requires 0 <= i < |decisions| => decisions[i].id)
  }

  /** The decided grounds that go on to read `s`. */
  function Listed(decisions: seq<GateDecision>, s: GroundStatus): seq<GroundId> {
    if decisions == [] then []
    else Listed(decisions[..|decisions| - 1], s)
         + (if GroundStatusFor(decisions[|decisions| - 1].status) == s then [decisions[|decisions| - 1].id] else [])
  }

  lemma {:induction false} ShippedAreSupported(decisions: seq<GateDecision>)
    ensures Ids(ShippedOnes(decisions)) == Listed(decisions, Supported)
  {
    if decisions != [] {
      ShippedAreSupported(decisions[..|decisions| - 1]);
    }
  }

  lemma OneMoreUnshipped(init: seq<GateDecision>, last: GateDecision)
    ensures Unshipped(init + [last]) == if last.status == Shipped then Unshipped(init) else Unshipped(init) + [last]
  {
    assert (init + [last])[..|init|] == init;
  }

  lemma OneMoreIds(decisions: seq<GateDecision>, last: GateDecision)
    ensures Ids(decisions + [last]) == Ids(decisions) + [last.id]
  {}

  lemma SectionGrows(decisions: seq<GateDecision>, last: GateDecision, flagged: bool)
    ensures Section(decisions + [last], flagged) ==
            Section(decisions, flagged) + (if (last.status == FlaggedForReview) == flagged then [last] else [])
  {
    assert (decisions + [last])[..|decisions|] == decisions;
  }

  /** What one more decision adds to a section. */
  lemma SectionStep(init: seq<GateDecision>, last: GateDecision, flagged: bool)
    ensures Ids(Section(Unshipped(init + [last]), flagged)) ==
            Ids(Section(Unshipped(init), flagged))
            + (if GroundStatusFor(last.status) == (if flagged then Flagged else Refused) then [last.id] else [])
  {
    OneMoreUnshipped(init, last);
    if last.status != Shipped {
      SectionGrows(Unshipped(init), last, flagged);
      OneMoreIds(Section(Unshipped(init), flagged), last);
    }
  }

  lemma {:induction false} SectionsAreTheRest(decisions: seq<GateDecision>, flagged: bool)
    ensures Ids(Section(Unshipped(decisions), flagged)) == Listed(decisions, if flagged then Flagged else Refused)
  {
    if decisions != [] {
      var init, last := decisions[..|decisions| - 1], decisions[|decisions| - 1];
      assert decisions == init + [last];
      SectionsAreTheRest(init, flagged);
      SectionStep(init, last, flagged);
    }
  }

  // ---------------------------------------------------------------- decisions against statuses

  /** The candidates undecided before that read `s` after, in candidate order. */
  function Ended(cs: seq<GroundIntake>, before: CaseData, after: CaseData, s: GroundStatus): seq<GroundId> {
    if cs == [] then []
    else
      var g := cs[|cs| - 1].id;
      Ended(cs[..|cs| - 1], before, after, s)
      + (if Undecided(before, g) && g in after.grounds && after.grounds[g].status == s then [g] else [])
  }

  /** The candidates that read `s`, in candidate order. */
  function Reading(cs: seq<GroundIntake>, d: CaseData, s: GroundStatus): seq<GroundId> {
    if cs == [] then []
    else
      var g := cs[|cs| - 1].id;
      Reading(cs[..|cs| - 1], d, s) + (if g in d.grounds && d.grounds[g].status == s then [g] else [])
  }

  /** Each undecided candidate of `cs` reads in `after` as its decision says. */
  ghost predicate CarriedOut(d: CaseData, o: Oracle, cs: seq<GroundIntake>, after: CaseData) {
    forall i :: 0 <= i < |cs| && Undecided(d, cs[i].id) ==>
      cs[i].id in after.grounds && after.grounds[cs[i].id].status == EndStatus(d, o, cs[i])
  }

  lemma DecisionIsItsOwn(d: CaseData, o: Oracle, c: GroundIntake)
    ensures DecisionOn(d, o, c).id == c.id
  {}

  lemma ListedGrows(decisions: seq<GateDecision>, last: GateDecision, s: GroundStatus)
    ensures Listed(decisions + [last], s) ==
            Listed(decisions, s) + (if GroundStatusFor(last.status) == s then [last.id] else [])
  {
    assert (decisions + [last])[..|decisions|] == decisions;
  }

  lemma {:induction false} DecisionsAreEnds(d: CaseData, o: Oracle, cs: seq<GroundIntake>, after: CaseData, s: GroundStatus)
    requires CarriedOut(d, o, cs, after)
    ensures Listed(CarriedOver(d, o, cs).decisions, s) == Ended(cs, d, after, s)
  {
    if cs != [] {
      var init, c := cs[..|cs| - 1], cs[|cs| - 1];
      assert forall i :: 0 <= i < |init| ==> init[i] == cs[i];
      DecisionsAreEnds(d, o, init, after, s);
      if Undecided(d, c.id) {
        DecisionIsItsOwn(d, o, c);
        ListedGrows(CarriedOver(d, o, init).decisions, DecisionOn(d, o, c), s);
      }
    }
  }

  /** Every ground the gate ships has its content written. */
  ghost predicate ContentWritten(k: Carried) {
    forall i :: 0 <= i < |k.decisions| && k.decisions[i].status == Shipped ==> k.decisions[i].id in k.content
  }

  lemma CarryWrites(d: CaseData, o: Oracle, k: Carried, c: GroundIntake)
    requires ContentWritten(k)
    ensures ContentWritten(Carry(d, o, k, c))
  {
    var after := Carry(d, o, k, c);
    if Undecided(d, c.id) {
      DecisionIsItsOwn(d, o, c);
      forall i | 0 <= i < |after.decisions| && after.decisions[i].status == Shipped
        ensures after.decisions[i].id in after.content
      {
        if i < |k.decisions| {
          assert after.decisions[i] == k.decisions[i];
        }
      }
    }
  }

  lemma {:induction false} ContentIsWritten(d: CaseData, o: Oracle, cs: seq<GroundIntake>)
    ensures ContentWritten(CarriedOver(d, o, cs))
  {
    if cs != [] {
      ContentIsWritten(d, o, cs[..|cs| - 1]);
      CarryWrites(d, o, CarriedOver(d, o, cs[..|cs| - 1]), cs[|cs| - 1]);
    }
  }

  /** Conservation: the documents of a completed run always assemble, and list exactly the
      candidates it decided, in candidate order: those that end supported as the numbered
      grounds, those refused and those flagged in the explainer's two sections. */
  lemma DocumentsConserve(w: World, o: Oracle, package: Result<Package, ComposeError>)
    requires !Composed(w.data.events)
    requires Renders(package, Decisions(w.data, o), CarriedOver(w.data, o, CandidatesIn(w.data)).content)
    ensures var after := Play(w, Plan(w.data, o)).world.data;
            var cs := CandidatesIn(w.data);
            package.Ok?
            && EntryIds(package.value.submission) == Ended(cs, w.data, after, Supported)
            && Ids(package.value.refused) == Ended(cs, w.data, after, Refused)
            && Ids(package.value.flagged) == Ended(cs, w.data, after, Flagged)
  {
    var cs, decisions := CandidatesIn(w.data), Decisions(w.data, o);
    var after := Play(w, Plan(w.data, o)).world.data;
    CompletedIsTerminal(w, o);
    ContentIsWritten(w.data, o, cs);
    ShippedAreSupported(decisions);
    SectionsAreTheRest(decisions, false);
    SectionsAreTheRest(decisions, true);
    DecisionsAreEnds(w.data, o, cs, after, Supported);
    DecisionsAreEnds(w.data, o, cs, after, Refused);
    DecisionsAreEnds(w.data, o, cs, after, Flagged);
    assert EntryIds(package.value.submission) == Ids(ShippedOnes(decisions));
  }

  function EntryIds(entries: seq<Entry>): seq<GroundId> {
    seq(|entries|, i requires 0 <= i < |entries| => entries[i].id)
  }

  // ---------------------------------------------------------------- what a resumed run omits

  lemma {:induction false} EndedWithin(cs: seq<GroundIntake>, before: CaseData, after: CaseData, s: GroundStatus)
    ensures |Ended(cs, before, after, s)| <= |Reading(cs, after, s)|
    ensures forall g :: g in Ended(cs, before, after, s) ==> Undecided(before, g) && g in after.grounds && after.grounds[g].status == s
  {
    if cs != [] {
      EndedWithin(cs[..|cs| - 1], before, after, s);
    }
  }

  lemma {:induction false} ReadingHas(cs: seq<GroundIntake>, d: CaseData, s: GroundStatus, i: nat)
    requires i < |cs| && cs[i].id in d.grounds && d.grounds[cs[i].id].status == s
    ensures cs[i].id in Reading(cs, d, s)
  {
    if i < |cs| - 1 {
      ReadingHas(cs[..|cs| - 1], d, s, i);
    }
  }

  lemma {:induction false} EndedIsReading(cs: seq<GroundIntake>, before: CaseData, after: CaseData, s: GroundStatus)
    requires forall i :: 0 <= i < |cs| && cs[i].id in after.grounds && after.grounds[cs[i].id].status == s ==>
               Undecided(before, cs[i].id)
    ensures Ended(cs, before, after, s) == Reading(cs, after, s)
  {
    if cs != [] {
      var init := cs[..|cs| - 1];
      assert forall i :: 0 <= i < |init| ==> init[i] == cs[i];
      EndedIsReading(init, before, after, s);
    }
  }

  /** A candidate already decided when the run starts, and reading `s`. */
  ghost predicate HadAlready(d: CaseData, s: GroundStatus) {
    exists i :: 0 <= i < |CandidatesIn(d)| && CandidatesIn(d)[i].id in d.grounds && d.grounds[CandidatesIn(d)[i].id].status == s
  }

  lemma UndecidedUnlessHad(w: World, o: Oracle, s: GroundStatus, i: nat)
    requires !Composed(w.data.events) && Terminal(s) && !HadAlready(w.data, s) && i < |CandidatesIn(w.data)|
    ensures var after := Play(w, Plan(w.data, o)).world.data;
            var g := CandidatesIn(w.data)[i].id;
            g in after.grounds && after.grounds[g].status == s ==> Undecided(w.data, g)
  {
    CompletedIsTerminal(w, o);
    CandidateBlocks(w.data, o);
    var g := CandidatesIn(w.data)[i].id;
    assert g in w.data.grounds ==> w.data.grounds[g].status != s;
  }

  lemma HadIsLeftOut(w: World, o: Oracle, s: GroundStatus)
    requires !Composed(w.data.events) && Terminal(s) && HadAlready(w.data, s)
    ensures var after := Play(w, Plan(w.data, o)).world.data;
            Ended(CandidatesIn(w.data), w.data, after, s) != Reading(CandidatesIn(w.data), after, s)
  {
    var d, cs := w.data, CandidatesIn(w.data);
    var after := Play(w, Plan(d, o)).world.data;
    var i :| 0 <= i < |cs| && cs[i].id in d.grounds && d.grounds[cs[i].id].status == s;
    CompletedIsTerminal(w, o);
    ReadingHas(cs, after, s, i);
    EndedWithin(cs, d, after, s);
  }

  /** The numbered submission is the list of all supported candidates exactly when none was
      supported before the run started: a resumed run leaves the earlier ones out. */
  lemma SubmissionIsCompleteIff(w: World, o: Oracle)
    requires !Composed(w.data.events)
    ensures var after := Play(w, Plan(w.data, o)).world.data;
            var cs := CandidatesIn(w.data);
            Ended(cs, w.data, after, Supported) == Reading(cs, after, Supported) <==> !HadAlready(w.data, Supported)
  {
    var cs, after := CandidatesIn(w.data), Play(w, Plan(w.data, o)).world.data;
    if HadAlready(w.data, Supported) {
      HadIsLeftOut(w, o, Supported);
    } else {
      forall i | 0 <= i < |cs| && cs[i].id in after.grounds && after.grounds[cs[i].id].status == Supported
        ensures Undecided(w.data, cs[i].id)
      {
        UndecidedUnlessHad(w, o, Supported, i);
      }
      EndedIsReading(cs, w.data, after, Supported);
    }
  }

  // ---------------------------------------------------------------- each candidate once

  function CandidateIds(cs: seq<GroundIntake>): seq<GroundId> {
    if cs == [] then [] else CandidateIds(cs[..|cs| - 1]) + [cs[|cs| - 1].id]
  }

  lemma OneMoreId(ids: seq<GroundId>, g: GroundId)
    ensures multiset(ids + [g]) == multiset(ids) + multiset{g}
  {}

  /** What one more candidate adds to the three lists together. */
  lemma EndedOneMore(cs: seq<GroundIntake>, before: CaseData, after: CaseData)
    requires cs != []
    requires var g := cs[|cs| - 1].id; Undecided(before, g) && g in after.grounds && Terminal(after.grounds[g].status)
    ensures var init, g := cs[..|cs| - 1], cs[|cs| - 1].id;
            forall s :: s == Supported || s == Refused || s == Flagged ==>
              Ended(cs, before, after, s) == Ended(init, before, after, s) + (if after.grounds[g].status == s then [g] else [])
  {}

  lemma {:induction false} EndedPartition(cs: seq<GroundIntake>, before: CaseData, after: CaseData)
    requires forall i :: 0 <= i < |cs| ==>
               Undecided(before, cs[i].id) && cs[i].id in after.grounds && Terminal(after.grounds[cs[i].id].status)
    ensures multiset(Ended(cs, before, after, Supported)) + multiset(Ended(cs, before, after, Refused))
            + multiset(Ended(cs, before, after, Flagged)) == multiset(CandidateIds(cs))
  {
    if cs != [] {
      var init, g := cs[..|cs| - 1], cs[|cs| - 1].id;
      assert forall i :: 0 <= i < |init| ==> init[i] == cs[i];
      EndedPartition(init, before, after);
      EndedOneMore(cs, before, after);
      OneMoreId(Ended(init, before, after, after.grounds[g].status), g);
      OneMoreId(CandidateIds(init), g);
    }
  }

  /** Started with no candidate decided, the three lists together hold every candidate once. */
  lemma EachCandidateOnce(w: World, o: Oracle, package: Result<Package, ComposeError>)
    requires !Composed(w.data.events)
    requires forall i :: 0 <= i < |CandidatesIn(w.data)| ==> Undecided(w.data, CandidatesIn(w.data)[i].id)
    requires Renders(package, Decisions(w.data, o), CarriedOver(w.data, o, CandidatesIn(w.data)).content)
    ensures package.Ok?
            && multiset(EntryIds(package.value.submission)) + multiset(Ids(package.value.refused))
               + multiset(Ids(package.value.flagged)) == multiset(CandidateIds(CandidatesIn(w.data)))
  {
    DocumentsConserve(w, o, package);
    CompletedIsTerminal(w, o);
    EndedPartition(CandidatesIn(w.data), w.data, Play(w, Plan(w.data, o)).world.data);
  }
}
