/** What each numbered ground of a run's submission prints. */
module RunDocuments {
  import opened Wrappers
  import opened CaseStores
  import opened Dossiers
  import opened Courts
  import opened Gates
  import opened Intake
  import opened Findings
  import opened Composers
  import opened Pipeline
  import opened PipelineLaws
  import opened OutcomeLaws
  import opened Conservation

  // ---------------------------------------------------------------- the content of a ground

  /** The document a reference leads to, and the page of it that is named. */
  function DocumentFor(r: Ref, d: CaseDossier): (string, int)
    requires Citable(r, d)
  {
    if r.Evidence? then (d.anchors.at[r.anchor].sourceDoc, d.anchors.at[r.anchor].page) else (d.documents.keys[0], 1)
  }

  lemma CitationNames(r: Ref, d: CaseDossier)
    requires Citable(r, d)
    ensures CitationFor(r, d).Some?
    ensures (CitationFor(r, d).value.doc, CitationFor(r, d).value.page) == DocumentFor(r, d)
  {
    CitationIs(r, d);
  }

  /** A content names this document by its title, this page, and the overlay if the document
      is the one drawn on. */
  ghost predicate Refers(o: Oracle, content: GroundContent, doc: string, page: int) {
    && doc in o.dossier.documents.at
    && content.title == o.dossier.documents.at[doc].title && content.page == page
    && content.annotated == (if o.overlay == Some(doc) then Some(doc + " (grounded overlay)") else None)
  }

  /** The candidate's own claim, and the document and page of the first reference that counts
      in its hearing and can be cited. */
  ghost predicate Tells(o: Oracle, c: GroundIntake, content: GroundContent) {
    var refs := Weighed(o.hearings(c.id), o.dossier);
    && content.statement == c.claim
    && exists j: nat :: FirstCitable(refs, o.dossier, j)
                        && Refers(o, content, DocumentFor(refs[j], o.dossier).0, DocumentFor(refs[j], o.dossier).1)
  }

  lemma HoldsNames(r: Ref, d: CaseDossier)
    requires Citable(r, d) && Holds(r, d)
    ensures DocumentFor(r, d).0 in d.documents.at
  {}

  /** The first citation the gate was given. */
  lemma FirstGiven(o: Oracle, c: GroundIntake, j: nat)
    requires FirstCitable(Weighed(o.hearings(c.id), o.dossier), o.dossier, j)
    ensures var kept := CandidateOf(o, c).citations;
            kept != []
            && (kept[0].doc, kept[0].page) == DocumentFor(Weighed(o.hearings(c.id), o.dossier)[j], o.dossier)
  {
    var h, d := o.hearings(c.id), o.dossier;
    var refs := Weighed(h, d);
    CitedIs(c.id, h, d);
    CitationNames(refs[j], d);
    if Findings.Unanimous(h, d) {
      var i := FirstStays(refs, d, j);
      FirstKept(Dedupe(refs), d, i);
    } else {
      FirstKept(refs, d, j);
    }
  }

  lemma JustifiedIsProven(o: Oracle, c: GroundIntake)
    requires Justified(o, c)
    ensures Proven(Weighed(o.hearings(c.id), o.dossier), o.dossier)
  {}

  lemma ContentTells(o: Oracle, c: GroundIntake)
    requires Justified(o, c)
    ensures Tells(o, c, ContentOf(o, c))
  {
    JustifiedIsProven(o, c);
    var refs := Weighed(o.hearings(c.id), o.dossier);
    var j := ProvenHasFirst(refs, o.dossier);
    FirstGiven(o, c, j);
    HoldsNames(refs[j], o.dossier);
    var named := DocumentFor(refs[j], o.dossier);
    assert Refers(o, ContentOf(o, c), named.0, named.1);
  }

  // ---------------------------------------------------------------- what the run carries

  /** A decision, and the content carried for it, are some undecided candidate's own. */
  ghost predicate OwnedBy(d: CaseData, o: Oracle, c: GroundIntake, x: GateDecision, content: map<GroundId, GroundContent>) {
    && Undecided(d, c.id) && x.id == c.id && x == DecisionOn(d, o, c)
    && (x.status == Shipped ==> c.id in content && content[c.id] == ContentOf(o, c))
  }

  ghost predicate Owned(d: CaseData, o: Oracle, cs: seq<GroundIntake>, x: GateDecision, content: map<GroundId, GroundContent>) {
    exists c :: c in cs && OwnedBy(d, o, c, x, content)
  }

  ghost predicate AllOwned(d: CaseData, o: Oracle, cs: seq<GroundIntake>, k: Carried) {
    forall x :: x in k.decisions ==> Owned(d, o, cs, x, k.content)
  }

  /** Content written for another ground leaves it alone. */
  lemma StillOwned(d: CaseData, o: Oracle, init: seq<GroundIntake>, last: GroundIntake, x: GateDecision,
                   content: map<GroundId, GroundContent>, more: map<GroundId, GroundContent>)
    requires Distinct(init + [last]) && Owned(d, o, init, x, content)
    requires more == content || more == content[last.id := ContentOf(o, last)]
    ensures Owned(d, o, init + [last], x, more)
  {
    var c :| c in init && OwnedBy(d, o, c, x, content);
    var i :| 0 <= i < |init| && init[i] == c;
    assert (init + [last])[i] == c && (init + [last])[|init|] == last;
    assert OwnedBy(d, o, c, x, more);
  }

  lemma NowOwned(d: CaseData, o: Oracle, init: seq<GroundIntake>, last: GroundIntake, content: map<GroundId, GroundContent>)
    requires Undecided(d, last.id)
    requires DecisionOn(d, o, last).status == Shipped ==> last.id in content && content[last.id] == ContentOf(o, last)
    ensures Owned(d, o, init + [last], DecisionOn(d, o, last), content)
  {
    DecisionIsItsOwn(d, o, last);
    assert last in init + [last] && OwnedBy(d, o, last, DecisionOn(d, o, last), content);
  }

  /** One more pass keeps every decision owned. */
  lemma CarryIsOwned(d: CaseData, o: Oracle, init: seq<GroundIntake>, last: GroundIntake, k: Carried)
    requires Distinct(init + [last]) && AllOwned(d, o, init, k)
    ensures AllOwned(d, o, init + [last], Carry(d, o, k, last))
  {
    var after := Carry(d, o, k, last);
    forall x | x in after.decisions ensures Owned(d, o, init + [last], x, after.content) {
      if x in k.decisions {
        StillOwned(d, o, init, last, x, k.content, after.content);
      } else {
        NowOwned(d, o, init, last, after.content);
      }
    }
  }

  lemma {:induction false} CarriedIsOwned(d: CaseData, o: Oracle, cs: seq<GroundIntake>)
    requires Distinct(cs)
    ensures AllOwned(d, o, cs, CarriedOver(d, o, cs))
  {
    if cs != [] {
      var init, last := cs[..|cs| - 1], cs[|cs| - 1];
      assert cs == init + [last];
      CarriedIsOwned(d, o, init);
      CarryIsOwned(d, o, init, last, CarriedOver(d, o, init));
    }
  }

  // ---------------------------------------------------------------- what the submission prints

  /** A numbered ground is some candidate's: its id, its statutory paragraph, its claim as
      stored, and the document and page its first reference leads to. */
  ghost predicate PrintsCandidate(d: CaseData, o: Oracle, entry: Entry, c: GroundIntake) {
    && c in CandidatesIn(d) && c.id == entry.id && Undecided(d, c.id) && Justified(o, c)
    && entry.basis == Head(PLANNING_HEADS[c.category])
    && c.id in d.grounds && c.claim == d.grounds[c.id].claim && Tells(o, c, entry.content)
  }

  lemma DecisionBasis(d: CaseData, o: Oracle, c: GroundIntake)
    requires c.category in PLANNING_HEADS
    ensures DecisionOn(d, o, c).basis == Head(PLANNING_HEADS[c.category])
  {}

  lemma ShippedIsJustified(d: CaseData, o: Oracle, c: GroundIntake)
    ensures DecisionOn(d, o, c).status == Shipped <==> Justified(o, c)
  {
    SupportedIffJustified(d, o, c);
  }

  lemma EntryPrints(d: CaseData, o: Oracle, x: GateDecision, i: nat, entry: Entry) returns (c: GroundIntake)
    requires x in Decisions(d, o) && x.status == Shipped
    requires Prints(entry, i, x, CarriedOver(d, o, CandidatesIn(d)).content)
    ensures PrintsCandidate(d, o, entry, c)
  {
    var cs := CandidatesIn(d);
    CandidatesAre(d.events, d.grounds);
    CarriedIsOwned(d, o, cs);
    assert Owned(d, o, cs, x, CarriedOver(d, o, cs).content);
    c :| c in cs && OwnedBy(d, o, c, x, CarriedOver(d, o, cs).content);
    var j :| 0 <= j < |cs| && cs[j] == c;
    ShippedIsJustified(d, o, c);
    DecisionBasis(d, o, c);
    ContentTells(o, c);
  }

  /** The documents of a run print, under every number, that number's own candidate. */
  lemma DocumentsPrint(d: CaseData, o: Oracle, package: Result<Package, ComposeError>, i: nat) returns (c: GroundIntake)
    requires Renders(package, Decisions(d, o), CarriedOver(d, o, CandidatesIn(d)).content)
    requires package.Ok? && i < |package.value.submission|
    ensures package.value.submission[i].index == i + 1
    ensures PrintsCandidate(d, o, package.value.submission[i], c)
  {
    var shipped := ShippedOnes(Decisions(d, o));
    ShippedAre(Decisions(d, o));
    assert shipped[i] in shipped;
    assert Prints(package.value.submission[i], i, shipped[i], CarriedOver(d, o, CandidatesIn(d)).content);
    c := EntryPrints(d, o, shipped[i], i, package.value.submission[i]);
  }

  // ---------------------------------------------------------------- what the explainer prints

  lemma {:induction false} SectionAre(decisions: seq<GateDecision>, flagged: bool)
    ensures forall x :: x in Section(decisions, flagged) <==> x in decisions && (x.status == FlaggedForReview) == flagged
  {
    if decisions != [] {
      assert decisions == decisions[..|decisions| - 1] + [decisions[|decisions| - 1]];
      SectionAre(decisions[..|decisions| - 1], flagged);
    }
  }

  lemma {:induction false} UnshippedAre(decisions: seq<GateDecision>)
    ensures forall x :: x in Unshipped(decisions) <==> x in decisions && x.status != Shipped
  {
    if decisions != [] {
      assert decisions == decisions[..|decisions| - 1] + [decisions[|decisions| - 1]];
      UnshippedAre(decisions[..|decisions| - 1]);
    }
  }

  /** A fault of some reference that counts in the hearing and can be cited. */
  ghost predicate FaultIn(refs: seq<Ref>, d: CaseDossier, issue: Issue) {
    exists r :: r in refs && Citable(r, d) && CitationFor(r, d).Some? && Faults(CitationFor(r, d).value, ToGate(d), issue)
  }

  /** What is said against a candidate that does not ship: nothing but its category if that is
      no head; the court's lack of support; that nothing can be cited; or every fault of what is. */
  ghost predicate SaidAgainst(o: Oracle, c: GroundIntake, issue: Issue) {
    var h, d := o.hearings(c.id), o.dossier;
    && c.category in PLANNING_HEADS
    && if !Supports(h, d) then issue == CourtDidNotSupport
       else if !exists r :: r in Weighed(h, d) && Citable(r, d) then issue == NoCitations
       else FaultIn(Weighed(h, d), d, issue)
  }

  lemma KeptFaults(refs: seq<Ref>, d: CaseDossier, issue: Issue)
    ensures SomeFaults(Kept(refs, d), ToGate(d), issue) <==> FaultIn(refs, d, issue)
    ensures Kept(refs, d) == [] <==> !exists r :: r in refs && Citable(r, d)
  {
    KeptAre(refs, d);
    var kept := Kept(refs, d);
    forall r | r in refs ensures Citable(r, d) ==> CitationFor(r, d).Some? && CitationFor(r, d).value in kept {
      CitationIs(r, d);
      var j :| 0 <= j < |refs| && refs[j] == r;
      assert CitationFor(r, d).Some? ==> CitedBy(refs, d, CitationFor(r, d).value);
    }
    if SomeFaults(kept, ToGate(d), issue) {
      var i :| 0 <= i < |kept| && Faults(kept[i], ToGate(d), issue);
      var r := Source(refs, d, kept[i]);
    }
    if kept != [] {
      var r := Source(refs, d, kept[0]);
    }
  }

  lemma Source(refs: seq<Ref>, d: CaseDossier, c: Citation) returns (r: Ref)
    requires c in Kept(refs, d)
    ensures r in refs && Citable(r, d) && CitationFor(r, d) == Some(c)
  {
    KeptAre(refs, d);
    assert CitedBy(refs, d, c);
    var j :| 0 <= j < |refs| && CitationFor(refs[j], d) == Some(c);
    r := refs[j];
    CitationIs(r, d);
  }

  lemma SameFaults(refs: seq<Ref>, same: seq<Ref>, d: CaseDossier, issue: Issue)
    requires forall r :: r in refs <==> r in same
    ensures FaultIn(refs, d, issue) <==> FaultIn(same, d, issue)
    ensures (exists r :: r in refs && Citable(r, d)) <==> (exists r :: r in same && Citable(r, d))
  {}

  lemma IssuesSay(d: CaseData, o: Oracle, c: GroundIntake, issue: Issue)
    requires DecisionOn(d, o, c).status != Shipped
    ensures issue in DecisionOn(d, o, c).issues <==> SaidAgainst(o, c, issue)
  {
    var h, dossier := o.hearings(c.id), o.dossier;
    SupportsIs(c.id, h, dossier);
    RelevantIffAHead(c.category);
    if !CourtRejects(o, c) {
      DecidedAs(CandidateOf(o, c), ToGate(dossier), Some(BreakerFields(d, o, c.id)), BreakerSettings(d, c.id), o.times(c.id));
      CitedIs(c.id, h, dossier);
      KeptFaults(VerdictOn(o, c).cited, dossier, issue);
      SameFaults(VerdictOn(o, c).cited, Weighed(h, dossier), dossier, issue);
    }
  }

  /** A line of the explainer is some candidate's: its id and category, the basis of that, and
      everything said against it. */
  ghost predicate Explains(d: CaseData, o: Oracle, x: GateDecision, c: GroundIntake) {
    && c in CandidatesIn(d) && c.id == x.id && Undecided(d, c.id) && x.category == c.category
    && x.basis == (if c.category in PLANNING_HEADS then Head(PLANNING_HEADS[c.category])
                   else if c.category in NON_PLANNING_GROUNDS then NotListed else Unrecognised)
    && (x.status == FlaggedForReview <==> ForReview(d, o, c))
    && forall issue :: issue in x.issues <==> SaidAgainst(o, c, issue)
  }

  lemma DecisionSays(d: CaseData, o: Oracle, c: GroundIntake)
    ensures var x := DecisionOn(d, o, c);
            x.id == c.id && x.category == c.category
            && x.basis == (if c.category in PLANNING_HEADS then Head(PLANNING_HEADS[c.category])
                           else if c.category in NON_PLANNING_GROUNDS then NotListed else Unrecognised)
            && (x.status == FlaggedForReview <==> EndStatus(d, o, c) == Flagged)
  {}

  /** The explainer of a run prints, in either section, each ground's own category, basis and
      issues. */
  lemma ExplainerPrints(d: CaseData, o: Oracle, package: Result<Package, ComposeError>, x: GateDecision) returns (c: GroundIntake)
    requires Renders(package, Decisions(d, o), CarriedOver(d, o, CandidatesIn(d)).content)
    requires package.Ok? && (x in package.value.refused || x in package.value.flagged)
    ensures Explains(d, o, x, c)
    ensures x in package.value.flagged <==> ForReview(d, o, c)
  {
    var cs, decisions := CandidatesIn(d), Decisions(d, o);
    UnshippedAre(decisions);
    SectionAre(Unshipped(decisions), false);
    SectionAre(Unshipped(decisions), true);
    CandidatesAre(d.events, d.grounds);
    CarriedIsOwned(d, o, cs);
    assert Owned(d, o, cs, x, CarriedOver(d, o, cs).content);
    c :| c in cs && OwnedBy(d, o, c, x, CarriedOver(d, o, cs).content);
    DecisionSays(d, o, c);
    FlaggedIffForReview(d, o, c);
    forall issue { IssuesSay(d, o, c, issue); }
  }
}
