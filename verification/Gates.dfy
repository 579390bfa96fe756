/** The hard refusal layer: statutory relevance, then citations, with a breaker that
    turns repeated citation failures into a flag. */
module Gates {
  import opened Wrappers
  import opened Breakers
  import opened CaseStores
  import opened Dossiers

  // ---------------------------------------------------------------- relevance

  /** The five heads of s4.15(1), by paragraph. */
  const PLANNING_HEADS: map<string, char> := map[
    "epi_dcp_provisions" := 'a',
    "environmental_and_social_impacts" := 'b',
    "site_suitability" := 'c',
    "public_submissions" := 'd',
    "public_interest" := 'e'
  ]

  const NON_PLANNING_GROUNDS: set<string> := {
    "property_value", "private_view_loss", "commercial_competition",
    "applicant_personal_circumstances", "neighbourhood_character_no_control_hook"
  }

  datatype Basis = Head(paragraph: char) | NotListed | Unrecognised

  datatype Ruling = Ruling(category: string, relevant: bool, basis: Basis)

  function ClassifyRelevance(category: string): Ruling {
    if category in PLANNING_HEADS then Ruling(category, true, Head(PLANNING_HEADS[category]))
    else if category in NON_PLANNING_GROUNDS then Ruling(category, false, NotListed)
    else Ruling(category, false, Unrecognised)
  }

  /** Relevant means one of the five heads, cited by its own paragraph; the two lists do
      not meet, and a category on neither is refused. */
  lemma RelevantIffAHead(category: string)
    ensures ClassifyRelevance(category).relevant <==> category in PLANNING_HEADS
    ensures ClassifyRelevance(category).category == category
    ensures category in NON_PLANNING_GROUNDS ==> ClassifyRelevance(category).basis == NotListed
    ensures ClassifyRelevance(category).relevant <==> ClassifyRelevance(category).basis.Head?
  {
    assert PLANNING_HEADS.Keys !! NON_PLANNING_GROUNDS;
  }

  // ---------------------------------------------------------------- citations

  datatype Citation = Citation(
    doc: string, page: int, box: Option<BBox>, control: Option<ControlName>, quoted: Option<string>)

  datatype CandidateGround = CandidateGround(id: GroundId, category: string, citations: seq<Citation>)

  datatype Issue =
    | NoCitations
    | MissingDocument(doc: string)
    | PageOutOfRange(doc: string, page: int)
    | BoxOutside(doc: string, page: int)
    | MissingControl(name: ControlName)
    | ValueMismatch(name: ControlName, quoted: Option<string>, actual: string)
    | CourtDidNotSupport

  predicate InPage(b: BBox, doc: CaseDocument) {
    0.0 <= b.x0 < b.x1 <= doc.width && 0.0 <= b.y0 < b.y1 <= doc.height
  }

  /** A citation resolves: its document exists, its page is in range, its box is on the
      page, and a control it names has the value it quotes. */
  predicate Resolves(c: Citation, d: GateDossier) {
    && c.doc in d.documents
    && 1 <= c.page <= d.documents[c.doc].pageCount
    && (c.box.Some? ==> InPage(c.box.value, d.documents[c.doc]))
    && (c.control.Some? ==> c.control.value in d.controls && c.quoted == Some(d.controls[c.control.value]))
  }

  function IssuesOf(c: Citation, d: GateDossier): seq<Issue> {
    if c.doc !in d.documents then [MissingDocument(c.doc)]
    else
      var doc := d.documents[c.doc];
      (if 1 <= c.page <= doc.pageCount then [] else [PageOutOfRange(c.doc, c.page)])
      + (if c.box.Some? && !InPage(c.box.value, doc) then [BoxOutside(c.doc, c.page)] else [])
      + (if c.control.None? then []
         else if c.control.value !in d.controls then [MissingControl(c.control.value)]
         else if c.quoted != Some(d.controls[c.control.value])
         then [ValueMismatch(c.control.value, c.quoted, d.controls[c.control.value])]
         else [])
  }

  function AllIssues(citations: seq<Citation>, d: GateDossier): seq<Issue> {
    if citations == [] then []
    else AllIssues(citations[..|citations| - 1], d) + IssuesOf(citations[|citations| - 1], d)
  }

  function CitationIssues(ground: CandidateGround, d: GateDossier): seq<Issue> {
    if ground.citations == [] then [NoCitations] else AllIssues(ground.citations, d)
  }

  /** Every complaint about one citation; a missing document ends the matter. */
  method Inspect(c: Citation, d: GateDossier) returns (found: seq<Issue>)
    ensures found == IssuesOf(c, d)
  {
    if c.doc !in d.documents {
      return [MissingDocument(c.doc)];
    }
    var doc := d.documents[c.doc];
    found := [];
    if !(1 <= c.page <= doc.pageCount) {
      found := found + [PageOutOfRange(c.doc, c.page)];
    }
    if c.box.Some? && !InPage(c.box.value, doc) {
      found := found + [BoxOutside(c.doc, c.page)];
    }
    if c.control.Some? {
      if c.control.value !in d.controls {
        found := found + [MissingControl(c.control.value)];
      } else if c.quoted != Some(d.controls[c.control.value]) {
        found := found + [ValueMismatch(c.control.value, c.quoted, d.controls[c.control.value])];
      }
    }
  }

  method CheckCitations(ground: CandidateGround, d: GateDossier) returns (issues: seq<Issue>)
    ensures issues == CitationIssues(ground, d)
  {
    if ground.citations == [] {
      return [NoCitations];
    }
    issues := [];
    var i := 0;
    while i < |ground.citations|
      invariant 0 <= i <= |ground.citations| && issues == AllIssues(ground.citations[..i], d)
    {
      assert ground.citations[..i + 1][..i] == ground.citations[..i];
      var found := Inspect(ground.citations[i], d);
      issues := issues + found;
      i := i + 1;
    }
    assert ground.citations[..i] == ground.citations;
  }

  lemma {:induction false} NoIssuesIff(citations: seq<Citation>, d: GateDossier)
    ensures AllIssues(citations, d) == [] <==> forall i :: 0 <= i < |citations| ==> Resolves(citations[i], d)
  {
    if citations != [] {
      var n := |citations| - 1;
      NoIssuesIff(citations[..n], d);
      assert IssuesOf(citations[n], d) == [] <==> Resolves(citations[n], d);
      assert forall i :: 0 <= i < n ==> citations[..n][i] == citations[i];
    }
  }

  /** The list of reasons is empty exactly when something is cited and all of it resolves. */
  lemma SubstantiatedIff(ground: CandidateGround, d: GateDossier)
    ensures CitationIssues(ground, d) == [] <==>
            ground.citations != [] && forall i :: 0 <= i < |ground.citations| ==> Resolves(ground.citations[i], d)
  {
    NoIssuesIff(ground.citations, d);
  }

  /** What may be said against one citation. */
  predicate Faults(c: Citation, d: GateDossier, issue: Issue) {
    match issue
    case MissingDocument(doc) => doc == c.doc && c.doc !in d.documents
    case PageOutOfRange(doc, page) =>
      doc == c.doc && page == c.page && c.doc in d.documents && !(1 <= c.page <= d.documents[c.doc].pageCount)
    case BoxOutside(doc, page) =>
      doc == c.doc && page == c.page && c.doc in d.documents && c.box.Some? && !InPage(c.box.value, d.documents[c.doc])
    case MissingControl(name) => c.doc in d.documents && c.control == Some(name) && name !in d.controls
    case ValueMismatch(name, quoted, actual) =>
      c.doc in d.documents && c.control == Some(name) && name in d.controls
      && quoted == c.quoted != Some(actual) && actual == d.controls[name]
    case _ => false
  }

  predicate SomeFaults(citations: seq<Citation>, d: GateDossier, issue: Issue) {
    exists i :: 0 <= i < |citations| && Faults(citations[i], d, issue)
  }

  lemma FaultsGrow(init: seq<Citation>, last: Citation, d: GateDossier, issue: Issue)
    ensures SomeFaults(init + [last], d, issue) <==> SomeFaults(init, d, issue) || Faults(last, d, issue)
  {
    var all := init + [last];
    if SomeFaults(init, d, issue) {
      var i :| 0 <= i < |init| && Faults(init[i], d, issue);
      assert all[i] == init[i];
    }
    assert all[|init|] == last;
  }

  lemma OneFaults(c: Citation, d: GateDossier, issue: Issue)
    ensures issue in IssuesOf(c, d) <==> Faults(c, d, issue)
  {}

  /** Every issue listed is what some citation suffers from, and no fault goes unlisted. */
  lemma {:induction false} IssuesAre(citations: seq<Citation>, d: GateDossier, issue: Issue)
    ensures issue in AllIssues(citations, d) <==> SomeFaults(citations, d, issue)
  {
    if citations != [] {
      var init, last := citations[..|citations| - 1], citations[|citations| - 1];
      IssuesAre(init, d, issue);
      assert citations == init + [last];
      FaultsGrow(init, last, d, issue);
      OneFaults(last, d, issue);
    }
  }

  // ---------------------------------------------------------------- the decision

  datatype GateDecision = GateDecision(
    id: GroundId, status: GateStatus, category: string, basis: Basis, issues: seq<Issue>)

  /** Clock readings of one validation: two inside the failure report, one after it. */
  datatype Times = Times(probedAt: real, stampedAt: real, readAt: real)

  /** The decision when the caller's breaker, if there is one, holds `f` on entry. */
  function Decide(ground: CandidateGround, d: GateDossier, f: Option<Fields>, s: Settings, t: Times): GateDecision {
    var ruling := ClassifyRelevance(ground.category);
    var issues := CitationIssues(ground, d);
    if !ruling.relevant then GateDecision(ground.id, RefusedIrrelevant, ground.category, ruling.basis, [])
    else if issues == [] then GateDecision(ground.id, Shipped, ground.category, ruling.basis, [])
    else
      var tripped := f.Some? && StateAt(AfterFailure(f.value, s, t.probedAt, t.stampedAt), s.timeout, t.readAt) == Open;
      GateDecision(ground.id, if tripped then FlaggedForReview else RefusedUnsubstantiated,
                   ground.category, ruling.basis, issues)
  }

  /** A decision, told apart: irrelevance is for categories that are no head, and only for
      them; a head is cited by its paragraph; the issues are the faults of a relevant
      ground's citations, or that it has none. */
  lemma DecidedAs(ground: CandidateGround, d: GateDossier, f: Option<Fields>, s: Settings, t: Times)
    ensures var x := Decide(ground, d, f, s, t);
            var head := ground.category in PLANNING_HEADS;
            x.id == ground.id && x.category == ground.category
            && (x.status == RefusedIrrelevant <==> !head)
            && (x.status == Shipped <==>
                  head && ground.citations != [] && forall i :: 0 <= i < |ground.citations| ==> Resolves(ground.citations[i], d))
            && x.basis == (if head then Head(PLANNING_HEADS[ground.category])
                           else if ground.category in NON_PLANNING_GROUNDS then NotListed else Unrecognised)
            && forall issue :: issue in x.issues <==>
                 head && if ground.citations == [] then issue == NoCitations else SomeFaults(ground.citations, d, issue)
  {
    SubstantiatedIff(ground, d);
    RelevantIffAHead(ground.category);
    forall issue ensures issue in AllIssues(ground.citations, d) <==> SomeFaults(ground.citations, d, issue) {
      IssuesAre(ground.citations, d, issue);
    }
  }

  /** What the validation reports to the breaker. */
  function Reported(ground: CandidateGround, d: GateDossier, t: Times): Option<Outcome> {
    if !ClassifyRelevance(ground.category).relevant then None
    else if CitationIssues(ground, d) == [] then Some(Success)
    else Some(Failure(t.probedAt, t.stampedAt))
  }

  function BreakerAfter(f: Fields, s: Settings, report: Option<Outcome>): Fields {
    if report.None? then f else AfterOutcome(f, s, report.value)
  }

  method ValidateGround(ground: CandidateGround, d: GateDossier, breaker: CircuitBreaker?, t: Times)
    returns (decision: GateDecision)
    modifies breaker
    ensures breaker == null ==> decision == Decide(ground, d, None, Settings(0, 0.0), t)
    ensures breaker != null ==>
              decision == Decide(ground, d, Some(old(breaker.View())), breaker.settings, t)
              && breaker.View() == BreakerAfter(old(breaker.View()), breaker.settings, Reported(ground, d, t))
  {
    var ruling := ClassifyRelevance(ground.category);
    if !ruling.relevant {
      return GateDecision(ground.id, RefusedIrrelevant, ruling.category, ruling.basis, []);
    }
    var issues := CheckCitations(ground, d);
    if issues == [] {
      if breaker != null {
        breaker.RecordSuccess();
      }
      return GateDecision(ground.id, Shipped, ruling.category, ruling.basis, []);
    }
    var status := RefusedUnsubstantiated;
    if breaker != null {
      breaker.RecordFailure(t.probedAt, t.stampedAt);
      var open := breaker.IsOpen(t.readAt);
      status := if open then FlaggedForReview else RefusedUnsubstantiated;
    }
    return GateDecision(ground.id, status, ruling.category, ruling.basis, issues);
  }

  // ---------------------------------------------------------------- escalation

  datatype Check = Check(ground: CandidateGround, dossier: GateDossier, times: Times)

  /** What a shared breaker hears of a run of validations. */
  function Heard(checks: seq<Check>): seq<Outcome> {
    if checks == [] then []
    else
      var last := checks[|checks| - 1];
      var report := Reported(last.ground, last.dossier, last.times);
      Heard(checks[..|checks| - 1]) + (if report.Some? then [report.value] else [])
  }

  function SharedBreaker(s: Settings, checks: seq<Check>): Fields {
    if checks == [] then FRESH
    else
      var last := checks[|checks| - 1];
      BreakerAfter(SharedBreaker(s, checks[..|checks| - 1]), s, Reported(last.ground, last.dossier, last.times))
  }

  lemma {:induction false} SharedBreakerHears(s: Settings, checks: seq<Check>)
    ensures SharedBreaker(s, checks) == AfterAll(s, Heard(checks))
  {
    if checks != [] {
      var init := checks[..|checks| - 1];
      SharedBreakerHears(s, init);
      var h := Heard(checks);
      if h != Heard(init) {
        assert h[..|h| - 1] == Heard(init);
      } else {
        assert Heard(init) + [] == Heard(init);
      }
    }
  }

  /** With one breaker shared by any run of validations, the last is flagged exactly when
      it is a relevant ground with a citation failure, the failures since the last ground
      that shipped reach the threshold, and the cooldown is not over by the time the state
      is read. Irrelevant grounds are not heard of at all. */
  lemma FlaggedExactly(s: Settings, checks: seq<Check>, last: Check)
    ensures var before := SharedBreaker(s, checks);
            Decide(last.ground, last.dossier, Some(before), s, last.times).status == FlaggedForReview <==>
              ClassifyRelevance(last.ground.category).relevant
              && CitationIssues(last.ground, last.dossier) != []
              && TrailingFailures(Heard(checks + [last])) >= Max(1, s.threshold)
              && last.times.readAt - last.times.stampedAt < s.timeout
  {
    SharedBreakerHears(s, checks);
    var t := last.times;
    var report := Reported(last.ground, last.dossier, t);
    assert (checks + [last])[..|checks|] == checks;
    if report == Some(Failure(t.probedAt, t.stampedAt)) {
      var h := Heard(checks) + [Failure(t.probedAt, t.stampedAt)];
      assert h[..|h| - 1] == Heard(checks);
      ClosedForm(s, h, t.readAt);
      assert AfterAll(s, h) == AfterFailure(SharedBreaker(s, checks), s, t.probedAt, t.stampedAt);
      assert Heard(checks + [last]) == h;
    }
  }

  /** Within one tick of the clock and a positive timeout: refused below the threshold,
      flagged from it on. */
  lemma EscalatesAtThreshold(s: Settings, checks: seq<Check>, last: Check)
    requires s.timeout > 0.0 && last.times.readAt == last.times.stampedAt
    requires Reported(last.ground, last.dossier, last.times).Some?
    ensures var status := Decide(last.ground, last.dossier, Some(SharedBreaker(s, checks)), s, last.times).status;
            status == (if CitationIssues(last.ground, last.dossier) == [] then Shipped
                       else if TrailingFailures(Heard(checks)) + 1 >= s.threshold then FlaggedForReview
                       else RefusedUnsubstantiated)
  {
    FlaggedExactly(s, checks, last);
    assert (checks + [last])[..|checks|] == checks;
    var h := Heard(checks + [last]);
    assert h[..|h| - 1] == Heard(checks);
  }
}
