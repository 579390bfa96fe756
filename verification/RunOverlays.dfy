/** What the overlay of a run shows, against the hearings it held and the statuses it leaves. */
module RunOverlays {
  import opened Wrappers
  import opened CaseStores
  import opened Dossiers
  import opened Courts
  import opened Gates
  import opened Intake
  import opened Findings
  import P = Propagation
  import opened Pipeline
  import opened PipelineLaws
  import opened Conservation
  import opened OverlayBoxes

  // ---------------------------------------------------------------- who cited each page

  function GroundsAt(pages: P.PageLevel, id: AnchorId): seq<GroundId> { if id in pages then pages[id] else [] }

  predicate PageCited(refs: seq<Ref>, d: CaseDossier, id: AnchorId) {
    Evidence(id) in refs && id in d.anchors.at && d.anchors.at[id].box.None?
  }

  lemma {:induction false} CitePagesAre(pages: P.PageLevel, refs: seq<Ref>, g: GroundId, d: CaseDossier, id: AnchorId, h: GroundId)
    ensures h in GroundsAt(CitePages(pages, refs, g, d), id) <==>
            h in GroundsAt(pages, id) || (h == g && PageCited(refs, d, id))
  {
    if refs != [] {
      var init, last := refs[..|refs| - 1], refs[|refs| - 1];
      assert refs == init + [last];
      CitePagesAre(pages, init, g, d, id, h);
    }
  }

  /** An undecided candidate in whose hearing the page as a whole counts. */
  predicate CitesPage(d: CaseData, o: Oracle, c: GroundIntake, id: AnchorId) {
    Undecided(d, c.id) && PageCited(Weighed(o.hearings(c.id), o.dossier), o.dossier, id)
  }

  ghost predicate SomeCitePage(d: CaseData, o: Oracle, cs: seq<GroundIntake>, id: AnchorId, g: GroundId) {
    exists c :: c in cs && c.id == g && CitesPage(d, o, c, id)
  }

  /** The grounds a run remembers for a page are those of all the undecided candidates in
      whose hearings it counted. */
  lemma {:induction false} PagesAre(d: CaseData, o: Oracle, cs: seq<GroundIntake>, id: AnchorId, g: GroundId)
    ensures g in GroundsAt(CarriedOver(d, o, cs).pages, id) <==> SomeCitePage(d, o, cs, id, g)
  {
    if cs != [] {
      var init, last := cs[..|cs| - 1], cs[|cs| - 1];
      assert cs == init + [last];
      PagesAre(d, o, init, id, g);
      CitedIs(last.id, o.hearings(last.id), o.dossier);
      CitePagesAre(CarriedOver(d, o, init).pages, VerdictOn(o, last).cited, last.id, o.dossier, id, g);
    }
  }

  // ---------------------------------------------------------------- who cited what last

  lemma {:induction false} CiteAllIs(cited: P.Cited, refs: seq<Ref>, g: GroundId, ref: Ref)
    ensures var after := CiteAll(cited, refs, g);
            (ref in after <==> ref in refs || ref in cited)
            && (ref in after ==> after[ref] == if ref in refs then g else cited[ref])
  {
    if refs != [] {
      assert refs == refs[..|refs| - 1] + [refs[|refs| - 1]];
      CiteAllIs(cited, refs[..|refs| - 1], g, ref);
    }
  }

  predicate Cites(d: CaseData, o: Oracle, c: GroundIntake, ref: Ref) {
    Undecided(d, c.id) && ref in Weighed(o.hearings(c.id), o.dossier)
  }

  /** The last candidate in whose hearing the reference counts. */
  predicate LastToCite(d: CaseData, o: Oracle, cs: seq<GroundIntake>, ref: Ref, i: nat) {
    i < |cs| && Cites(d, o, cs[i], ref) && forall j :: i < j < |cs| ==> !Cites(d, o, cs[j], ref)
  }

  lemma LastGrows(d: CaseData, o: Oracle, init: seq<GroundIntake>, last: GroundIntake, ref: Ref, i: nat)
    ensures LastToCite(d, o, init + [last], ref, i) <==>
            if Cites(d, o, last, ref) then i == |init| else LastToCite(d, o, init, ref, i)
  {
    var cs := init + [last];
    assert forall j :: 0 <= j < |init| ==> cs[j] == init[j];
    assert cs[|init|] == last;
  }

  /** A run remembers, for each reference, the last candidate in whose hearing it counted. */
  lemma {:induction false} CitedAre(d: CaseData, o: Oracle, cs: seq<GroundIntake>, ref: Ref)
    ensures var cited := CarriedOver(d, o, cs).cited;
            (ref in cited <==> exists i: nat :: LastToCite(d, o, cs, ref, i))
            && forall i: nat :: LastToCite(d, o, cs, ref, i) ==> ref in cited && cited[ref] == cs[i].id
  {
    if cs != [] {
      var init, last := cs[..|cs| - 1], cs[|cs| - 1];
      assert cs == init + [last];
      CitedAre(d, o, init, ref);
      CitedIs(last.id, o.hearings(last.id), o.dossier);
      CiteAllIs(CarriedOver(d, o, init).cited, VerdictOn(o, last).cited, last.id, ref);
      forall i: nat { LastGrows(d, o, init, last, ref, i); }
      if Cites(d, o, last, ref) {
        LastGrows(d, o, init, last, ref, |init|);
      }
    }
  }

  // ---------------------------------------------------------------- who was shown what

  /** Every page-level citation is by a ground that was shown the whole evidence. */
  ghost predicate EveryoneSawAll(k: Carried, d: CaseDossier) {
    forall id, g :: g in GroundsAt(k.pages, id) ==> g in k.shown && k.shown[g] == ShownDocuments(d)
  }

  lemma {:induction false} CarriedSawAll(d: CaseData, o: Oracle, cs: seq<GroundIntake>)
    ensures EveryoneSawAll(CarriedOver(d, o, cs), o.dossier)
  {
    if cs != [] {
      CarriedSawAll(d, o, cs[..|cs| - 1]);
      var c, k := cs[|cs| - 1], CarriedOver(d, o, cs[..|cs| - 1]);
      forall id, h ensures h in GroundsAt(CarriedOver(d, o, cs).pages, id) ==> h == c.id || h in GroundsAt(k.pages, id) {
        CitePagesAre(k.pages, VerdictOn(o, c).cited, c.id, o.dossier, id, h);
      }
    }
  }

  lemma {:induction false} AllShown(ids: seq<GroundId>, shown: map<GroundId, set<string>>, doc: string)
    requires forall g :: g in ids ==> P.WasShown(shown, g, doc)
    ensures P.ShownOnly(ids, shown, doc) == ids
  {
    if ids != [] {
      assert ids == ids[..|ids| - 1] + [ids[|ids| - 1]];
      AllShown(ids[..|ids| - 1], shown, doc);
    }
  }

  lemma SameWinner(ids: seq<GroundId>, status: P.Statuses, shown: map<GroundId, set<string>>, docs: set<string>, doc: string)
    requires doc in docs && forall g :: g in ids ==> g in shown && shown[g] == docs
    ensures P.PageWinner(ids, status, Some(shown), doc) == P.MostSevere(ids, status)
  {
    AllShown(ids, shown, doc);
  }

  lemma SameFill(cited: P.Cited, ids: set<AnchorId>, f: AnchorId -> Option<GroundId>, g: AnchorId -> Option<GroundId>)
    requires forall id :: id in ids ==> f(id) == g(id)
    ensures P.Fill(cited, ids, f) == P.Fill(cited, ids, g)
  {}

  lemma SameWithoutShown(anchors: P.Manifest, cited: P.Cited, pages: P.PageLevel, status: P.Statuses,
                         shown: map<GroundId, set<string>>, docs: set<string>)
    requires forall id :: id in anchors && P.Boxed(anchors[id]) ==> anchors[id].sourceDoc in docs
    requires forall id, g :: g in GroundsAt(pages, id) ==> g in shown && shown[g] == docs
    ensures P.Propagated(anchors, cited, pages, status, Some(shown)) == P.Propagated(anchors, cited, pages, status, None)
  {
    var f, g := P.Gain(anchors, cited, pages, status, Some(shown)), P.Gain(anchors, cited, pages, status, None);
    forall id | id in anchors ensures f(id) == g(id) {
      var a := anchors[id];
      var pageId := AnchorId(a.sourceDoc, a.page, None);
      if P.Boxed(a) && pageId in pages {
        assert pages[pageId] == GroundsAt(pages, pageId);
        SameWinner(pages[pageId], status, shown, docs, a.sourceDoc);
      }
    }
    SameFill(cited, anchors.Keys, f, g);
  }

  /** Within a run the preference for grounds that were shown the document decides nothing:
      every ground is shown the same documents, so severity alone picks each page's winner. */
  lemma ShownDecidesNothing(d: CaseData, o: Oracle)
    ensures var k := CarriedOver(d, o, CandidatesIn(d));
            OverlayGrounds(d, o) == P.Propagated(o.dossier.anchors.at, k.cited, k.pages, StatusIn(k.decisions), None)
  {
    var k := CarriedOver(d, o, CandidatesIn(d));
    CarriedSawAll(d, o, CandidatesIn(d));
    SameWithoutShown(o.dossier.anchors.at, k.cited, k.pages, StatusIn(k.decisions), k.shown, ShownDocuments(o.dossier));
  }

  // ---------------------------------------------------------------- what each box shows

  lemma StatusGrows(decisions: seq<GateDecision>, last: GateDecision)
    ensures StatusIn(decisions + [last]) == StatusIn(decisions)[last.id := last.status]
  {
    assert (decisions + [last])[..|decisions|] == decisions;
  }

  lemma OthersDiffer(init: seq<GroundIntake>, last: GroundIntake)
    requires Distinct(init + [last])
    ensures Distinct(init) && !Seen(init, last.id) && forall c :: c in init ==> c.id != last.id
  {
    var cs := init + [last];
    assert forall j :: 0 <= j < |init| ==> cs[j] == init[j];
    assert cs[|init|] == last;
  }

  /** What one decision adds to the statuses. */
  lemma StatusStep(d: CaseData, init: seq<GroundIntake>, last: GroundIntake, status: P.Statuses, ruled: GroundIntake -> GateStatus)
    requires Distinct(init + [last]) && RuledOn(d, init, status, ruled)
    ensures RuledOn(d, init + [last], if Undecided(d, last.id) then status[last.id := ruled(last)] else status, ruled)
  {
    OthersDiffer(init, last);
    SeenAppend(init, last);
  }

  /** Each undecided candidate has its ruling, and nothing else has one. */
  ghost predicate RuledOn(d: CaseData, cs: seq<GroundIntake>, status: P.Statuses, ruled: GroundIntake -> GateStatus) {
    && (forall c :: c in cs && Undecided(d, c.id) ==> c.id in status && status[c.id] == ruled(c))
    && forall g :: g in status ==> Undecided(d, g) && Seen(cs, g)
  }

  /** The statuses a run colours by are those of its own decisions. */
  lemma {:induction false} StatusesAre(d: CaseData, o: Oracle, cs: seq<GroundIntake>, ruled: GroundIntake -> GateStatus)
    requires Distinct(cs) && forall c :: ruled(c) == DecisionOn(d, o, c).status
    ensures RuledOn(d, cs, StatusIn(CarriedOver(d, o, cs).decisions), ruled)
  {
    if cs != [] {
      var init, last := cs[..|cs| - 1], cs[|cs| - 1];
      assert cs == init + [last];
      OthersDiffer(init, last);
      StatusesAre(d, o, init, ruled);
      StatusStep(d, init, last, StatusIn(CarriedOver(d, o, init).decisions), ruled);
      if Undecided(d, last.id) {
        DecisionIsItsOwn(d, o, last);
        StatusGrows(CarriedOver(d, o, init).decisions, DecisionOn(d, o, last));
      }
    }
  }

  function ColourFor(s: GroundStatus): Role {
    match s
    case Supported => SupportsShipped
    case Flagged => NeedsMoreEvidence
    case Refused => AnchorOfRefused
    case _ => Neutral
  }

  /** Some candidate in whose hearing the page counts ends as `s`. */
  ghost predicate PageEnds(d: CaseData, o: Oracle, id: AnchorId, s: GroundStatus) {
    exists c :: c in CandidatesIn(d) && CitesPage(d, o, c, id) && EndStatus(d, o, c) == s
  }

  ghost predicate PageCounts(d: CaseData, o: Oracle, id: AnchorId) {
    exists c :: c in CandidatesIn(d) && CitesPage(d, o, c, id)
  }

  lemma CandidatesRuled(d: CaseData, o: Oracle)
    ensures RuledOn(d, CandidatesIn(d), StatusIn(CarriedOver(d, o, CandidatesIn(d)).decisions), c => DecisionOn(d, o, c).status)
  {
    CandidatesAre(d.events, d.grounds);
    StatusesAre(d, o, CandidatesIn(d), c => DecisionOn(d, o, c).status);
  }

  lemma CiterTold(d: CaseData, o: Oracle, id: AnchorId, c: GroundIntake)
    requires c in CandidatesIn(d) && CitesPage(d, o, c, id)
    ensures var k := CarriedOver(d, o, CandidatesIn(d));
            var status := StatusIn(k.decisions);
            c.id in GroundsAt(k.pages, id) && c.id in status && GroundStatusFor(status[c.id]) == EndStatus(d, o, c)
  {
    CandidatesRuled(d, o);
    assert SomeCitePage(d, o, CandidatesIn(d), id, c.id);
    PagesAre(d, o, CandidatesIn(d), id, c.id);
  }

  lemma PageGrounds(d: CaseData, o: Oracle, id: AnchorId)
    ensures var k := CarriedOver(d, o, CandidatesIn(d));
            Told(d, o, id, GroundsAt(k.pages, id), StatusIn(k.decisions))
  {
    forall c | c in CandidatesIn(d) && CitesPage(d, o, c, id) { CiterTold(d, o, id, c); }
    forall g { PagesAre(d, o, CandidatesIn(d), id, g); }
  }

  /** The grounds remembered for a page, and their statuses, are its citers and their ends. */
  ghost predicate Told(d: CaseData, o: Oracle, id: AnchorId, ids: seq<GroundId>, status: P.Statuses) {
    && (forall c :: c in CandidatesIn(d) && CitesPage(d, o, c, id) ==>
          c.id in ids && c.id in status && GroundStatusFor(status[c.id]) == EndStatus(d, o, c))
    && (forall g :: g in ids ==> SomeCitePage(d, o, CandidatesIn(d), id, g))
  }

  lemma Teller(d: CaseData, o: Oracle, id: AnchorId, ids: seq<GroundId>, status: P.Statuses, g: GroundId) returns (c: GroundIntake)
    requires Told(d, o, id, ids, status) && g in ids
    ensures c in CandidatesIn(d) && c.id == g && CitesPage(d, o, c, id) && g in status && GroundStatusFor(status[g]) == EndStatus(d, o, c)
  {
    assert SomeCitePage(d, o, CandidatesIn(d), id, g);
    c :| c in CandidatesIn(d) && c.id == g && CitesPage(d, o, c, id);
  }

  lemma EndTold(d: CaseData, o: Oracle, id: AnchorId, ids: seq<GroundId>, status: P.Statuses, s: GroundStatus)
    requires Told(d, o, id, ids, status)
    ensures PageEnds(d, o, id, s) <==> exists g :: g in ids && g in status && GroundStatusFor(status[g]) == s
  {
    if PageEnds(d, o, id, s) {
      var c :| c in CandidatesIn(d) && CitesPage(d, o, c, id) && EndStatus(d, o, c) == s;
      assert c.id in ids;
    }
    if g :| g in ids && g in status && GroundStatusFor(status[g]) == s {
      var c := Teller(d, o, id, ids, status, g);
    }
  }

  lemma WorstOf(d: CaseData, o: Oracle, id: AnchorId, ids: seq<GroundId>, status: P.Statuses)
    requires Told(d, o, id, ids, status)
    ensures (exists g :: g in ids && g in status) <==> PageCounts(d, o, id)
    ensures SomeRefused(ids, status) <==> PageEnds(d, o, id, Refused)
    ensures SomeFlagged(ids, status) <==> PageEnds(d, o, id, Flagged)
  {
    EndTold(d, o, id, ids, status, Refused);
    EndTold(d, o, id, ids, status, Flagged);
    forall g ensures Refuses(status, g) <==> g in status && GroundStatusFor(status[g]) == Refused {}
    forall g ensures Flags(status, g) <==> g in status && GroundStatusFor(status[g]) == Flagged {}
    if g :| g in ids && g in status {
      var c := Teller(d, o, id, ids, status, g);
    }
  }

  /** Some box on the page counted in the hearing of an undecided candidate. */
  ghost predicate PageTouched(d: CaseData, o: Oracle, doc: string, page: int) {
    exists id, c :: id in o.dossier.anchors.at && P.Boxed(o.dossier.anchors.at[id])
                    && o.dossier.anchors.at[id].sourceDoc == doc && o.dossier.anchors.at[id].page == page
                    && c in CandidatesIn(d) && Cites(d, o, c, Evidence(id))
  }

  lemma SomeLastToCite(d: CaseData, o: Oracle, cs: seq<GroundIntake>, ref: Ref, k: nat) returns (i: nat)
    requires k < |cs| && Cites(d, o, cs[k], ref)
    ensures LastToCite(d, o, cs, ref, i)
    decreases |cs| - k
  {
    i := k;
    if m: nat :| k < m < |cs| && Cites(d, o, cs[m], ref) {
      i := SomeLastToCite(d, o, cs, ref, m);
    }
  }

  lemma TouchedIs(d: CaseData, o: Oracle, doc: string, page: int)
    ensures P.PageHasDirect(o.dossier.anchors.at, CarriedOver(d, o, CandidatesIn(d)).cited, doc, page) <==>
            PageTouched(d, o, doc, page)
  {
    var cs, anchors := CandidatesIn(d), o.dossier.anchors.at;
    forall ref { CitedAre(d, o, cs, ref); }
    if PageTouched(d, o, doc, page) {
      var id, c :| id in anchors && P.Boxed(anchors[id]) && anchors[id].sourceDoc == doc && anchors[id].page == page
                   && c in cs && Cites(d, o, c, Evidence(id));
      var k :| 0 <= k < |cs| && cs[k] == c;
      var i := SomeLastToCite(d, o, cs, Evidence(id), k);
      assert Evidence(id) in CarriedOver(d, o, cs).cited;
    }
    if P.PageHasDirect(anchors, CarriedOver(d, o, cs).cited, doc, page) {
      var id :| id in anchors && P.Boxed(anchors[id]) && Evidence(id) in CarriedOver(d, o, cs).cited
                && anchors[id].sourceDoc == doc && anchors[id].page == page;
      var i: nat :| LastToCite(d, o, cs, Evidence(id), i);
      assert cs[i] in cs && Cites(d, o, cs[i], Evidence(id));
    }
  }

  /** The role the run's overlay gives a box. */
  function ShownRole(d: CaseData, o: Oracle, a: EvidenceAnchor): Role {
    RoleOf(P.Reads(OverlayGrounds(d, o), a), StatusIn(CarriedOver(d, o, CandidatesIn(d)).decisions))
  }

  /** On a page of which no box counted: refused if any candidate in whose hearing the page
      counted ends refused, else flagged if any ends flagged, else supported; neutral if the
      page counted in none. */
  lemma RunColours(d: CaseData, o: Oracle, id: AnchorId)
    requires P.KeyedById(o.dossier.anchors.at) && id in o.dossier.anchors.at && P.Boxed(o.dossier.anchors.at[id])
    requires var a := o.dossier.anchors.at[id]; !PageTouched(d, o, a.sourceDoc, a.page)
    ensures var a := o.dossier.anchors.at[id];
            var whole := AnchorId(a.sourceDoc, a.page, None);
            ShownRole(d, o, a) ==
            if PageEnds(d, o, whole, Refused) then AnchorOfRefused
            else if PageEnds(d, o, whole, Flagged) then NeedsMoreEvidence
            else if PageCounts(d, o, whole) then SupportsShipped
            else Neutral
  {
    var k, a := CarriedOver(d, o, CandidatesIn(d)), o.dossier.anchors.at[id];
    ShownDecidesNothing(d, o);
    TouchedIs(d, o, a.sourceDoc, a.page);
    var whole := AnchorId(a.sourceDoc, a.page, None);
    PageGrounds(d, o, whole);
    WorstOf(d, o, whole, GroundsAt(k.pages, whole), StatusIn(k.decisions));
    ColourOfABox(o.dossier.anchors.at, k.cited, k.pages, StatusIn(k.decisions), id);
  }

  /** On any other page a box shows how the last candidate in whose hearing it counted ends,
      and is neutral if there was none. */
  lemma RunColoursDirect(d: CaseData, o: Oracle, id: AnchorId)
    requires P.KeyedById(o.dossier.anchors.at) && id in o.dossier.anchors.at && P.Boxed(o.dossier.anchors.at[id])
    requires var a := o.dossier.anchors.at[id]; PageTouched(d, o, a.sourceDoc, a.page)
    ensures var a, cs := o.dossier.anchors.at[id], CandidatesIn(d);
            (forall i: nat :: LastToCite(d, o, cs, Evidence(id), i) ==> ShownRole(d, o, a) == ColourFor(EndStatus(d, o, cs[i])))
            && ((forall i: nat :: !LastToCite(d, o, cs, Evidence(id), i)) ==> ShownRole(d, o, a) == Neutral)
  {
    var cs := CandidatesIn(d);
    var k, a := CarriedOver(d, o, cs), o.dossier.anchors.at[id];
    ShownDecidesNothing(d, o);
    TouchedIs(d, o, a.sourceDoc, a.page);
    CandidatesRuled(d, o);
    CitedAre(d, o, cs, Evidence(id));
    ColourOfABox(o.dossier.anchors.at, k.cited, k.pages, StatusIn(k.decisions), id);
    forall i: nat | LastToCite(d, o, cs, Evidence(id), i) ensures ShownRole(d, o, a) == ColourFor(EndStatus(d, o, cs[i])) {
      assert cs[i] in cs;
      ColourOfEnd(StatusIn(k.decisions), cs[i].id);
    }
  }

  lemma ColourOfEnd(status: P.Statuses, g: GroundId)
    requires g in status
    ensures RoleOf(Some(g), status) == ColourFor(GroundStatusFor(status[g]))
  {}

  ghost predicate PageReads(d: CaseData, o: Oracle, id: AnchorId, after: CaseData, s: GroundStatus) {
    exists c :: c in CandidatesIn(d) && CitesPage(d, o, c, id) && c.id in after.grounds && after.grounds[c.id].status == s
  }

  lemma CiterReads(w: World, o: Oracle, id: AnchorId, c: GroundIntake)
    requires !Composed(w.data.events) && c in CandidatesIn(w.data) && CitesPage(w.data, o, c, id)
    ensures var after := Play(w, Plan(w.data, o)).world.data;
            c.id in after.grounds && after.grounds[c.id].status == EndStatus(w.data, o, c)
  {
    CompletedIsTerminal(w, o);
    var i :| 0 <= i < |CandidatesIn(w.data)| && CandidatesIn(w.data)[i] == c;
  }

  lemma PageReadsIs(w: World, o: Oracle, id: AnchorId, s: GroundStatus)
    requires !Composed(w.data.events)
    ensures PageReads(w.data, o, id, Play(w, Plan(w.data, o)).world.data, s) <==> PageEnds(w.data, o, id, s)
  {
    forall c | c in CandidatesIn(w.data) && CitesPage(w.data, o, c, id) { CiterReads(w, o, id, c); }
  }

  /** And how a candidate ends is what its record reads once the run completes: a box on a
      page that counted only as a whole shows the worst status of the grounds it counted for. */
  lemma CompletedColours(w: World, o: Oracle, id: AnchorId)
    requires !Composed(w.data.events)
    requires P.KeyedById(o.dossier.anchors.at) && id in o.dossier.anchors.at && P.Boxed(o.dossier.anchors.at[id])
    requires var a := o.dossier.anchors.at[id]; !PageTouched(w.data, o, a.sourceDoc, a.page)
    ensures var a, after := o.dossier.anchors.at[id], Play(w, Plan(w.data, o)).world.data;
            var whole := AnchorId(a.sourceDoc, a.page, None);
            ShownRole(w.data, o, a) ==
            if PageReads(w.data, o, whole, after, Refused) then AnchorOfRefused
            else if PageReads(w.data, o, whole, after, Flagged) then NeedsMoreEvidence
            else if PageCounts(w.data, o, whole) then SupportsShipped
            else Neutral
  {
    var a := o.dossier.anchors.at[id];
    RunColours(w.data, o, id);
    PageReadsIs(w, o, AnchorId(a.sourceDoc, a.page, None), Refused);
    PageReadsIs(w, o, AnchorId(a.sourceDoc, a.page, None), Flagged);
  }
}
