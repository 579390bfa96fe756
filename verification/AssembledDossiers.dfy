/** Citation closure for the dossiers the program makes: assembled from its inputs, then
    grown by registering anchors on their pages. */
module AssembledDossiers {
  import opened Wrappers
  import opened CaseStores
  import opened Dossiers
  import opened Courts
  import opened Gates
  import opened Intake

  /** Anchors registered one after another. */
  function Grown(d: CaseDossier, anchors: seq<EvidenceAnchor>): CaseDossier {
    if anchors == [] then d else Grown(d, anchors[..|anchors| - 1]).WithAnchor(anchors[|anchors| - 1])
  }

  ghost predicate DistinctIds(inputs: seq<Input>) {
    forall i, j :: 0 <= i < j < |inputs| ==> inputs[i].id != inputs[j].id
  }

  /** Every box lies on the first page of its document. */
  ghost predicate BoxesOnFirstPages(d: CaseDossier) {
    forall id :: id in d.anchors.at && d.anchors.at[id].box.Some? ==> d.anchors.at[id].page == 1
  }

  lemma {:induction false} GrowingKeeps(d: CaseDossier, anchors: seq<EvidenceAnchor>)
    requires ManifestClosed(d) && forall i :: 0 <= i < |anchors| ==> OnAPage(d, anchors[i])
    ensures var g := Grown(d, anchors); ManifestClosed(g) && g.documents == d.documents && g.clauseSlice == d.clauseSlice
    ensures BoxesOnFirstPages(d) && (forall i :: 0 <= i < |anchors| && anchors[i].box.Some? ==> anchors[i].page == 1) ==>
              BoxesOnFirstPages(Grown(d, anchors))
  {
    if anchors != [] {
      var init, last := anchors[..|anchors| - 1], anchors[|anchors| - 1];
      assert forall i :: 0 <= i < |init| ==> init[i] == anchors[i];
      GrowingKeeps(d, init);
      assert OnAPage(Grown(d, init), last);
      WithAnchorKeepsClosed(Grown(d, init), last);
    }
  }

  lemma {:induction false} FirstInputComesFirst(inputs: seq<Input>)
    requires inputs != []
    ensures Documents(inputs).keys != [] && Documents(inputs).keys[0] == inputs[0].id
    ensures inputs[0].id in Documents(inputs).at
  {
    if |inputs| > 1 {
      FirstInputComesFirst(inputs[..|inputs| - 1]);
    } else {
      assert inputs[..0] == [];
    }
  }

  lemma AssembledIs(d: CaseDossier, inputs: seq<Input>, controls: PlanningControls, dcpNames: seq<string>)
    requires Assembled(d, inputs, controls, dcpNames) && DistinctIds(inputs)
    ensures WellFormed(d) && BoxesOnFirstPages(d)
    ensures d.documents.keys == [] <==> inputs == []
    ensures inputs != [] ==> (FirstDocumentHasAPage(d) <==> inputs[0].sizes != [])
  {
    DistinctIdsAreClosed(inputs, d.clauseSlice);
    assert d == CaseDossier(Documents(inputs), Anchors(inputs), d.clauseSlice);
    AnchorsOf(inputs);
    if inputs != [] {
      FirstInputComesFirst(inputs);
      DocumentsOf(inputs);
      assert LastUse(inputs, 0);
    }
  }

  /** How a control's value is written out. */
  function Unit(name: ControlName): string {
    match name
    case HeightOfBuildings => "m"
    case FloorSpaceRatio => ":1"
    case LotSize => "m²"
    case _ => ""
  }

  lemma FormattedIs(row: ZoningControl)
    ensures Formatted(row) == ZoningControl(row.name, row.value + Unit(row.name))
  {
    assert row.value + "" == row.value;
  }

  /** Every row of an assembled dossier's slice is a control of the site, written out. */
  lemma ShownRowsAre(d: CaseDossier, inputs: seq<Input>, controls: PlanningControls, dcpNames: seq<string>, shown: ZoningControl)
    requires Assembled(d, inputs, controls, dcpNames)
    ensures shown in d.clauseSlice.controls <==>
            ControlValue(controls, shown.name).Some? && shown.value == ControlValue(controls, shown.name).value + Unit(shown.name)
  {
    var rows, all := Rows(controls), d.clauseSlice.controls;
    if shown in all {
      var i :| 0 <= i < |all| && all[i] == shown;
      FormattedIs(rows[i]);
      RowsAre(controls, rows[i]);
    }
    var found := ControlValue(controls, shown.name);
    if found.Some? && shown.value == found.value + Unit(shown.name) {
      var row := ZoningControl(shown.name, found.value);
      RowsAre(controls, row);
      FormattedIs(row);
      var i :| 0 <= i < |rows| && rows[i] == row;
      assert all[i] == shown;
    }
  }

  /** The gate of an assembled dossier knows every control the site has, under its own name
      and with its own value, written out; and no other. */
  lemma GateControlsAre(d: CaseDossier, inputs: seq<Input>, controls: PlanningControls, dcpNames: seq<string>, name: ControlName)
    requires Assembled(d, inputs, controls, dcpNames)
    ensures name in ToGate(d).controls <==> ControlValue(controls, name).Some?
    ensures name in ToGate(d).controls ==> ToGate(d).controls[name] == ControlValue(controls, name).value + Unit(name)
  {
    var all, found := d.clauseSlice.controls, ControlValue(controls, name);
    ControlMapOf(all);
    if found.Some? {
      var shown := ZoningControl(name, found.value + Unit(name));
      ShownRowsAre(d, inputs, controls, dcpNames, shown);
      var i :| 0 <= i < |all| && all[i] == shown;
    }
    if name in ToGate(d).controls {
      var i := MapNames(all, name);
      ShownRowsAre(d, inputs, controls, dcpNames, all[i]);
    }
  }

  lemma {:induction false} MapNames(controls: seq<ZoningControl>, name: ControlName) returns (i: nat)
    requires name in ControlMap(controls)
    ensures i < |controls| && controls[i].name == name
  {
    i := |controls| - 1;
    if controls[i].name != name {
      i := MapNames(controls[..i], name);
    }
  }

  /** Within the page it is on. */
  predicate InOwnPage(box: BBox, doc: SourceDocument, page: int) {
    1 <= page <= |doc.pages|
    && 0.0 <= box.x0 < box.x1 <= doc.pages[page - 1].width && 0.0 <= box.y0 < box.y1 <= doc.pages[page - 1].height
  }

  ghost predicate BoxFits(c: Citation, d: CaseDossier) {
    c.box.Some? ==> c.doc in d.documents.at && InOwnPage(c.box.value, d.documents.at[c.doc], c.page)
  }

  lemma FirstPageIsOwn(refs: seq<Ref>, d: CaseDossier, c: Citation)
    requires WellFormed(d) && BoxesOnFirstPages(d) && FirstDocumentHasAPage(d) && CitedBy(refs, d, c)
    ensures KeptResolves(c, d) <==> BoxFits(c, d)
  {
    var j :| 0 <= j < |refs| && CitationFor(refs[j], d) == Some(c);
    if c.box.Some? {
      assert CitationForAnchor(refs[j], d) == Some(c);
      assert OnAPage(d, d.anchors.at[refs[j].anchor]);
    }
  }

  /** With every box on a first page, a candidate ground built from any references passes
      the citation check exactly when one was kept and every kept box lies inside its page. */
  lemma FirstPageClosure(ground: GroundIntake, refs: seq<Ref>, d: CaseDossier)
    requires WellFormed(d) && BoxesOnFirstPages(d) && FirstDocumentHasAPage(d)
    ensures var c := CandidateGround(ground.id, ground.category, Kept(refs, d));
            CitationIssues(c, ToGate(d)) == [] <==>
              c.citations != [] && forall i :: 0 <= i < |c.citations| ==> BoxFits(c.citations[i], d)
  {
    var c := CandidateGround(ground.id, ground.category, Kept(refs, d));
    CitationClosure(ground, refs, d);
    forall i | 0 <= i < |c.citations| ensures KeptResolves(c.citations[i], d) <==> BoxFits(c.citations[i], d) {
      KeptFit(refs, d, c.citations[i]);
    }
  }

  lemma KeptFit(refs: seq<Ref>, d: CaseDossier, c: Citation)
    requires WellFormed(d) && BoxesOnFirstPages(d) && FirstDocumentHasAPage(d) && c in Kept(refs, d)
    ensures KeptResolves(c, d) <==> BoxFits(c, d)
  {
    KeptAre(refs, d);
    FirstPageIsOwn(refs, d, c);
  }

  /** Closure end to end: assembled from inputs with distinct ids, the first of which has a
      page, and grown by any anchors on existing pages, a dossier admits a ground exactly
      when a citation was kept and every kept box lies within its document's first page; and
      when boxes are only ever registered on first pages, as the job does, within its own. */
  lemma AssembledClosure(d: CaseDossier, inputs: seq<Input>, controls: PlanningControls, dcpNames: seq<string>,
                         anchors: seq<EvidenceAnchor>, ground: GroundIntake, refs: seq<Ref>)
    requires Assembled(d, inputs, controls, dcpNames) && DistinctIds(inputs)
    requires inputs != [] ==> inputs[0].sizes != []
    requires forall i :: 0 <= i < |anchors| ==> OnAPage(d, anchors[i])
    ensures var g := Grown(d, anchors);
            var c := CandidateGround(ground.id, ground.category, Kept(refs, g));
            WellFormed(g) && FirstDocumentHasAPage(g)
            && (CitationIssues(c, ToGate(g)) == [] <==>
                  c.citations != []
                  && forall i :: 0 <= i < |c.citations| && c.citations[i].box.Some? ==>
                       c.citations[i].doc in g.documents.at
                       && InPage(c.citations[i].box.value, GateDocument(g.documents.at[c.citations[i].doc])))
            && ((forall i :: 0 <= i < |anchors| && anchors[i].box.Some? ==> anchors[i].page == 1) ==>
                  (CitationIssues(c, ToGate(g)) == [] <==>
                     c.citations != [] && forall i :: 0 <= i < |c.citations| ==> BoxFits(c.citations[i], g)))
  {
    var g := Grown(d, anchors);
    AssembledIs(d, inputs, controls, dcpNames);
    GrowingKeeps(d, anchors);
    CitationClosure(ground, refs, g);
    if BoxesOnFirstPages(g) {
      FirstPageClosure(ground, refs, g);
    }
  }

  // ---------------------------------------------------------------- a box on a later page

  function TwoPages(): seq<Input> { [Input("plan", "Plan", DocumentsOnly, [(400.0, 400.0), (600.0, 600.0)])] }

  function TwoPager(): CaseDossier { CaseDossier(Documents(TwoPages()), Anchors(TwoPages()), ClauseSlice([], [])) }

  const LARGE_BOX: EvidenceAnchor :=
    AnchorFor("plan", 2, Some(BBox(0.0, 0.0, 500.0, 500.0)), DocumentsOnly, "site plan")

  /** What the gate's interface admits and the job never feeds it: registered on the second,
      larger page of an assembled document, a box that fits its page is refused, because
      one page size stands for all. */
  lemma BoxJudgedByFirstPage(ground: GroundIntake)
    ensures Assembled(TwoPager(), TwoPages(), PlanningControls(None, None, None, None, None, []), [])
    ensures OnAPage(TwoPager(), LARGE_BOX) && WellFormed(Grown(TwoPager(), [LARGE_BOX]))
    ensures var d := Grown(TwoPager(), [LARGE_BOX]);
            var c := CandidateGround(ground.id, ground.category, Kept([Evidence(LARGE_BOX.id)], d));
            c.citations != [] && (forall i :: 0 <= i < |c.citations| ==> BoxFits(c.citations[i], d))
            && CitationIssues(c, ToGate(d)) != []
  {
    TwoPagerIs();
    GrownOnce(TwoPager(), LARGE_BOX);
    AssembledIs(TwoPager(), TwoPages(), PlanningControls(None, None, None, None, None, []), []);
    GrowingKeeps(TwoPager(), [LARGE_BOX]);
    LargeBoxIsRefused(ground, TwoPager().WithAnchor(LARGE_BOX));
  }

  lemma GrownOnce(d: CaseDossier, a: EvidenceAnchor)
    ensures Grown(d, [a]) == d.WithAnchor(a)
  {
    assert [a][..0] == [];
  }

  lemma KeptOnce(ref: Ref, d: CaseDossier, c: Citation)
    requires CitationFor(ref, d) == Some(c)
    ensures Kept([ref], d) == [c]
  {
    assert [ref][..0] == [];
  }

  lemma LargeBoxIsRefused(ground: GroundIntake, d: CaseDossier)
    requires WellFormed(d) && LARGE_BOX.id in d.anchors.at && d.anchors.at[LARGE_BOX.id] == LARGE_BOX
    requires "plan" in d.documents.at && d.documents.at["plan"] == DocumentOf(TwoPages()[0])
    ensures var c := CandidateGround(ground.id, ground.category, Kept([Evidence(LARGE_BOX.id)], d));
            c.citations != [] && (forall i :: 0 <= i < |c.citations| ==> BoxFits(c.citations[i], d))
            && CitationIssues(c, ToGate(d)) != []
  {
    KeptOnce(Evidence(LARGE_BOX.id), d, Citation("plan", 2, LARGE_BOX.box, None, None));
    CitationClosure(ground, [Evidence(LARGE_BOX.id)], d);
  }

  lemma TwoPagerIs()
    ensures TwoPager().documents.at == map["plan" := DocumentOf(TwoPages()[0])]
    ensures Assembled(TwoPager(), TwoPages(), PlanningControls(None, None, None, None, None, []), [])
  {
    assert TwoPages()[..0] == [];
  }
}
