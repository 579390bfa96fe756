/** The case dossier: rendered documents, the anchor manifest, the planning controls,
    and the narrower view of it the gate checks citations against. */
module Dossiers {
  import opened Wrappers
  import opened CaseStores

  datatype RenderedPage = RenderedPage(number: int, width: real, height: real)

  datatype SourceDocument = SourceDocument(id: string, title: string, grade: ProvenanceGrade, pages: seq<RenderedPage>)

  /** The content hash of source, page and box; no two anchors share one. */
  datatype AnchorId = AnchorId(doc: string, page: int, box: Option<BBox>)

  datatype EvidenceAnchor = EvidenceAnchor(
    id: AnchorId, sourceDoc: string, page: int, box: Option<BBox>, grade: ProvenanceGrade, caption: string)

  function AnchorFor(doc: string, page: int, box: Option<BBox>, grade: ProvenanceGrade, caption: string): EvidenceAnchor {
    EvidenceAnchor(AnchorId(doc, page, box), doc, page, box, grade, caption)
  }

  datatype ControlName = ZoneCode | ZoneName | HeightOfBuildings | FloorSpaceRatio | LotSize | Heritage(i: nat)

  datatype ZoningControl = ZoningControl(name: ControlName, value: string)

  datatype ClauseSlice = ClauseSlice(clauses: seq<string>, controls: seq<ZoningControl>)

  datatype CaseDossier = CaseDossier(
    documents: Dict<string, SourceDocument>,
    anchors: Dict<AnchorId, EvidenceAnchor>,
    clauseSlice: ClauseSlice)
  {
    /** Registers an anchor; registering it again overwrites it in place. */
    function WithAnchor(a: EvidenceAnchor): CaseDossier {
      this.(anchors := anchors.Put(a.id, a))
    }
  }

  // ---------------------------------------------------------------- planning controls

  /** The resolved controls of a site; a heritage flag may be missing. */
  datatype PlanningControls = PlanningControls(
    zoneCode: Option<string>, zoneName: Option<string>, heightLimit: Option<string>,
    floorSpaceRatio: Option<string>, lotSize: Option<string>, heritage: seq<Option<string>>)

  function Row(name: ControlName, v: Option<string>): seq<ZoningControl> {
    if v.None? then [] else [ZoningControl(name, v.value)]
  }

  function HeritageRows(flags: seq<Option<string>>): seq<ZoningControl> {
    if flags == [] then []
    else HeritageRows(flags[..|flags| - 1]) + Row(Heritage(|flags| - 1), flags[|flags| - 1])
  }

  function Rows(c: PlanningControls): seq<ZoningControl> {
    Row(ZoneCode, c.zoneCode) + Row(ZoneName, c.zoneName) + Row(HeightOfBuildings, c.heightLimit)
    + Row(FloorSpaceRatio, c.floorSpaceRatio) + Row(LotSize, c.lotSize) + HeritageRows(c.heritage)
  }

  /** The textual convention a quoted value must match. */
  function Formatted(row: ZoningControl): ZoningControl {
    match row.name
    case HeightOfBuildings => row.(value := row.value + "m")
    case FloorSpaceRatio => row.(value := row.value + ":1")
    case LotSize => row.(value := row.value + "m²")
    case _ => row
  }

  predicate DistinctNames(rows: seq<ZoningControl>) {
    forall i, j :: 0 <= i < j < |rows| ==> rows[i].name != rows[j].name
  }

  /** The place of a control in the fixed order of rows. */
  function Place(name: ControlName): nat {
    match name
    case ZoneCode => 0
    case ZoneName => 1
    case HeightOfBuildings => 2
    case FloorSpaceRatio => 3
    case LotSize => 4
    case Heritage(i) => 5 + i
  }

  predicate Ordered(rows: seq<ZoningControl>, lo: nat, hi: nat) {
    && (forall i :: 0 <= i < |rows| ==> lo <= Place(rows[i].name) < hi)
    && (forall i, j :: 0 <= i < j < |rows| ==> Place(rows[i].name) < Place(rows[j].name))
  }

  lemma JoinOrdered(a: seq<ZoningControl>, b: seq<ZoningControl>, lo: nat, mid: nat, hi: nat)
    requires Ordered(a, lo, mid) && Ordered(b, mid, hi) && lo <= mid <= hi
    ensures Ordered(a + b, lo, hi)
  {}

  lemma {:induction false} HeritageOrdered(flags: seq<Option<string>>)
    ensures Ordered(HeritageRows(flags), 5, 5 + |flags|)
  {
    if flags != [] {
      var n := |flags| - 1;
      HeritageOrdered(flags[..n]);
      JoinOrdered(HeritageRows(flags[..n]), Row(Heritage(n), flags[n]), 5, 5 + n, 5 + n + 1);
    }
  }

  lemma RowsAreDistinct(c: PlanningControls)
    ensures DistinctNames(Rows(c))
  {
    var r0 := Row(ZoneCode, c.zoneCode);
    var r1 := r0 + Row(ZoneName, c.zoneName);
    JoinOrdered(r0, Row(ZoneName, c.zoneName), 0, 1, 2);
    var r2 := r1 + Row(HeightOfBuildings, c.heightLimit);
    JoinOrdered(r1, Row(HeightOfBuildings, c.heightLimit), 0, 2, 3);
    var r3 := r2 + Row(FloorSpaceRatio, c.floorSpaceRatio);
    JoinOrdered(r2, Row(FloorSpaceRatio, c.floorSpaceRatio), 0, 3, 4);
    var r4 := r3 + Row(LotSize, c.lotSize);
    JoinOrdered(r3, Row(LotSize, c.lotSize), 0, 4, 5);
    HeritageOrdered(c.heritage);
    JoinOrdered(r4, HeritageRows(c.heritage), 0, 5, 5 + |c.heritage|);
    var rows := Rows(c);
    assert rows == r4 + HeritageRows(c.heritage);
    forall i, j | 0 <= i < j < |rows| ensures rows[i].name != rows[j].name {
      assert Place(rows[i].name) < Place(rows[j].name);
    }
  }

  /** What the site's controls say under a name. */
  function ControlValue(c: PlanningControls, name: ControlName): Option<string> {
    match name
    case ZoneCode => c.zoneCode
    case ZoneName => c.zoneName
    case HeightOfBuildings => c.heightLimit
    case FloorSpaceRatio => c.floorSpaceRatio
    case LotSize => c.lotSize
    case Heritage(i) => if i < |c.heritage| then c.heritage[i] else None
  }

  lemma {:induction false} HeritageRowsAre(flags: seq<Option<string>>, row: ZoningControl)
    ensures row in HeritageRows(flags) <==>
            row.name.Heritage? && row.name.i < |flags| && flags[row.name.i] == Some(row.value)
  {
    if flags != [] {
      HeritageRowsAre(flags[..|flags| - 1], row);
    }
  }

  /** A row for every control there is, under its own name, with its own value. */
  lemma RowsAre(c: PlanningControls, row: ZoningControl)
    ensures row in Rows(c) <==> ControlValue(c, row.name) == Some(row.value)
  {
    HeritageRowsAre(c.heritage, row);
  }

  method BuildClauseSlice(controls: PlanningControls, dcpNames: seq<string>) returns (slice: ClauseSlice)
    ensures slice.clauses == dcpNames
    ensures |slice.controls| == |Rows(controls)|
    ensures forall i :: 0 <= i < |slice.controls| ==> slice.controls[i] == Formatted(Rows(controls)[i])
    ensures DistinctNames(slice.controls)
  {
    var rows := Rows(controls);
    RowsAreDistinct(controls);
    var formatted: seq<ZoningControl> := [];
    var i := 0;
    while i < |rows|
      invariant 0 <= i <= |rows| && |formatted| == i
      invariant forall j :: 0 <= j < i ==> formatted[j] == Formatted(rows[j])
    {
      formatted := formatted + [Formatted(rows[i])];
      i := i + 1;
    }
    slice := ClauseSlice(dcpNames, formatted);
  }

  // ---------------------------------------------------------------- assembly

  /** A document to render: its pages' sizes in page order. A photo has one page. */
  datatype Input = Input(id: string, title: string, grade: ProvenanceGrade, sizes: seq<(real, real)>)

  function Pages(sizes: seq<(real, real)>): seq<RenderedPage> {
    seq(|sizes|, i requires 0 <= i < |sizes| => RenderedPage(i + 1, sizes[i].0, sizes[i].1))
  }

  function DocumentOf(input: Input): SourceDocument {
    SourceDocument(input.id, input.title, input.grade, Pages(input.sizes))
  }

  /** One page-level anchor per page, in page order. */
  function PageAnchors(anchors: Dict<AnchorId, EvidenceAnchor>, input: Input, n: nat): Dict<AnchorId, EvidenceAnchor>
  {
    if n == 0 then anchors
    else
      var a := AnchorFor(input.id, n, None, input.grade, input.title);
      PageAnchors(anchors, input, n - 1).Put(a.id, a)
  }

  function Documents(inputs: seq<Input>): Dict<string, SourceDocument> {
    if inputs == [] then Dict([], map[])
    else Documents(inputs[..|inputs| - 1]).Put(inputs[|inputs| - 1].id, DocumentOf(inputs[|inputs| - 1]))
  }

  function Anchors(inputs: seq<Input>): Dict<AnchorId, EvidenceAnchor> {
    if inputs == [] then Dict([], map[])
    else PageAnchors(Anchors(inputs[..|inputs| - 1]), inputs[|inputs| - 1], |inputs[|inputs| - 1].sizes|)
  }

  method AddPages(before: Dict<AnchorId, EvidenceAnchor>, input: Input, pages: seq<RenderedPage>)
    returns (anchors: Dict<AnchorId, EvidenceAnchor>)
    requires pages == Pages(input.sizes)
    ensures anchors == PageAnchors(before, input, |pages|)
  {
    anchors := before;
    var p := 0;
    while p < |pages|
      invariant 0 <= p <= |pages|
      invariant anchors == PageAnchors(before, input, p)
    {
      var a := AnchorFor(input.id, pages[p].number, None, input.grade, input.title);
      anchors := anchors.Put(a.id, a);
      p := p + 1;
    }
  }

  lemma OneMoreInput(inputs: seq<Input>, n: nat)
    requires n < |inputs|
    ensures Documents(inputs[..n + 1]) == Documents(inputs[..n]).Put(inputs[n].id, DocumentOf(inputs[n]))
    ensures Anchors(inputs[..n + 1]) == PageAnchors(Anchors(inputs[..n]), inputs[n], |inputs[n].sizes|)
  {
    assert inputs[..n + 1][..n] == inputs[..n];
  }

  /** A photo is one page, registered by itself. */
  method AddPhoto(before: Dict<AnchorId, EvidenceAnchor>, photo: Input)
    returns (document: SourceDocument, anchors: Dict<AnchorId, EvidenceAnchor>)
    requires |photo.sizes| == 1
    ensures document == DocumentOf(photo) && anchors == PageAnchors(before, photo, 1)
  {
    var page := RenderedPage(1, photo.sizes[0].0, photo.sizes[0].1);
    assert Pages(photo.sizes) == [page];
    document := SourceDocument(photo.id, photo.title, photo.grade, [page]);
    var a := AnchorFor(photo.id, page.number, None, photo.grade, photo.title);
    assert PageAnchors(before, photo, 0) == before;
    anchors := before.Put(a.id, a);
  }

  method RegisterPlans(plans: seq<Input>)
    returns (documents: Dict<string, SourceDocument>, anchors: Dict<AnchorId, EvidenceAnchor>)
    ensures documents == Documents(plans) && anchors == Anchors(plans)
  {
    documents, anchors := Dict([], map[]), Dict([], map[]);
    var i := 0;
    while i < |plans|
      invariant 0 <= i <= |plans|
      invariant documents == Documents(plans[..i]) && anchors == Anchors(plans[..i])
    {
      OneMoreInput(plans, i);
      var pages := Pages(plans[i].sizes);
      documents := documents.Put(plans[i].id, SourceDocument(plans[i].id, plans[i].title, plans[i].grade, pages));
      anchors := AddPages(anchors, plans[i], pages);
      i := i + 1;
    }
    assert plans[..i] == plans;
  }

  lemma OneInputMore(inputs: seq<Input>, last: Input)
    ensures Documents(inputs + [last]) == Documents(inputs).Put(last.id, DocumentOf(last))
    ensures Anchors(inputs + [last]) == PageAnchors(Anchors(inputs), last, |last.sizes|)
  {
    assert (inputs + [last])[..|inputs|] == inputs;
  }

  lemma OneMoreJoined(a: seq<Input>, b: seq<Input>, j: nat)
    requires j < |b|
    ensures (a + b[..j]) + [b[j]] == a + b[..j + 1]
  {}

  method RegisterPhoto(ghost before: seq<Input>, photo: Input,
                       documents0: Dict<string, SourceDocument>, anchors0: Dict<AnchorId, EvidenceAnchor>)
    returns (documents: Dict<string, SourceDocument>, anchors: Dict<AnchorId, EvidenceAnchor>)
    requires |photo.sizes| == 1 && documents0 == Documents(before) && anchors0 == Anchors(before)
    ensures documents == Documents(before + [photo]) && anchors == Anchors(before + [photo])
  {
    OneInputMore(before, photo);
    var document;
    document, anchors := AddPhoto(anchors0, photo);
    documents := documents0.Put(photo.id, document);
  }

  method RegisterPhotos(ghost plans: seq<Input>, photos: seq<Input>,
                        documents0: Dict<string, SourceDocument>, anchors0: Dict<AnchorId, EvidenceAnchor>)
    returns (documents: Dict<string, SourceDocument>, anchors: Dict<AnchorId, EvidenceAnchor>)
    requires forall i :: 0 <= i < |photos| ==> |photos[i].sizes| == 1
    requires documents0 == Documents(plans) && anchors0 == Anchors(plans)
    ensures documents == Documents(plans + photos) && anchors == Anchors(plans + photos)
  {
    documents, anchors := documents0, anchors0;
    ghost var done := plans + photos[..0];
    assert done == plans;
    var j := 0;
    while j < |photos|
      invariant 0 <= j <= |photos| && done == plans + photos[..j]
      invariant documents == Documents(done) && anchors == Anchors(done)
    {
      documents, anchors := RegisterPhoto(done, photos[j], documents, anchors);
      OneMoreJoined(plans, photos, j);
      done := done + [photos[j]];
      j := j + 1;
    }
    assert photos[..j] == photos;
  }

  /** A dossier assembled from these inputs, plans before photos. */
  ghost predicate Assembled(d: CaseDossier, inputs: seq<Input>, controls: PlanningControls, dcpNames: seq<string>) {
    && d.documents == Documents(inputs) && d.anchors == Anchors(inputs)
    && d.clauseSlice.clauses == dcpNames && DistinctNames(d.clauseSlice.controls)
    && |d.clauseSlice.controls| == |Rows(controls)|
    && forall i :: 0 <= i < |Rows(controls)| ==> d.clauseSlice.controls[i] == Formatted(Rows(controls)[i])
  }

  method BuildDossier(plans: seq<Input>, photos: seq<Input>, controls: PlanningControls, dcpNames: seq<string>)
    returns (d: CaseDossier)
    requires forall i :: 0 <= i < |photos| ==> |photos[i].sizes| == 1
    ensures Assembled(d, plans + photos, controls, dcpNames)
  {
    var documents, anchors := RegisterPlans(plans);
    documents, anchors := RegisterPhotos(plans, photos, documents, anchors);
    var slice := BuildClauseSlice(controls, dcpNames);
    d := CaseDossier(documents, anchors, slice);
  }

  // ---------------------------------------------------------------- the manifest is closed

  /** The anchor's document is in the dossier and has that page. */
  ghost predicate OnAPage(d: CaseDossier, a: EvidenceAnchor) {
    a.id == AnchorId(a.sourceDoc, a.page, a.box)
    && a.sourceDoc in d.documents.at && 1 <= a.page <= |d.documents.at[a.sourceDoc].pages|
  }

  ghost predicate ManifestClosed(d: CaseDossier) {
    && d.documents.Valid() && d.anchors.Valid()
    && (forall id :: id in d.anchors.at ==> d.anchors.at[id].id == id && OnAPage(d, d.anchors.at[id]))
  }

  lemma WithAnchorKeepsClosed(d: CaseDossier, a: EvidenceAnchor)
    requires ManifestClosed(d) && OnAPage(d, a)
    ensures ManifestClosed(d.WithAnchor(a))
  {
    d.anchors.PutIsValid(a.id, a);
    forall id | id in d.WithAnchor(a).anchors.at
      ensures var b := d.WithAnchor(a).anchors.at[id]; b.id == id && OnAPage(d.WithAnchor(a), b)
    {
      assert id != a.id ==> OnAPage(d, d.anchors.at[id]);
    }
  }

  /** Where `id` was last rendered. */
  predicate LastUse(inputs: seq<Input>, i: int) {
    0 <= i < |inputs| && forall j :: i < j < |inputs| ==> inputs[j].id != inputs[i].id
  }

  lemma LastUseGrows(init: seq<Input>, last: Input, i: int)
    ensures LastUse(init + [last], i) <==> i == |init| || (LastUse(init, i) && init[i].id != last.id)
  {
    var all := init + [last];
    assert forall j :: 0 <= j < |init| ==> all[j] == init[j];
    assert all[|init|] == last;
  }

  /** Every document is as it was last rendered, and every last rendering is there. */
  ghost predicate AsLastUsed(inputs: seq<Input>, d: Dict<string, SourceDocument>) {
    && (forall doc :: doc in d.at ==> UsedLast(inputs, doc))
    && (forall i :: LastUse(inputs, i) ==> inputs[i].id in d.at && RenderingOf(inputs[i], d.at[inputs[i].id]))
  }

  /** Under the input's id, title and grade, its pages numbered from one, each of its own size. */
  predicate RenderingOf(input: Input, doc: SourceDocument) {
    && doc.id == input.id && doc.title == input.title && doc.grade == input.grade && |doc.pages| == |input.sizes|
    && forall k :: 0 <= k < |doc.pages| ==>
         doc.pages[k].number == k + 1 && doc.pages[k].width == input.sizes[k].0 && doc.pages[k].height == input.sizes[k].1
  }

  ghost predicate UsedLast(inputs: seq<Input>, doc: string) {
    exists i :: LastUse(inputs, i) && inputs[i].id == doc
  }

  lemma UsedLastGrows(init: seq<Input>, last: Input, doc: string)
    requires UsedLast(init, doc) || doc == last.id
    ensures UsedLast(init + [last], doc)
  {
    if doc == last.id {
      LastUseGrows(init, last, |init|);
    } else {
      var i :| LastUse(init, i) && init[i].id == doc;
      LastUseGrows(init, last, i);
    }
  }

  lemma RenderAgain(init: seq<Input>, last: Input, d: Dict<string, SourceDocument>)
    requires AsLastUsed(init, d)
    ensures AsLastUsed(init + [last], d.Put(last.id, DocumentOf(last)))
  {
    var d', all := d.Put(last.id, DocumentOf(last)), init + [last];
    forall doc | doc in d'.at ensures UsedLast(all, doc) {
      UsedLastGrows(init, last, doc);
    }
    forall i | LastUse(all, i) ensures all[i].id in d'.at && RenderingOf(all[i], d'.at[all[i].id]) {
      LastUseGrows(init, last, i);
    }
  }

  lemma {:induction false} DocumentsOf(inputs: seq<Input>)
    ensures Documents(inputs).Valid() && AsLastUsed(inputs, Documents(inputs))
  {
    if inputs != [] {
      var init, last := inputs[..|inputs| - 1], inputs[|inputs| - 1];
      DocumentsOf(init);
      Documents(init).PutIsValid(last.id, DocumentOf(last));
      RenderAgain(init, last, Documents(init));
      assert inputs == init + [last];
    }
  }

  predicate PageOf(id: AnchorId, doc: string, n: nat) {
    id.doc == doc && 1 <= id.page <= n && id.box == None
  }

  lemma {:induction false} PageAnchorsOf(anchors: Dict<AnchorId, EvidenceAnchor>, input: Input, n: nat)
    requires anchors.Valid()
    ensures PageAnchors(anchors, input, n).Valid()
    ensures forall id :: id in PageAnchors(anchors, input, n).at <==> id in anchors.at || PageOf(id, input.id, n)
    ensures forall id :: id in PageAnchors(anchors, input, n).at ==>
              PageAnchors(anchors, input, n).at[id] ==
              if PageOf(id, input.id, n) then AnchorFor(input.id, id.page, None, input.grade, input.title)
              else anchors.at[id]
  {
    if n > 0 {
      PageAnchorsOf(anchors, input, n - 1);
      var a := AnchorFor(input.id, n, None, input.grade, input.title);
      PageAnchors(anchors, input, n - 1).PutIsValid(a.id, a);
      forall id ensures PageOf(id, input.id, n) <==> id == a.id || PageOf(id, input.id, n - 1) {}
    }
  }

  ghost predicate Rendered(inputs: seq<Input>, id: AnchorId) {
    id.box == None && exists i :: 0 <= i < |inputs| && inputs[i].id == id.doc && 1 <= id.page <= |inputs[i].sizes|
  }

  lemma RenderedGrows(init: seq<Input>, last: Input, id: AnchorId)
    ensures Rendered(init + [last], id) <==> Rendered(init, id) || PageOf(id, last.id, |last.sizes|)
  {
    var all := init + [last];
    if Rendered(init, id) {
      var i :| 0 <= i < |init| && init[i].id == id.doc && 1 <= id.page <= |init[i].sizes|;
      assert all[i] == init[i];
    }
    if PageOf(id, last.id, |last.sizes|) {
      assert all[|init|] == last;
    }
  }

  predicate Labels(input: Input, a: EvidenceAnchor) {
    PageOf(a.id, input.id, |input.sizes|) && a.grade == input.grade && a.caption == input.title
  }

  /** Graded and captioned by the last input rendered under its document id with that page. */
  ghost predicate LabelledLast(inputs: seq<Input>, a: EvidenceAnchor) {
    exists i :: 0 <= i < |inputs| && Labels(inputs[i], a)
                && forall j :: i < j < |inputs| ==> !PageOf(a.id, inputs[j].id, |inputs[j].sizes|)
  }

  lemma LabelStays(init: seq<Input>, last: Input, a: EvidenceAnchor)
    requires if PageOf(a.id, last.id, |last.sizes|) then Labels(last, a) else LabelledLast(init, a)
    ensures LabelledLast(init + [last], a)
  {
    var all := init + [last];
    assert all[|init|] == last;
    if !PageOf(a.id, last.id, |last.sizes|) {
      var i :| 0 <= i < |init| && Labels(init[i], a) && forall j :: i < j < |init| ==> !PageOf(a.id, init[j].id, |init[j].sizes|);
      assert all[i] == init[i];
      assert forall j :: i < j < |init| ==> all[j] == init[j];
    }
  }

  /** The manifest of a fresh dossier: a page-level anchor for every page rendered under
      its document id, at any time, and nothing else. */
  lemma {:induction false} AnchorsOf(inputs: seq<Input>)
    ensures Anchors(inputs).Valid()
    ensures forall id :: id in Anchors(inputs).at <==> Rendered(inputs, id)
    ensures forall id :: id in Anchors(inputs).at ==>
              var a := Anchors(inputs).at[id];
              a.id == id && a.sourceDoc == id.doc && a.page == id.page && a.box == None && LabelledLast(inputs, a)
  {
    if inputs != [] {
      var init, last := inputs[..|inputs| - 1], inputs[|inputs| - 1];
      AnchorsOf(init);
      PageAnchorsOf(Anchors(init), last, |last.sizes|);
      assert inputs == init + [last];
      forall id | id in Anchors(inputs).at ensures LabelledLast(inputs, Anchors(inputs).at[id]) {
        LabelStays(init, last, Anchors(inputs).at[id]);
      }
      forall id ensures id in Anchors(inputs).at <==> Rendered(inputs, id) {
        RenderedGrows(init, last, id);
      }
    }
  }

  /** The last rendering under each id has at least as many pages as any earlier one. */
  ghost predicate LastIsLongest(inputs: seq<Input>) {
    forall i, j :: 0 <= i < |inputs| && LastUse(inputs, j) && inputs[i].id == inputs[j].id ==>
      |inputs[i].sizes| <= |inputs[j].sizes|
  }

  lemma {:induction false} SomeLastUse(inputs: seq<Input>, i: nat) returns (j: nat)
    requires i < |inputs|
    ensures i <= j && LastUse(inputs, j) && inputs[j].id == inputs[i].id
    decreases |inputs| - i
  {
    if LastUse(inputs, i) {
      j := i;
    } else {
      var k :| i < k < |inputs| && inputs[k].id == inputs[i].id;
      j := SomeLastUse(inputs, k);
    }
  }

  lemma LongestLastCloses(inputs: seq<Input>, d: CaseDossier)
    requires d.documents == Documents(inputs) && d.anchors == Anchors(inputs) && LastIsLongest(inputs)
    ensures ManifestClosed(d)
  {
    DocumentsOf(inputs);
    AnchorsOf(inputs);
    forall id | id in d.anchors.at ensures d.anchors.at[id].id == id && OnAPage(d, d.anchors.at[id]) {
      assert Rendered(inputs, id);
      var i :| 0 <= i < |inputs| && inputs[i].id == id.doc && 1 <= id.page <= |inputs[i].sizes|;
      var j := SomeLastUse(inputs, i);
    }
  }

  lemma ClosedHasLongestLast(inputs: seq<Input>, d: CaseDossier)
    requires d.documents == Documents(inputs) && d.anchors == Anchors(inputs) && ManifestClosed(d)
    ensures LastIsLongest(inputs)
  {
    DocumentsOf(inputs);
    AnchorsOf(inputs);
    forall i, j | 0 <= i < |inputs| && LastUse(inputs, j) && inputs[i].id == inputs[j].id
      ensures |inputs[i].sizes| <= |inputs[j].sizes|
    {
      if |inputs[i].sizes| > 0 {
        var id := AnchorId(inputs[i].id, |inputs[i].sizes|, None);
        assert Rendered(inputs, id);
        assert OnAPage(d, d.anchors.at[id]);
      }
    }
  }

  /** A fresh dossier's anchors all point at existing pages exactly when no document was
      overwritten by a shorter one of the same id. */
  lemma FreshManifestClosedIff(inputs: seq<Input>, slice: ClauseSlice)
    ensures ManifestClosed(CaseDossier(Documents(inputs), Anchors(inputs), slice)) <==> LastIsLongest(inputs)
  {
    var d := CaseDossier(Documents(inputs), Anchors(inputs), slice);
    if LastIsLongest(inputs) {
      LongestLastCloses(inputs, d);
    }
    if ManifestClosed(d) {
      ClosedHasLongestLast(inputs, d);
    }
  }

  lemma DistinctIdsAreClosed(inputs: seq<Input>, slice: ClauseSlice)
    requires forall i, j :: 0 <= i < j < |inputs| ==> inputs[i].id != inputs[j].id
    ensures ManifestClosed(CaseDossier(Documents(inputs), Anchors(inputs), slice))
  {
    FreshManifestClosedIff(inputs, slice);
  }

  // ---------------------------------------------------------------- the gate's view

  datatype CaseDocument = CaseDocument(id: string, pageCount: int, width: real, height: real)

  datatype GateDossier = GateDossier(documents: map<string, CaseDocument>, controls: map<ControlName, string>)

  /** One size stands for all pages of a document: that of its first page. */
  function GateDocument(doc: SourceDocument): CaseDocument {
    if doc.pages == [] then CaseDocument(doc.id, 0, 0.0, 0.0)
    else CaseDocument(doc.id, |doc.pages|, doc.pages[0].width, doc.pages[0].height)
  }

  function ControlMap(controls: seq<ZoningControl>): map<ControlName, string> {
    if controls == [] then map[]
    else ControlMap(controls[..|controls| - 1])[controls[|controls| - 1].name := controls[|controls| - 1].value]
  }

  function ToGate(d: CaseDossier): GateDossier {
    GateDossier(map id | id in d.documents.at :: GateDocument(d.documents.at[id]), ControlMap(d.clauseSlice.controls))
  }

  lemma {:induction false} ControlMapOf(controls: seq<ZoningControl>)
    requires DistinctNames(controls)
    ensures forall i :: 0 <= i < |controls| ==>
              controls[i].name in ControlMap(controls) && ControlMap(controls)[controls[i].name] == controls[i].value
  {
    if controls != [] {
      ControlMapOf(controls[..|controls| - 1]);
    }
  }
}
