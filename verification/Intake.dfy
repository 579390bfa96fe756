/** How the tribunal job reads its inputs: the candidate grounds out of the event log,
    and gate citations out of a verdict's references. */
module Intake {
  import opened Wrappers
  import opened CaseStores
  import opened Dossiers
  import opened Courts
  import opened Gates

  // ---------------------------------------------------------------- candidate grounds

  datatype GroundIntake = GroundIntake(id: GroundId, category: string, claim: string)

  predicate Assigns(e: CaseEvent, grounds: map<GroundId, GroundRecord>) {
    e.body.Caller? && e.body.note.CategoryAssigned? && e.body.note.g != "" && e.body.note.g in grounds
  }

  predicate Seen(intake: seq<GroundIntake>, g: GroundId) {
    exists i :: 0 <= i < |intake| && intake[i].id == g
  }

  lemma SeenAppend(intake: seq<GroundIntake>, c: GroundIntake)
    ensures forall g :: Seen(intake + [c], g) <==> Seen(intake, g) || g == c.id
  {
    forall g ensures Seen(intake + [c], g) <==> Seen(intake, g) || g == c.id {
      if Seen(intake, g) {
        var i :| 0 <= i < |intake| && intake[i].id == g;
        assert (intake + [c])[i].id == g;
      }
      assert (intake + [c])[|intake|].id == c.id;
    }
  }

  /** Every ground that was tagged with a category and still has a record, once, in the
      order of the tags, under its first tag. */
  function Candidates(events: seq<CaseEvent>, grounds: map<GroundId, GroundRecord>): seq<GroundIntake> {
    if events == [] then []
    else
      var before := Candidates(events[..|events| - 1], grounds);
      var last := events[|events| - 1];
      if !Assigns(last, grounds) || Seen(before, last.body.note.g) then before
      else before + [GroundIntake(last.body.note.g, last.body.note.category, grounds[last.body.note.g].claim)]
  }

  method CandidateGrounds(events: seq<CaseEvent>, grounds: map<GroundId, GroundRecord>)
    returns (intake: seq<GroundIntake>)
    ensures intake == Candidates(events, grounds)
  {
    intake := [];
    var seen: set<GroundId> := {};
    var i := 0;
    while i < |events|
      invariant 0 <= i <= |events| && intake == Candidates(events[..i], grounds)
      invariant forall g :: g in seen <==> Seen(intake, g)
    {
      assert events[..i + 1][..i] == events[..i];
      var e := events[i];
      if e.body.Caller? && e.body.note.CategoryAssigned? {
        var g := e.body.note.g;
        if g != "" && g !in seen && g in grounds {
          seen := seen + {g};
          SeenAppend(intake, GroundIntake(g, e.body.note.category, grounds[g].claim));
          intake := intake + [GroundIntake(g, e.body.note.category, grounds[g].claim)];
        }
      }
      i := i + 1;
    }
    assert events[..i] == events;
  }

  ghost predicate Distinct(intake: seq<GroundIntake>) {
    forall i, j :: 0 <= i < j < |intake| ==> intake[i].id != intake[j].id
  }

  /** The first tag of a ground. */
  predicate FirstTag(events: seq<CaseEvent>, grounds: map<GroundId, GroundRecord>, g: GroundId, i: nat) {
    && i < |events| && Assigns(events[i], grounds) && events[i].body.note.g == g
    && forall j :: 0 <= j < i && Assigns(events[j], grounds) ==> events[j].body.note.g != g
  }

  /** Where a candidate's category comes from. */
  ghost predicate TaggedFirst(events: seq<CaseEvent>, grounds: map<GroundId, GroundRecord>, c: GroundIntake) {
    exists i: nat :: FirstTag(events, grounds, c.id, i) && events[i].body.note.category == c.category
  }

  lemma TaggedFirstStays(init: seq<CaseEvent>, last: CaseEvent, grounds: map<GroundId, GroundRecord>, c: GroundIntake)
    requires TaggedFirst(init, grounds, c)
    ensures TaggedFirst(init + [last], grounds, c)
  {
    var i: nat :| FirstTag(init, grounds, c.id, i) && init[i].body.note.category == c.category;
    assert forall j :: 0 <= j < |init| ==> (init + [last])[j] == init[j];
    assert FirstTag(init + [last], grounds, c.id, i);
  }

  lemma TaggedNow(init: seq<CaseEvent>, last: CaseEvent, grounds: map<GroundId, GroundRecord>, claim: string)
    requires Assigns(last, grounds)
    requires forall j :: 0 <= j < |init| && Assigns(init[j], grounds) ==> init[j].body.note.g != last.body.note.g
    ensures TaggedFirst(init + [last], grounds, GroundIntake(last.body.note.g, last.body.note.category, claim))
  {
    assert forall j :: 0 <= j < |init| ==> (init + [last])[j] == init[j];
    assert FirstTag(init + [last], grounds, last.body.note.g, |init|);
  }

  /** Every candidate's category is that of the first event that tags it. */
  lemma {:induction false} CategoriesAre(events: seq<CaseEvent>, grounds: map<GroundId, GroundRecord>)
    ensures forall c :: c in Candidates(events, grounds) ==> TaggedFirst(events, grounds, c)
  {
    if events != [] {
      var init, last := events[..|events| - 1], events[|events| - 1];
      assert events == init + [last];
      CategoriesAre(init, grounds);
      CandidatesAre(init, grounds);
      forall c | c in Candidates(events, grounds) ensures TaggedFirst(events, grounds, c) {
        if c in Candidates(init, grounds) {
          TaggedFirstStays(init, last, grounds, c);
        } else {
          TaggedNow(init, last, grounds, c.claim);
        }
      }
    }
  }

  /** Candidates stand in the order of their first tags. */
  ghost predicate InTagOrder(events: seq<CaseEvent>, grounds: map<GroundId, GroundRecord>, cs: seq<GroundIntake>) {
    forall i, j, a: nat, b: nat ::
      0 <= i < j < |cs| && FirstTag(events, grounds, cs[i].id, a) && FirstTag(events, grounds, cs[j].id, b) ==> a < b
  }

  lemma FirstTagWas(init: seq<CaseEvent>, last: CaseEvent, grounds: map<GroundId, GroundRecord>, g: GroundId, a: nat)
    requires FirstTag(init + [last], grounds, g, a)
    ensures if a < |init| then FirstTag(init, grounds, g, a)
            else forall j :: 0 <= j < |init| && Assigns(init[j], grounds) ==> init[j].body.note.g != g
  {
    assert forall j :: 0 <= j < |init| ==> (init + [last])[j] == init[j];
  }

  lemma TagsCome(init: seq<CaseEvent>, last: CaseEvent, grounds: map<GroundId, GroundRecord>, cs: seq<GroundIntake>)
    requires InTagOrder(init, grounds, cs) && forall c :: c in cs ==> TaggedFirst(init, grounds, c)
    ensures InTagOrder(init + [last], grounds, cs)
    ensures forall c: GroundIntake, i, a: nat, b: nat ::
              Assigns(last, grounds) && c.id == last.body.note.g && !Seen(cs, c.id) && 0 <= i < |cs|
              && FirstTag(init + [last], grounds, cs[i].id, a) && FirstTag(init + [last], grounds, c.id, b) ==>
                a < |init|
  {
    forall i, a: nat | 0 <= i < |cs| && FirstTag(init + [last], grounds, cs[i].id, a)
      ensures FirstTag(init, grounds, cs[i].id, a)
    {
      assert TaggedFirst(init, grounds, cs[i]);
      FirstTagWas(init, last, grounds, cs[i].id, a);
    }
  }

  lemma {:induction false} CandidatesInOrder(events: seq<CaseEvent>, grounds: map<GroundId, GroundRecord>)
    ensures InTagOrder(events, grounds, Candidates(events, grounds))
  {
    if events != [] {
      var init, last := events[..|events| - 1], events[|events| - 1];
      var before := Candidates(init, grounds);
      assert events == init + [last];
      CandidatesInOrder(init, grounds);
      CategoriesAre(init, grounds);
      CandidatesAre(init, grounds);
      TagsCome(init, last, grounds, before);
      if Candidates(events, grounds) != before {
        var g := last.body.note.g;
        forall b: nat | FirstTag(events, grounds, g, b) ensures b == |init| {
          FirstTagWas(init, last, grounds, g, b);
          assert !Seen(before, g);
        }
      }
    }
  }

  /** No ground is a candidate twice; exactly the tagged grounds with a record are; each
      keeps its stored claim. */
  lemma {:induction false} CandidatesAre(events: seq<CaseEvent>, grounds: map<GroundId, GroundRecord>)
    ensures Distinct(Candidates(events, grounds))
    ensures forall g :: Seen(Candidates(events, grounds), g) <==>
              exists i :: 0 <= i < |events| && Assigns(events[i], grounds) && events[i].body.note.g == g
    ensures forall i :: 0 <= i < |Candidates(events, grounds)| ==>
              var c := Candidates(events, grounds)[i];
              c.id in grounds && c.id != "" && c.claim == grounds[c.id].claim
  {
    if events != [] {
      var n := |events| - 1;
      var init := events[..n];
      var before, after := Candidates(init, grounds), Candidates(events, grounds);
      CandidatesAre(init, grounds);
      forall g
        ensures Seen(after, g) <==>
          exists i :: 0 <= i < |events| && Assigns(events[i], grounds) && events[i].body.note.g == g
      {
        assert Seen(after, g) <==> Seen(before, g) || (Assigns(events[n], grounds) && events[n].body.note.g == g) by {
          if after != before {
            SeenAppend(before, after[|before|]);
          }
        }
        if Seen(before, g) {
          var i :| 0 <= i < n && Assigns(init[i], grounds) && init[i].body.note.g == g;
          assert Assigns(events[i], grounds);
        }
      }
    }
  }

  // ---------------------------------------------------------------- citations

  function CitationForAnchor(ref: Ref, d: CaseDossier): Option<Citation> {
    if ref.Evidence? && ref.anchor in d.anchors.at then
      var a := d.anchors.at[ref.anchor];
      Some(Citation(a.sourceDoc, a.page, a.box, None, None))
    else None
  }

  /** The first control of that name. */
  function FindControl(controls: seq<ZoningControl>, name: ControlName): (r: Option<ZoningControl>)
    ensures r.Some? ==> r.value in controls && r.value.name == name
    ensures r.None? ==> forall i :: 0 <= i < |controls| ==> controls[i].name != name
  {
    if controls == [] then None
    else if controls[0].name == name then Some(controls[0])
    else
      var r := FindControl(controls[1..], name);
      assert forall i :: 1 <= i < |controls| ==> controls[i] == controls[1..][i - 1];
      r
  }

  /** A control is cited at page one of the first document there is. */
  function CitationForControl(ref: Ref, d: CaseDossier): Option<Citation> {
    if !ref.Control? then None
    else
      var control := FindControl(d.clauseSlice.controls, ref.name);
      if control.None? || d.documents.keys == [] then None
      else Some(Citation(d.documents.keys[0], 1, None, Some(control.value.name), Some(control.value.value)))
  }

  function CitationFor(ref: Ref, d: CaseDossier): Option<Citation> {
    var byAnchor := CitationForAnchor(ref, d);
    if byAnchor.Some? then byAnchor else CitationForControl(ref, d)
  }

  /** References that resolve to nothing are dropped. */
  function Kept(refs: seq<Ref>, d: CaseDossier): seq<Citation> {
    if refs == [] then []
    else
      var c := CitationFor(refs[|refs| - 1], d);
      Kept(refs[..|refs| - 1], d) + (if c.Some? then [c.value] else [])
  }

  method CandidateGroundFor(ground: GroundIntake, refs: seq<Ref>, d: CaseDossier) returns (c: CandidateGround)
    ensures c == CandidateGround(ground.id, ground.category, Kept(refs, d))
  {
    var citations: seq<Citation> := [];
    var i := 0;
    while i < |refs|
      invariant 0 <= i <= |refs| && citations == Kept(refs[..i], d)
    {
      assert refs[..i + 1][..i] == refs[..i];
      var citation := CitationForAnchor(refs[i], d);
      if citation.None? {
        citation := CitationForControl(refs[i], d);
      }
      if citation.Some? {
        citations := citations + [citation.value];
      }
      i := i + 1;
    }
    assert refs[..i] == refs;
    c := CandidateGround(ground.id, ground.category, citations);
  }

  ghost predicate WellFormed(d: CaseDossier) {
    ManifestClosed(d) && DistinctNames(d.clauseSlice.controls)
  }

  predicate FirstDocumentHasAPage(d: CaseDossier)
    requires d.documents.keys != [] ==> d.documents.keys[0] in d.documents.at
  {
    d.documents.keys != [] ==> d.documents.at[d.documents.keys[0]].pages != []
  }

  /** What can still be wrong with a citation the pipeline kept. */
  predicate KeptResolves(c: Citation, d: CaseDossier)
    requires d.documents.keys != [] ==> d.documents.keys[0] in d.documents.at
  {
    && (c.box.Some? ==> c.doc in d.documents.at && InPage(c.box.value, GateDocument(d.documents.at[c.doc])))
    && (c.control.Some? ==> FirstDocumentHasAPage(d))
  }

  /** Of a kept citation, document, control and quoted value always check out, and so
      does the page, except that a control needs the first document to have one; what is
      left is whether a box lies within the first page of its document. */
  lemma OneCitation(ref: Ref, d: CaseDossier)
    requires WellFormed(d)
    requires CitationFor(ref, d).Some?
    ensures var c := CitationFor(ref, d).value;
            c.doc in ToGate(d).documents
            && (c.control.Some? ==> c.control.value in ToGate(d).controls
                                    && c.quoted == Some(ToGate(d).controls[c.control.value]))
            && (Resolves(c, ToGate(d)) <==> KeptResolves(c, d))
            && (ref.Evidence? && ref.anchor in d.anchors.at ==>
                  var a := d.anchors.at[ref.anchor];
                  Resolves(c, ToGate(d)) <==>
                    a.box.None? || InPage(a.box.value, GateDocument(d.documents.at[a.sourceDoc])))
  {
    var gate := ToGate(d);
    var c := CitationFor(ref, d).value;
    if CitationForAnchor(ref, d).Some? {
      assert OnAPage(d, d.anchors.at[ref.anchor]);
    } else {
      var control := FindControl(d.clauseSlice.controls, ref.name).value;
      ControlMapOf(d.clauseSlice.controls);
      assert c.doc in d.documents.keys;
    }
  }

  predicate CitedBy(refs: seq<Ref>, d: CaseDossier, c: Citation) {
    exists j :: 0 <= j < |refs| && CitationFor(refs[j], d) == Some(c)
  }

  lemma {:induction false} KeptAre(refs: seq<Ref>, d: CaseDossier)
    ensures forall c :: c in Kept(refs, d) <==> CitedBy(refs, d, c)
  {
    if refs != [] {
      var n := |refs| - 1;
      var init := refs[..n];
      KeptAre(init, d);
      forall c ensures c in Kept(refs, d) <==> CitedBy(refs, d, c) {
        assert c in Kept(init, d) <==> CitedBy(init, d, c);
        if CitedBy(init, d, c) {
          var j :| 0 <= j < n && CitationFor(init[j], d) == Some(c);
          assert CitationFor(refs[j], d) == Some(c);
        }
        if CitedBy(refs, d, c) {
          var j :| 0 <= j < |refs| && CitationFor(refs[j], d) == Some(c);
          assert j < n ==> init[j] == refs[j];
        }
      }
    }
  }

  /** Citation closure: a candidate ground built from any references passes the citation
      check exactly when one was kept, every kept box lies within the first page of its
      document, and a cited control finds that first document has a page. */
  lemma CitationClosure(ground: GroundIntake, refs: seq<Ref>, d: CaseDossier)
    requires WellFormed(d)
    ensures var c := CandidateGround(ground.id, ground.category, Kept(refs, d));
            CitationIssues(c, ToGate(d)) == [] <==>
              c.citations != [] && forall i :: 0 <= i < |c.citations| ==> KeptResolves(c.citations[i], d)
  {
    var c := CandidateGround(ground.id, ground.category, Kept(refs, d));
    SubstantiatedIff(c, ToGate(d));
    KeptAre(refs, d);
    forall i | 0 <= i < |c.citations|
      ensures Resolves(c.citations[i], ToGate(d)) <==> KeptResolves(c.citations[i], d)
    {
      assert CitedBy(refs, d, c.citations[i]);
      var j :| 0 <= j < |refs| && CitationFor(refs[j], d) == Some(c.citations[i]);
      OneCitation(refs[j], d);
    }
  }

  /** Of the references a reviewer may use, only bare clause references can fail to become
      a citation, given a document to anchor controls to. */
  lemma KnownRefsAreKept(ref: Ref, d: CaseDossier)
    requires ref in KnownRefs(d) && d.documents.keys != []
    ensures CitationFor(ref, d).Some? <==> !ref.Clause?
  {
    if ref.Control? {
      var i :| 0 <= i < |d.clauseSlice.controls| && d.clauseSlice.controls[i].name == ref.name;
      assert d.clauseSlice.controls[i].name == ref.name;
    }
  }
}
