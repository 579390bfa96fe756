/** What one hearing comes to, read off the two opinions, the adjudicator's and the dossier,
    without the court's and the gate's own steps. */
module Findings {
  import opened Wrappers
  import opened CaseStores
  import opened Dossiers
  import opened Courts
  import opened Gates
  import opened Intake

  // ---------------------------------------------------------------- what may be cited

  /** A reference a reviewer can resolve: an anchor of the manifest, a control or a clause. */
  predicate Known(r: Ref, d: CaseDossier) {
    match r
    case Evidence(id) => id in d.anchors.at
    case Control(name) => exists i :: 0 <= i < |d.clauseSlice.controls| && d.clauseSlice.controls[i].name == name
    case Clause(c) => c in d.clauseSlice.clauses
    case Unknown(_) => false
  }

  /** What the court lets reviewers cite is exactly that. */
  lemma KnownRefsAre(r: Ref, d: CaseDossier)
    ensures r in KnownRefs(d) <==> Known(r, d)
  {
    if r.Control? && Known(r, d) {
      var i :| 0 <= i < |d.clauseSlice.controls| && d.clauseSlice.controls[i].name == r.name;
      assert Control(d.clauseSlice.controls[i].name) == r;
    }
  }

  predicate Sourced(r: Review, d: CaseDossier) {
    forall i :: 0 <= i < |r.cited| ==> Known(r.cited[i], d)
  }

  lemma SourcedIs(r: Review, d: CaseDossier)
    ensures CitesOnly(r, KnownRefs(d)) <==> Sourced(r, d)
  {
    forall i | 0 <= i < |r.cited| ensures r.cited[i] in KnownRefs(d) <==> Known(r.cited[i], d) {
      KnownRefsAre(r.cited[i], d);
    }
  }

  // ---------------------------------------------------------------- what the court finds

  /** Both reviewers cite only what exists, take that side, and are confident of it. */
  predicate BothSay(h: Hearing, d: CaseDossier, s: Stance) {
    && Sourced(h.clause, d) && Sourced(h.evidence, d)
    && h.clause.stance == s && h.evidence.stance == s
    && h.clause.confidence >= CONFIDENCE_THRESHOLD && h.evidence.confidence >= CONFIDENCE_THRESHOLD
  }

  predicate Unanimous(h: Hearing, d: CaseDossier) { BothSay(h, d, Support) || BothSay(h, d, Reject) }

  /** They are not of one mind, and an adjudicator whose citations bear rechecking is. */
  predicate BenchSays(h: Hearing, d: CaseDossier, s: Stance) {
    && !Unanimous(h, d) && h.benchAvailable
    && h.adjudication.stance == s && h.adjudication.confidence >= CONFIDENCE_THRESHOLD
    && (h.recheck == Some(false) ==> h.adjudication.cited == [])
  }

  predicate Supports(h: Hearing, d: CaseDossier) { BothSay(h, d, Support) || BenchSays(h, d, Support) }

  /** The references that count: both reviewers' if they are of one mind, otherwise the
      adjudicator's, and none if there is no verdict. */
  function Weighed(h: Hearing, d: CaseDossier): seq<Ref> {
    if Unanimous(h, d) then h.clause.cited + h.evidence.cited
    else if BenchSays(h, d, Support) || BenchSays(h, d, Reject) then h.adjudication.cited
    else []
  }

  lemma AgreesIs(h: Hearing, d: CaseDossier, s: Stance)
    ensures BothAgree(h, KnownRefs(d), s) <==> BothSay(h, d, s)
  {
    SourcedIs(h.clause, d);
    SourcedIs(h.evidence, d);
  }

  /** The court supports what the hearing supports. */
  lemma SupportsIs(g: GroundId, h: Hearing, d: CaseDossier)
    ensures Judge(g, h, KnownRefs(d)).stance == Support <==> Supports(h, d)
    ensures Judge(g, h, KnownRefs(d)).outcome == UnresolvedFlagged <==>
            !Unanimous(h, d) && !BenchSays(h, d, Support) && !BenchSays(h, d, Reject)
  {
    SupportedIff(g, h, KnownRefs(d));
    AgreesIs(h, d, Support);
    AgreesIs(h, d, Reject);
  }

  /** Its verdict came from the reviewers exactly when they are of one mind, and cites what
      counts, each reference once, in order of first mention. */
  lemma CitedIs(g: GroundId, h: Hearing, d: CaseDossier)
    ensures var v := Judge(g, h, KnownRefs(d));
            (v.source == Courts.Unanimous <==> Unanimous(h, d))
            && v.cited == (if Unanimous(h, d) then Dedupe(Weighed(h, d)) else Weighed(h, d))
            && forall r :: r in v.cited <==> r in Weighed(h, d)
  {
    SourcedIs(h.clause, d);
    SourcedIs(h.evidence, d);
    assert VoidIfUncited(h.clause, KnownRefs(d)).Some? <==> CitesOnly(h.clause, KnownRefs(d));
    assert VoidIfUncited(h.evidence, KnownRefs(d)).Some? <==> CitesOnly(h.evidence, KnownRefs(d));
    DedupeKeepsAll(h.clause.cited + h.evidence.cited);
  }

  // ---------------------------------------------------------------- what the gate finds

  predicate FirstNamed(controls: seq<ZoningControl>, name: ControlName, i: nat) {
    i < |controls| && controls[i].name == name && forall j :: 0 <= j < i ==> controls[j].name != name
  }

  predicate LastNamed(controls: seq<ZoningControl>, name: ControlName, i: nat) {
    i < |controls| && controls[i].name == name && forall j :: i < j < |controls| ==> controls[j].name != name
  }

  /** A reference that becomes a citation: an anchor, or a control if there is a document. */
  predicate Citable(r: Ref, d: CaseDossier) {
    match r
    case Evidence(id) => id in d.anchors.at
    case Control(name) => Known(r, d) && d.documents.keys != []
    case _ => false
  }

  /** The page exists; a box lies within the first page of its document. */
  predicate AnchorHolds(a: EvidenceAnchor, d: CaseDossier) {
    && a.sourceDoc in d.documents.at && 1 <= a.page <= |d.documents.at[a.sourceDoc].pages|
    && (a.box.Some? ==>
          var first := d.documents.at[a.sourceDoc].pages[0];
          0.0 <= a.box.value.x0 < a.box.value.x1 <= first.width && 0.0 <= a.box.value.y0 < a.box.value.y1 <= first.height)
  }

  /** The first document has a page, and the first row of that name says what the last does. */
  ghost predicate ControlHolds(name: ControlName, d: CaseDossier)
    requires d.documents.keys != []
  {
    && d.documents.keys[0] in d.documents.at && d.documents.at[d.documents.keys[0]].pages != []
    && forall i: nat, j: nat :: FirstNamed(d.clauseSlice.controls, name, i) && LastNamed(d.clauseSlice.controls, name, j) ==>
         d.clauseSlice.controls[i].value == d.clauseSlice.controls[j].value
  }

  ghost predicate Holds(r: Ref, d: CaseDossier)
    requires Citable(r, d)
  {
    if r.Evidence? then AnchorHolds(d.anchors.at[r.anchor], d) else ControlHolds(r.name, d)
  }

  /** Something was cited, and all of it holds. */
  ghost predicate Proven(refs: seq<Ref>, d: CaseDossier) {
    && (exists r :: r in refs && Citable(r, d))
    && (forall r :: r in refs && Citable(r, d) ==> Holds(r, d))
  }

  lemma {:induction false} FindIsFirst(controls: seq<ZoningControl>, name: ControlName, i: nat)
    requires FirstNamed(controls, name, i)
    ensures FindControl(controls, name) == Some(controls[i])
  {
    if i > 0 {
      FindIsFirst(controls[1..], name, i - 1);
    }
  }

  lemma {:induction false} MapIsLast(controls: seq<ZoningControl>, name: ControlName, i: nat)
    requires LastNamed(controls, name, i)
    ensures name in ControlMap(controls) && ControlMap(controls)[name] == controls[i].value
  {
    var n := |controls| - 1;
    if i < n {
      assert controls[n].name != name;
      MapIsLast(controls[..n], name, i);
    }
  }

  lemma {:induction false} SomeFirst(controls: seq<ZoningControl>, name: ControlName, k: nat) returns (i: nat)
    requires k < |controls| && controls[k].name == name
    ensures FirstNamed(controls, name, i)
  {
    i := k;
    if m: nat :| m < k && controls[m].name == name {
      i := SomeFirst(controls, name, m);
    }
  }

  lemma {:induction false} SomeLast(controls: seq<ZoningControl>, name: ControlName, k: nat) returns (i: nat)
    requires k < |controls| && controls[k].name == name
    ensures LastNamed(controls, name, i)
    decreases |controls| - k
  {
    i := k;
    if m: nat :| k < m < |controls| && controls[m].name == name {
      i := SomeLast(controls, name, m);
    }
  }

  lemma ControlCitation(name: ControlName, d: CaseDossier)
    requires Citable(Control(name), d)
    ensures CitationFor(Control(name), d).Some?
    ensures Resolves(CitationFor(Control(name), d).value, ToGate(d)) <==> ControlHolds(name, d)
  {
    var controls := d.clauseSlice.controls;
    var k :| 0 <= k < |controls| && controls[k].name == name;
    var i := SomeFirst(controls, name, k);
    var j := SomeLast(controls, name, k);
    FindIsFirst(controls, name, i);
    MapIsLast(controls, name, j);
    forall j': nat | LastNamed(controls, name, j') ensures j' == j {}
    forall i': nat | FirstNamed(controls, name, i') ensures i' == i {}
  }

  /** The citation a reference becomes resolves at the gate exactly when it holds. */
  lemma CitationIs(r: Ref, d: CaseDossier)
    ensures CitationFor(r, d).Some? <==> Citable(r, d)
    ensures Citable(r, d) ==> (Resolves(CitationFor(r, d).value, ToGate(d)) <==> Holds(r, d))
  {
    if r.Control? {
      var found := FindControl(d.clauseSlice.controls, r.name);
      if found.Some? {
        var k :| 0 <= k < |d.clauseSlice.controls| && d.clauseSlice.controls[k] == found.value;
      }
      if Citable(r, d) {
        ControlCitation(r.name, d);
      }
    }
  }

  /** The gate is satisfied with what was kept of some references exactly when they prove
      the ground. */
  lemma ProvenIff(refs: seq<Ref>, d: CaseDossier)
    ensures Proven(refs, d) <==>
            Kept(refs, d) != [] && forall c :: c in Kept(refs, d) ==> Resolves(c, ToGate(d))
  {
    KeptAre(refs, d);
    forall r | r in refs
      ensures Citable(r, d) ==> CitationFor(r, d).Some? && CitationFor(r, d).value in Kept(refs, d)
      ensures Citable(r, d) ==> (Resolves(CitationFor(r, d).value, ToGate(d)) <==> Holds(r, d))
    {
      CitationIs(r, d);
      if Citable(r, d) {
        var j :| 0 <= j < |refs| && refs[j] == r;
        assert CitedBy(refs, d, CitationFor(r, d).value);
      }
    }
    forall c | c in Kept(refs, d) ensures exists r :: r in refs && Citable(r, d) && CitationFor(r, d) == Some(c) {
      assert CitedBy(refs, d, c);
      var j :| 0 <= j < |refs| && CitationFor(refs[j], d) == Some(c);
      CitationIs(refs[j], d);
    }
    if Kept(refs, d) != [] {
      assert Kept(refs, d)[0] in Kept(refs, d);
    }
  }

  lemma SameProof(refs: seq<Ref>, same: seq<Ref>, d: CaseDossier)
    requires forall r :: r in refs <==> r in same
    ensures Proven(refs, d) <==> Proven(same, d)
  {}

  // ---------------------------------------------------------------- the first of them

  predicate FirstCitable(refs: seq<Ref>, d: CaseDossier, j: nat) {
    j < |refs| && Citable(refs[j], d) && forall i :: 0 <= i < j ==> !Citable(refs[i], d)
  }

  lemma {:induction false} NothingKept(refs: seq<Ref>, d: CaseDossier)
    requires forall i :: 0 <= i < |refs| ==> !Citable(refs[i], d)
    ensures Kept(refs, d) == []
  {
    if refs != [] {
      NothingKept(refs[..|refs| - 1], d);
      CitationIs(refs[|refs| - 1], d);
    }
  }

  /** The first citation kept is that of the first reference that makes one. */
  lemma {:induction false} FirstKept(refs: seq<Ref>, d: CaseDossier, j: nat)
    requires FirstCitable(refs, d, j)
    ensures CitationFor(refs[j], d).Some? && Kept(refs, d) != [] && Kept(refs, d)[0] == CitationFor(refs[j], d).value
  {
    var n := |refs| - 1;
    CitationIs(refs[j], d);
    if j < n {
      FirstKept(refs[..n], d, j);
    } else {
      NothingKept(refs[..n], d);
    }
  }

  /** Keeping each reference once does not change which comes first. */
  lemma {:induction false} FirstStays(refs: seq<Ref>, d: CaseDossier, j: nat) returns (i: nat)
    requires FirstCitable(refs, d, j)
    ensures FirstCitable(Dedupe(refs), d, i) && Dedupe(refs)[i] == refs[j]
  {
    var n := |refs| - 1;
    if j < n {
      i := FirstStays(refs[..n], d, j);
    } else {
      DedupeKeepsAll(refs[..n]);
      i := |Dedupe(refs[..n])|;
      forall k | 0 <= k < i ensures !Citable(Dedupe(refs[..n])[k], d) {
        assert Dedupe(refs[..n])[k] in refs[..n];
      }
    }
  }

  lemma {:induction false} SomeFirstCitable(refs: seq<Ref>, d: CaseDossier, k: nat) returns (j: nat)
    requires k < |refs| && Citable(refs[k], d)
    ensures FirstCitable(refs, d, j)
  {
    j := k;
    if m: nat :| m < k && Citable(refs[m], d) {
      j := SomeFirstCitable(refs, d, m);
    }
  }

  lemma ProvenHasFirst(refs: seq<Ref>, d: CaseDossier) returns (j: nat)
    requires Proven(refs, d)
    ensures FirstCitable(refs, d, j) && Holds(refs[j], d)
  {
    var r :| r in refs && Citable(r, d);
    var k :| 0 <= k < |refs| && refs[k] == r;
    j := SomeFirstCitable(refs, d, k);
  }
}
