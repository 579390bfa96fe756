/** The court graph for one ground as a verdict function: void, tally, adjudicate. */
module Courts {
  import opened Wrappers
  import opened CaseStores
  import opened Dossiers

  /** What a reviewer may write as a citation. */
  datatype Ref = Evidence(anchor: AnchorId) | Control(name: ControlName) | Clause(clauseRef: string) | Unknown(text: string)

  datatype Stance = Support | Reject

  datatype Review = Review(ground: GroundId, stance: Stance, confidence: real, cited: seq<Ref>)

  const CONFIDENCE_THRESHOLD: real := 0.6

  /** Every citation a reviewer may resolve against. */
  function KnownRefs(d: CaseDossier): set<Ref> {
    (set id | id in d.anchors.at :: Evidence(id))
    + (set c | c in d.clauseSlice.clauses :: Clause(c))
    + (set i | 0 <= i < |d.clauseSlice.controls| :: Control(d.clauseSlice.controls[i].name))
  }

  /** Nothing if the review cites anything unknown. */
  function VoidIfUncited(r: Review, known: set<Ref>): Option<Review> {
    if exists i :: 0 <= i < |r.cited| && r.cited[i] !in known then None else Some(r)
  }

  datatype Route = Clear | Split

  function Tally(clause: Option<Review>, evidence: Option<Review>): Route {
    if clause.None? || evidence.None? then Split
    else if clause.value.stance != evidence.value.stance then Split
    else if clause.value.confidence < CONFIDENCE_THRESHOLD || evidence.value.confidence < CONFIDENCE_THRESHOLD
    then Split
    else Clear
  }

  datatype Outcome = Resolved | UnresolvedFlagged
  datatype Source = Unanimous | Adjudicated | ConservativeDefault

  datatype Verdict = Verdict(
    ground: GroundId, outcome: Outcome, stance: Stance, confidence: real, cited: seq<Ref>, source: Source)

  /** Keeps the first of each. */
  function Dedupe(refs: seq<Ref>): seq<Ref> {
    if refs == [] then []
    else
      var before := Dedupe(refs[..|refs| - 1]);
      if refs[|refs| - 1] in before then before else before + [refs[|refs| - 1]]
  }

  lemma {:induction false} DedupeKeepsAll(refs: seq<Ref>)
    ensures forall r :: r in Dedupe(refs) <==> r in refs
    ensures forall i, j :: 0 <= i < j < |Dedupe(refs)| ==> Dedupe(refs)[i] != Dedupe(refs)[j]
  {
    if refs != [] {
      var n := |refs| - 1;
      DedupeKeepsAll(refs[..n]);
      assert refs == refs[..n] + [refs[n]];
    }
  }

  /** In the order of first mention: more references only ever add at the end. */
  lemma {:induction false} DedupeInOrder(first: seq<Ref>, more: seq<Ref>)
    ensures Dedupe(first) <= Dedupe(first + more)
  {
    if more == [] {
      assert first + more == first;
    } else {
      assert (first + more)[..|first + more| - 1] == first + more[..|more| - 1];
      DedupeInOrder(first, more[..|more| - 1]);
    }
  }

  /** The two raw opinions, whether the bench's breaker lets a call through, what the
      adjudicator would say, and the recheck of its citations if one is wired. */
  datatype Hearing = Hearing(
    clause: Review, evidence: Review, benchAvailable: bool, adjudication: Review, recheck: Option<bool>)

  function Unresolved(ground: GroundId): Verdict {
    Verdict(ground, UnresolvedFlagged, Reject, 0.0, [], ConservativeDefault)
  }

  function FinalizeClear(ground: GroundId, clause: Review, evidence: Review): Verdict {
    Verdict(ground, Resolved, clause.stance,
            if clause.confidence <= evidence.confidence then clause.confidence else evidence.confidence,
            Dedupe(clause.cited + evidence.cited), Unanimous)
  }

  function PostAdjudicate(a: Review, recheck: Option<bool>): Verdict {
    var confident := a.confidence >= CONFIDENCE_THRESHOLD;
    var resolved := if confident && recheck.Some? && a.cited != [] then recheck.value else confident;
    if !resolved then Unresolved(a.ground)
    else Verdict(a.ground, Resolved, a.stance, a.confidence, a.cited, Adjudicated)
  }

  function Judge(ground: GroundId, h: Hearing, known: set<Ref>): Verdict {
    var clause, evidence := VoidIfUncited(h.clause, known), VoidIfUncited(h.evidence, known);
    if Tally(clause, evidence) == Clear then FinalizeClear(ground, clause.value, evidence.value)
    else if !h.benchAvailable then Unresolved(ground)
    else PostAdjudicate(h.adjudication, h.recheck)
  }

  predicate CitesOnly(r: Review, known: set<Ref>) {
    forall i :: 0 <= i < |r.cited| ==> r.cited[i] in known
  }

  /** Both reviewers cite only what exists, take `stance` and are confident enough. */
  predicate BothAgree(h: Hearing, known: set<Ref>, stance: Stance) {
    && CitesOnly(h.clause, known) && CitesOnly(h.evidence, known)
    && h.clause.stance == h.evidence.stance == stance
    && h.clause.confidence >= CONFIDENCE_THRESHOLD && h.evidence.confidence >= CONFIDENCE_THRESHOLD
  }

  predicate BenchDecides(h: Hearing, known: set<Ref>, stance: Stance) {
    && !BothAgree(h, known, Support) && !BothAgree(h, known, Reject) && h.benchAvailable
    && h.adjudication.confidence >= CONFIDENCE_THRESHOLD
    && (h.recheck == Some(false) ==> h.adjudication.cited == [])
    && h.adjudication.stance == stance
  }

  /** The court supports a ground exactly when both surviving reviewers confidently do, or
      they split and a confident adjudicator does. Everything else reads as a rejection,
      an unresolved ground included. */
  lemma SupportedIff(ground: GroundId, h: Hearing, known: set<Ref>)
    ensures Judge(ground, h, known).stance == Support <==>
            BothAgree(h, known, Support) || BenchDecides(h, known, Support)
    ensures Judge(ground, h, known).outcome == UnresolvedFlagged <==>
            !BothAgree(h, known, Support) && !BothAgree(h, known, Reject)
            && !BenchDecides(h, known, Support) && !BenchDecides(h, known, Reject)
    ensures Judge(ground, h, known).outcome == UnresolvedFlagged ==>
            Judge(ground, h, known).stance == Reject && Judge(ground, h, known).cited == []
  {
    assert VoidIfUncited(h.clause, known).Some? <==> CitesOnly(h.clause, known);
    assert VoidIfUncited(h.evidence, known).Some? <==> CitesOnly(h.evidence, known);
  }

  /** A unanimous verdict cites exactly what the two reviewers cited, all of it known, the
      clause reviewer's first, with the lower of their confidences; an adjudicated one is
      the adjudicator's own, citations and all. */
  lemma WhatIsCited(ground: GroundId, h: Hearing, known: set<Ref>)
    ensures var v := Judge(ground, h, known);
            (v.source == Unanimous ==>
               (forall r :: r in v.cited <==> r in h.clause.cited || r in h.evidence.cited)
               && (forall r :: r in v.cited ==> r in known)
               && Dedupe(h.clause.cited) <= v.cited
               && CONFIDENCE_THRESHOLD <= v.confidence <= h.clause.confidence && v.confidence <= h.evidence.confidence
               && (v.confidence == h.clause.confidence || v.confidence == h.evidence.confidence))
            && (v.source == Adjudicated ==>
                  v.cited == h.adjudication.cited && v.confidence == h.adjudication.confidence >= CONFIDENCE_THRESHOLD)
            && (v.source == ConservativeDefault <==> v.outcome == UnresolvedFlagged)
  {
    var v := Judge(ground, h, known);
    if v.source == Unanimous {
      DedupeInOrder(h.clause.cited, h.evidence.cited);
      DedupeKeepsAll(h.clause.cited + h.evidence.cited);
    }
  }
}
