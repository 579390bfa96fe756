/** From the interview to the verdict: what becomes of a concern confirmed at the console. */
module FiledConcerns {
  import opened Wrappers
  import opened CaseStores
  import opened Interviews
  import opened Rehydration
  import opened RebuiltConcerns
  import opened Courts
  import opened Gates
  import opened Findings
  import opened Intake
  import opened Pipeline
  import opened OutcomeLaws

  /** A matter for planning at all. */
  predicate PlanningMatter(kind: ConcernType) { kind != ViewLoss && kind != PropertyValue }

  lemma HeadIff(kind: ConcernType)
    ensures ConsoleCategory(kind) in PLANNING_HEADS <==> PlanningMatter(kind)
  {}

  /** What counts in the hearing of a ground supports and proves it. */
  ghost predicate HearingSupports(h: Hearing, o: Oracle) {
    || (BothSay(h, o.dossier, Support) && Proven(h.clause.cited + h.evidence.cited, o.dossier))
    || (BenchSays(h, o.dossier, Support) && Proven(h.adjudication.cited, o.dossier))
  }

  lemma CandidateAt(d: CaseData, c: GroundIntake) returns (i: nat)
    requires c in CandidatesIn(d)
    ensures i < |CandidatesIn(d)| && CandidatesIn(d)[i] == c
  {
    i :| i < |CandidatesIn(d)| && CandidatesIn(d)[i] == c;
  }

  /** A concern confirmed at the console, and the job then run to its end on the case as it
      is: the ground reads supported exactly when the concern is a matter for planning, the
      hearing supports it and what counts there proves it. A view or a property value is
      refused whatever the hearing. */
  lemma ConfirmedConcernOutcome(k: Clerk, p: Filing, s: Console, said: Said, spend: seq<Booking>, o: Oracle)
    requires s.flow.Some? && s.flow.value.stage == Confirming && s.flow.value.current.Some?
    requires k.affirms(said.answer) && said.reply.Some? && Fileable(p, s.data, s.flow.value.current.value)
    requires var r := s.flow.value.current.value;
             Untagged(s.data, p.idOf(r.kind, r.initial)) && p.categoryOf(r.kind) == ConsoleCategory(r.kind)
    requires !Composed(Answered(k, p, s, said).console.data.events)
    ensures var r := s.flow.value.current.value;
            var g, d := p.idOf(r.kind, r.initial), Answered(k, p, s, said).console.data;
            var after := Play(World(d, spend), Plan(d, o)).world.data;
            (Reads(after, g, Supported) <==> PlanningMatter(r.kind) && HearingSupports(o.hearings(g), o))
            && (!PlanningMatter(r.kind) ==> Reads(after, g, Refused))
  {
    var r := s.flow.value.current.value;
    var g, d := p.idOf(r.kind, r.initial), Answered(k, p, s, said).console.data;
    ConfirmedIsCandidate(k, p, s, said);
    HeadIff(r.kind);
    var c := GroundIntake(g, p.categoryOf(r.kind), d.grounds[g].claim);
    var i := CandidateAt(d, c);
    OutcomeIs(World(d, spend), o, i);
  }
}
