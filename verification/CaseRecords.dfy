/** What a store holds of a case after any operations, failed ones included, told from the
    operations alone. */
module CaseRecords {
  import opened Wrappers
  import opened Breakers
  import opened CaseStores
  import opened CaseStoreLaws

  /** The origins the case was first created with. */
  function FirstCreated(ops: seq<StoreOp>, c: CaseId): Option<(bool, bool)> {
    if ops == [] then None
    else
      var before, last := FirstCreated(ops[..|ops| - 1], c), ops[|ops| - 1];
      if before.None? && last.Create? && CaseId(last.applicationNumber, last.residentSession) == c
      then Some((last.publicOrigin, last.judgeOrigin)) else before
  }

  /** An operation on the case once it is there. */
  predicate Reaches(ops: seq<StoreOp>, c: CaseId)
    requires ops != []
  {
    FirstCreated(ops[..|ops| - 1], c).Some? && ops[|ops| - 1].On? && ops[|ops| - 1].c == c
  }

  datatype Asked = Asked(claim: string, anchors: seq<Anchor>)

  /** What is asked of one ground, one operation later. */
  function AskedNext(before: Option<Asked>, op: Op, g: GroundId): Option<Asked> {
    match op
    case Propose(h, claim, anchors) => if h == g && before.None? then Some(Asked(claim, anchors)) else before
    case AddAnchor(h, a) =>
      if h == g && before.Some? && a !in before.value.anchors
      then Some(before.value.(anchors := before.value.anchors + [a])) else before
    case _ => before
  }

  /** The claim of the first proposal, and its anchors followed by each one added since. */
  function AskedOf(ops: seq<StoreOp>, c: CaseId, g: GroundId): Option<Asked> {
    if ops == [] then None
    else
      var before := AskedOf(ops[..|ops| - 1], c, g);
      if Reaches(ops, c) then AskedNext(before, ops[|ops| - 1].op, g) else before
  }

  /** The snapshot last saved under a name. */
  function LastSaved(ops: seq<StoreOp>, c: CaseId, name: BreakerName): Option<Snapshot> {
    if ops == [] then None
    else
      var before := LastSaved(ops[..|ops| - 1], c, name);
      if Reaches(ops, c) && ops[|ops| - 1].op.SaveBreaker? && ops[|ops| - 1].op.name == name
      then Some(ops[|ops| - 1].op.snapshot) else before
  }

  ghost predicate CreatedAs(cases: Cases, c: CaseId, made: Option<(bool, bool)>) {
    && (c in cases <==> made.Some?)
    && (c in cases ==> cases[c].id == c && cases[c].events != [] && cases[c].events[0].body == CaseCreated(made.value.0, made.value.1))
  }

  /** A case is there once it was created, and keeps the origins of its first creation. */
  lemma {:induction false} CaseIs(ops: seq<StoreOp>, c: CaseId)
    ensures CreatedAs(RunAll(map[], ops), c, FirstCreated(ops, c))
  {
    if ops != [] {
      var init, last := ops[..|ops| - 1], ops[|ops| - 1];
      CaseIs(init, c);
      CreatedStep(RunAll(map[], init), last, c, FirstCreated(init, c));
    }
  }

  lemma CreatedStep(cases: Cases, op: StoreOp, c: CaseId, made: Option<(bool, bool)>)
    requires CreatedAs(cases, c, made)
    ensures CreatedAs(After(cases, op), c,
                      if made.None? && op.Create? && CaseId(op.applicationNumber, op.residentSession) == c
                      then Some((op.publicOrigin, op.judgeOrigin)) else made)
  {
    if op.On? && op.c == c && c in cases && Apply(cases[c], op.op).Ok? {
      KeepsStart(cases[c], op.op);
    }
  }

  lemma KeepsStart(d: CaseData, op: Op)
    requires Apply(d, op).Ok?
    ensures Apply(d, op).value.id == d.id && d.events <= Apply(d, op).value.events
  {}

  ghost predicate RecordedAs(d: CaseData, g: GroundId, asked: Option<Asked>) {
    && (g in d.grounds <==> asked.Some?)
    && (g in d.grounds ==>
          d.grounds[g].id == g && d.grounds[g].claim == asked.value.claim && d.grounds[g].anchors == asked.value.anchors)
  }

  lemma RecordStep(d: CaseData, op: Op, g: GroundId, before: Option<Asked>)
    requires RecordedAs(d, g, before)
    ensures RecordedAs(if Apply(d, op).Ok? then Apply(d, op).value else d, g, AskedNext(before, op, g))
  {}

  lemma {:induction false} NothingAsked(ops: seq<StoreOp>, c: CaseId, g: GroundId, name: BreakerName)
    requires FirstCreated(ops, c).None?
    ensures AskedOf(ops, c, g).None? && LastSaved(ops, c, name).None?
  {
    if ops != [] {
      NothingAsked(ops[..|ops| - 1], c, g, name);
    }
  }

  /** A ground is there once it was proposed on its case; it has the claim of its first
      proposal, and that proposal's anchors followed by those added since, each once. */
  lemma {:induction false} RecordIs(ops: seq<StoreOp>, c: CaseId, g: GroundId)
    requires c in RunAll(map[], ops)
    ensures RecordedAs(RunAll(map[], ops)[c], g, AskedOf(ops, c, g))
  {
    CaseIs(ops, c);
    var init, last := ops[..|ops| - 1], ops[|ops| - 1];
    var before := RunAll(map[], init);
    CaseIs(init, c);
    if c in before {
      RecordIs(init, c, g);
      if last.On? && last.c == c {
        RecordStep(before[c], last.op, g, AskedOf(init, c, g));
      }
    } else {
      NothingAsked(init, c, g, AdjudicatorBreaker);
    }
  }

  lemma SaveStep(d: CaseData, op: Op, name: BreakerName)
    ensures var after := if Apply(d, op).Ok? then Apply(d, op).value else d;
            if op.SaveBreaker? && op.name == name then name in after.breakers && after.breakers[name] == op.snapshot
            else (name in after.breakers <==> name in d.breakers) && (name in after.breakers ==> after.breakers[name] == d.breakers[name])
  {}

  /** And a breaker is as it was last saved. */
  lemma {:induction false} BreakerIs(ops: seq<StoreOp>, c: CaseId, name: BreakerName)
    requires c in RunAll(map[], ops)
    ensures var saved := RunAll(map[], ops)[c].breakers;
            (name in saved <==> LastSaved(ops, c, name).Some?)
            && (name in saved ==> saved[name] == LastSaved(ops, c, name).value)
  {
    CaseIs(ops, c);
    var init, last := ops[..|ops| - 1], ops[|ops| - 1];
    var before := RunAll(map[], init);
    CaseIs(init, c);
    if c in before {
      BreakerIs(init, c, name);
      if last.On? && last.c == c {
        SaveStep(before[c], last.op, name);
      }
    } else {
      NothingAsked(init, c, "", name);
    }
  }
}
