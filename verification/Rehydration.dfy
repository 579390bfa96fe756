/** The console's side of an interview: every turn persisted, and the flow rebuilt from the
    log by a process that never saw it. */
module Rehydration {
  import opened Wrappers
  import opened CaseStores
  import opened Interviews

  // ---------------------------------------------------------------- the persisted turns

  /** The turns of a log, oldest first. */
  function Turns(events: seq<CaseEvent>): seq<Turn> {
    if events == [] then []
    else
      var last := events[|events| - 1];
      Turns(events[..|events| - 1]) + (if last.body.Caller? && last.body.note.TurnTaken? then [last.body.note.turn] else [])
  }

  /** A turn already in the log is not written again. */
  function Persisted(turns: seq<Turn>, t: Turn): seq<Turn> { if t in turns then turns else turns + [t] }

  function PersistedIn(d: CaseData, t: Turn): CaseData { Appended(d, CallerId(TurnKey(t)), Caller(TurnTaken(t))) }

  // ---------------------------------------------------------------- rebuilding a flow

  predicate AsksForMore(t: Turn) { !t.resident && t.stage == AskMore }

  /** Just after the last time the resident was asked for more. */
  function BlockStart(turns: seq<Turn>): (n: nat)
    ensures n <= |turns|
  {
    if turns == [] then 0
    else if AsksForMore(turns[|turns| - 1]) then |turns|
    else BlockStart(turns[..|turns| - 1])
  }

  function FirstStatement(block: seq<Turn>): Option<string> {
    if block == [] then None
    else
      var before := FirstStatement(block[..|block| - 1]);
      var last := block[|block| - 1];
      if before.None? && last.resident && last.stage == Opening then Some(last.text) else before
  }

  predicate Clarifies(t: Turn) { t.resident && (t.stage == Clarifying || t.stage == RequestingEvidence) }

  function Clarifications(block: seq<Turn>): seq<string> {
    if block == [] then []
    else Clarifications(block[..|block| - 1]) + (if Clarifies(block[|block| - 1]) then [block[|block| - 1].text] else [])
  }

  function Lines(parts: seq<string>): string {
    if parts == [] then ""
    else if |parts| == 1 then parts[0]
    else Lines(parts[..|parts| - 1]) + "\n" + parts[|parts| - 1]
  }

  /** The rebuilt concern has no base and no disputes. */
  function RebuiltConcern(k: Clerk, initial: string, parts: seq<string>): RaisedConcern {
    var redacted := k.redact(initial);
    var clarification := if parts == [] then None else Some(Lines(parts));
    RaisedConcern(k.classify(initial), initial, clarification, [], [], false,
                  if clarification.None? || clarification.value == "" then redacted
                  else Trim(k, redacted + " " + k.redact(clarification.value)), "")
  }

  function InProgressConcern(k: Clerk, turns: seq<Turn>): Option<RaisedConcern> {
    if turns == [] || !InProgress(turns[|turns| - 1].stage) then None
    else
      var block := turns[BlockStart(turns)..];
      var initial := FirstStatement(block);
      if initial.None? then None else Some(RebuiltConcern(k, initial.value, Clarifications(block)))
  }

  datatype Tag = Tag(concern: ConcernType, evidence: seq<string>)

  /** The type and documents each ground was last tagged with. */
  function Tags(events: seq<CaseEvent>): map<GroundId, Tag> {
    if events == [] then map[]
    else
      var before := Tags(events[..|events| - 1]);
      var last := events[|events| - 1].body;
      if last.Caller? && last.note.CategoryAssigned?
      then before[last.note.g := Tag(last.note.concern, last.note.evidence)] else before
  }

  /** A confirmed concern, from its ground's claim and tag. */
  function ConfirmedConcern(k: Clerk, g: GroundRecord, tags: map<GroundId, Tag>): RaisedConcern {
    var tag := if g.id in tags then tags[g.id] else Tag(k.classify(g.claim), []);
    RaisedConcern(tag.concern, g.claim, None, tag.evidence, [], true, g.claim, "")
  }

  function ConfirmedConcerns(k: Clerk, d: CaseData): seq<RaisedConcern>
    requires Indexed(d)
  {
    var tags := Tags(d.events);
    seq(|d.order|, i requires 0 <= i < |d.order| => ConfirmedConcern(k, d.grounds[d.order[i]], tags))
  }

  function Rebuilt(k: Clerk, turns: seq<Turn>, confirmed: seq<RaisedConcern>): FlowState {
    FlowState(if turns == [] then Opening else turns[|turns| - 1].stage, turns, confirmed, InProgressConcern(k, turns))
  }

  method ReconstructInProgressConcern(k: Clerk, turns: seq<Turn>) returns (concern: Option<RaisedConcern>)
    ensures concern == InProgressConcern(k, turns)
  {
    if turns == [] || !InProgress(turns[|turns| - 1].stage) {
      return None;
    }
    var start := 0;
    var i := 0;
    while i < |turns|
      invariant 0 <= i <= |turns| && start == BlockStart(turns[..i])
    {
      assert turns[..i + 1][..i] == turns[..i];
      if AsksForMore(turns[i]) {
        start := i + 1;
      }
      i := i + 1;
    }
    assert turns[..i] == turns;
    var block := turns[start..];
    var initial: Option<string> := None;
    var parts: seq<string> := [];
    i := 0;
    while i < |block|
      invariant 0 <= i <= |block|
      invariant initial == FirstStatement(block[..i]) && parts == Clarifications(block[..i])
    {
      assert block[..i + 1][..i] == block[..i];
      var t := block[i];
      if t.resident {
        if t.stage == Opening && initial.None? {
          initial := Some(t.text);
        } else if t.stage == Clarifying || t.stage == RequestingEvidence {
          parts := parts + [t.text];
        }
      }
      i := i + 1;
    }
    assert block[..i] == block;
    if initial.None? {
      return None;
    }
    return Some(RebuiltConcern(k, initial.value, parts));
  }

  // ---------------------------------------------------------------- the console

  datatype ConsoleError = NoSuchCase | NotStarted | Raised(error: FlowError)

  /** The case as stored, and the flow this process holds for it, if any. */
  datatype Console = Console(data: CaseData, flow: Option<FlowState>)

  /** The turn shown to the resident, if the request shows one. */
  type Response = Result<Option<Turn>, ConsoleError>

  datatype Reply = Reply(console: Console, response: Response)

  /** How a confirmed concern becomes a ground: its id and its category. */
  datatype Filing = Filing(idOf: (ConcernType, string) -> GroundId, categoryOf: ConcernType -> string)

  /** The category each type of concern is filed under: a statutory head, or a matter that is
      none. */
  function ConsoleCategory(kind: ConcernType): string {
    match kind
    case HeightBulk => "epi_dcp_provisions"
    case HeritageCharacter => "epi_dcp_provisions"
    case ViewLoss => "private_view_loss"
    case PropertyValue => "property_value"
    case _ => "environmental_and_social_impacts"
  }

  function ClaimOf(r: RaisedConcern): string { if r.redacted != "" then r.redacted else r.initial }

  function Filed(p: Filing, d: CaseData, r: RaisedConcern): (d': CaseData)
    ensures Indexed(d) ==> Indexed(d')
  {
    var g := p.idOf(r.kind, r.initial);
    var proposed := Apply(d, Propose(g, ClaimOf(r), [])).value;
    Appended(proposed, CallerId(GroundCategoryKey(g)), Caller(CategoryAssigned(g, p.categoryOf(r.kind), r.kind, r.evidence)))
  }

  /** What the console writes once the machine has replied: the question, and the ground of
      a concern just confirmed. */
  function Recorded(p: Filing, d: CaseData, stepped: Stepped): (d': CaseData)
    ensures Indexed(d) ==> Indexed(d')
  {
    if stepped.reply.Err? then d
    else
      var asked := PersistedIn(d, stepped.reply.value);
      if stepped.reply.value.stage == AskMore && stepped.flow.concerns != []
      then Filed(p, asked, stepped.flow.concerns[|stepped.flow.concerns| - 1]) else asked
  }

  /** The answer is persisted before the machine sees it. */
  function Answered(k: Clerk, p: Filing, s: Console, said: Said): (r: Reply)
    ensures Indexed(s.data) ==> Indexed(r.console.data)
  {
    if s.flow.None? then Reply(s, Err(NotStarted))
    else
      var heard := PersistedIn(s.data, Turn(true, s.flow.value.stage, said.answer));
      var stepped := Submitted(k, s.flow.value, said);
      Reply(Console(Recorded(p, heard, stepped), Some(stepped.flow)),
            if stepped.reply.Err? then Err(Raised(stepped.reply.error)) else Ok(Some(stepped.reply.value)))
  }

  /** A document is noted; with a flow at hand it is attached, and the turn that comes back
      is persisted as the system's, whoever said it. */
  function Attached(s: Console, document: string, message: Option<string>): (r: Reply)
    ensures Indexed(s.data) ==> Indexed(r.console.data)
  {
    var d1 := Appended(s.data, CallerId(DocumentUploadedKey(document)), Caller(Plain("document_uploaded")));
    if s.flow.None? then Reply(Console(d1, None), Ok(None))
    else
      var stepped := Uploaded(s.flow.value, document, message);
      if stepped.reply.Err? then Reply(Console(d1, Some(stepped.flow)), Err(Raised(stepped.reply.error)))
      else
        var turn := stepped.reply.value;
        Reply(Console(PersistedIn(d1, Turn(false, turn.stage, turn.text)), Some(stepped.flow)), Ok(None))
  }

  /** Looking at the interview: rebuild what this process does not hold, and greet a case
      that has nothing to rebuild. */
  function Viewed(k: Clerk, s: Console, greeting: Option<string>): (r: Reply)
    requires Indexed(s.data)
    ensures Indexed(r.console.data)
  {
    var turns := Turns(s.data.events);
    if s.flow.Some? then
      if s.flow.value.transcript == [] then Reply(s, Err(Raised(NothingSaid)))
      else Reply(s, Ok(Some(s.flow.value.transcript[|s.flow.value.transcript| - 1])))
    else if turns != [] then
      Reply(s.(flow := Some(Rebuilt(k, turns, ConfirmedConcerns(k, s.data)))), Ok(Some(turns[|turns| - 1])))
    else
      var stepped := Ask(FlowState(Opening, [], [], None), Opening, greeting);
      if stepped.reply.Err? then Reply(s, Err(Raised(stepped.reply.error)))
      else Reply(Console(PersistedIn(s.data, stepped.reply.value), Some(stepped.flow)), Ok(Some(stepped.reply.value)))
  }

  predicate Indexed(d: CaseData) { forall g :: g in d.order ==> g in d.grounds }

  /** What one process knows of one case; a process that starts afresh holds no flow. */
  class InterviewConsole {
    const store: InMemoryCaseStore
    const c: CaseId
    const clerk: Clerk
    const filing: Filing
    var flow: InterviewFlow?

    ghost predicate Valid()
      reads this, flow
    {
      flow != null ==> flow.clerk == clerk
    }

    ghost function State(): Console
      requires c in store.cases
      reads this, store, flow
    {
      Console(store.cases[c], if flow == null then None else Some(flow.View()))
    }

    constructor (store: InMemoryCaseStore, c: CaseId, clerk: Clerk, filing: Filing)
      ensures Valid() && flow == null
      ensures this.store == store && this.c == c && this.clerk == clerk && this.filing == filing
    {
      this.store, this.c, this.clerk, this.filing := store, c, clerk, filing;
      flow := null;
    }

    method Persist(t: Turn)
      requires c in store.cases
      modifies store
      ensures store.cases == old(store.cases)[c := PersistedIn(old(store.cases[c]), t)]
    {
      var _ := store.AppendEvent(c, TurnKey(t), TurnTaken(t));
    }

    /** Proposes the ground of a confirmed concern and tags it with its category. */
    method ProposeGroundFor(r: RaisedConcern)
      requires c in store.cases
      modifies store
      ensures store.cases == old(store.cases)[c := Filed(filing, old(store.cases[c]), r)]
    {
      var g := filing.idOf(r.kind, r.initial);
      var _ := store.ProposeGround(c, g, ClaimOf(r), []);
      var _ := store.AppendEvent(c, GroundCategoryKey(g), CategoryAssigned(g, filing.categoryOf(r.kind), r.kind, r.evidence));
    }

    method AnswerInterview(said: Said) returns (response: Response)
      requires Valid()
      modifies this, store, flow
      ensures Valid() && flow == old(flow)
      ensures c !in old(store.cases) ==> response == Err(NoSuchCase) && store.cases == old(store.cases)
      ensures c in old(store.cases) ==>
                c in store.cases && Reply(State(), response) == Answered(clerk, filing, old(State()), said)
    {
      if c !in store.cases {
        return Err(NoSuchCase);
      }
      if flow == null {
        return Err(NotStarted);
      }
      Persist(Turn(true, flow.stage, said.answer));
      var reply := flow.Submit(said);
      if reply.Err? {
        return Err(Raised(reply.error));
      }
      var turn := reply.value;
      Persist(turn);
      if turn.stage == AskMore && flow.concerns != [] {
        ProposeGroundFor(flow.concerns[|flow.concerns| - 1]);
      }
      return Ok(Some(turn));
    }

    method UploadDocument(document: string, message: Option<string>) returns (response: Response)
      requires Valid()
      modifies this, store, flow
      ensures Valid() && flow == old(flow)
      ensures c !in old(store.cases) ==> response == Err(NoSuchCase) && store.cases == old(store.cases)
      ensures c in old(store.cases) ==>
                c in store.cases && Reply(State(), response) == Attached(old(State()), document, message)
    {
      if c !in store.cases {
        return Err(NoSuchCase);
      }
      var _ := store.AppendEvent(c, DocumentUploadedKey(document), Plain("document_uploaded"));
      if flow == null {
        return Ok(None);
      }
      var reply := flow.RecordEvidenceUpload(document, message);
      if reply.Err? {
        return Err(Raised(reply.error));
      }
      Persist(Turn(false, reply.value.stage, reply.value.text));
      return Ok(None);
    }

    /** The persisted turns of this case. */
    method PersistedTurns() returns (turns: seq<Turn>)
      requires c in store.cases
      ensures turns == Turns(store.cases[c].events)
    {
      var events := store.cases[c].events;
      turns := [];
      var i := 0;
      while i < |events|
        invariant 0 <= i <= |events| && turns == Turns(events[..i])
      {
        assert events[..i + 1][..i] == events[..i];
        if events[i].body.Caller? && events[i].body.note.TurnTaken? {
          turns := turns + [events[i].body.note.turn];
        }
        i := i + 1;
      }
      assert events[..i] == events;
    }

    /** What every ground of this case was last tagged with. */
    method LatestTags() returns (tags: map<GroundId, Tag>)
      requires c in store.cases
      ensures tags == Tags(store.cases[c].events)
    {
      var events := store.cases[c].events;
      tags := map[];
      var i := 0;
      while i < |events|
        invariant 0 <= i <= |events| && tags == Tags(events[..i])
      {
        assert events[..i + 1][..i] == events[..i];
        var body := events[i].body;
        if body.Caller? && body.note.CategoryAssigned? {
          tags := tags[body.note.g := Tag(body.note.concern, body.note.evidence)];
        }
        i := i + 1;
      }
      assert events[..i] == events;
    }

    method ReconstructConfirmedConcerns() returns (confirmed: seq<RaisedConcern>)
      requires c in store.cases && Indexed(store.cases[c])
      ensures confirmed == ConfirmedConcerns(clerk, store.cases[c])
    {
      var grounds := store.ListGrounds(c);
      var tags := LatestTags();
      confirmed := [];
      var i := 0;
      while i < |grounds|
        invariant 0 <= i <= |grounds| && |confirmed| == i
        invariant forall j :: 0 <= j < i ==> confirmed[j] == ConfirmedConcern(clerk, grounds[j], tags)
      {
        confirmed := confirmed + [ConfirmedConcern(clerk, grounds[i], tags)];
        i := i + 1;
      }
    }

    /** Holds the flow the log amounts to. */
    method Rehydrate(turns: seq<Turn>)
      requires c in store.cases && Indexed(store.cases[c]) && turns == Turns(store.cases[c].events)
      modifies this
      ensures flow != null && fresh(flow) && flow.clerk == clerk
      ensures flow.View() == Rebuilt(clerk, turns, ConfirmedConcerns(clerk, store.cases[c]))
    {
      var confirmed := ReconstructConfirmedConcerns();
      var current := ReconstructInProgressConcern(clerk, turns);
      flow := new InterviewFlow.Resume(clerk, turns, confirmed, current);
    }

    /** Greets a resident who has said nothing yet, and persists the greeting. */
    method Greet(greeting: Option<string>) returns (begun: Result<InterviewFlow, FlowError>)
      requires c in store.cases
      modifies store
      ensures var asked := Ask(FlowState(Opening, [], [], None), Opening, greeting);
              match begun
              case Err(e) => asked.reply == Err(e) && store.cases == old(store.cases)
              case Ok(f) => fresh(f) && f.clerk == clerk && asked.reply.Ok? && f.View() == asked.flow
                            && store.cases == old(store.cases)[c := PersistedIn(old(store.cases[c]), asked.reply.value)]
    {
      var f := new InterviewFlow(clerk);
      var reply := f.Start(greeting);
      if reply.Err? {
        return Err(reply.error);
      }
      Persist(reply.value);
      return Ok(f);
    }

    method GetInterview(greeting: Option<string>) returns (response: Response)
      requires Valid() && (c in store.cases ==> Indexed(store.cases[c]))
      modifies this, store
      ensures Valid() && (old(flow) != null ==> flow == old(flow)) && (old(flow) == null && flow != null ==> fresh(flow))
      ensures c !in old(store.cases) ==> response == Err(NoSuchCase) && store.cases == old(store.cases)
      ensures c in old(store.cases) ==>
                c in store.cases && Reply(State(), response) == Viewed(clerk, old(State()), greeting)
    {
      if c !in store.cases {
        return Err(NoSuchCase);
      }
      if flow == null {
        var turns := PersistedTurns();
        if turns != [] {
          Rehydrate(turns);
        } else {
          var begun := Greet(greeting);
          if begun.Err? {
            return Err(Raised(begun.error));
          }
          flow := begun.value;
        }
      }
      if flow.transcript == [] {
        return Err(Raised(NothingSaid));
      }
      return Ok(Some(flow.transcript[|flow.transcript| - 1]));
    }
  }
}
