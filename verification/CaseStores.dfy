/** The case store: keyed ground records beside an append-only event log, every
    mutation idempotent on its own natural key. */
module CaseStores {
  import opened Wrappers
  import opened Breakers
  import opened Ledgers

  // ---------------------------------------------------------------- records

  type GroundId = string

  datatype GroundStatus = Proposed | UnderReview | Supported | Refused | Flagged

  predicate Terminal(s: GroundStatus) { s == Supported || s == Refused || s == Flagged }

  /** The lifecycle: proposed, under review, then one of three terminal states. */
  predicate Allowed(current: GroundStatus, target: GroundStatus) {
    match current
    case Proposed => target == UnderReview
    case UnderReview => Terminal(target)
    case _ => false
  }

  /** What the gate rules, finer than the status a ground ends in. */
  datatype GateStatus = Shipped | RefusedIrrelevant | RefusedUnsubstantiated | FlaggedForReview

  datatype ProvenanceGrade = ResidentPhoto | StreetViewFallback | DocumentsOnly

  datatype BBox = BBox(x0: real, y0: real, x1: real, y1: real)

  datatype Anchor = Anchor(sourceDoc: string, page: int, bbox: BBox, grade: ProvenanceGrade)

  datatype GroundRecord = GroundRecord(id: GroundId, claim: string, status: GroundStatus, anchors: seq<Anchor>)

  /** Made from the application number and the resident session; the pair stands for its hash. */
  datatype CaseId = CaseId(applicationNumber: string, residentSession: string)

  // ---------------------------------------------------------------- events

  /** Six decimals, as an event id prints a coordinate. */
  function Rounded(v: real): int { (v * 1000000.0 + 0.5).Floor }

  function RoundedBox(b: BBox): (int, int, int, int) {
    (Rounded(b.x0), Rounded(b.y0), Rounded(b.x1), Rounded(b.y1))
  }

  /** The ids the store derives itself, and one constructor for the ids of its callers,
      who keep to their own. */
  datatype EventId =
    | CreatedId
    | ProposedId(g: GroundId)
    | StatusId(g: GroundId, status: GroundStatus)
    | AnchoredId(g: GroundId, doc: string, page: int, box: (int, int, int, int))
    | CallerId(key: Key)

  /** Ids used by the console and the tribunal job within one case. */
  datatype Key =
    | GroundCategoryKey(g: GroundId)
    | DocumentUploadedKey(doc: string)
    | IngestResolvedKey
    | GroundRerunSkippedKey(g: GroundId)
    | ReviewVerdictKey(g: GroundId, clauseReviewer: bool)
    | AdjudicationKey(g: GroundId)
    | GateDecisionKey(g: GroundId)
    | AnnotatedOverlayKey(doc: string)
    | CostBookedKey(kind: CostKind)
    | SubmissionComposedKey
    | RerunIgnoredKey
    | IllustrationKey(step: string)
    | JobFailedKey(exception: string)
    | TurnKey(turn: Turn)
    | OtherKey(name: string)

  datatype CostKind = StreetViewFetch | TribunalLedger

  datatype ConcernType =
    | HeightBulk | PrivacyOverlooking | Overshadowing | TreesLandscape | TrafficParking
    | HeritageCharacter | ViewLoss | PropertyValue | Noise | Other

  datatype Stage = Opening | Clarifying | RequestingEvidence | Confirming | AskMore | Done

  /** One message of an interview: whose it is, the stage it was said in, and its words. */
  datatype Turn = Turn(resident: bool, stage: Stage, text: string)

  /** Event type and payload in one value. */
  datatype Body =
    | CaseCreated(publicOrigin: bool, judgeOrigin: bool)
    | GroundProposed(g: GroundId, claim: string)
    | StatusChanged(g: GroundId, from: GroundStatus, to: GroundStatus)
    | EvidenceAnchored(g: GroundId, doc: string, page: int)
    | Caller(note: Note)

  /** What callers log. */
  datatype Note =
    | CategoryAssigned(g: GroundId, category: string, concern: ConcernType, evidence: seq<string>)
    | TurnTaken(turn: Turn)
    | GateDecided(g: GroundId, outcome: GateStatus)
    | CostBooked(kind: CostKind, amount: int)
    | SubmissionComposed
    | Plain(name: string)

  datatype CaseEvent = CaseEvent(id: EventId, body: Body, sequence: int)

  predicate Logged(events: seq<CaseEvent>, id: EventId) {
    exists i :: 0 <= i < |events| && events[i].id == id
  }

  // ---------------------------------------------------------------- one case

  datatype BreakerName = AdjudicatorBreaker | GateBreaker(g: GroundId)

  /** `order` is the insertion order of `grounds`; `events` keeps its own. */
  datatype CaseData = CaseData(
    id: CaseId,
    order: seq<GroundId>,
    grounds: map<GroundId, GroundRecord>,
    events: seq<CaseEvent>,
    breakers: map<BreakerName, Snapshot>,
    ledger: Option<LedgerSnapshot>)

  datatype StoreError =
    | CaseNotFound(c: CaseId)
    | GroundNotFound(g: GroundId)
    | InvalidTransition(g: GroundId, from: GroundStatus, to: GroundStatus)

  function Appended(d: CaseData, id: EventId, body: Body): CaseData {
    if Logged(d.events, id) then d
    else d.(events := d.events + [CaseEvent(id, body, |d.events|)])
  }

  datatype Op =
    | Propose(g: GroundId, claim: string, anchors: seq<Anchor>)
    | Transition(g: GroundId, status: GroundStatus)
    | AddAnchor(g: GroundId, anchor: Anchor)
    | Append(key: Key, note: Note)
    | SaveBreaker(name: BreakerName, snapshot: Snapshot)
    | SaveLedger(calls: LedgerSnapshot)

  function AnchorEventId(g: GroundId, a: Anchor): EventId {
    AnchoredId(g, a.sourceDoc, a.page, RoundedBox(a.bbox))
  }

  /** What one operation makes of a case, or the exception it raises. */
  function Apply(d: CaseData, op: Op): Result<CaseData, StoreError> {
    match op
    case Propose(g, claim, anchors) =>
      if g in d.grounds then Ok(d)
      else
        var record := GroundRecord(g, claim, Proposed, anchors);
        Ok(Appended(d.(order := d.order + [g], grounds := d.grounds[g := record]),
                    ProposedId(g), GroundProposed(g, claim)))
    case Transition(g, status) =>
      if g !in d.grounds then Err(GroundNotFound(g))
      else
        var current := d.grounds[g];
        if current.status == status then Ok(d)
        else if !Allowed(current.status, status) then Err(InvalidTransition(g, current.status, status))
        else Ok(Appended(d.(grounds := d.grounds[g := current.(status := status)]),
                         StatusId(g, status), StatusChanged(g, current.status, status)))
    case AddAnchor(g, anchor) =>
      if g !in d.grounds then Err(GroundNotFound(g))
      else
        var current := d.grounds[g];
        if anchor in current.anchors then Ok(d)
        else Ok(Appended(d.(grounds := d.grounds[g := current.(anchors := current.anchors + [anchor])]),
                         AnchorEventId(g, anchor), EvidenceAnchored(g, anchor.sourceDoc, anchor.page)))
    case Append(key, note) => Ok(Appended(d, CallerId(key), Caller(note)))
    case SaveBreaker(name, snapshot) => Ok(d.(breakers := d.breakers[name := snapshot]))
    case SaveLedger(calls) => Ok(d.(ledger := Some(calls)))
  }

  // ---------------------------------------------------------------- the whole store

  type Cases = map<CaseId, CaseData>

  datatype StoreOp =
    | Create(applicationNumber: string, residentSession: string, publicOrigin: bool, judgeOrigin: bool)
    | On(c: CaseId, op: Op)

  function NewCase(c: CaseId, publicOrigin: bool, judgeOrigin: bool): CaseData {
    Appended(CaseData(c, [], map[], [], map[], None), CreatedId, CaseCreated(publicOrigin, judgeOrigin))
  }

  function ApplyStore(cases: Cases, op: StoreOp): Result<Cases, StoreError> {
    match op
    case Create(app, session, public, judge) =>
      var c := CaseId(app, session);
      if c in cases then Ok(cases) else Ok(cases[c := NewCase(c, public, judge)])
    case On(c, op) =>
      if c !in cases then Err(CaseNotFound(c))
      else match Apply(cases[c], op)
        case Err(e) => Err(e)
        case Ok(d) => Ok(cases[c := d])
  }

  /** An exception leaves the store as it was. */
  function After(cases: Cases, op: StoreOp): Cases {
    match ApplyStore(cases, op)
    case Ok(after) => after
    case Err(_) => cases
  }

  function ErrorOf(cases: Cases, op: StoreOp): Result<(), StoreError> {
    match ApplyStore(cases, op)
    case Ok(_) => Ok(())
    case Err(e) => Err(e)
  }

  class InMemoryCaseStore {
    var cases: Cases

    constructor ()
      ensures cases == map[]
    {
      cases := map[];
    }

    method CreateCase(applicationNumber: string, residentSession: string, publicOrigin: bool, judgeOrigin: bool)
      returns (c: CaseId)
      modifies this
      ensures c == CaseId(applicationNumber, residentSession)
      ensures cases == After(old(cases), Create(applicationNumber, residentSession, publicOrigin, judgeOrigin))
    {
      c := CaseId(applicationNumber, residentSession);
      if c in cases {
        return;
      }
      cases := cases[c := CaseData(c, [], map[], [], map[], None)];
      LogEvent(c, CreatedId, CaseCreated(publicOrigin, judgeOrigin));
    }

    /** Appends unless the id is already there; the first event under an id stays. */
    method LogEvent(c: CaseId, id: EventId, body: Body)
      requires c in cases
      modifies this
      ensures cases == old(cases)[c := Appended(old(cases[c]), id, body)]
    {
      var data := cases[c];
      var i := 0;
      while i < |data.events|
        invariant 0 <= i <= |data.events| && cases == old(cases)
        invariant forall j :: 0 <= j < i ==> data.events[j].id != id
      {
        if data.events[i].id == id {
          assert Logged(data.events, id);
          assert cases == old(cases)[c := data];
          return;
        }
        i := i + 1;
      }
      cases := cases[c := data.(events := data.events + [CaseEvent(id, body, |data.events|)])];
    }

    method AppendEvent(c: CaseId, key: Key, note: Note) returns (r: Result<(), StoreError>)
      modifies this
      ensures cases == After(old(cases), On(c, Append(key, note)))
      ensures r == ErrorOf(old(cases), On(c, Append(key, note)))
    {
      if c !in cases {
        return Err(CaseNotFound(c));
      }
      LogEvent(c, CallerId(key), Caller(note));
      return Ok(());
    }

    method ProposeGround(c: CaseId, g: GroundId, claim: string, anchors: seq<Anchor>)
      returns (r: Result<(), StoreError>)
      modifies this
      ensures cases == After(old(cases), On(c, Propose(g, claim, anchors)))
      ensures r == ErrorOf(old(cases), On(c, Propose(g, claim, anchors)))
    {
      if c !in cases {
        return Err(CaseNotFound(c));
      }
      var data := cases[c];
      if g in data.grounds {
        assert cases == cases[c := data];
        return Ok(());
      }
      var record := GroundRecord(g, claim, Proposed, anchors);
      cases := cases[c := data.(order := data.order + [g], grounds := data.grounds[g := record])];
      LogEvent(c, ProposedId(g), GroundProposed(g, claim));
      return Ok(());
    }

    method TransitionGround(c: CaseId, g: GroundId, status: GroundStatus) returns (r: Result<(), StoreError>)
      modifies this
      ensures cases == After(old(cases), On(c, Transition(g, status)))
      ensures r == ErrorOf(old(cases), On(c, Transition(g, status)))
    {
      if c !in cases {
        return Err(CaseNotFound(c));
      }
      var data := cases[c];
      if g !in data.grounds {
        return Err(GroundNotFound(g));
      }
      var current := data.grounds[g];
      if current.status == status {
        assert cases == cases[c := data];
        return Ok(());
      }
      if !Allowed(current.status, status) {
        return Err(InvalidTransition(g, current.status, status));
      }
      cases := cases[c := data.(grounds := data.grounds[g := current.(status := status)])];
      LogEvent(c, StatusId(g, status), StatusChanged(g, current.status, status));
      return Ok(());
    }

    method AddEvidenceAnchor(c: CaseId, g: GroundId, anchor: Anchor) returns (r: Result<(), StoreError>)
      modifies this
      ensures cases == After(old(cases), On(c, AddAnchor(g, anchor)))
      ensures r == ErrorOf(old(cases), On(c, AddAnchor(g, anchor)))
    {
      if c !in cases {
        return Err(CaseNotFound(c));
      }
      var data := cases[c];
      if g !in data.grounds {
        return Err(GroundNotFound(g));
      }
      var current := data.grounds[g];
      if anchor in current.anchors {
        assert cases == cases[c := data];
        return Ok(());
      }
      cases := cases[c := data.(grounds := data.grounds[g := current.(anchors := current.anchors + [anchor])])];
      LogEvent(c, AnchorEventId(g, anchor), EvidenceAnchored(g, anchor.sourceDoc, anchor.page));
      return Ok(());
    }

    method SaveBreakerSnapshot(c: CaseId, name: BreakerName, snapshot: Snapshot) returns (r: Result<(), StoreError>)
      modifies this
      ensures cases == After(old(cases), On(c, SaveBreaker(name, snapshot)))
      ensures r == ErrorOf(old(cases), On(c, SaveBreaker(name, snapshot)))
    {
      if c !in cases {
        return Err(CaseNotFound(c));
      }
      cases := cases[c := cases[c].(breakers := cases[c].breakers[name := snapshot])];
      return Ok(());
    }

    method SaveLedgerSnapshot(c: CaseId, calls: LedgerSnapshot) returns (r: Result<(), StoreError>)
      modifies this
      ensures cases == After(old(cases), On(c, SaveLedger(calls)))
      ensures r == ErrorOf(old(cases), On(c, SaveLedger(calls)))
    {
      if c !in cases {
        return Err(CaseNotFound(c));
      }
      cases := cases[c := cases[c].(ledger := Some(calls))];
      return Ok(());
    }

    /** Rebuilds a saved breaker through its public operations; none for an unknown name. */
    method LoadBreaker(c: CaseId, name: BreakerName, clock: nat -> real) returns (b: CircuitBreaker?)
      ensures b == null <==> c !in cases || name !in cases[c].breakers
      ensures b != null ==>
                fresh(b) && b.settings == cases[c].breakers[name].settings
                && b.View() == Restored(cases[c].breakers[name],
                                        clock(2 * Max(1, cases[c].breakers[name].settings.threshold) - 1))
    {
      if c !in cases || name !in cases[c].breakers {
        return null;
      }
      b := RestoreBreaker("", cases[c].breakers[name], clock);
    }

    /** The events of a case in sequence order, none for an unknown case. */
    method ListEvents(c: CaseId) returns (events: seq<CaseEvent>)
      ensures events == if c in cases then cases[c].events else []
    {
      events := if c in cases then cases[c].events else [];
    }

    /** The grounds of a case in the order they were proposed. */
    method ListGrounds(c: CaseId) returns (grounds: seq<GroundRecord>)
      requires c in cases ==> forall g :: g in cases[c].order ==> g in cases[c].grounds
      ensures c !in cases ==> grounds == []
      ensures c in cases ==>
                |grounds| == |cases[c].order|
                && forall i :: 0 <= i < |grounds| ==> grounds[i] == cases[c].grounds[cases[c].order[i]]
    {
      grounds := [];
      if c in cases {
        var data := cases[c];
        for i := 0 to |data.order|
          invariant |grounds| == i
          invariant forall j :: 0 <= j < i ==> grounds[j] == data.grounds[data.order[j]]
        {
          grounds := grounds + [data.grounds[data.order[i]]];
        }
      }
    }
  }
}
