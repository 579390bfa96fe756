/** The run ledger: priced model calls under a spend ceiling, and its persistence
    by replaying token counts. Money is in billionths of a dollar, in which every
    list price is a whole amount per token. */
module Ledgers {
  import opened Wrappers

  datatype TokenUsage = TokenUsage(promptTokens: int, outputTokens: int, thinkingTokens: int, estimated: bool)

  datatype CallRecord = CallRecord(stage: string, model: string, usage: TokenUsage, cost: int)

  datatype LedgerError = UnknownModel(model: string) | BudgetExceeded(projected: int)

  /** Input and output price per token, in billionths of a dollar. */
  const PRICING: map<string, (int, int)> := map[
    "gemini-3.5-flash-lite" := (300, 2500),
    "gemini-3.7-flash" := (1500, 7500),
    "gemma-4-26b-a4b-it-maas" := (150, 600)
  ]

  function CostFor(model: string, usage: TokenUsage): Result<int, LedgerError> {
    if model !in PRICING then Err(UnknownModel(model))
    else Ok(Price(PRICING[model], usage.promptTokens, usage.outputTokens + usage.thinkingTokens))
  }

  /** Thinking tokens bill as output. */
  function Price(rates: (int, int), input: int, output: int): int {
    input * rates.0 + output * rates.1
  }

  /** One more token costs its list price; thinking tokens cost what output tokens do. */
  lemma TokenCosts(model: string, u: TokenUsage)
    requires model in PRICING
    ensures var cost, rates := CostFor(model, u).value, PRICING[model];
            CostFor(model, u.(promptTokens := u.promptTokens + 1)) == Ok(cost + rates.0)
            && CostFor(model, u.(outputTokens := u.outputTokens + 1)) == Ok(cost + rates.1)
            && CostFor(model, u.(thinkingTokens := u.thinkingTokens + 1)) == Ok(cost + rates.1)
            && CostFor(model, u.(estimated := !u.estimated)) == Ok(cost)
    ensures CostFor(model, TokenUsage(0, 0, 0, u.estimated)) == Ok(0)
  {}

  function Total(records: seq<CallRecord>): int {
    if records == [] then 0
    else Total(records[..|records| - 1]) + records[|records| - 1].cost
  }

  class Ledger {
    const ceiling: int
    var records: seq<CallRecord>

    constructor (ceiling: int)
      ensures this.ceiling == ceiling && records == []
    {
      this.ceiling := ceiling;
      records := [];
    }

    method TotalCost() returns (total: int)
      ensures total == Total(records)
    {
      total := 0;
      var i := 0;
      while i < |records|
        invariant 0 <= i <= |records| && total == Total(records[..i])
      {
        assert records[..i + 1][..i] == records[..i];
        total := total + records[i].cost;
        i := i + 1;
      }
      assert records[..i] == records;
    }

    /** Books a call, or refuses it and leaves the ledger as it was. */
    method Record(stage: string, model: string, usage: TokenUsage)
      returns (r: Result<CallRecord, LedgerError>)
      modifies this
      ensures CostFor(model, usage).Err? ==> r == Err(UnknownModel(model)) && records == old(records)
      ensures CostFor(model, usage).Ok? ==>
                var cost := CostFor(model, usage).value;
                var call := CallRecord(stage, model, usage, cost);
                if old(Total(records)) + cost > ceiling
                then r == Err(BudgetExceeded(old(Total(records)) + cost)) && records == old(records)
                else r == Ok(call) && records == old(records) + [call]
    {
      var cost := CostFor(model, usage);
      if cost.Err? {
        return Err(UnknownModel(model));
      }
      var total := TotalCost();
      var projected := total + cost.value;
      if projected > ceiling {
        return Err(BudgetExceeded(projected));
      }
      var call := CallRecord(stage, model, usage, cost.value);
      records := records + [call];
      return Ok(call);
    }
  }

  // ---------------------------------------------------------------- booking sequences

  datatype Attempt = Attempt(stage: string, model: string, usage: TokenUsage)

  /** What one attempt makes of a list of records. */
  function Booked(ceiling: int, records: seq<CallRecord>, a: Attempt): Result<seq<CallRecord>, LedgerError> {
    match CostFor(a.model, a.usage)
    case Err(e) => Err(e)
    case Ok(cost) =>
      if Total(records) + cost > ceiling then Err(BudgetExceeded(Total(records) + cost))
      else Ok(records + [CallRecord(a.stage, a.model, a.usage, cost)])
  }

  /** A caller that carries on after each refusal. */
  function BookAll(ceiling: int, attempts: seq<Attempt>): seq<CallRecord> {
    if attempts == [] then []
    else
      var before := BookAll(ceiling, attempts[..|attempts| - 1]);
      match Booked(ceiling, before, attempts[|attempts| - 1])
      case Err(_) => before
      case Ok(after) => after
  }

  /** Every booking so far kept to the price table and to the ceiling. */
  ghost predicate Honest(ceiling: int, records: seq<CallRecord>) {
    forall k :: 0 <= k < |records| ==> HonestAt(ceiling, records, k)
  }

  ghost predicate HonestAt(ceiling: int, records: seq<CallRecord>, k: int)
    requires 0 <= k < |records|
  {
    CostFor(records[k].model, records[k].usage) == Ok(records[k].cost) && Total(records[..k + 1]) <= ceiling
  }

  lemma HonestGrows(ceiling: int, records: seq<CallRecord>, a: Attempt)
    requires Honest(ceiling, records) && Booked(ceiling, records, a).Ok?
    ensures Honest(ceiling, Booked(ceiling, records, a).value) && Total(Booked(ceiling, records, a).value) <= ceiling
  {
    var after := Booked(ceiling, records, a).value;
    assert after[..|records|] == records && after[..|after|] == after;
    forall k | 0 <= k < |after| ensures HonestAt(ceiling, after, k) {
      if k < |records| {
        assert HonestAt(ceiling, records, k) && after[..k + 1] == records[..k + 1];
      }
    }
  }

  /** Over any sequence of attempts, refused ones included, the ledger stays honest,
      so its total is never above a ceiling that allows an empty ledger. */
  lemma {:induction false} CeilingHolds(ceiling: int, attempts: seq<Attempt>)
    ensures var records := BookAll(ceiling, attempts);
            Honest(ceiling, records) && Total(records) <= Max(0, ceiling)
            && (records != [] ==> Total(records) <= ceiling)
  {
    if attempts != [] {
      var before := BookAll(ceiling, attempts[..|attempts| - 1]);
      CeilingHolds(ceiling, attempts[..|attempts| - 1]);
      if Booked(ceiling, before, attempts[|attempts| - 1]).Ok? {
        HonestGrows(ceiling, before, attempts[|attempts| - 1]);
      }
    }
  }

  // ---------------------------------------------------------------- persistence

  datatype CallSnapshot = CallSnapshot(stage: string, model: string, promptTokens: int,
                                       outputTokens: int, thinkingTokens: int)
  datatype LedgerSnapshot = LedgerSnapshot(ceiling: int, calls: seq<CallSnapshot>)

  function SnapshotCall(r: CallRecord): CallSnapshot {
    CallSnapshot(r.stage, r.model, r.usage.promptTokens, r.usage.outputTokens, r.usage.thinkingTokens)
  }

  function SnapshotLedger(ceiling: int, records: seq<CallRecord>): LedgerSnapshot {
    LedgerSnapshot(ceiling, seq(|records|, i requires 0 <= i < |records| => SnapshotCall(records[i])))
  }

  function AttemptOf(c: CallSnapshot): Attempt {
    Attempt(c.stage, c.model, TokenUsage(c.promptTokens, c.outputTokens, c.thinkingTokens, false))
  }

  /** Replays calls in order; the first refusal is raised to the caller. */
  function Replayed(ceiling: int, calls: seq<CallSnapshot>): Result<seq<CallRecord>, LedgerError> {
    if calls == [] then Ok([])
    else match Replayed(ceiling, calls[..|calls| - 1])
      case Err(e) => Err(e)
      case Ok(before) => Booked(ceiling, before, AttemptOf(calls[|calls| - 1]))
  }

  lemma ReplayMore(ceiling: int, calls: seq<CallSnapshot>, last: CallSnapshot)
    requires Replayed(ceiling, calls).Ok?
    ensures Replayed(ceiling, calls + [last]) == Booked(ceiling, Replayed(ceiling, calls).value, AttemptOf(last))
  {
    assert (calls + [last])[..|calls|] == calls;
  }

  lemma BookedIs(ceiling: int, records: seq<CallRecord>, a: Attempt)
    ensures var cost, booked := CostFor(a.model, a.usage), Booked(ceiling, records, a);
            if cost.Err? then booked == Err(UnknownModel(a.model))
            else if Total(records) + cost.value > ceiling then booked == Err(BudgetExceeded(Total(records) + cost.value))
            else booked == Ok(records + [CallRecord(a.stage, a.model, a.usage, cost.value)])
  {}

  /** Books one saved call again. */
  method ReplayCall(ledger: Ledger, call: CallSnapshot) returns (r: Result<CallRecord, LedgerError>)
    modifies ledger
    ensures match Booked(ledger.ceiling, old(ledger.records), AttemptOf(call))
            case Err(e) => r == Err(e) && ledger.records == old(ledger.records)
            case Ok(after) => r.Ok? && ledger.records == after
  {
    BookedIs(ledger.ceiling, ledger.records, AttemptOf(call));
    var usage := TokenUsage(call.promptTokens, call.outputTokens, call.thinkingTokens, false);
    r := ledger.Record(call.stage, call.model, usage);
  }

  method RestoreLedger(snapshot: LedgerSnapshot) returns (ledger: Ledger, outcome: Result<(), LedgerError>)
    ensures fresh(ledger) && ledger.ceiling == snapshot.ceiling
    ensures match Replayed(snapshot.ceiling, snapshot.calls)
            case Ok(records) => outcome == Ok(()) && ledger.records == records
            case Err(e) => outcome == Err(e)
  {
    ledger := new Ledger(snapshot.ceiling);
    outcome := Ok(());
    var calls := snapshot.calls;
    ghost var done: seq<CallSnapshot> := [];
    var i := 0;
    while i < |calls|
      invariant 0 <= i <= |calls| && fresh(ledger) && ledger.ceiling == snapshot.ceiling
      invariant done == calls[..i] && Replayed(snapshot.ceiling, done) == Ok(ledger.records)
    {
      var call := calls[i];
      ReplayMore(snapshot.ceiling, done, call);
      done := done + [call];
      assert done == calls[..i + 1];
      var r := ReplayCall(ledger, call);
      if r.Err? {
        outcome := Err(r.error);
        FailureStays(snapshot.ceiling, calls, i + 1);
        return;
      }
      i := i + 1;
    }
    assert calls[..i] == calls;
  }

  lemma {:induction false} FailureStays(ceiling: int, calls: seq<CallSnapshot>, k: nat)
    requires k <= |calls| && Replayed(ceiling, calls[..k]).Err?
    ensures Replayed(ceiling, calls) == Replayed(ceiling, calls[..k])
  {
    if k < |calls| {
      assert calls[..|calls| - 1][..k] == calls[..k];
      FailureStays(ceiling, calls[..|calls| - 1], k);
    } else {
      assert calls[..k] == calls;
    }
  }

  /** The records a restore brings back: the same calls, at the same cost, with the
      mark of an estimated usage lost. */
  function Forgetful(records: seq<CallRecord>): seq<CallRecord> {
    seq(|records|, i requires 0 <= i < |records| =>
      records[i].(usage := records[i].usage.(estimated := false)))
  }

  lemma {:induction false} ForgetfulTotal(records: seq<CallRecord>)
    ensures Total(Forgetful(records)) == Total(records)
  {
    if records != [] {
      var init := records[..|records| - 1];
      assert Forgetful(records)[..|records| - 1] == Forgetful(init);
      ForgetfulTotal(init);
    }
  }

  /** A snapshot of a call reprices to the cost that was booked. */
  lemma Repriced(ceiling: int, before: seq<CallRecord>, r: CallRecord)
    requires CostFor(r.model, r.usage) == Ok(r.cost)
    requires Total(before) + r.cost <= ceiling
    ensures Booked(ceiling, before, AttemptOf(SnapshotCall(r)))
            == Ok(before + [r.(usage := r.usage.(estimated := false))])
  {}

  lemma SnapshotGrows(ceiling: int, init: seq<CallRecord>, last: CallRecord)
    ensures SnapshotLedger(ceiling, init + [last]).calls == SnapshotLedger(ceiling, init).calls + [SnapshotCall(last)]
    ensures Forgetful(init + [last]) == Forgetful(init) + [last.(usage := last.usage.(estimated := false))]
  {}

  /** One more call, saved and replayed. */
  lemma RestoreStep(ceiling: int, init: seq<CallRecord>, last: CallRecord)
    requires Replayed(ceiling, SnapshotLedger(ceiling, init).calls) == Ok(Forgetful(init))
    requires CostFor(last.model, last.usage) == Ok(last.cost) && Total(Forgetful(init)) + last.cost <= ceiling
    ensures Replayed(ceiling, SnapshotLedger(ceiling, init + [last]).calls) == Ok(Forgetful(init + [last]))
  {
    SnapshotGrows(ceiling, init, last);
    ReplayMore(ceiling, SnapshotLedger(ceiling, init).calls, SnapshotCall(last));
    Repriced(ceiling, Forgetful(init), last);
  }

  /** Restoring a snapshot of an honest ledger raises nothing and brings back the
      same calls, total and ceiling, whatever the sign of the token counts. */
  lemma {:induction false} RestoreRoundTrip(ceiling: int, records: seq<CallRecord>)
    requires Honest(ceiling, records)
    ensures SnapshotLedger(ceiling, records).ceiling == ceiling
    ensures Replayed(ceiling, SnapshotLedger(ceiling, records).calls) == Ok(Forgetful(records))
    ensures Total(Forgetful(records)) == Total(records)
  {
    ForgetfulTotal(records);
    if records != [] {
      var init, last := records[..|records| - 1], records[|records| - 1];
      HonestInit(ceiling, records);
      RestoreRoundTrip(ceiling, init);
      RestoreStep(ceiling, init, last);
      assert records == init + [last];
    }
  }

  lemma HonestInit(ceiling: int, records: seq<CallRecord>)
    requires Honest(ceiling, records) && records != []
    ensures var n := |records| - 1;
            Honest(ceiling, records[..n]) && CostFor(records[n].model, records[n].usage) == Ok(records[n].cost)
            && Total(records[..n]) + records[n].cost <= ceiling
  {
    var n := |records| - 1;
    assert records[..n + 1] == records && HonestAt(ceiling, records, n);
    var init := records[..n];
    forall k | 0 <= k < n ensures HonestAt(ceiling, init, k) {
      assert HonestAt(ceiling, records, k) && init[..k + 1] == records[..k + 1];
    }
  }

  /** End to end: whatever was attempted, a save and a load give the ledger back. */
  lemma LoadAfterSave(ceiling: int, attempts: seq<Attempt>)
    ensures var records := BookAll(ceiling, attempts);
            Replayed(ceiling, SnapshotLedger(ceiling, records).calls) == Ok(Forgetful(records))
            && Total(Forgetful(records)) == Total(records) <= Max(0, ceiling)
  {
    CeilingHolds(ceiling, attempts);
    RestoreRoundTrip(ceiling, BookAll(ceiling, attempts));
  }
}
