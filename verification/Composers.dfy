/** Assembling the two documents: numbered grounds of objection, and what was left out. */
module Composers {
  import opened Wrappers
  import opened CaseStores
  import opened Gates

  datatype GroundContent = GroundContent(statement: string, title: string, page: int, annotated: Option<string>)

  /** One numbered ground of the submission. */
  datatype Entry = Entry(index: int, id: GroundId, basis: Basis, content: GroundContent)

  /** The submission, and the refused and flagged sections of the explainer: a decision is
      printed with its category, its basis and its issues. */
  datatype Package = Package(submission: seq<Entry>, refused: seq<GateDecision>, flagged: seq<GateDecision>)

  datatype ComposeError = MissingContent(id: GroundId)

  function ShippedOnes(decisions: seq<GateDecision>): seq<GateDecision> {
    if decisions == [] then []
    else ShippedOnes(decisions[..|decisions| - 1])
         + (if decisions[|decisions| - 1].status == Shipped then [decisions[|decisions| - 1]] else [])
  }

  function Unshipped(decisions: seq<GateDecision>): seq<GateDecision> {
    if decisions == [] then []
    else Unshipped(decisions[..|decisions| - 1])
         + (if decisions[|decisions| - 1].status != Shipped then [decisions[|decisions| - 1]] else [])
  }

  /** The unshipped decisions that are, or are not, flagged. */
  function Section(decisions: seq<GateDecision>, flagged: bool): seq<GateDecision> {
    if decisions == [] then []
    else Section(decisions[..|decisions| - 1], flagged)
         + (if (decisions[|decisions| - 1].status == FlaggedForReview) == flagged
            then [decisions[|decisions| - 1]] else [])
  }

  /** Numbers the shipped grounds from one, in order; a shipped ground without content is
      an error. */
  method ComposeSubmission(shipped: seq<GateDecision>, content: map<GroundId, GroundContent>)
    returns (r: Result<seq<Entry>, ComposeError>)
    ensures r.Ok? <==> forall i :: 0 <= i < |shipped| ==> shipped[i].id in content
    ensures r.Ok? ==> |r.value| == |shipped|
    ensures r.Ok? ==> forall i :: 0 <= i < |shipped| ==>
              r.value[i] == Entry(i + 1, shipped[i].id, shipped[i].basis, content[shipped[i].id])
  {
    var entries: seq<Entry> := [];
    var i := 0;
    while i < |shipped|
      invariant 0 <= i <= |shipped| && |entries| == i
      invariant forall j :: 0 <= j < i ==>
                  shipped[j].id in content
                  && entries[j] == Entry(j + 1, shipped[j].id, shipped[j].basis, content[shipped[j].id])
    {
      if shipped[i].id !in content {
        return Err(MissingContent(shipped[i].id));
      }
      entries := entries + [Entry(i + 1, shipped[i].id, shipped[i].basis, content[shipped[i].id])];
      i := i + 1;
    }
    return Ok(entries);
  }

  /** One-based, under the decision's own id and basis, with that ground's own content. */
  predicate Prints(entry: Entry, i: nat, shipped: GateDecision, content: map<GroundId, GroundContent>) {
    shipped.id in content && entry == Entry(i + 1, shipped.id, shipped.basis, content[shipped.id])
  }

  method Compose(decisions: seq<GateDecision>, content: map<GroundId, GroundContent>)
    returns (r: Result<Package, ComposeError>)
    ensures r.Ok? <==> forall i :: 0 <= i < |decisions| && decisions[i].status == Shipped ==> decisions[i].id in content
    ensures r.Ok? ==>
              |r.value.submission| == |ShippedOnes(decisions)|
              && (forall i :: 0 <= i < |r.value.submission| ==> Prints(r.value.submission[i], i, ShippedOnes(decisions)[i], content))
              && r.value.refused == Section(Unshipped(decisions), false)
              && r.value.flagged == Section(Unshipped(decisions), true)
  {
    ShippedAre(decisions);
    var submission := ComposeSubmission(ShippedOnes(decisions), content);
    if submission.Err? {
      return Err(submission.error);
    }
    var unshipped := Unshipped(decisions);
    return Ok(Package(submission.value, Section(unshipped, false), Section(unshipped, true)));
  }

  lemma {:induction false} ShippedAre(decisions: seq<GateDecision>)
    ensures forall x :: x in ShippedOnes(decisions) <==> x in decisions && x.status == Shipped
  {
    if decisions != [] {
      var n := |decisions| - 1;
      ShippedAre(decisions[..n]);
      assert decisions == decisions[..n] + [decisions[n]];
    }
  }
}
