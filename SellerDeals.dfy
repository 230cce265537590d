/** The seller's deal pipeline page: the stage state machine, the stage
    filter, the statistics cards, and the per-deal quantity editor whose
    values live in a dictionary keyed by deal id. */
module SellerDeals {
  import opened Common
  import Backend

  // ---------------------------------------------------------------------------
  // Stages

  const SellerContacted := "Seller Contacted"
  const NegotiatingTerms := "Negotiating Terms"
  const AgreementReached := "Agreement Reached"
  const ClosedWon := "Closed Won"
  const ClosedLost := "Closed Lost"

  /** The five stages a CRM deal can be in. */
  predicate IsStage(s: string) {
    s == SellerContacted || s == NegotiatingTerms || s == AgreementReached
    || s == ClosedWon || s == ClosedLost
  }

  predicate IsClosed(s: string) {
    s == ClosedWon || s == ClosedLost
  }

  /** Position along the pipeline; both closed stages (and anything unknown)
      are at the end. */
  function Rank(s: string): (r: nat)
    ensures r <= 3
    ensures r == 3 <==> !(s == SellerContacted || s == NegotiatingTerms || s == AgreementReached)
  {
    if s == SellerContacted then 0
    else if s == NegotiatingTerms then 1
    else if s == AgreementReached then 2
    else 3
  }

  /** The stage buttons the page offers for a deal. */
  function NextStages(s: string): (r: seq<string>)
    ensures forall k :: 0 <= k < |r| ==> IsStage(r[k]) && Rank(r[k]) > Rank(s)
  {
    if s == SellerContacted then [NegotiatingTerms]
    else if s == NegotiatingTerms then [AgreementReached, ClosedWon, ClosedLost]
    else if s == AgreementReached then [ClosedWon, ClosedLost]
    else []
  }

  /** Whether the deal card shows its edit and stage controls. */
  predicate CanUpdateStage(s: string) {
    s == SellerContacted || s == NegotiatingTerms || s == AgreementReached
  }

  /** The stages that can be updated are exactly those that offer a next
      stage, and among the five stages those are the non-closed ones. */
  lemma CanUpdateIffHasNext(s: string)
    ensures CanUpdateStage(s) <==> NextStages(s) != []
    ensures IsStage(s) ==> (CanUpdateStage(s) <==> !IsClosed(s))
  {
  }

  lemma NextStagesTable()
    ensures NextStages(SellerContacted) == [NegotiatingTerms]
    ensures NextStages(NegotiatingTerms) == [AgreementReached, ClosedWon, ClosedLost]
    ensures NextStages(AgreementReached) == [ClosedWon, ClosedLost]
    ensures NextStages(ClosedWon) == [] && NextStages(ClosedLost) == []
  {
  }

  /** `path` is a sequence of moves the page offers, one after another,
      starting from stage `s`. */
  predicate OfferedChain(s: string, path: seq<string>)
    decreases |path|
  {
    path == [] || (path[0] in NextStages(s) && OfferedChain(path[0], path[1..]))
  }

  function Last(s: string, path: seq<string>): string {
    if path == [] then s else path[|path| - 1]
  }

  /** Every chain of offered moves has at most `3 - Rank(s)` steps, and one
      that cannot be continued after at least one step ends in a closed
      stage. */
  lemma {:induction false} ChainsReachClosed(s: string, path: seq<string>)
    requires OfferedChain(s, path)
    decreases |path|
    ensures |path| <= 3 - Rank(s)
    ensures path != [] ==> IsStage(Last(s, path))
    ensures path != [] && NextStages(Last(s, path)) == [] ==> IsClosed(Last(s, path))
  {
    if path != [] {
      var k :| 0 <= k < |NextStages(s)| && NextStages(s)[k] == path[0];
      ChainsReachClosed(path[0], path[1..]);
      if |path| > 1 {
        assert Last(path[0], path[1..]) == Last(s, path);
      }
    }
  }

  // ---------------------------------------------------------------------------
  // Deals

  /** A deal as the page holds it. `Stage` comes from the CRM; `stage` (lower
      case) is the field the page itself writes after a stage update, absent
      on fetched deals. `Quantity` is `0` for a deal that was just created. */
  datatype Deal = Deal(id: string, dealName: string, stageField: string,
                       quantity: int, lowerStage: Option<string>)

  /** `deals.filter(d => d.Stage === stage)`. */
  function WithStage(deals: seq<Deal>, stage: string): (r: seq<Deal>)
    ensures |r| <= |deals|
  {
    if deals == [] then []
    else if deals[0].stageField == stage then [deals[0]] + WithStage(deals[1..], stage)
    else WithStage(deals[1..], stage)
  }

  lemma {:induction false} WithStageMembers(deals: seq<Deal>, stage: string)
    ensures forall d :: d in WithStage(deals, stage) <==> d in deals && d.stageField == stage
  {
    if deals != [] {
      WithStageMembers(deals[1..], stage);
      assert forall d :: d in deals <==> d == deals[0] || d in deals[1..];
    }
  }

  /** The filter keeps the original order. */
  lemma {:induction false} WithStageAppend(a: seq<Deal>, b: seq<Deal>, stage: string)
    ensures WithStage(a + b, stage) == WithStage(a, stage) + WithStage(b, stage)
  {
    if a == [] {
      assert a + b == b;
    } else {
      assert (a + b)[1..] == a[1..] + b;
      WithStageAppend(a[1..], b, stage);
    }
  }

  /** The list rendered under the stage selector. `deals` is `None` when the
      fetched body was not an array. */
  function FilteredDeals(deals: Option<seq<Deal>>, filter: string): (r: seq<Deal>)
    ensures deals.None? ==> r == []
    ensures deals.Some? && filter == "all" ==> r == deals.value
    ensures deals.Some? && filter != "all" ==>
      forall d :: d in r <==> d in deals.value && d.stageField == filter
  {
    match deals
    case None => []
    case Some(ds) =>
      if |ds| > 0 then
        if filter == "all" then ds
        else
          WithStageMembers(ds, filter);
          WithStage(ds, filter)
      else []
  }

  // ---------------------------------------------------------------------------
  // Statistics

  datatype Stats = Stats(total: nat, contacted: nat, negotiation: nat, won: nat, lost: nat, winRate: nat)

  lemma DivFacts(x: nat, d: nat)
    requires d > 0
    ensures d * (x / d) <= x < d * (x / d + 1)
  {
  }

  lemma QuotBound(x: nat, d: nat, b: nat)
    requires d > 0 && x < d * (b + 1)
    ensures x / d <= b
  {
    DivFacts(x, d);
  }

  /** `Math.round(won / total * 100)` for `total > 0`, in exact arithmetic:
      the nearest whole percent, with halves rounded up. */
  function RoundedPercent(won: nat, total: nat): (r: nat)
    requires 0 < total && won <= total
    ensures r <= 100
    ensures 2 * total * r <= 200 * won + total < 2 * total * (r + 1)
  {
    DivFacts(200 * won + total, 2 * total);
    QuotBound(200 * won + total, 2 * total, 100);
    (200 * won + total) / (2 * total)
  }

  lemma RoundedPercentExamples()
    ensures RoundedPercent(1, 3) == 33 && RoundedPercent(2, 3) == 67
    ensures RoundedPercent(1, 8) == 13 && RoundedPercent(0, 5) == 0 && RoundedPercent(4, 4) == 100
  {
  }

  function ComputeStats(deals: Option<seq<Deal>>): (r: Stats)
    ensures deals.None? ==> r == Stats(0, 0, 0, 0, 0, 0)
    ensures deals.Some? ==> r.total == |deals.value|
    ensures deals.Some? ==> r.won == |WithStage(deals.value, ClosedWon)|
    ensures deals.Some? ==> r.contacted == |WithStage(deals.value, SellerContacted)|
    ensures deals.Some? ==> r.lost == |WithStage(deals.value, ClosedLost)|
    ensures deals.Some? ==> r.negotiation == |WithStage(deals.value, NegotiatingTerms)| + |WithStage(deals.value, AgreementReached)|
    ensures r.winRate <= 100
    ensures r.total == 0 ==> r.winRate == 0
    ensures r.total > 0 ==> 2 * r.total * r.winRate <= 200 * r.won + r.total < 2 * r.total * (r.winRate + 1)
  {
    match deals
    case None => Stats(0, 0, 0, 0, 0, 0)
    case Some(ds) =>
      var won := |WithStage(ds, ClosedWon)|;
      Stats(|ds|, |WithStage(ds, SellerContacted)|,
            |WithStage(ds, NegotiatingTerms)| + |WithStage(ds, AgreementReached)|,
            won, |WithStage(ds, ClosedLost)|,
            if |ds| > 0 then RoundedPercent(won, |ds|) else 0)
  }

  /** The four stage cards never count more deals than there are, and count
      all of them exactly when every deal is in one of the five stages. */
  lemma {:induction false} StageCountsCover(ds: seq<Deal>)
    ensures var s := ComputeStats(Some(ds));
      s.contacted + s.negotiation + s.won + s.lost <= s.total
    ensures (forall k :: 0 <= k < |ds| ==> IsStage(ds[k].stageField)) <==>
      var s := ComputeStats(Some(ds));
      s.contacted + s.negotiation + s.won + s.lost == s.total
  {
    if ds != [] {
      StageCountsCover(ds[1..]);
      assert forall k :: 1 <= k < |ds| ==> ds[k] == ds[1..][k - 1];
    }
  }

  // ---------------------------------------------------------------------------
  // The page state

  /** `Object.fromEntries(deals.map(d => [d.id, d.Quantity]))` read at `id`:
      the quantity of the last deal with that id. */
  function QuantityEntry(deals: seq<Deal>, id: string): Option<Backend.Quantity> {
    if deals == [] then None
    else if deals[|deals| - 1].id == id then Some(Backend.Num(deals[|deals| - 1].quantity))
    else QuantityEntry(deals[..|deals| - 1], id)
  }

  /** The dictionary has an entry for an id exactly when some deal has it,
      and the entry is the quantity of the last such deal: later entries of
      `Object.fromEntries` overwrite earlier ones. */
  lemma {:induction false} QuantityEntryIsLast(deals: seq<Deal>, id: string)
    ensures QuantityEntry(deals, id).Some? <==> exists k :: 0 <= k < |deals| && deals[k].id == id
    ensures QuantityEntry(deals, id).Some? ==>
      exists k :: 0 <= k < |deals| && deals[k].id == id
        && QuantityEntry(deals, id) == Some(Backend.Num(deals[k].quantity))
        && forall j :: k < j < |deals| ==> deals[j].id != id
  {
    if deals != [] {
      var n := |deals| - 1;
      var init := deals[..n];
      if deals[n].id == id {
        assert QuantityEntry(deals, id) == Some(Backend.Num(deals[n].quantity));
      } else {
        QuantityEntryIsLast(init, id);
        assert QuantityEntry(deals, id) == QuantityEntry(init, id);
        assert forall k :: 0 <= k < n ==> init[k] == deals[k];
        if QuantityEntry(init, id).Some? {
          var k :| 0 <= k < n && init[k].id == id
            && QuantityEntry(init, id) == Some(Backend.Num(init[k].quantity))
            && forall j :: k < j < n ==> init[j].id != id;
          assert deals[k] == init[k];
        } else {
          assert forall k :: 0 <= k < |deals| ==> deals[k].id != id;
        }
      }
    }
  }

  /** `find(d => d.id === id)`: the first deal with that id. */
  function FindDeal(deals: seq<Deal>, id: string): (r: Option<Deal>)
    ensures r.Some? ==> r.value in deals && r.value.id == id
    ensures r.None? ==> forall d :: d in deals ==> d.id != id
  {
    if deals == [] then None
    else if deals[0].id == id then Some(deals[0])
    else FindDeal(deals[1..], id)
  }

  /** `filteredDeals.find(d => d.id === id)?.Quantity || ""`: the fetched
      quantity, or blank when the deal is not shown or its quantity is 0. */
  function OriginalQuantity(shown: seq<Deal>, id: string): (r: Backend.Quantity)
    ensures r.Num? ==> r.n != 0
    ensures r.Num? <==> FindDeal(shown, id).Some? && FindDeal(shown, id).value.quantity != 0
  {
    match FindDeal(shown, id)
    case None => Backend.Blank
    case Some(d) => if d.quantity != 0 then Backend.Num(d.quantity) else Backend.Blank
  }

  class SellerDealsPage {
    var deals: Option<seq<Deal>>
    var filter: string
    var quantities: map<string, Backend.Quantity>
    var editingId: Option<string>

    constructor ()
      ensures deals == Some([]) && filter == "all" && quantities == map[] && editingId == None
    {
      deals := Some([]);
      filter := "all";
      quantities := map[];
      editingId := None;
    }

    /** The effect that refills the dictionary whenever `deals` changes: one
        entry per fetched deal id, or `{}` when there is no non-empty array. */
    method SyncQuantities()
      modifies this
      ensures deals == old(deals) && filter == old(filter) && editingId == old(editingId)
      ensures deals.None? ==> quantities == map[]
      ensures deals.Some? ==> forall id :: Backend.Lookup(quantities, id) == QuantityEntry(deals.value, id)
    {
      quantities := map[];
      if deals.Some? && |deals.value| > 0 {
        var ds := deals.value;
        for i := 0 to |ds|
          invariant deals == old(deals) && filter == old(filter) && editingId == old(editingId)
          invariant forall id :: Backend.Lookup(quantities, id) == QuantityEntry(ds[..i], id)
        {
          assert ds[..i + 1][..i] == ds[..i];
          quantities := quantities[ds[i].id := Backend.Num(ds[i].quantity)];
        }
        assert ds[..|ds|] == ds;
      }
    }

    /** The fetch on mount, followed by the effect it triggers. */
    method Load(fetched: Option<seq<Deal>>)
      modifies this
      ensures deals == fetched && filter == old(filter) && editingId == old(editingId)
      ensures fetched.None? ==> quantities == map[]
      ensures fetched.Some? ==> forall id :: Backend.Lookup(quantities, id) == QuantityEntry(fetched.value, id)
    {
      deals := fetched;
      SyncQuantities();
    }

    method SetFilter(f: string)
      modifies this
      ensures filter == f
      ensures deals == old(deals) && quantities == old(quantities) && editingId == old(editingId)
    {
      filter := f;
    }

    /** The pencil button, shown only for deals whose stage can be updated. */
    method StartEdit(d: Deal)
      modifies this
      ensures editingId == if CanUpdateStage(d.stageField) then Some(d.id) else old(editingId)
      ensures deals == old(deals) && filter == old(filter) && quantities == old(quantities)
    {
      if CanUpdateStage(d.stageField) {
        editingId := Some(d.id);
      }
    }

    /** Typing in the quantity box: the number is stored only when it is at
        least 1, and only under that deal's id. */
    method QuantityChange(id: string, newValue: string)
      modifies this
      ensures match ParseNumber(newValue)
        case Some(n) => quantities == if n >= 1 then old(quantities)[id := Backend.Num(n)] else old(quantities)
        case None => quantities == old(quantities)
      ensures deals == old(deals) && filter == old(filter) && editingId == old(editingId)
    {
      var numValue := ParseNumber(newValue);
      if numValue.Some? && numValue.value >= 1 {
        quantities := quantities[id := Backend.Num(numValue.value)];
      }
    }

    /** Saving sends `{quantity: quantities[id]}`; the result is the CRM update
        the backend builds from that body. The editor closes whatever the
        answer. */
    method Save(id: string) returns (request: Option<Backend.DealUpdate>)
      modifies this
      ensures id in quantities ==> request == Some(Backend.QuantityUpdate(id, quantities[id]))
      ensures id !in quantities ==> request == None
      ensures editingId == None
      ensures deals == old(deals) && filter == old(filter) && quantities == old(quantities)
    {
      request := Backend.DealUpdatePayload(id, None, Backend.Lookup(quantities, id));
      editingId := None;
    }

    /** Cancelling restores only this deal's entry, to the quantity fetched
        for it among the deals currently shown (blank when that is 0). */
    method Cancel(id: string)
      modifies this
      ensures quantities == old(quantities)[id := OriginalQuantity(FilteredDeals(deals, filter), id)]
      ensures editingId == None
      ensures deals == old(deals) && filter == old(filter)
    {
      var original := OriginalQuantity(FilteredDeals(deals, filter), id);
      quantities := quantities[id := original];
      editingId := None;
    }

    /** A stage button sends `{stage: newStage}`. On success the deal is
        rewritten with the lower-case `stage` field (its `Stage` is left as it
        was), and the dictionary is refilled by the effect. */
    method StageUpdate(dealId: string, newStage: string, outcome: Outcome) returns (request: Backend.DealUpdate)
      modifies this
      ensures request == Backend.StageUpdate(dealId, newStage)
      ensures outcome.Success? && old(deals).Some? ==>
        && deals.Some? && |deals.value| == |old(deals).value|
        && forall k :: 0 <= k < |deals.value| ==>
             deals.value[k] == if old(deals).value[k].id == dealId
                               then old(deals).value[k].(lowerStage := Some(newStage))
                               else old(deals).value[k]
      ensures outcome.Success? && old(deals).Some? ==>
        forall id :: Backend.Lookup(quantities, id) == QuantityEntry(deals.value, id)
      ensures !(outcome.Success? && old(deals).Some?) ==> deals == old(deals) && quantities == old(quantities)
      ensures filter == old(filter) && editingId == old(editingId)
    {
      var p := Backend.DealUpdatePayload(dealId, Some(newStage), None);
      request := p.value;
      if outcome.Success? && deals.Some? {
        var ds := deals.value;
        deals := Some(seq(|ds|, k requires 0 <= k < |ds| =>
          if ds[k].id == dealId then ds[k].(lowerStage := Some(newStage)) else ds[k]));
        SyncQuantities();
      }
    }
  }
}
