/** The blood bank dashboard: stock KPIs, the searchable inventory table, the
    optimistic removal of a deleted unit, and the requests and distribution tabs. */
module BloodBankDashboard {
  import opened Common
  import opened Models
  import opened DashboardViews

  // ---------------------------------------------------------------------------
  // Stock KPIs

  /** `availableInventory.length`. */
  function TotalUnits(inventory: seq<BloodUnit>): (n: nat)
    ensures n <= |inventory|
    ensures n == 0 <==> forall u :: u in inventory ==> u.status != Available
  {
    FilterEmpty(inventory, IsAvailable);
    |AvailableUnits(inventory)|
  }

  /** `Math.ceil((expiry - now) / (1000 * 60 * 60 * 24))` on millisecond timestamps. */
  function DaysUntil(expiry: Timestamp, now: Timestamp): (days: int)
    ensures (days - 1) * MsPerDay < expiry - now <= days * MsPerDay
  {
    -((now - expiry) / MsPerDay)
  }

  predicate ExpiringSoon(u: BloodUnit, now: Timestamp) {
    0 <= DaysUntil(u.expiryDate, now) <= 7
  }

  /** A unit counts as expiring soon exactly when it expired less than a day ago or
      expires within the next seven days. */
  lemma ExpiringSoonWindow(u: BloodUnit, now: Timestamp)
    ensures ExpiringSoon(u, now) <==> -MsPerDay < u.expiryDate - now <= 7 * MsPerDay
  {
    var d := DaysUntil(u.expiryDate, now);
    if -MsPerDay < u.expiryDate - now <= 7 * MsPerDay {
      assert (d - 1) * MsPerDay < 7 * MsPerDay;
      assert -MsPerDay < d * MsPerDay;
    }
  }

  /** The "Expiring Soon" KPI: Available units whose expiry falls in the window. */
  function ExpiringSoonCount(inventory: seq<BloodUnit>, now: Timestamp): (n: nat)
    ensures n <= TotalUnits(inventory)
    ensures n == 0 <==> forall u :: u in inventory && u.status == Available ==> !ExpiringSoon(u, now)
  {
    var soon := (u: BloodUnit) => ExpiringSoon(u, now);
    FilterEmpty(AvailableUnits(inventory), soon);
    |Filter(AvailableUnits(inventory), soon)|
  }

  // ---------------------------------------------------------------------------
  // Search and group filter

  /** `toLowerCase` on the ASCII letters. */
  function LowerChar(c: char): char {
    if 'A' <= c <= 'Z' then (c as int + 32) as char else c
  }

  function Lower(s: string): (r: string)
    ensures |r| == |s|
    ensures forall i :: 0 <= i < |s| ==> r[i] == LowerChar(s[i])
    ensures forall i :: 0 <= i < |r| ==> !('A' <= r[i] <= 'Z')
  {
    seq(|s|, i requires 0 <= i < |s| => LowerChar(s[i]))
  }

  /** Lowering is idempotent, so lowering a term the user typed in lower case changes nothing. */
  lemma LowerIdempotent(s: string)
    ensures Lower(Lower(s)) == Lower(s)
  {
    assert forall i :: 0 <= i < |s| ==> LowerChar(LowerChar(s[i])) == LowerChar(s[i]);
  }

  /** `s.includes(t)`: `t` is a prefix of some suffix of `s`. */
  predicate Contains(s: string, t: string)
    decreases |s|
  {
    t <= s || (s != [] && Contains(s[1..], t))
  }

  const AllGroups := "All Groups"

  predicate MatchesSearch(u: BloodUnit, term: string, group: string) {
    Contains(Lower(u.isbtId), Lower(term)) && (group == AllGroups || u.bloodGroup == group)
  }

  /** `filteredInventory`: the Available units whose ISBT id contains the search
      term, ignoring case, and whose group is the selected one unless "All Groups". */
  function FilteredInventory(inventory: seq<BloodUnit>, term: string, group: string): (shown: seq<BloodUnit>)
    ensures forall u :: u in shown <==> u in inventory && u.status == Available && MatchesSearch(u, term, group)
  {
    Filter(AvailableUnits(inventory), (u: BloodUnit) => MatchesSearch(u, term, group))
  }

  /** The filtered table keeps the order of the Available view. */
  lemma FilteredKeepsOrder(inventory: seq<BloodUnit>, term: string, group: string)
    ensures Subsequence(FilteredInventory(inventory, term, group), AvailableUnits(inventory))
  {
    FilterKeepsOrder(AvailableUnits(inventory), (u: BloodUnit) => MatchesSearch(u, term, group));
  }

  /** An empty search with "All Groups" shows every Available unit. */
  lemma UnfilteredShowsAllAvailable(inventory: seq<BloodUnit>)
    ensures FilteredInventory(inventory, "", AllGroups) == AvailableUnits(inventory)
  {
    forall u | u in AvailableUnits(inventory) ensures MatchesSearch(u, "", AllGroups) {
      assert Lower("") == [];
    }
    FilterKeepsAll(AvailableUnits(inventory), (u: BloodUnit) => MatchesSearch(u, "", AllGroups));
  }

  /** The search ignores case: two terms with the same lower-case form show the same units. */
  lemma SearchIgnoresCase(inventory: seq<BloodUnit>, term: string, term': string, group: string)
    requires Lower(term) == Lower(term')
    ensures FilteredInventory(inventory, term, group) == FilteredInventory(inventory, term', group)
  {
    FilterCongruent(AvailableUnits(inventory), (u: BloodUnit) => MatchesSearch(u, term, group),
                    (u: BloodUnit) => MatchesSearch(u, term', group));
  }

  // ---------------------------------------------------------------------------
  // Optimistic removal after a delete

  /** `prev.filter(item => item._id !== id)`. */
  function RemoveById(inventory: seq<BloodUnit>, id: Id): (rest: seq<BloodUnit>)
    ensures forall u :: u in rest <==> u in inventory && u.id != id
  {
    Filter(inventory, (u: BloodUnit) => u.id != id)
  }

  /** The optimistic removal keeps the remaining units in order. */
  lemma RemoveKeepsOrder(inventory: seq<BloodUnit>, id: Id)
    ensures Subsequence(RemoveById(inventory, id), inventory)
  {
    FilterKeepsOrder(inventory, (u: BloodUnit) => u.id != id);
  }

  lemma RemoveByIdAppend(a: seq<BloodUnit>, b: seq<BloodUnit>, id: Id)
    ensures RemoveById(a + b, id) == RemoveById(a, id) + RemoveById(b, id)
  {
    FilterAppend(a, b, (u: BloodUnit) => u.id != id);
  }

  /** With distinct ids, no unit other than the `i`-th carries its id. */
  lemma OthersKeepTheirIds(inventory: seq<BloodUnit>, i: nat)
    requires forall j, k :: 0 <= j < k < |inventory| ==> inventory[j].id != inventory[k].id
    requires i < |inventory|
    ensures RemoveById(inventory[..i], inventory[i].id) == inventory[..i]
    ensures RemoveById(inventory[i + 1..], inventory[i].id) == inventory[i + 1..]
  {
    var id := inventory[i].id;
    forall j | 0 <= j < |inventory| && j != i ensures inventory[j].id != id {
      if j < i { assert inventory[j].id != inventory[i].id; } else { assert inventory[i].id != inventory[j].id; }
    }
    assert forall u :: u in inventory[..i] ==> u.id != id;
    assert forall u :: u in inventory[i + 1..] ==> u.id != id;
    FilterKeepsAll(inventory[..i], (u: BloodUnit) => u.id != id);
    FilterKeepsAll(inventory[i + 1..], (u: BloodUnit) => u.id != id);
  }

  /** On a list with distinct ids the page's optimistic removal is exactly what the
      server's delete does to its table: the one unit with that id goes, the rest stay
      in order. */
  lemma RemoveByIdMatchesDelete(inventory: seq<BloodUnit>, i: nat)
    requires forall j, k :: 0 <= j < k < |inventory| ==> inventory[j].id != inventory[k].id
    requires i < |inventory|
    ensures RemoveById(inventory, inventory[i].id) == inventory[..i] + inventory[i + 1..]
  {
    var id := inventory[i].id;
    var before, after := inventory[..i], inventory[i + 1..];
    calc {
      RemoveById(inventory, id);
      { assert inventory == before + [inventory[i]] + after; }
      RemoveById(before + [inventory[i]] + after, id);
      { RemoveByIdAppend(before + [inventory[i]], after, id); }
      RemoveById(before + [inventory[i]], id) + RemoveById(after, id);
      { RemoveByIdAppend(before, [inventory[i]], id); }
      RemoveById(before, id) + RemoveById([inventory[i]], id) + RemoveById(after, id);
      { OthersKeepTheirIds(inventory, i); assert RemoveById([inventory[i]], id) == []; }
      before + after;
    }
  }

  // ---------------------------------------------------------------------------
  // Requests and distribution tabs

  predicate NotDispatched(r: BloodRequest) {
    r.status != Dispatched
  }

  predicate IsApproved(r: BloodRequest) {
    r.status == Approved
  }

  /** The requests tab: `requests.filter(r => r.status !== 'Dispatched')`. */
  function RequestsTab(requests: seq<BloodRequest>): (rows: seq<BloodRequest>)
    ensures forall r :: r in rows <==> r in requests && r.status != Dispatched
  {
    Filter(requests, NotDispatched)
  }

  /** What a row of the requests tab offers. */
  datatype RowAction = ManualApprove | ReadyForDispatch | NoAction

  function ActionFor(status: RequestStatus): (a: RowAction)
    ensures a == ManualApprove <==> status == Pending
    ensures a == ReadyForDispatch <==> status == Approved
  {
    match status
    case Pending => ManualApprove
    case Approved => ReadyForDispatch
    case _ => NoAction
  }

  /** "Dispatch Now" cards: the Approved requests. */
  function ReadyToDispatch(requests: seq<BloodRequest>): (cards: seq<BloodRequest>)
    ensures forall r :: r in cards <==> r in requests && r.status == Approved
  {
    Filter(requests, IsApproved)
  }

  /** The dispatch history, whose length is also the "Dispatched" KPI. */
  function DispatchHistory(requests: seq<BloodRequest>): (rows: seq<BloodRequest>)
    ensures forall r :: r in rows <==> r in requests && r.status == Dispatched
  {
    Filter(requests, IsDispatched)
  }

  /** The distribution tab's two lists share no request and together fit in the
      list; the requests tab and the history together are exactly the list. */
  lemma TabsPartitionRequests(requests: seq<BloodRequest>)
    ensures forall r :: !(r in ReadyToDispatch(requests) && r in DispatchHistory(requests))
    ensures |ReadyToDispatch(requests)| + |DispatchHistory(requests)| <= |requests|
    ensures |RequestsTab(requests)| + |DispatchHistory(requests)| == |requests|
  {
    FilterCountsDisjoint(requests, IsApproved, IsDispatched);
    FilterCountsPartition(requests, NotDispatched, IsDispatched, (r: BloodRequest) => false);
    FilterEmpty(requests, (r: BloodRequest) => false);
  }

  // ---------------------------------------------------------------------------
  // The page's state and handlers

  /** The add-units form. */
  datatype UnitForm = UnitForm(bloodGroup: string, componentType: string, quantity: int)

  const BlankUnitForm := UnitForm("A+", "Whole Blood", 1)

  class BloodBankPage {
    var inventory: seq<BloodUnit>
    var requests: seq<BloodRequest>
    var loading: bool
    var addModalOpen: bool
    var newUnit: UnitForm

    constructor ()
      ensures inventory == [] && requests == [] && loading && !addModalOpen && newUnit == BlankUnitForm
    {
      inventory := [];
      requests := [];
      loading := true;
      addModalOpen := false;
      newUnit := BlankUnitForm;
    }

    /** `fetchInventory`: replace the list on success, raise an error toast on failure;
        the spinner stops either way. */
    method FetchInventory(response: ApiResult<seq<BloodUnit>>) returns (toast: Option<string>)
      modifies this`inventory, this`loading
      ensures inventory == if response.Success? then response.data else old(inventory)
      ensures toast == if response.Success? then None else Some("Failed to load inventory")
      ensures !loading
    {
      toast := None;
      if response.Success? {
        inventory := response.data;
      } else {
        toast := Some("Failed to load inventory");
      }
      loading := false;
    }

    /** `fetchRequests`: replace the list on success, raise an error toast on failure. */
    method FetchRequests(response: ApiResult<seq<BloodRequest>>) returns (toast: Option<string>)
      modifies this`requests
      ensures requests == if response.Success? then response.data else old(requests)
      ensures toast == if response.Success? then None else Some("Failed to load requests")
    {
      if response.Success? {
        requests := response.data;
        toast := None;
      } else {
        toast := Some("Failed to load requests");
      }
    }

    /** `handleDeleteUnit`: after a confirmed, successful delete the unit leaves the
        list; a cancelled confirm or a failed call leaves the list as it was. Only a
        confirmed call raises a toast, telling success from failure. */
    method HandleDeleteUnit(id: Id, confirmed: bool, response: ApiResult<()>) returns (toast: Option<string>)
      modifies this`inventory
      ensures confirmed && response.Success? ==> inventory == RemoveById(old(inventory), id)
      ensures !(confirmed && response.Success?) ==> inventory == old(inventory)
      ensures !confirmed ==> toast == None
      ensures confirmed ==>
        toast == Some(if response.Success? then "Unit removed from inventory" else "Failed to remove unit")
    {
      if !confirmed {
        return None;
      }
      if response.Success? {
        toast := Some("Unit removed from inventory");
        inventory := RemoveById(inventory, id);
      } else {
        toast := Some("Failed to remove unit");
      }
    }

    /** `handleApproveRequest`: on success both lists are refetched; on failure the
        toast shows the server's detail or "Failed to approve". */
    method HandleApproveRequest(response: ApiResult<string>, requestsAfter: ApiResult<seq<BloodRequest>>,
                                inventoryAfter: ApiResult<seq<BloodUnit>>) returns (toast: string)
      modifies this`requests, this`inventory, this`loading
      ensures response.Success? ==>
        && toast == "Request Approved!"
        && requests == (if requestsAfter.Success? then requestsAfter.data else old(requests))
        && inventory == (if inventoryAfter.Success? then inventoryAfter.data else old(inventory))
        && !loading
      ensures response.Failure? ==>
        && toast == DetailOr(response.detail, "Failed to approve")
        && requests == old(requests) && inventory == old(inventory) && loading == old(loading)
    {
      if response.Failure? {
        return DetailOr(response.detail, "Failed to approve");
      }
      toast := "Request Approved!";
      var _ := FetchRequests(requestsAfter);
      var _ := FetchInventory(inventoryAfter);
    }

    /** `handleDispatch`: on success the requests are refetched. */
    method HandleDispatch(response: ApiResult<string>, requestsAfter: ApiResult<seq<BloodRequest>>) returns (toast: string)
      modifies this`requests
      ensures response.Success? ==>
        toast == "Units Dispatched!" && requests == (if requestsAfter.Success? then requestsAfter.data else old(requests))
      ensures response.Failure? ==> toast == "Failed to dispatch" && requests == old(requests)
    {
      if response.Failure? {
        return "Failed to dispatch";
      }
      toast := "Units Dispatched!";
      var _ := FetchRequests(requestsAfter);
    }

    /** `handleAddUnit`: on success the modal closes, the form resets and both lists
        are refetched (the server may have auto-approved requests). */
    method HandleAddUnit(response: ApiResult<string>, inventoryAfter: ApiResult<seq<BloodUnit>>,
                         requestsAfter: ApiResult<seq<BloodRequest>>) returns (toast: string)
      modifies this
      ensures response.Success? ==>
        && toast == "Added " + IntToString(old(newUnit).quantity) + " units of " + old(newUnit).bloodGroup
        && !addModalOpen && newUnit == BlankUnitForm
        && inventory == (if inventoryAfter.Success? then inventoryAfter.data else old(inventory))
        && requests == (if requestsAfter.Success? then requestsAfter.data else old(requests))
        && !loading
      ensures response.Failure? ==>
        && toast == "Failed to add units"
        && inventory == old(inventory) && requests == old(requests) && addModalOpen == old(addModalOpen)
        && newUnit == old(newUnit) && loading == old(loading)
    {
      if response.Failure? {
        return "Failed to add units";
      }
      toast := "Added " + IntToString(newUnit.quantity) + " units of " + newUnit.bloodGroup;
      addModalOpen := false;
      newUnit := BlankUnitForm;
      var _ := FetchInventory(inventoryAfter);
      var _ := FetchRequests(requestsAfter);
    }
  }
}
