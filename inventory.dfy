/** The `/inventory` router: adding units (with the back-in-stock auto-allocation
    over Pending requests) and deleting a unit. */
module InventoryRouter {
  import opened Common
  import opened Models

  const ShelfLifeDays := 42
  const AutoAllocator := "LifeLink Auto-Allocation"

  /** The body of `POST /inventory/add`. */
  datatype UnitsCreate = UnitsCreate(bloodGroup: string, componentType: string, quantity: int, collectionDate: Option<Timestamp>)

  datatype AddResponse = AddResponse(message: string, units: seq<BloodUnit>)

  // ---------------------------------------------------------------------------
  // Mock ISBT-128 identifiers: "W" + 4 digits + " " + 5 digits + " " + 2 digits

  function Pow10(k: nat): nat {
    if k == 0 then 1 else 10 * Pow10(k - 1)
  }

  lemma {:induction false} DecimalDigitsLength(n: nat, k: nat)
    requires k >= 1 && Pow10(k - 1) <= n < Pow10(k)
    ensures |DecimalDigits(n)| == k
  {
    if k > 1 {
      assert Pow10(k - 1) == 10 * Pow10(k - 2);
      DecimalDigitsLength(n / 10, k - 1);
    }
  }

  /** A numeral of exactly `width` digits without a leading zero. */
  predicate IsNumeral(s: string, width: nat) {
    width > 0 && |s| == width && s[0] != '0' && forall i :: 0 <= i < |s| ==> IsDigit(s[i])
  }

  predicate IsIsbtShape(s: string) {
    && |s| == 14
    && s[0] == 'W' && IsNumeral(s[1..5], 4)
    && s[5] == ' ' && IsNumeral(s[6..11], 5)
    && s[11] == ' ' && IsNumeral(s[12..], 2)
  }

  function MockIsbt(a: nat, b: nat, c: nat): string {
    "W" + DecimalDigits(a) + " " + DecimalDigits(b) + " " + DecimalDigits(c)
  }

  /** `f"W{randint(1000, 9999)} {randint(10000, 99999)} {randint(10, 99)}"` has the ISBT shape. */
  lemma MockIsbtShape(a: nat, b: nat, c: nat)
    requires 1000 <= a <= 9999 && 10000 <= b <= 99999 && 10 <= c <= 99
    ensures IsIsbtShape(MockIsbt(a, b, c))
  {
    assert Pow10(1) == 10 && Pow10(2) == 100 && Pow10(3) == 1000;
    assert Pow10(4) == 10000 && Pow10(5) == 100000;
    DecimalDigitsLength(a, 4);
    DecimalDigitsLength(b, 5);
    DecimalDigitsLength(c, 2);
    var s := MockIsbt(a, b, c);
    assert s[1..5] == DecimalDigits(a);
    assert s[6..11] == DecimalDigits(b);
    assert s[12..] == DecimalDigits(c);
  }

  // ---------------------------------------------------------------------------
  // Minting the new units

  function NewUnit(id: Id, isbtId: string, data: UnitsCreate, institution: string, now: Timestamp): BloodUnit {
    var collected := data.collectionDate.GetOr(now);
    BloodUnit(id, isbtId, data.componentType, data.bloodGroup, collected, collected + ShelfLifeDays * MsPerDay,
              Available, institution, now)
  }

  /** The `for _ in range(quantity)` loop of add_units: one fresh Available unit per
      iteration, with a randomly drawn mock ISBT id. */
  method MintUnits(firstId: Id, data: UnitsCreate, institution: string, now: Timestamp) returns (minted: seq<BloodUnit>)
    ensures |minted| == if data.quantity > 0 then data.quantity else 0
    ensures forall j :: 0 <= j < |minted| ==>
      minted[j] == NewUnit(firstId + j, minted[j].isbtId, data, institution, now) && IsIsbtShape(minted[j].isbtId)
  {
    minted := [];
    var i := 0;
    while i < data.quantity
      invariant 0 <= i && |minted| == i
      invariant i <= if data.quantity > 0 then data.quantity else 0
      invariant forall j :: 0 <= j < i ==>
        minted[j] == NewUnit(firstId + j, minted[j].isbtId, data, institution, now) && IsIsbtShape(minted[j].isbtId)
    {
      var a: nat :| 1000 <= a <= 9999;
      var b: nat :| 10000 <= b <= 99999;
      var c: nat :| 10 <= c <= 99;
      MockIsbtShape(a, b, c);
      minted := minted + [NewUnit(firstId + i, MockIsbt(a, b, c), data, institution, now)];
      i := i + 1;
    }
  }

  // ---------------------------------------------------------------------------
  // The back-in-stock allocation, specified on counts

  /** Available stock of the group left after walking the FIFO list of needs: a
      request is served when its need fits in what is left, otherwise skipped. */
  function Remaining(avail: nat, needs: seq<nat>): (left: nat)
    ensures left <= avail
    decreases |needs|
  {
    if needs == [] then avail
    else
      var before := Remaining(avail, needs[..|needs| - 1]);
      var need := needs[|needs| - 1];
      if need <= before then before - need else before
  }

  /** Whether the `k`-th request in FIFO order is approved. */
  predicate ApprovesAt(avail: nat, needs: seq<nat>, k: nat)
    requires k < |needs|
  {
    needs[k] <= Remaining(avail, needs[..k])
  }

  /** One step of the walk: the `k`-th need is served exactly when it fits. */
  lemma RemainingStep(avail: nat, needs: seq<nat>, k: nat)
    requires k < |needs|
    ensures Remaining(avail, needs[..k + 1])
         == if ApprovesAt(avail, needs, k) then Remaining(avail, needs[..k]) - needs[k] else Remaining(avail, needs[..k])
  {
    assert needs[..k + 1][..k] == needs[..k];
  }

  /** The units handed out: the sum of the needs of the approved requests. */
  function Handed(avail: nat, needs: seq<nat>): nat
    decreases |needs|
  {
    if needs == [] then 0
    else
      var k := |needs| - 1;
      Handed(avail, needs[..k]) + (if needs[k] <= Remaining(avail, needs[..k]) then needs[k] else 0)
  }

  /** Conservation: every unit that left the Available stock went to an approved request. */
  lemma {:induction false} AllocationConserves(avail: nat, needs: seq<nat>)
    ensures Remaining(avail, needs) + Handed(avail, needs) == avail
    decreases |needs|
  {
    if needs != [] {
      AllocationConserves(avail, needs[..|needs| - 1]);
    }
  }

  /** The stock only goes down as the walk proceeds. */
  lemma {:induction false} RemainingShrinks(avail: nat, needs: seq<nat>, j: nat)
    requires j <= |needs|
    ensures Remaining(avail, needs) <= Remaining(avail, needs[..j])
    decreases |needs|
  {
    if j < |needs| {
      var n := |needs| - 1;
      assert needs[..n][..j] == needs[..j];
      RemainingShrinks(avail, needs[..n], j);
    } else {
      assert needs[..j] == needs;
    }
  }

  /** A request that was skipped still needs more than what is left at the end. */
  lemma SkippedStaysUnsatisfiable(avail: nat, needs: seq<nat>, k: nat)
    requires k < |needs| && !ApprovesAt(avail, needs, k)
    ensures needs[k] > Remaining(avail, needs)
  {
    RemainingShrinks(avail, needs, k);
  }

  /** A skipped request leaves the stock as if it had never been in the list: after
      any later position, the walk with it and the walk without it have the same stock. */
  lemma {:induction false} SkipLeavesStock(avail: nat, needs: seq<nat>, k: nat, m: nat)
    requires k < m <= |needs| && !ApprovesAt(avail, needs, k)
    ensures Remaining(avail, needs[..m]) == Remaining(avail, (needs[..k] + needs[k + 1..])[..m - 1])
    decreases m
  {
    var rest := needs[..k] + needs[k + 1..];
    if m == k + 1 {
      RemainingStep(avail, needs, k);
      assert rest[..k] == needs[..k];
    } else {
      SkipLeavesStock(avail, needs, k, m - 1);
      RemainingStep(avail, needs, m - 1);
      RemainingStep(avail, rest, m - 2);
      assert rest[m - 2] == needs[m - 1];
    }
  }

  /** No head-of-line blocking: a request that does not fit consumes nothing, so every
      later request is decided exactly as if the skipped one were not in the list. */
  lemma NoHeadOfLineBlocking(avail: nat, needs: seq<nat>, k: nat, j: nat)
    requires k < j < |needs| && !ApprovesAt(avail, needs, k)
    ensures ApprovesAt(avail, needs, j) <==> ApprovesAt(avail, needs[..k] + needs[k + 1..], j - 1)
  {
    SkipLeavesStock(avail, needs, k, j);
    assert (needs[..k] + needs[k + 1..])[j - 1] == needs[j];
  }

  function Needs(p: seq<BloodRequest>): (needs: seq<nat>)
    ensures |needs| == |p|
    ensures forall k :: 0 <= k < |p| ==> needs[k] == p[k].unitsNeeded
  {
    seq(|p|, k requires 0 <= k < |p| => p[k].unitsNeeded)
  }

  /** `BloodRequest.find(blood_group == g, status == "Pending").sort(+created_at)`. */
  function FifoPending(reqs: seq<BloodRequest>, g: string): (p: seq<BloodRequest>)
    ensures SortedByCreation(p, true)
    ensures forall q :: multiset(p)[q] == if q.bloodGroup == g && q.status == Pending then multiset(reqs)[q] else 0
  {
    var keep := (q: BloodRequest) => q.bloodGroup == g && q.status == Pending;
    FilterMultiset(reqs, keep);
    SortByCreation(Filter(reqs, keep), true)
  }

  /** Ids of the requests among the first `n` of `p` that the walk approves. */
  ghost function ApprovedAmong(p: seq<BloodRequest>, avail: nat, n: nat): set<Id> {
    set k | 0 <= k < n && k < |p| && ApprovesAt(avail, Needs(p), k) :: p[k].id
  }

  /** The request table after the walk has handled the first `k` FIFO entries. */
  ghost predicate ApprovedSoFar(reqs0: seq<BloodRequest>, cur: seq<BloodRequest>, p: seq<BloodRequest>, avail: nat, k: nat) {
    && |cur| == |reqs0|
    && forall i :: 0 <= i < |reqs0| ==>
         cur[i] == if reqs0[i].id in ApprovedAmong(p, avail, k) then Approve(reqs0[i], AutoAllocator) else reqs0[i]
  }

  /** The effect of the back-in-stock trigger on the tables, for blood group `g`. */
  ghost predicate AutoAllocated(units: seq<BloodUnit>, reqs: seq<BloodRequest>,
                                units': seq<BloodUnit>, reqs': seq<BloodRequest>, g: string)
  {
    var p := FifoPending(reqs, g);
    var avail := CountAvailable(units, g);
    && ReservesFrom(units, units', g, avail - Remaining(avail, Needs(p)))
    && ApprovedSoFar(reqs, reqs', p, avail, |p|)
  }

  lemma PendingMember(reqs: seq<BloodRequest>, g: string, x: BloodRequest)
    requires x in FifoPending(reqs, g)
    ensures x in reqs && x.bloodGroup == g && x.status == Pending
  {
    assert multiset(FifoPending(reqs, g))[x] > 0;
  }

  lemma PendingIndexOf(reqs: seq<BloodRequest>, g: string, i: nat) returns (k: nat)
    requires i < |reqs| && reqs[i].bloodGroup == g && reqs[i].status == Pending
    ensures k < |FifoPending(reqs, g)| && FifoPending(reqs, g)[k] == reqs[i]
  {
    var p := FifoPending(reqs, g);
    assert multiset(reqs)[reqs[i]] > 0;
    assert reqs[i] in multiset(p);
    k :| 0 <= k < |p| && p[k] == reqs[i];
  }

  lemma SameIdSameIndex(reqs: seq<BloodRequest>, nextId: nat, i: nat, j: nat)
    requires RequestsValid(reqs, nextId)
    requires i < |reqs| && j < |reqs| && reqs[i].id == reqs[j].id
    ensures i == j
  {
  }

  /** A request whose id the walk approves is a Pending request of the group. */
  lemma ApprovedIsPendingOfGroup(reqs: seq<BloodRequest>, g: string, avail: nat, nextId: nat, i: nat)
    requires RequestsValid(reqs, nextId)
    requires i < |reqs| && reqs[i].id in ApprovedAmong(FifoPending(reqs, g), avail, |FifoPending(reqs, g)|)
    ensures reqs[i].bloodGroup == g && reqs[i].status == Pending
  {
    var p := FifoPending(reqs, g);
    var k :| 0 <= k < |p| && ApprovesAt(avail, Needs(p), k) && p[k].id == reqs[i].id;
    PendingMember(reqs, g, p[k]);
    var j :| 0 <= j < |reqs| && reqs[j] == p[k];
    SameIdSameIndex(reqs, nextId, i, j);
  }

  /** A request of the group the walk did not approve needs more than what is left. */
  lemma UnapprovedPendingUnsatisfiable(reqs: seq<BloodRequest>, g: string, avail: nat, i: nat)
    requires i < |reqs| && reqs[i].bloodGroup == g && reqs[i].status == Pending
    requires reqs[i].id !in ApprovedAmong(FifoPending(reqs, g), avail, |FifoPending(reqs, g)|)
    ensures reqs[i].unitsNeeded > Remaining(avail, Needs(FifoPending(reqs, g)))
  {
    var p := FifoPending(reqs, g);
    var k := PendingIndexOf(reqs, g, i);
    assert !ApprovesAt(avail, Needs(p), k);
    SkippedStaysUnsatisfiable(avail, Needs(p), k);
  }

  /** What the back-in-stock trigger guarantees: only Pending requests of the group are
      touched, each of them only Pending -> Approved, and every request of the group
      left Pending needs more units than remain Available. */
  lemma AutoAllocationGuarantees(units: seq<BloodUnit>, reqs: seq<BloodRequest>,
                                 units': seq<BloodUnit>, reqs': seq<BloodRequest>, g: string, nextId: nat)
    requires RequestsValid(reqs, nextId)
    requires AutoAllocated(units, reqs, units', reqs', g)
    ensures forall i :: 0 <= i < |reqs| && !(reqs[i].bloodGroup == g && reqs[i].status == Pending) ==> reqs'[i] == reqs[i]
    ensures forall i :: 0 <= i < |reqs'| && reqs'[i].bloodGroup == g && reqs'[i].status == Pending ==>
              reqs'[i].unitsNeeded > CountAvailable(units', g)
    ensures LifecycleStep(reqs, reqs')
  {
    var p := FifoPending(reqs, g);
    var avail := CountAvailable(units, g);
    var approved := ApprovedAmong(p, avail, |p|);
    forall i | 0 <= i < |reqs| && reqs[i].id in approved
      ensures reqs[i].bloodGroup == g && reqs[i].status == Pending
    {
      ApprovedIsPendingOfGroup(reqs, g, avail, nextId, i);
    }
    forall i | 0 <= i < |reqs'| && reqs'[i].bloodGroup == g && reqs'[i].status == Pending
      ensures reqs'[i].unitsNeeded > CountAvailable(units', g)
    {
      assert reqs[i].id !in approved && reqs'[i] == reqs[i];
      UnapprovedPendingUnsatisfiable(reqs, g, avail, i);
    }
  }

  lemma ApprovedAmongStep(p: seq<BloodRequest>, avail: nat, k: nat)
    requires k < |p|
    ensures ApprovedAmong(p, avail, k + 1)
         == ApprovedAmong(p, avail, k) + (if ApprovesAt(avail, Needs(p), k) then {p[k].id} else {})
  {
  }

  lemma ApprovedSoFarValid(reqs0: seq<BloodRequest>, cur: seq<BloodRequest>, p: seq<BloodRequest>, avail: nat, k: nat, nextId: nat)
    requires RequestsValid(reqs0, nextId)
    requires ApprovedSoFar(reqs0, cur, p, avail, k)
    ensures RequestsValid(cur, nextId)
  {
    assert forall i :: 0 <= i < |cur| ==> cur[i].id == reqs0[i].id && cur[i].unitsNeeded == reqs0[i].unitsNeeded;
  }

  lemma ApprovedSoFarStep(reqs0: seq<BloodRequest>, cur: seq<BloodRequest>, p: seq<BloodRequest>, avail: nat, k: nat, nextId: nat)
    requires RequestsValid(reqs0, nextId)
    requires k < |p| && p[k] in reqs0
    requires ApprovedSoFar(reqs0, cur, p, avail, k)
    ensures ApprovesAt(avail, Needs(p), k) ==>
              ApprovedSoFar(reqs0, SaveRequest(cur, Approve(p[k], AutoAllocator)), p, avail, k + 1)
    ensures !ApprovesAt(avail, Needs(p), k) ==> ApprovedSoFar(reqs0, cur, p, avail, k + 1)
  {
    ApprovedAmongStep(p, avail, k);
    var req := p[k];
    var j :| 0 <= j < |reqs0| && reqs0[j] == req;
    if ApprovesAt(avail, Needs(p), k) {
      var next := SaveRequest(cur, Approve(req, AutoAllocator));
      forall i | 0 <= i < |reqs0|
        ensures next[i] == if reqs0[i].id in ApprovedAmong(p, avail, k + 1) then Approve(reqs0[i], AutoAllocator) else reqs0[i]
      {
        assert cur[i].id == reqs0[i].id;
        if reqs0[i].id == req.id {
          SameIdSameIndex(reqs0, nextId, i, j);
        }
      }
    }
  }

  lemma ConcludeAllocation(units0: seq<BloodUnit>, reqs0: seq<BloodRequest>, units: seq<BloodUnit>, reqs: seq<BloodRequest>,
                           g: string, p: seq<BloodRequest>, avail: nat)
    requires p == FifoPending(reqs0, g) && avail == CountAvailable(units0, g)
    requires ReservesFrom(units0, units, g, avail - Remaining(avail, Needs(p)))
    requires ApprovedSoFar(reqs0, reqs, p, avail, |p|)
    ensures AutoAllocated(units0, reqs0, units, reqs, g)
  {
  }

  /** One turn of the FIFO loop: serve `req` when the Available stock of `g` covers
      it (reserve, mark Approved by the auto-allocator, save), otherwise skip it. */
  method ServeInTurn(db: Database, g: string, req: BloodRequest) returns (served: bool)
    requires db.Valid()
    requires req.unitsNeeded >= 1
    modifies db`units, db`requests
    ensures db.Valid()
    ensures served == (CountAvailable(old(db.units), g) >= req.unitsNeeded)
    ensures served ==> ReservesFrom(old(db.units), db.units, g, req.unitsNeeded)
                       && db.requests == SaveRequest(old(db.requests), Approve(req, AutoAllocator))
    ensures !served ==> db.units == old(db.units) && db.requests == old(db.requests)
  {
    var available := CountAvailable(db.units, g);
    served := available >= req.unitsNeeded;
    if served {
      db.Reserve(g, req.unitsNeeded);
      db.requests := SaveRequest(db.requests, Approve(req, AutoAllocator));
    }
  }

  /** A turn of the loop takes the walk from the `k`-th FIFO entry to the next. */
  lemma TurnKeepsInvariant(units0: seq<BloodUnit>, reqs0: seq<BloodRequest>, g: string, pending: seq<BloodRequest>,
                           avail: nat, k: nat, nextId: nat, unitsK: seq<BloodUnit>, reqsK: seq<BloodRequest>,
                           units': seq<BloodUnit>, reqs': seq<BloodRequest>, served: bool)
    requires RequestsValid(reqs0, nextId)
    requires k < |pending| && pending[k] in reqs0 && avail == CountAvailable(units0, g)
    requires ReservesFrom(units0, unitsK, g, avail - Remaining(avail, Needs(pending)[..k]))
    requires ApprovedSoFar(reqs0, reqsK, pending, avail, k)
    requires served == (CountAvailable(unitsK, g) >= pending[k].unitsNeeded)
    requires served ==> ReservesFrom(unitsK, units', g, pending[k].unitsNeeded)
                        && reqs' == SaveRequest(reqsK, Approve(pending[k], AutoAllocator))
    requires !served ==> units' == unitsK && reqs' == reqsK
    ensures ReservesFrom(units0, units', g, avail - Remaining(avail, Needs(pending)[..k + 1]))
    ensures ApprovedSoFar(reqs0, reqs', pending, avail, k + 1)
  {
    var needs := Needs(pending);
    RemainingStep(avail, needs, k);
    ApprovedSoFarStep(reqs0, reqsK, pending, avail, k, nextId);
    if served {
      ReservesFromTrans(units0, unitsK, units', g, avail - Remaining(avail, needs[..k]), pending[k].unitsNeeded);
    }
  }

  /** The FIFO loop of add_units over the Pending requests of group `g`. */
  method AutoAllocate(db: Database, g: string)
    requires db.Valid()
    modifies db`units, db`requests
    ensures db.Valid()
    ensures AutoAllocated(old(db.units), old(db.requests), db.units, db.requests, g)
  {
    ghost var units0, reqs0, nextId0 := db.units, db.requests, db.nextId;
    var pending := FifoPending(db.requests, g);
    ghost var avail := CountAvailable(db.units, g);
    for k := 0 to |pending|
      invariant db.Valid()
      invariant ReservesFrom(units0, db.units, g, avail - Remaining(avail, Needs(pending)[..k]))
      invariant ApprovedSoFar(reqs0, db.requests, pending, avail, k)
    {
      ghost var unitsK, reqsK := db.units, db.requests;
      PendingMember(reqs0, g, pending[k]);
      var served := ServeInTurn(db, g, pending[k]);
      TurnKeepsInvariant(units0, reqs0, g, pending, avail, k, nextId0, unitsK, reqsK, db.units, db.requests, served);
    }
    assert Needs(pending)[..|pending|] == Needs(pending);
    ConcludeAllocation(units0, reqs0, db.units, db.requests, g, pending, avail);
  }

  // ---------------------------------------------------------------------------
  // The handlers

  /** POST /inventory/add. */
  method AddUnits(db: Database, caller: string, data: UnitsCreate, now: Timestamp) returns (r: Result<AddResponse>)
    requires db.Valid()
    modifies db`units, db`requests, db`nextId
    ensures db.Valid()
    ensures LifecycleStep(old(db.requests), db.requests)
    ensures FindUser(db.users, caller).None? ==>
      && r == Err(HttpError(404, "User not found"))
      && db.units == old(db.units) && db.requests == old(db.requests) && db.nextId == old(db.nextId)
    ensures FindUser(db.users, caller).Some? ==>
      && r.Ok?
      && r.value.message == "Successfully added " + IntToString(data.quantity) + " units"
      && var minted := r.value.units;
      && |minted| == (if data.quantity > 0 then data.quantity else 0)
      && (forall j :: 0 <= j < |minted| ==>
            && minted[j] == NewUnit(old(db.nextId) + j, minted[j].isbtId, data, FindUser(db.users, caller).value.fullName, now)
            && IsIsbtShape(minted[j].isbtId))
      && db.nextId == old(db.nextId) + |minted|
      && if minted == [] then db.units == old(db.units) && db.requests == old(db.requests)
         else AutoAllocated(old(db.units) + minted, old(db.requests), db.units, db.requests, data.bloodGroup)
  {
    var user := FindUser(db.users, caller);
    if user.None? {
      return Err(HttpError(404, "User not found"));
    }
    var minted := MintUnits(db.nextId, data, user.value.fullName, now);
    ghost var reqs0 := db.requests;
    if minted != [] {
      db.units := db.units + minted;
      db.nextId := db.nextId + |minted|;
      AutoAllocate(db, data.bloodGroup);
      AutoAllocationGuarantees(old(db.units) + minted, reqs0, db.units, db.requests, data.bloodGroup, db.nextId);
    }
    r := Ok(AddResponse("Successfully added " + IntToString(data.quantity) + " units", minted));
  }

  /** DELETE /inventory/{id}: removes the unit whatever its status. */
  method DeleteUnit(db: Database, id: Id) returns (r: Result<()>)
    requires db.Valid()
    modifies db`units
    ensures db.Valid()
    ensures IndexOf(old(db.units), UnitId, id).None? ==> r == Err(HttpError(404, "Unit not found")) && db.units == old(db.units)
    ensures IndexOf(old(db.units), UnitId, id).Some? ==>
      var i := IndexOf(old(db.units), UnitId, id).value;
      r == Ok(()) && db.units == old(db.units)[..i] + old(db.units)[i + 1..]
    ensures forall u :: u in db.units <==> u in old(db.units) && u.id != id
  {
    var found := IndexOf(db.units, UnitId, id);
    if found.None? {
      return Err(HttpError(404, "Unit not found"));
    }
    var i := found.value;
    RemoveAtKeepsUnitIds(db.units, i, db.nextId);
    db.units := db.units[..i] + db.units[i + 1..];
    r := Ok(());
  }
}
