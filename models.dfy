/** The three collections of the LifeLink backend (inventory, blood_requests,
    users) as records, and the queries over them that several handlers share. */
module Models {
  import opened Common

  /** Document identifiers (MongoDB ObjectIds), allocated from a counter. */
  type Id = nat
  /** Dates are milliseconds since the epoch. */
  type Timestamp = int

  const MsPerDay: int := 86400000

  /** The unit statuses the handlers assign. */
  datatype UnitStatus = Available | Reserved

  datatype BloodUnit = BloodUnit(
    id: Id,
    isbtId: string,
    componentType: string,
    bloodGroup: string,
    collectionDate: Timestamp,
    expiryDate: Timestamp,
    status: UnitStatus,
    institutionId: string,
    createdAt: Timestamp)

  /** The request statuses the handlers assign. */
  datatype RequestStatus = Pending | Approved | Dispatched | Fulfilled

  datatype BloodRequest = BloodRequest(
    id: Id,
    requester: string,          // smart_id of the linked user
    bloodGroup: string,
    unitsNeeded: nat,
    hospitalName: Option<string>,
    urgency: string,
    status: RequestStatus,
    fulfilledBy: Option<string>,
    broadcastedTo: Option<seq<string>>,
    createdAt: Timestamp)

  datatype User = User(
    smartId: string,
    fullName: string,
    passwordHash: string,
    role: string,
    bloodGroup: Option<string>,
    createdAt: Timestamp)

  /** What `GET /auth/me` returns: the user without the password hash. */
  datatype Profile = Profile(
    fullName: string,
    smartId: string,
    role: string,
    bloodGroup: Option<string>,
    createdAt: Timestamp)

  /** The body of `POST /requests/create`, which is also the pages' request form. */
  datatype RequestCreate = RequestCreate(
    bloodGroup: string,
    units: int,
    hospital: Option<string>,
    urgency: string)

  // ---------------------------------------------------------------------------
  // Available stock of a blood group

  predicate IsAvailableOf(u: BloodUnit, g: string) {
    u.bloodGroup == g && u.status == Available
  }

  /** The size of `find(blood_group == g, status == "Available")`. */
  function CountAvailable(units: seq<BloodUnit>, g: string): (n: nat)
    ensures n <= |units|
  {
    if units == [] then 0
    else (if IsAvailableOf(units[0], g) then 1 else 0) + CountAvailable(units[1..], g)
  }

  lemma {:induction false} CountAvailableAppend(a: seq<BloodUnit>, b: seq<BloodUnit>, g: string)
    ensures CountAvailable(a + b, g) == CountAvailable(a, g) + CountAvailable(b, g)
  {
    if a != [] {
      assert (a + b)[0] == a[0] && (a + b)[1..] == a[1..] + b;
      CountAvailableAppend(a[1..], b, g);
    } else {
      assert a + b == b;
    }
  }

  /** Replacing one unit changes the count by exactly the two units' contributions. */
  lemma {:induction false} CountAvailableUpdate(s: seq<BloodUnit>, i: nat, x: BloodUnit, g: string)
    requires i < |s|
    ensures CountAvailable(s[i := x], g)
         == CountAvailable(s, g) - (if IsAvailableOf(s[i], g) then 1 else 0) + (if IsAvailableOf(x, g) then 1 else 0)
  {
    if i > 0 {
      assert s[i := x][1..] == s[1..][i - 1 := x];
      CountAvailableUpdate(s[1..], i - 1, x, g);
    }
  }

  /** A unit is either left alone or is an Available unit of `g` now Reserved. */
  predicate ReservedOrSame(before: BloodUnit, after: BloodUnit, g: string) {
    after == before || (IsAvailableOf(before, g) && after == before.(status := Reserved))
  }

  /** `after` is `before` with exactly `n` Available units of group `g` flipped to
      Reserved: no unit is added, removed or otherwise changed. */
  ghost predicate ReservesFrom(before: seq<BloodUnit>, after: seq<BloodUnit>, g: string, n: nat) {
    && |after| == |before|
    && (forall i :: 0 <= i < |before| ==> ReservedOrSame(before[i], after[i], g))
    && CountAvailable(after, g) + n == CountAvailable(before, g)
  }

  /** The number of positions at which two unit tables differ. */
  function Changed(before: seq<BloodUnit>, after: seq<BloodUnit>): nat
    requires |before| == |after|
  {
    if before == [] then 0
    else (if before[0] != after[0] then 1 else 0) + Changed(before[1..], after[1..])
  }

  /** "Exactly n units flip": under ReservesFrom the number of changed units is n. */
  lemma {:induction false} ReservesFromFlipsExactly(before: seq<BloodUnit>, after: seq<BloodUnit>, g: string, n: nat)
    requires ReservesFrom(before, after, g, n)
    ensures Changed(before, after) == n
  {
    FlipsCountedBy(before, after, g);
  }

  lemma {:induction false} FlipsCountedBy(before: seq<BloodUnit>, after: seq<BloodUnit>, g: string)
    requires |after| == |before|
    requires forall i :: 0 <= i < |before| ==> ReservedOrSame(before[i], after[i], g)
    ensures CountAvailable(after, g) + Changed(before, after) == CountAvailable(before, g)
  {
    if before != [] {
      assert ReservedOrSame(before[0], after[0], g);
      forall i | 0 <= i < |before[1..]|
        ensures ReservedOrSame(before[1..][i], after[1..][i], g)
      {
        assert ReservedOrSame(before[i + 1], after[i + 1], g);
      }
      FlipsCountedBy(before[1..], after[1..], g);
    }
  }

  /** Reservations compose: two batches from the same group are one batch. */
  lemma ReservesFromTrans(a: seq<BloodUnit>, b: seq<BloodUnit>, c: seq<BloodUnit>, g: string, n: nat, m: nat)
    requires ReservesFrom(a, b, g, n) && ReservesFrom(b, c, g, m)
    ensures ReservesFrom(a, c, g, n + m)
  {
    forall i | 0 <= i < |a| ensures ReservedOrSame(a[i], c[i], g) {
      assert ReservedOrSame(a[i], b[i], g) && ReservedOrSame(b[i], c[i], g);
    }
  }

  // ---------------------------------------------------------------------------
  // Lookups by key

  /** `Document.get(id)`: the position of the document whose `key` is `id`, if any. */
  function IndexOf<T>(s: seq<T>, key: T -> Id, id: Id): (r: Option<nat>)
    ensures r.Some? ==> r.value < |s| && key(s[r.value]) == id
    ensures r.None? ==> forall i :: 0 <= i < |s| ==> key(s[i]) != id
  {
    if s == [] then None
    else if key(s[0]) == id then Some(0)
    else match IndexOf(s[1..], key, id)
      case None => None
      case Some(k) => Some(k + 1)
  }

  function UnitId(u: BloodUnit): Id { u.id }

  function RequestId(r: BloodRequest): Id { r.id }

  /** `User.find_one(User.smart_id == smartId)`. */
  function FindUser(users: seq<User>, smartId: string): (r: Option<User>)
    ensures r.Some? ==> r.value in users && r.value.smartId == smartId
    ensures r.None? ==> forall u :: u in users ==> u.smartId != smartId
  {
    if users == [] then None
    else if users[0].smartId == smartId then Some(users[0])
    else FindUser(users[1..], smartId)
  }

  /** `doc.save()`: the stored document with the same id is replaced by `doc`. */
  function SaveRequest(reqs: seq<BloodRequest>, doc: BloodRequest): (r: seq<BloodRequest>)
    ensures |r| == |reqs|
    ensures forall i :: 0 <= i < |reqs| ==> r[i] == if reqs[i].id == doc.id then doc else reqs[i]
  {
    seq(|reqs|, i requires 0 <= i < |reqs| => if reqs[i].id == doc.id then doc else reqs[i])
  }

  /** With ids unique, saving a document is the in-place update of its one stored copy. */
  lemma SaveRequestAt(reqs: seq<BloodRequest>, i: nat, doc: BloodRequest)
    requires i < |reqs| && reqs[i].id == doc.id
    requires forall j :: 0 <= j < |reqs| && j != i ==> reqs[j].id != reqs[i].id
    ensures SaveRequest(reqs, doc) == reqs[i := doc]
  {
  }

  function Approve(r: BloodRequest, approver: string): BloodRequest {
    r.(status := Approved, fulfilledBy := Some(approver))
  }

  // ---------------------------------------------------------------------------
  // Sorting by created_at (`.sort(+created_at)` and `.sort(-created_at)`)

  predicate Precedes(a: BloodRequest, b: BloodRequest, oldestFirst: bool) {
    if oldestFirst then a.createdAt <= b.createdAt else b.createdAt <= a.createdAt
  }

  ghost predicate SortedByCreation(s: seq<BloodRequest>, oldestFirst: bool) {
    forall i, j :: 0 <= i < j < |s| ==> Precedes(s[i], s[j], oldestFirst)
  }

  function InsertByCreation(x: BloodRequest, s: seq<BloodRequest>, oldestFirst: bool): (r: seq<BloodRequest>)
    requires SortedByCreation(s, oldestFirst)
    ensures SortedByCreation(r, oldestFirst)
    ensures multiset(r) == multiset(s) + multiset{x}
  {
    if s == [] then [x]
    else if Precedes(x, s[0], oldestFirst) then [x] + s
    else
      assert s == [s[0]] + s[1..];
      var rest := InsertByCreation(x, s[1..], oldestFirst);
      forall k | 0 <= k < |rest| ensures Precedes(s[0], rest[k], oldestFirst) {
        assert rest[k] in multiset(rest);
      }
      [s[0]] + rest
  }

  function SortByCreation(s: seq<BloodRequest>, oldestFirst: bool): (r: seq<BloodRequest>)
    ensures SortedByCreation(r, oldestFirst)
    ensures multiset(r) == multiset(s)
  {
    if s == [] then []
    else
      assert s == [s[0]] + s[1..];
      InsertByCreation(s[0], SortByCreation(s[1..], oldestFirst), oldestFirst)
  }

  // ---------------------------------------------------------------------------
  // The request lifecycle

  /** The status changes a handler may make: Pending -> Approved,
      Pending -> Fulfilled and Approved -> Dispatched. */
  predicate StatusStep(before: RequestStatus, after: RequestStatus) {
    || after == before
    || (before == Pending && (after == Approved || after == Fulfilled))
    || (before == Approved && after == Dispatched)
  }

  /** One handler call's effect on the request table: existing requests keep their
      place and id and move along StatusStep; new requests start Pending or Approved. */
  ghost predicate LifecycleStep(before: seq<BloodRequest>, after: seq<BloodRequest>) {
    && |before| <= |after|
    && (forall i :: 0 <= i < |before| ==>
          after[i].id == before[i].id && StatusStep(before[i].status, after[i].status))
    && (forall i :: |before| <= i < |after| ==> after[i].status in {Pending, Approved})
  }

  /** Dispatched and Fulfilled are terminal; any chain of handler calls only moves forward. */
  lemma LifecycleTerminal(s: RequestStatus, t: RequestStatus, u: RequestStatus)
    ensures StatusStep(Dispatched, t) ==> t == Dispatched
    ensures StatusStep(Fulfilled, t) ==> t == Fulfilled
    ensures StatusStep(s, t) && StatusStep(t, u) && s != Pending ==> StatusStep(s, u)
  {
  }

  // ---------------------------------------------------------------------------
  // The database

  ghost predicate UnitIdsValid(units: seq<BloodUnit>, nextId: nat) {
    && (forall i, j :: 0 <= i < j < |units| ==> units[i].id != units[j].id)
    && (forall i :: 0 <= i < |units| ==> units[i].id < nextId)
  }

  /** Removing the unit at index `i` keeps the ids valid and removes exactly the units with its id. */
  lemma RemoveAtKeepsUnitIds(units: seq<BloodUnit>, i: nat, nextId: nat)
    requires UnitIdsValid(units, nextId) && i < |units|
    ensures UnitIdsValid(units[..i] + units[i + 1..], nextId)
    ensures forall u :: u in units[..i] + units[i + 1..] <==> u in units && u.id != units[i].id
  {
    var rest := units[..i] + units[i + 1..];
    assert forall k :: 0 <= k < |rest| ==> rest[k] == if k < i then units[k] else units[k + 1];
    forall u ensures u in rest <==> u in units && u.id != units[i].id {
      if u in units && u.id != units[i].id {
        var j :| 0 <= j < |units| && units[j] == u;
        if j < i { assert rest[j] == u; } else { assert rest[j - 1] == u; }
      }
    }
  }

  ghost predicate RequestsValid(reqs: seq<BloodRequest>, nextId: nat) {
    && (forall i, j :: 0 <= i < j < |reqs| ==> reqs[i].id != reqs[j].id)
    && (forall i :: 0 <= i < |reqs| ==> reqs[i].id < nextId && reqs[i].unitsNeeded >= 1)
  }

  ghost predicate UniqueSmartIds(users: seq<User>) {
    forall i, j :: 0 <= i < j < |users| ==> users[i].smartId != users[j].smartId
  }

  /** The three collections, in insertion order, and the id allocator. */
  class Database {
    var units: seq<BloodUnit>
    var requests: seq<BloodRequest>
    var users: seq<User>
    var nextId: nat

    ghost predicate Valid()
      reads this
    {
      UnitIdsValid(units, nextId) && RequestsValid(requests, nextId) && UniqueSmartIds(users)
    }

    constructor ()
      ensures Valid()
      ensures units == [] && requests == [] && users == [] && nextId == 0
    {
      units, requests, users, nextId := [], [], [], 0;
    }

    /** `find(blood_group == g, status == "Available").limit(n)` followed by
        `unit.status = "Reserved"; unit.save()` for each unit found. */
    method Reserve(g: string, n: nat)
      requires Valid()
      requires CountAvailable(units, g) >= n
      modifies this`units
      ensures Valid()
      ensures ReservesFrom(old(units), units, g, n)
    {
      ghost var before := units;
      var i, k := 0, 0;
      while k < n
        invariant 0 <= i <= |units| && 0 <= k <= n
        invariant |units| == |before|
        invariant forall j :: 0 <= j < |before| ==> ReservedOrSame(before[j], units[j], g)
        invariant forall j :: i <= j < |before| ==> units[j] == before[j]
        invariant CountAvailable(units, g) + k == CountAvailable(before, g)
        invariant CountAvailable(units[i..], g) >= n - k
        invariant UnitIdsValid(units, nextId)
        decreases |units| - i
      {
        assert units[i..] == [units[i]] + units[i + 1..];
        var u := units[i];
        if IsAvailableOf(u, g) {
          CountAvailableUpdate(units, i, u.(status := Reserved), g);
          units := units[i := u.(status := Reserved)];
          k := k + 1;
        }
        i := i + 1;
      }
    }
  }
}
