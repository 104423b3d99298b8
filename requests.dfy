/** The `/requests` router: creating a request (auto-approval or donor
    broadcast), manual approval, dispatch, donor acceptance and the three reads. */
module RequestsRouter {
  import opened Common
  import opened Models

  const ApprovedByNetwork := "LifeLink Network"
  const ApprovedManually := "Blood Bank (Manual)"

  datatype CreateResponse = CreateResponse(message: string, status: RequestStatus, requestId: Id, broadcastCount: nat)

  /** The groups whose donors are asked: the requested group and the universal donor O-. */
  function CompatibleGroups(g: string): (groups: seq<string>)
    ensures forall x :: x in groups <==> x == g || x == "O-"
    ensures |groups| == if g == "O-" then 1 else 2
  {
    if g != "O-" then [g, "O-"] else [g]
  }

  predicate IsCompatibleDonor(u: User, g: string) {
    u.role == "donor" && u.bloodGroup.Some? && u.bloodGroup.value in CompatibleGroups(g)
  }

  /** `[d.smart_id for d in User.find(role == "donor", blood_group in compatible)]`. */
  function DonorIds(users: seq<User>, g: string): (ids: seq<string>)
    ensures |ids| <= |users|
    ensures forall sid :: sid in ids <==>
      exists u :: u in users && u.smartId == sid && u.role == "donor" && u.bloodGroup in {Some(g), Some("O-")}
  {
    if users == [] then []
    else
      var rest := DonorIds(users[1..], g);
      assert forall u :: u in users <==> u == users[0] || u in users[1..];
      (if IsCompatibleDonor(users[0], g) then [users[0].smartId] else []) + rest
  }

  /** The filter of the donor query, as a predicate on users. */
  function DonorFor(g: string): User -> bool {
    (u: User) => IsCompatibleDonor(u, g)
  }

  /** One smart id per compatible donor, in the order of the user table, so the
      broadcast count is the number of compatible donors. */
  lemma {:induction false} DonorIdsPerDonor(users: seq<User>, g: string)
    ensures |DonorIds(users, g)| == |Filter(users, DonorFor(g))|
    ensures forall i :: 0 <= i < |DonorIds(users, g)| ==> DonorIds(users, g)[i] == Filter(users, DonorFor(g))[i].smartId
  {
    if users != [] {
      DonorIdsPerDonor(users[1..], g);
    }
  }

  /** With smart ids unique, no donor is asked twice. */
  lemma {:induction false} DonorIdsDistinct(users: seq<User>, g: string)
    requires UniqueSmartIds(users)
    ensures forall i, j :: 0 <= i < j < |DonorIds(users, g)| ==> DonorIds(users, g)[i] != DonorIds(users, g)[j]
  {
    if users != [] {
      var rest := DonorIds(users[1..], g);
      assert UniqueSmartIds(users[1..]) by {
        forall i, j | 0 <= i < j < |users[1..]| ensures users[1..][i].smartId != users[1..][j].smartId {
          assert users[1..][i] == users[i + 1] && users[1..][j] == users[j + 1];
        }
      }
      DonorIdsDistinct(users[1..], g);
      if IsCompatibleDonor(users[0], g) {
        forall k | 0 <= k < |rest| ensures rest[k] != users[0].smartId {
          assert rest[k] in rest;
          var u :| u in users[1..] && u.smartId == rest[k];
          var m :| 0 <= m < |users[1..]| && users[1..][m] == u;
          assert users[m + 1] == u;
        }
        assert DonorIds(users, g) == [users[0].smartId] + rest;
      }
    }
  }

  /** POST /requests/create. */
  method CreateRequest(db: Database, caller: string, req: RequestCreate, now: Timestamp)
    returns (r: Result<CreateResponse>)
    requires db.Valid()
    requires req.units >= 1
    modifies db`units, db`requests, db`nextId
    ensures db.Valid()
    ensures LifecycleStep(old(db.requests), db.requests)
    ensures FindUser(db.users, caller).None? ==>
      && r == Err(HttpError(404, "User not found"))
      && db.units == old(db.units) && db.requests == old(db.requests) && db.nextId == old(db.nextId)
    ensures FindUser(db.users, caller).Some? ==>
      var approve := CountAvailable(old(db.units), req.bloodGroup) >= req.units;
      var broadcast := if approve then [] else DonorIds(db.users, req.bloodGroup);
      var stored := BloodRequest(old(db.nextId), caller, req.bloodGroup, req.units as nat, req.hospital, req.urgency,
                                 if approve then Approved else Pending,
                                 if approve then Some(ApprovedByNetwork) else None,
                                 Some(broadcast), now);
      && db.requests == old(db.requests) + [stored]
      && db.nextId == old(db.nextId) + 1
      && (if approve then ReservesFrom(old(db.units), db.units, req.bloodGroup, req.units as nat)
          else db.units == old(db.units))
      && r == Ok(CreateResponse("Blood request processed", stored.status, stored.id, |broadcast|))
  {
    var user := FindUser(db.users, caller);
    if user.None? {
      return Err(HttpError(404, "User not found"));
    }
    var status := Pending;
    var fulfilledBy: Option<string> := None;
    var broadcast: seq<string> := [];
    if CountAvailable(db.units, req.bloodGroup) >= req.units {
      status := Approved;
      fulfilledBy := Some(ApprovedByNetwork);
      db.Reserve(req.bloodGroup, req.units as nat);
    } else {
      broadcast := DonorIds(db.users, req.bloodGroup);
    }
    var stored := BloodRequest(db.nextId, user.value.smartId, req.bloodGroup, req.units as nat, req.hospital,
                               req.urgency, status, fulfilledBy, Some(broadcast), now);
    db.requests := db.requests + [stored];
    db.nextId := db.nextId + 1;
    r := Ok(CreateResponse("Blood request processed", status, stored.id, |broadcast|));
  }

  /** POST /requests/{id}/fulfill: manual approval by the blood bank. */
  method FulfillRequest(db: Database, reqId: Id) returns (r: Result<string>)
    requires db.Valid()
    modifies db`units, db`requests
    ensures db.Valid()
    ensures LifecycleStep(old(db.requests), db.requests)
    ensures r.Err? ==> db.units == old(db.units) && db.requests == old(db.requests)
    ensures IndexOf(old(db.requests), RequestId, reqId).None? ==> r == Err(HttpError(404, "Request not found"))
    ensures IndexOf(old(db.requests), RequestId, reqId).Some? ==>
      var i := IndexOf(old(db.requests), RequestId, reqId).value;
      var req := old(db.requests)[i];
      if req.status != Pending then r == Err(HttpError(400, "Request already processed"))
      else if CountAvailable(old(db.units), req.bloodGroup) < req.unitsNeeded then
        r == Err(HttpError(400, "Insufficient stock to approve"))
      else
        && r == Ok("Request Approved Manually")
        && ReservesFrom(old(db.units), db.units, req.bloodGroup, req.unitsNeeded)
        && db.requests == old(db.requests)[i := Approve(req, ApprovedManually)]
  {
    var found := IndexOf(db.requests, RequestId, reqId);
    if found.None? {
      return Err(HttpError(404, "Request not found"));
    }
    var i := found.value;
    var req := db.requests[i];
    if req.status != Pending {
      return Err(HttpError(400, "Request already processed"));
    }
    if CountAvailable(db.units, req.bloodGroup) < req.unitsNeeded {
      return Err(HttpError(400, "Insufficient stock to approve"));
    }
    db.Reserve(req.bloodGroup, req.unitsNeeded);
    db.requests := db.requests[i := Approve(req, ApprovedManually)];
    r := Ok("Request Approved Manually");
  }

  /** POST /requests/{id}/dispatch: only the request changes; reserved units stay Reserved. */
  method DispatchRequest(db: Database, reqId: Id) returns (r: Result<string>)
    requires db.Valid()
    modifies db`requests
    ensures db.Valid()
    ensures LifecycleStep(old(db.requests), db.requests)
    ensures r.Err? ==> db.requests == old(db.requests)
    ensures IndexOf(old(db.requests), RequestId, reqId).None? ==> r == Err(HttpError(404, "Request not found"))
    ensures IndexOf(old(db.requests), RequestId, reqId).Some? ==>
      var i := IndexOf(old(db.requests), RequestId, reqId).value;
      var req := old(db.requests)[i];
      if req.status != Approved then r == Err(HttpError(400, "Request must be Approved first"))
      else r == Ok("Blood Units Dispatched") && db.requests == old(db.requests)[i := req.(status := Dispatched)]
  {
    var found := IndexOf(db.requests, RequestId, reqId);
    if found.None? {
      return Err(HttpError(404, "Request not found"));
    }
    var i := found.value;
    var req := db.requests[i];
    if req.status != Approved {
      return Err(HttpError(400, "Request must be Approved first"));
    }
    db.requests := db.requests[i := req.(status := Dispatched)];
    r := Ok("Blood Units Dispatched");
  }

  /** POST /requests/{id}/donate: any caller may accept any Pending request; the
      broadcast list is not consulted and no unit changes. */
  method DonateRequest(db: Database, reqId: Id, caller: string) returns (r: Result<string>)
    requires db.Valid()
    requires FindUser(db.users, caller).Some?
    modifies db`requests
    ensures db.Valid()
    ensures LifecycleStep(old(db.requests), db.requests)
    ensures r.Err? ==> db.requests == old(db.requests)
    ensures IndexOf(old(db.requests), RequestId, reqId).None? ==> r == Err(HttpError(404, "Request not found"))
    ensures IndexOf(old(db.requests), RequestId, reqId).Some? ==>
      var i := IndexOf(old(db.requests), RequestId, reqId).value;
      var req := old(db.requests)[i];
      if req.status != Pending then r == Err(HttpError(400, "Request no longer pending"))
      else
        && r == Ok("Thank you for donating!")
        && db.requests == old(db.requests)[i := req.(status := Fulfilled,
                                                      fulfilledBy := Some("Donor: " + FindUser(db.users, caller).value.fullName))]
  {
    var found := IndexOf(db.requests, RequestId, reqId);
    if found.None? {
      return Err(HttpError(404, "Request not found"));
    }
    var i := found.value;
    var req := db.requests[i];
    if req.status != Pending {
      return Err(HttpError(400, "Request no longer pending"));
    }
    var user := FindUser(db.users, caller).value;
    db.requests := db.requests[i := req.(status := Fulfilled, fulfilledBy := Some("Donor: " + user.fullName))];
    r := Ok("Thank you for donating!");
  }

  // ---------------------------------------------------------------------------
  // Reads, each sorted newest first

  /** GET /requests/my-requests. */
  function MyRequests(users: seq<User>, requests: seq<BloodRequest>, caller: string): (r: Result<seq<BloodRequest>>)
    ensures FindUser(users, caller).None? ==> r == Err(HttpError(404, "User not found"))
    ensures FindUser(users, caller).Some? ==>
      && r.Ok?
      && SortedByCreation(r.value, false)
      && forall q :: multiset(r.value)[q] == if q.requester == caller then multiset(requests)[q] else 0
  {
    match FindUser(users, caller)
    case None => Err(HttpError(404, "User not found"))
    case Some(u) =>
      var mine := (q: BloodRequest) => q.requester == u.smartId;
      FilterMultiset(requests, mine);
      Ok(SortByCreation(Filter(requests, mine), false))
  }

  /** GET /requests/all. */
  function AllRequests(requests: seq<BloodRequest>): (r: seq<BloodRequest>)
    ensures SortedByCreation(r, false)
    ensures multiset(r) == multiset(requests)
  {
    SortByCreation(requests, false)
  }

  predicate BroadcastTo(q: BloodRequest, smartId: string) {
    q.broadcastedTo.Some? && smartId in q.broadcastedTo.value
  }

  /** GET /requests/broadcasts: the Pending requests whose broadcast list holds the caller. */
  function Broadcasts(requests: seq<BloodRequest>, caller: string): (r: seq<BloodRequest>)
    ensures SortedByCreation(r, false)
    ensures forall q :: multiset(r)[q] ==
                        if q.status == Pending && q.broadcastedTo.Some? && caller in q.broadcastedTo.value
                        then multiset(requests)[q] else 0
  {
    var open := (q: BloodRequest) => BroadcastTo(q, caller) && q.status == Pending;
    FilterMultiset(requests, open);
    SortByCreation(Filter(requests, open), false)
  }

  /** A reservation by create_request leaves every unit of another blood group as it was. */
  lemma ReservationTouchesOnlyTheGroup(before: seq<BloodUnit>, after: seq<BloodUnit>, g: string, n: nat, i: nat)
    requires ReservesFrom(before, after, g, n)
    requires i < |before| && before[i].bloodGroup != g
    ensures after[i] == before[i]
  {
    assert ReservedOrSame(before[i], after[i], g);
  }
}
