/** The patient and donor dashboard: sequential loading that fetches broadcasts only
    for donors, the donation offer that takes a broadcast off the list, the request
    form that resets after a submit, and the capped broadcast preview. */
module PatientDashboard {
  import opened Common
  import opened Models
  import opened DashboardViews
  import RequestsRouter

  /** The request form as first shown and as reset after a successful submit. */
  const BlankRequest := RequestCreate("A+", 1, Some(""), "Standard")

  const DonorRole := "donor"

  // ---------------------------------------------------------------------------
  // Derived views

  /** `prev.filter(req => req._id !== reqId)`. */
  function WithoutRequest(broadcasts: seq<BloodRequest>, id: Id): (rest: seq<BloodRequest>)
    ensures forall r :: r in rest <==> r in broadcasts && r.id != id
    ensures |rest| <= |broadcasts|
  {
    Filter(broadcasts, (r: BloodRequest) => r.id != id)
  }

  /** The broadcasts left after an offer keep their order. */
  lemma WithoutRequestKeepsOrder(broadcasts: seq<BloodRequest>, id: Id)
    ensures Subsequence(WithoutRequest(broadcasts, id), broadcasts)
  {
    FilterKeepsOrder(broadcasts, (r: BloodRequest) => r.id != id);
  }

  /** Taking off an id no broadcast has changes nothing; one that a broadcast has
      shortens the list. */
  lemma WithoutRequestShrinks(broadcasts: seq<BloodRequest>, id: Id)
    ensures (forall r :: r in broadcasts ==> r.id != id) <==> WithoutRequest(broadcasts, id) == broadcasts
    ensures (exists r :: r in broadcasts && r.id == id) ==> |WithoutRequest(broadcasts, id)| < |broadcasts|
  {
    var keep := (r: BloodRequest) => r.id != id;
    if forall r :: r in broadcasts ==> r.id != id {
      FilterKeepsAll(broadcasts, keep);
    }
    if r :| r in broadcasts && r.id == id {
      FilterMultiset(broadcasts, keep);
      assert multiset(WithoutRequest(broadcasts, id))[r] == 0 < multiset(broadcasts)[r];
      assert multiset(WithoutRequest(broadcasts, id)) != multiset(broadcasts);
      assert WithoutRequest(broadcasts, id) != broadcasts;
      FilterCountsDisjoint(broadcasts, keep, (q: BloodRequest) => q.id == id);
      assert r in Filter(broadcasts, (q: BloodRequest) => q.id == id);
    }
  }

  /** Turning request `i` from Pending to Fulfilled changes the count of no request
      with another id, and leaves no Pending request with its id when ids are unique. */
  lemma FulfilledCounts(requests: seq<BloodRequest>, i: nat, donor: string, q: BloodRequest)
    requires i < |requests| && requests[i].status == Pending
    requires forall j :: 0 <= j < |requests| && j != i ==> requests[j].id != requests[i].id
    ensures q.id != requests[i].id ==>
      multiset(requests[i := requests[i].(status := Fulfilled, fulfilledBy := Some(donor))])[q] == multiset(requests)[q]
    ensures q.id == requests[i].id && q.status == Pending ==>
      multiset(requests[i := requests[i].(status := Fulfilled, fulfilledBy := Some(donor))])[q] == 0
  {
    var after := requests[i := requests[i].(status := Fulfilled, fulfilledBy := Some(donor))];
    assert multiset(after) == multiset(requests) - multiset{requests[i]} + multiset{after[i]};
    if q.id == requests[i].id && q.status == Pending {
      assert q !in after;
    }
  }

  /** After the backend accepts an offer on request `i` (which turns it from Pending
      to Fulfilled), a fresh `/requests/broadcasts` holds exactly the requests the page
      keeps by dropping that id from its list, up to order. */
  lemma RemovalMatchesRefetch(requests: seq<BloodRequest>, i: nat, donor: string, caller: string)
    requires i < |requests| && requests[i].status == Pending
    requires forall j :: 0 <= j < |requests| && j != i ==> requests[j].id != requests[i].id
    ensures multiset(RequestsRouter.Broadcasts(requests[i := requests[i].(status := Fulfilled, fulfilledBy := Some(donor))], caller))
         == multiset(WithoutRequest(RequestsRouter.Broadcasts(requests, caller), requests[i].id))
  {
    var id := requests[i].id;
    var after := requests[i := requests[i].(status := Fulfilled, fulfilledBy := Some(donor))];
    var lhs := RequestsRouter.Broadcasts(after, caller);
    var before := RequestsRouter.Broadcasts(requests, caller);
    var rhs := WithoutRequest(before, id);
    FilterMultiset(before, (r: BloodRequest) => r.id != id);
    forall q: BloodRequest ensures multiset(lhs)[q] == multiset(rhs)[q] {
      FulfilledCounts(requests, i, donor, q);
    }
    assert multiset(lhs) == multiset(rhs);
  }

  const PreviewSize := 3

  /** `broadcasts.slice(0, 3)`: the urgent cards on the overview. */
  function BroadcastPreview(broadcasts: seq<BloodRequest>): (shown: seq<BloodRequest>)
    ensures |shown| == if |broadcasts| < PreviewSize then |broadcasts| else PreviewSize
    ensures shown <= broadcasts
  {
    Take(broadcasts, PreviewSize)
  }

  /** `broadcasts.length > 3`: the "View All" link. */
  predicate ShowViewAll(broadcasts: seq<BloodRequest>) {
    |broadcasts| > PreviewSize
  }

  /** The link is offered exactly when the preview leaves some broadcast out. */
  lemma ViewAllWhenPreviewIsPartial(broadcasts: seq<BloodRequest>)
    ensures ShowViewAll(broadcasts) <==> BroadcastPreview(broadcasts) != broadcasts
  {
    if ShowViewAll(broadcasts) {
      assert |BroadcastPreview(broadcasts)| < |broadcasts|;
    }
  }

  /** "Broadcasted to N donors" under a Pending request: the length of the list, 0
      when it is missing; nothing under a request in any other status. */
  function BroadcastReach(r: BloodRequest): (reach: Option<nat>)
    ensures reach.Some? <==> r.status == Pending
    ensures reach.Some? && r.broadcastedTo.None? ==> reach.value == 0
    ensures reach.Some? && r.broadcastedTo.Some? ==> reach.value == |r.broadcastedTo.value|
  {
    if r.status != Pending then None
    else if r.broadcastedTo.Some? then Some(|r.broadcastedTo.value|)
    else Some(0)
  }

  /** The status pill on this page: green for Approved, yellow for everything else. */
  function PatientBadge(status: RequestStatus): (b: Badge)
    ensures b == Green <==> status == Approved
    ensures b != Blue
  {
    if status == Approved then Green else Yellow
  }

  /** This page and the institution pages agree on Approved; they differ on Fulfilled. */
  lemma BadgesAgreeOnApproved(status: RequestStatus)
    ensures PatientBadge(status) == Green <==> StatusBadge(status) == Green
    ensures status == Fulfilled ==> PatientBadge(status) != StatusBadge(status)
  {
  }

  // ---------------------------------------------------------------------------
  // The page's state and handlers

  class PatientPage {
    var user: Option<Profile>
    var myRequests: seq<BloodRequest>
    var broadcasts: seq<BloodRequest>
    var loading: bool
    var tab: string
    var requestModalOpen: bool
    var requestForm: RequestCreate
    var requestLoading: bool
    var donateLoading: Option<Id>

    constructor ()
      ensures user.None? && myRequests == [] && broadcasts == [] && loading && tab == "dashboard"
      ensures !requestModalOpen && requestForm == BlankRequest && !requestLoading && donateLoading.None?
    {
      user := None;
      myRequests := [];
      broadcasts := [];
      loading := true;
      tab := "dashboard";
      requestModalOpen := false;
      requestForm := BlankRequest;
      requestLoading := false;
      donateLoading := None;
    }

    /** `fetchData`: profile, then own requests, then, for a donor only, the
        broadcasts. The first failure ends the sequence with the load error toast; the
        spinner stops either way. */
    method FetchData(profile: ApiResult<Profile>, mine: ApiResult<seq<BloodRequest>>,
                     open: ApiResult<seq<BloodRequest>>) returns (toast: Option<string>)
      modifies this`user, this`myRequests, this`broadcasts, this`loading
      ensures !loading
      ensures toast.None? <==> profile.Success? && mine.Success? && (profile.data.role == DonorRole ==> open.Success?)
      ensures toast.Some? ==> toast.value == LoadFailedToast
      ensures user == if profile.Success? then Some(profile.data) else old(user)
      ensures myRequests == if profile.Success? && mine.Success? then mine.data else old(myRequests)
      ensures broadcasts == if profile.Success? && mine.Success? && profile.data.role == DonorRole && open.Success?
                            then open.data else old(broadcasts)
    {
      toast := Some(LoadFailedToast);
      if profile.Success? {
        user := Some(profile.data);
        if mine.Success? {
          myRequests := mine.data;
          if profile.data.role == DonorRole {
            if open.Success? {
              broadcasts := open.data;
              toast := None;
            }
          } else {
            toast := None;
          }
        }
      }
      loading := false;
    }

    /** `handleDonate`: the card shows "Processing..." while the offer is in flight
        (`busy` is `donateLoading` at the time of the call); on success the request
        leaves the broadcast list. */
    method HandleDonate(id: Id, response: ApiResult<string>) returns (toast: string, busy: Option<Id>)
      modifies this`broadcasts, this`donateLoading
      ensures busy == Some(id)
      ensures donateLoading.None?
      ensures response.Success? ==>
        toast == "Thank you! Donation offer sent." && broadcasts == WithoutRequest(old(broadcasts), id)
      ensures response.Failure? ==> toast == "Failed to process donation." && broadcasts == old(broadcasts)
    {
      donateLoading := Some(id);
      busy := donateLoading;
      if response.Success? {
        toast := "Thank you! Donation offer sent.";
        broadcasts := WithoutRequest(broadcasts, id);
      } else {
        toast := "Failed to process donation.";
      }
      donateLoading := None;
    }

    /** `handleRequestSubmit`: create, close the modal and reset the form, then refetch
        the own requests and switch to the requests tab. A failure of either call lands
        in the same `catch`, whose toast replaces the success toast. `busy` is
        `requestLoading` while the calls are in flight. */
    method HandleRequestSubmit(created: ApiResult<RequestsRouter.CreateResponse>, refreshed: ApiResult<seq<BloodRequest>>)
      returns (toast: string, busy: bool)
      modifies this`requestModalOpen, this`requestForm, this`myRequests, this`tab, this`requestLoading
      ensures busy && !requestLoading
      ensures created.Failure? ==>
        && toast == CreateFailedToast
        && requestModalOpen == old(requestModalOpen) && requestForm == old(requestForm)
        && myRequests == old(myRequests) && tab == old(tab)
      ensures created.Success? ==> !requestModalOpen && requestForm == BlankRequest
      ensures created.Success? && refreshed.Success? ==>
        && myRequests == refreshed.data && tab == "requests"
        && toast == "Request " + StatusText(created.data.status) + "!"
      ensures created.Success? && refreshed.Failure? ==>
        myRequests == old(myRequests) && tab == old(tab) && toast == CreateFailedToast
    {
      requestLoading := true;
      busy := requestLoading;
      toast := CreateFailedToast;
      if created.Success? {
        requestModalOpen := false;
        requestForm := BlankRequest;
        if refreshed.Success? {
          myRequests := refreshed.data;
          tab := "requests";
          toast := "Request " + StatusText(created.data.status) + "!";
        }
      }
      requestLoading := false;
    }
  }
}
