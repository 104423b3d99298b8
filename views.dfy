/** Derivations the institution dashboards (blood bank, hospital, clinic) share:
    the Available-only inventory view, the request KPIs, the status badge, and the
    state a hospital or clinic page holds after its initial fetch. */
module DashboardViews {
  import opened Common
  import opened Models
  import RequestsRouter

  predicate IsAvailable(u: BloodUnit) {
    u.status == Available
  }

  /** `inventory.filter(u => u.status === 'Available')`. */
  function AvailableUnits(inventory: seq<BloodUnit>): (shown: seq<BloodUnit>)
    ensures forall u :: u in shown <==> u in inventory && u.status == Available
  {
    Filter(inventory, IsAvailable)
  }

  /** The Available view lists units in the order they were fetched. */
  lemma AvailableKeepsOrder(inventory: seq<BloodUnit>)
    ensures Subsequence(AvailableUnits(inventory), inventory)
  {
    FilterKeepsOrder(inventory, IsAvailable);
  }

  /** The Available view leaves out exactly the Reserved units. */
  lemma AvailableExcludesReserved(inventory: seq<BloodUnit>)
    ensures |AvailableUnits(inventory)| + |Filter(inventory, (u: BloodUnit) => u.status == Reserved)| == |inventory|
  {
    FilterCountsPartition(inventory, IsAvailable, (u: BloodUnit) => u.status == Reserved, (u: BloodUnit) => false);
    FilterEmpty(inventory, (u: BloodUnit) => false);
  }

  /** Per blood group, the Available view counts the same stock the backend reserves from. */
  lemma {:induction false} AvailableOfGroup(inventory: seq<BloodUnit>, g: string)
    ensures |Filter(AvailableUnits(inventory), (u: BloodUnit) => u.bloodGroup == g)| == CountAvailable(inventory, g)
  {
    if inventory != [] {
      AvailableOfGroup(inventory[1..], g);
    }
  }

  // ---------------------------------------------------------------------------
  // Request KPIs

  predicate IsPending(r: BloodRequest) {
    r.status == Pending
  }

  predicate IsFulfilledOrApproved(r: BloodRequest) {
    r.status == Fulfilled || r.status == Approved
  }

  predicate IsDispatched(r: BloodRequest) {
    r.status == Dispatched
  }

  /** `myRequests.filter(r => r.status === 'Pending').length`. */
  function PendingCount(requests: seq<BloodRequest>): (n: nat)
    ensures n <= |requests|
    ensures n == 0 <==> forall r :: r in requests ==> r.status != Pending
  {
    FilterEmpty(requests, IsPending);
    |Filter(requests, IsPending)|
  }

  /** `myRequests.filter(r => r.status === 'Fulfilled' || r.status === 'Approved').length`. */
  function FulfilledCount(requests: seq<BloodRequest>): (n: nat)
    ensures n <= |requests|
    ensures n == 0 <==> forall r :: r in requests ==> r.status != Fulfilled && r.status != Approved
  {
    FilterEmpty(requests, IsFulfilledOrApproved);
    |Filter(requests, IsFulfilledOrApproved)|
  }

  /** Pending, Fulfilled-or-Approved and Dispatched requests split the total: the two
      KPIs never exceed the total together, and a Dispatched request is in neither. */
  lemma KpiPartition(requests: seq<BloodRequest>)
    ensures PendingCount(requests) + FulfilledCount(requests) + |Filter(requests, IsDispatched)| == |requests|
    ensures PendingCount(requests) + FulfilledCount(requests) <= |requests|
  {
    FilterCountsPartition(requests, IsPending, IsFulfilledOrApproved, IsDispatched);
  }

  /** The colour of a request's status pill on the hospital and clinic pages. */
  datatype Badge = Green | Blue | Yellow

  function StatusBadge(status: RequestStatus): (b: Badge)
    ensures b == Green <==> status == Approved
    ensures b == Blue <==> status == Fulfilled
    ensures b == Yellow <==> status == Pending || status == Dispatched
  {
    match status
    case Approved => Green
    case Fulfilled => Blue
    case _ => Yellow
  }

  // ---------------------------------------------------------------------------
  // The hospital and clinic pages' state after `fetchData`

  /** What the page fetches at once with `Promise.all`: profile, inventory, own requests. */
  datatype Fetched = Fetched(user: Profile, inventory: seq<BloodUnit>, myRequests: seq<BloodRequest>)

  datatype InstitutionPage = InstitutionPage(
    user: Option<Profile>,
    inventory: seq<BloodUnit>,
    myRequests: seq<BloodRequest>,
    form: RequestCreate,
    loading: bool,
    tab: string,
    requestModalOpen: bool,
    requestLoading: bool)

  /** The page as first rendered: nothing fetched yet, the spinner on, the overview tab. */
  function InitialInstitutionPage(form: RequestCreate): (page: InstitutionPage)
    ensures page.user.None? && page.inventory == [] && page.myRequests == [] && page.form == form
    ensures page.loading && page.tab == "dashboard" && !page.requestModalOpen && !page.requestLoading
  {
    InstitutionPage(None, [], [], form, true, "dashboard", false, false)
  }

  /** `if (userRes.data.full_name) setRequestData(prev => ({ ...prev, hospital: full_name }))`. */
  function Prefill(form: RequestCreate, fullName: string): (form': RequestCreate)
    ensures form'.bloodGroup == form.bloodGroup && form'.units == form.units && form'.urgency == form.urgency
    ensures form'.hospital == if fullName != "" then Some(fullName) else form.hospital
  {
    if fullName != "" then form.(hospital := Some(fullName)) else form
  }

  /** `fetchData` of the hospital and clinic pages: all three responses are stored and
      the form prefilled, or, when any call fails, only the spinner stops. */
  function FetchInstitution(page: InstitutionPage, response: ApiResult<Fetched>): (page': InstitutionPage)
    ensures !page'.loading
    ensures response.Success? ==>
      && page'.user == Some(response.data.user)
      && page'.inventory == response.data.inventory
      && page'.myRequests == response.data.myRequests
      && page'.form == Prefill(page.form, response.data.user.fullName)
    ensures response.Failure? ==> page' == page.(loading := false)
  {
    match response
    case Success(d) =>
      page.(user := Some(d.user), inventory := d.inventory, myRequests := d.myRequests,
            form := Prefill(page.form, d.user.fullName), loading := false)
    case Failure(_) => page.(loading := false)
  }

  const LoadFailedToast := "Failed to load dashboard data"

  /** The toast `fetchData` raises: none when every call succeeded, the load error
      exactly when the page kept its old data. */
  function FetchToast(page: InstitutionPage, response: ApiResult<Fetched>): (toast: Option<string>)
    ensures toast.None? <==> response.Success?
    ensures toast.Some? ==> toast.value == LoadFailedToast && FetchInstitution(page, response) == page.(loading := false)
  {
    if response.Success? then None else Some(LoadFailedToast)
  }

  /** A fetch never touches the tab, the modal or the submit spinner. */
  lemma FetchKeepsControls(page: InstitutionPage, response: ApiResult<Fetched>)
    ensures FetchInstitution(page, response).tab == page.tab
    ensures FetchInstitution(page, response).requestModalOpen == page.requestModalOpen
    ensures FetchInstitution(page, response).requestLoading == page.requestLoading
  {
  }

  /** A request status as the API spells it. */
  function StatusText(status: RequestStatus): (text: string)
    ensures |text| >= 7
  {
    match status
    case Pending => "Pending"
    case Approved => "Approved"
    case Dispatched => "Dispatched"
    case Fulfilled => "Fulfilled"
  }

  /** Distinct statuses are spelt differently, so the success toast names the status. */
  lemma StatusTextInjective(a: RequestStatus, b: RequestStatus)
    ensures StatusText(a) == StatusText(b) <==> a == b
  {
    if a != b {
      assert StatusText(a)[0] != StatusText(b)[0];
    }
  }

  /** The page after a submit and the last toast it showed. */
  datatype Submitted = Submitted(page: InstitutionPage, toast: string)

  const CreateFailedToast := "Failed to create request."

  /** `handleRequestSubmit` of the hospital and clinic pages: create, close the modal,
      then refetch the own requests and switch to the requests tab. A failure of either
      call lands in the same `catch`, whose toast replaces the success toast; the form
      is not reset. */
  function SubmitInstitutionRequest(page: InstitutionPage, created: ApiResult<RequestsRouter.CreateResponse>,
                                    refreshed: ApiResult<seq<BloodRequest>>): (out: Submitted)
    ensures !out.page.requestLoading
    ensures out.page.form == page.form && out.page.user == page.user && out.page.inventory == page.inventory
    ensures out.page.loading == page.loading
    ensures created.Failure? ==> out == Submitted(page.(requestLoading := false), CreateFailedToast)
    ensures created.Success? ==> !out.page.requestModalOpen
    ensures created.Success? && refreshed.Success? ==>
      && out.page.myRequests == refreshed.data && out.page.tab == "requests"
      && out.toast == "Request " + StatusText(created.data.status) + "!"
    ensures created.Success? && refreshed.Failure? ==>
      && out.page.myRequests == page.myRequests && out.page.tab == page.tab && out.toast == CreateFailedToast
  {
    match created
    case Failure(_) => Submitted(page.(requestLoading := false), CreateFailedToast)
    case Success(r) =>
      var closed := page.(requestModalOpen := false);
      match refreshed
      case Failure(_) => Submitted(closed.(requestLoading := false), CreateFailedToast)
      case Success(mine) =>
        Submitted(closed.(myRequests := mine, tab := "requests", requestLoading := false),
                  "Request " + StatusText(r.status) + "!")
  }

  /** The success toast and the failure toast can never be confused. */
  lemma SubmitToastTellsOutcome(page: InstitutionPage, created: ApiResult<RequestsRouter.CreateResponse>,
                                refreshed: ApiResult<seq<BloodRequest>>)
    ensures SubmitInstitutionRequest(page, created, refreshed).toast != CreateFailedToast
        <==> created.Success? && refreshed.Success?
  {
    if created.Success? && refreshed.Success? {
      var t := SubmitInstitutionRequest(page, created, refreshed).toast;
      assert t[..8] == "Request ";
      assert CreateFailedToast[..8] == "Failed t";
    }
  }
}
