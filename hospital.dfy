/** The hospital dashboard: its request form defaults, the donor history tab, and
    the KPIs, inventory table and fetch it shares with the clinic page. */
module HospitalDashboard {
  import opened Common
  import opened Models
  import opened DashboardViews
  import RequestsRouter
  import InventoryRouter

  /** The request form before the profile arrives. */
  const DefaultForm := RequestCreate("A+", 1, Some("City General Hospital"), "Critical")

  /** `r.fulfilled_by` is truthy: present and not the empty string. */
  predicate HasDonor(r: BloodRequest) {
    r.fulfilledBy.Some? && r.fulfilledBy.value != ""
  }

  /** `myRequests.filter(r => r.fulfilled_by)`: the donor history cards. */
  function DonorsTab(myRequests: seq<BloodRequest>): (shown: seq<BloodRequest>)
    ensures forall r :: r in shown <==> r in myRequests && r.fulfilledBy.Some? && r.fulfilledBy.value != ""
  {
    Filter(myRequests, HasDonor)
  }

  /** The donor cards appear in the order of the fetched requests. */
  lemma DonorsKeepOrder(myRequests: seq<BloodRequest>)
    ensures Subsequence(DonorsTab(myRequests), myRequests)
  {
    FilterKeepsOrder(myRequests, HasDonor);
  }

  /** Every name the backend writes on approval or fulfilment is non-empty: the
      network approval of create_request, the manual approval, the auto-allocation
      and a donor's acceptance. So every request the backend approved or fulfilled
      is listed among the donors, in its place. */
  lemma BackendApprovalsListed(r: BloodRequest, donorName: string)
    ensures var decided := [Approve(r, RequestsRouter.ApprovedByNetwork), Approve(r, RequestsRouter.ApprovedManually),
                            Approve(r, InventoryRouter.AutoAllocator),
                            r.(status := Fulfilled, fulfilledBy := Some("Donor: " + donorName))];
            DonorsTab(decided) == decided
  {
    var decided := [Approve(r, RequestsRouter.ApprovedByNetwork), Approve(r, RequestsRouter.ApprovedManually),
                    Approve(r, InventoryRouter.AutoAllocator),
                    r.(status := Fulfilled, fulfilledBy := Some("Donor: " + donorName))];
    FilterKeepsAll(decided, HasDonor);
  }

  /** The hospital field is the hospital's own name once a profile with a name is
      fetched; without a name, or before the fetch, it keeps the default. */
  lemma HospitalPrefill(d: Fetched, response: ApiResult<Fetched>)
    requires response == Success(d)
    ensures FetchInstitution(InitialInstitutionPage(DefaultForm), response).form.hospital
         == if d.user.fullName != "" then Some(d.user.fullName) else Some("City General Hospital")
    ensures FetchInstitution(InitialInstitutionPage(DefaultForm), response).form.bloodGroup == "A+"
    ensures FetchInstitution(InitialInstitutionPage(DefaultForm), response).form.urgency == "Critical"
  {
  }
}
