/** The clinic dashboard: the hospital page's views with a compact first-ten preview
    of the central bank's Available stock and its own form defaults. */
module ClinicDashboard {
  import opened Common
  import opened Models
  import opened DashboardViews

  /** The request form before the profile arrives: the clinic's name is filled in later. */
  const DefaultForm := RequestCreate("A+", 1, Some(""), "Standard")

  const PreviewSize := 10

  /** `inventory.filter(u => u.status === 'Available').slice(0, 10)`. */
  function StockPreview(inventory: seq<BloodUnit>): (shown: seq<BloodUnit>)
    ensures |shown| == if |AvailableUnits(inventory)| < PreviewSize then |AvailableUnits(inventory)| else PreviewSize
    ensures shown <= AvailableUnits(inventory)
    ensures forall u :: u in shown ==> u in inventory && u.status == Available
  {
    Take(AvailableUnits(inventory), PreviewSize)
  }

  /** With at most ten Available units the preview is the whole Available table. */
  lemma PreviewIsWholeTableWhenSmall(inventory: seq<BloodUnit>)
    ensures StockPreview(inventory) == AvailableUnits(inventory) <==> |AvailableUnits(inventory)| <= PreviewSize
  {
  }

  /** The preview keeps the order of the fetched inventory. */
  lemma PreviewKeepsOrder(inventory: seq<BloodUnit>)
    ensures Subsequence(StockPreview(inventory), inventory)
  {
    var avail := AvailableUnits(inventory);
    AvailableKeepsOrder(inventory);
    PrefixOfSubsequence(StockPreview(inventory), avail, inventory);
  }

  /** A prefix of a subsequence of `s` is a subsequence of `s`. */
  lemma {:induction false} PrefixOfSubsequence<T>(p: seq<T>, r: seq<T>, s: seq<T>)
    requires p <= r && Subsequence(r, s)
    ensures Subsequence(p, s)
    decreases |s|
  {
    if p != [] {
      assert r != [] && s != [];
      if r[0] == s[0] && Subsequence(r[1..], s[1..]) {
        assert p[1..] <= r[1..];
        PrefixOfSubsequence(p[1..], r[1..], s[1..]);
      } else {
        PrefixOfSubsequence(p, r, s[1..]);
      }
    }
  }

  /** The hospital field is the clinic's name once a profile with a name is fetched,
      and stays empty otherwise. */
  lemma ClinicPrefill(d: Fetched, response: ApiResult<Fetched>)
    requires response == Success(d)
    ensures FetchInstitution(InitialInstitutionPage(DefaultForm), response).form.hospital == Some(d.user.fullName)
    ensures FetchInstitution(InitialInstitutionPage(DefaultForm), response).form.urgency == "Standard"
  {
  }
}
