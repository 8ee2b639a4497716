/** `handleCancel` of Cancel-button.jsx: where the Cancel button sends the user,
    decided from `document.referrer`. */
module CancelButton {
  import opened Text

  const DashboardUrl := "https://stochify.com/dashboard"
  const HomeUrl := "https://stochify.com"
  const DashboardMark := "stochify.com/dashboard"
  const SiteMark := "stochify.com"

  /** The three tests of the handler, in their order. */
  function CancelDestination(referrer: string): (url: string)
    ensures url == DashboardUrl || url == HomeUrl
    ensures url == DashboardUrl <==> Occurs(referrer, DashboardMark)
  {
    if Includes(referrer, DashboardMark) then DashboardUrl
    else if Includes(referrer, SiteMark) then HomeUrl
    else HomeUrl
  }

  /** A referrer on the dashboard is also on the site. */
  lemma DashboardIsOnSite(referrer: string)
    requires Occurs(referrer, DashboardMark)
    ensures Occurs(referrer, SiteMark)
  {
    var k :| 0 <= k <= |referrer| && IsPrefix(DashboardMark, referrer[k..]);
    assert referrer[k..][..|SiteMark|] == DashboardMark[..|SiteMark|] == SiteMark;
  }

  /** The site test changes nothing: the destination is the dashboard exactly for
      dashboard referrers and the homepage for every other one, "" included. */
  lemma CancelIsTwoWay(referrer: string)
    ensures CancelDestination(referrer) == if Occurs(referrer, DashboardMark) then DashboardUrl else HomeUrl
    ensures !Occurs(referrer, SiteMark) ==> CancelDestination(referrer) == HomeUrl
  {
    if Occurs(referrer, DashboardMark) {
      DashboardIsOnSite(referrer);
    }
  }
}
