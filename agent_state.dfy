/** What both scraper agents' login machines act on, and the session
    restore they share. */
module Agents {
  import opened Wrappers
  import opened Browser
  import opened SessionManager

  /** The agent's browser handles and the session directory. */
  datatype AgentState = AgentState(handles: Handles, files: Files)

  /** `_restore_session` for `service`: whether it reports success, and the
      handles after it. An empty or unreadable session is a failure before
      the browser is touched; once cookies are loaded the browser is
      launched, and an exception adding them or opening the site
      (`restoreLoad`) is a failure too. */
  function RestoreSpec(h: Handles, files: Files, dir: string, service: string, readFails: bool, restoreLoad: Step)
    : (bool, Handles)
  {
    var cookies := LoadResult(files, dir, service, readFails);
    if cookies.None? || cookies.value == [] then (false, h)
    else (restoreLoad.Completes?, Launch(h))
  }

  /** A restore reports success exactly when a non-empty cookie list is
      loaded and opening the site with it completes; it leaves the browser
      untouched or fully open. */
  lemma RestoreSucceedsIff(h: Handles, files: Files, dir: string, service: string, readFails: bool,
                           restoreLoad: Step)
    ensures var (restored, h1) := RestoreSpec(h, files, dir, service, readFails, restoreLoad);
            && (restored <==> && SessionPath(dir, service) in files && !readFails
                              && files[SessionPath(dir, service)].Valid?
                              && files[SessionPath(dir, service)].cookies != []
                              && restoreLoad.Completes?)
            && (h1 == h || h1 == Launch(h))
  {
    LoadNoneCases(files, dir, service, readFails);
  }
}
