/** The dashboard layout's page title, which follows the current path. */
module DashboardLayout {
  import opened Text

  /** The paths the title effect recognises. */
  predicate Routed(path: string) {
    path == "/" || path == "/users" || path == "/elections" || path == "/requests" || StartsWith(path, "/vote")
  }

  /** None of the exact paths also starts with "/vote", so the branches never overlap. */
  lemma ExactPathsAreNotVotePaths()
    ensures !StartsWith("/", "/vote") && !StartsWith("/users", "/vote")
    ensures !StartsWith("/elections", "/vote") && !StartsWith("/requests", "/vote")
  {
    assert "/users"[..5][1] != "/vote"[1];
    assert "/elections"[..5][1] != "/vote"[1];
    assert "/requests"[..5][1] != "/vote"[1];
  }

  /** The title after the effect has run for `path`, given the title before it. */
  function NextTitle(path: string, previous: string): (title: string)
    ensures path == "/" ==> title == "Dashboard"
    ensures path == "/users" ==> title == "User Management"
    ensures path == "/elections" ==> title == "Elections"
    ensures path == "/requests" ==> title == "Participant Requests"
    ensures StartsWith(path, "/vote") ==> title == "Vote"
    ensures !Routed(path) ==> title == previous
  {
    ExactPathsAreNotVotePaths();
    if path == "/" then "Dashboard"
    else if path == "/users" then "User Management"
    else if path == "/elections" then "Elections"
    else if path == "/requests" then "Participant Requests"
    else if StartsWith(path, "/vote") then "Vote"
    else previous
  }

  /** A path no branch recognises leaves the title as it was. */
  lemma UnroutedPathsKeepTitle(previous: string)
    ensures NextTitle("/profile", previous) == previous
    ensures NextTitle("/users/1", previous) == previous
  {
    assert "/profile"[..5][1] != "/vote"[1];
    assert "/users/1"[..5][1] != "/vote"[1];
  }

  /** Running the effect again for the same path changes nothing. */
  lemma NextTitleIdempotent(path: string, previous: string)
    ensures NextTitle(path, NextTitle(path, previous)) == NextTitle(path, previous)
  {
  }

  /** The layout component's `pageTitle` state. */
  class Layout {
    var pageTitle: string

    constructor ()
      ensures pageTitle == "Dashboard"
    {
      pageTitle := "Dashboard";
    }

    /** The effect that runs when the location changes. */
    method OnLocationChange(path: string)
      modifies this
      ensures pageTitle == NextTitle(path, old(pageTitle))
    {
      if path == "/" {
        pageTitle := "Dashboard";
      } else if path == "/users" {
        pageTitle := "User Management";
      } else if path == "/elections" {
        pageTitle := "Elections";
      } else if path == "/requests" {
        pageTitle := "Participant Requests";
      } else if StartsWith(path, "/vote") {
        pageTitle := "Vote";
      }
    }
  }
}
