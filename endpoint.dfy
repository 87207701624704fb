/** Resolving the URL of one list resource from the optional workspace name
    (the `REACT_APP_CODESPACE_NAME` environment value, passed in here). */
module Endpoint {
  import opened Wrappers
  import opened Text

  const CloudSuffix := "-8000.app.github.dev/api/"
  const LocalBase := "http://localhost:8000/api/"

  /** The workspace name is used when it is truthy: present and non-empty. */
  predicate WorkspaceGiven(workspace: Option<string>)
  {
    workspace.Some? && workspace.value != ""
  }

  /** `https://<name>-8000.app.github.dev/api/<resource>/` for a truthy
      workspace name, `http://localhost:8000/api/<resource>/` otherwise. */
  function ApiUrl(workspace: Option<string>, resource: string): (url: string)
    ensures EndsWith(url, "/api/" + resource + "/")
    ensures StartsWith(url, "https://") <==> WorkspaceGiven(workspace)
    ensures !WorkspaceGiven(workspace) ==> url == LocalBase + resource + "/"
  {
    if WorkspaceGiven(workspace) then
      "https://" + workspace.value + CloudSuffix + resource + "/"
    else
      var url := LocalBase + resource + "/";
      assert url[4] == ':' != "https://"[4];
      url
  }

  /** Recovers the workspace name from a resolved URL: the text between
      `https://` and the cloud suffix, if the URL has that shape. */
  function WorkspaceOf(url: string, resource: string): Option<string>
  {
    var tail := CloudSuffix + resource + "/";
    if StartsWith(url, "https://") && |url| >= 8 + |tail| && EndsWith(url, tail) then
      Some(url[8..|url| - |tail|])
    else
      None
  }

  /** The resolved URL determines the workspace name that was used, and shows
      that none was used when the name was absent or empty. */
  lemma WorkspaceRoundTrip(workspace: Option<string>, resource: string)
    ensures WorkspaceOf(ApiUrl(workspace, resource), resource)
            == if WorkspaceGiven(workspace) then workspace else None
  {
    var url := ApiUrl(workspace, resource);
    var tail := CloudSuffix + resource + "/";
    if WorkspaceGiven(workspace) {
      var name := workspace.value;
      assert url == "https://" + name + tail;
      assert url[..8] == "https://";
      assert url[|url| - |tail|..] == tail;
      assert url[8..|url| - |tail|] == name;
    }
  }

  /** Two different truthy workspace names never resolve to the same URL. */
  lemma ApiUrlSeparatesWorkspaces(v: Option<string>, w: Option<string>, resource: string)
    requires WorkspaceGiven(v) && WorkspaceGiven(w) && v != w
    ensures ApiUrl(v, resource) != ApiUrl(w, resource)
  {
    WorkspaceRoundTrip(v, resource);
    WorkspaceRoundTrip(w, resource);
  }
}
