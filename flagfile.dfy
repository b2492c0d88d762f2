/** Resolution of the configured flagfile: keep it when it exists as given,
    otherwise look for it inside the document's workspace folder, otherwise
    drop it with a warning. */
module Flagfile {
  import opened Wrappers
  import opened JsText
  import opened Editor

  /** What the editor answers about one document's surroundings.
      `existing` holds the paths on which `workspace.fs.stat` succeeds,
      `folder` is the URI of the workspace folder containing the document
      (`getWorkspaceFolder`), and `joinPath(folder, p)` is the `fsPath` of
      `Uri.joinPath(folder, p)`. The one set answers both stat calls: the
      one on `Uri.file(p)`, which reads a relative `p` as if it stood under
      the file-system root, and the one on the joined URI, which the model
      asks through that URI's `fsPath`. The two agree only for a workspace
      folder with the `file` scheme. */
  datatype Host = Host(existing: set<string>, folder: Option<string>, joinPath: (string, string) -> string)

  /** The value of `flagfile` once resolution is over, and the warning shown
      on the way, if any. */
  datatype Resolution = Resolution(flagfile: Option<string>, warning: Option<Notice>)

  function NotFoundWarning(flagfile: string): Notice {
    WarningMessage("Flagfile \"" + flagfile + "\" not found.")
  }

  /** The path looked up in the workspace folder, when there is a folder. */
  function WorkspaceCandidate(host: Host, flagfile: string): (candidate: Option<string>)
    ensures candidate.Some? <==> host.folder.Some?
  {
    match host.folder
    case None => None
    case Some(folder) => Some(host.joinPath(folder, flagfile))
  }

  function Resolve(configured: Option<string>, host: Host): (r: Resolution)
    // nothing configured (undefined or ""): nothing is looked up or reported
    ensures !IsTruthy(configured) ==> r.flagfile == configured && r.warning.None?
    // a path that exists as given wins and is kept unchanged
    ensures IsTruthy(configured) && configured.value in host.existing ==> r == Resolution(configured, None)
    // whatever is kept is the configured path or its workspace candidate, and exists
    ensures IsTruthy(configured) && r.flagfile.Some? ==>
      r.flagfile.value in host.existing &&
      (r.flagfile == configured || r.flagfile == WorkspaceCandidate(host, configured.value))
    // the workspace candidate is taken only when the path as given is missing
    ensures IsTruthy(configured) && r.flagfile != configured ==> configured.value !in host.existing
    // a warning naming the configured path exactly when a configured path is dropped
    ensures r.warning.Some? <==> IsTruthy(configured) && r.flagfile.None?
    ensures r.warning.Some? ==> r.warning == Some(NotFoundWarning(configured.value))
  {
    if !IsTruthy(configured) then
      Resolution(configured, None)
    else
      var f := configured.value;
      if f in host.existing then
        Resolution(configured, None)
      else
        match WorkspaceCandidate(host, f)
        case Some(joined) =>
          if joined in host.existing then Resolution(Some(joined), None)
          else Resolution(None, Some(NotFoundWarning(f)))
        case None =>
          Resolution(None, Some(NotFoundWarning(f)))
  }

  /** First match wins, and no existing candidate is missed: a configured
      flagfile is dropped only when neither candidate exists. */
  lemma ResolveFindsExisting(configured: Option<string>, host: Host)
    requires IsTruthy(configured)
    ensures Resolve(configured, host).flagfile.None? <==>
      configured.value !in host.existing &&
      (host.folder.None? || host.joinPath(host.folder.value, configured.value) !in host.existing)
    ensures (configured.value !in host.existing && host.folder.Some? &&
             host.joinPath(host.folder.value, configured.value) in host.existing) ==>
      Resolve(configured, host) == Resolution(Some(host.joinPath(host.folder.value, configured.value)), None)
  {
  }
}
