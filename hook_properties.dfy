/** What the route hook guarantees, stated over the functions that specify
    `Addon.ExtendRoute`: one call at a time, then the mode over a series of calls. */
module HookProperties {
  import opened Setup
  import opened JsString
  import opened RouteHook

  // ---- The relative path (line 66) ----

  /** A file below the repository root gets its path from the root on, without the separator. */
  lemma RelativePathBelowRoot(basePath: string, rest: string)
    ensures RelativePath(basePath + "/" + rest, basePath) == rest
  {
  }

  /** The example of a page of the repository `/repo`. */
  lemma RelativePathExample()
    ensures RelativePath("/repo/pages/blog/a.md", "/repo") == "pages/blog/a.md"
  {
    assert "/repo/pages/blog/a.md" == "/repo" + "/" + "pages/blog/a.md";
    RelativePathBelowRoot("/repo", "pages/blog/a.md");
  }

  /** When the root does not occur in the path, only the first character is dropped. */
  lemma RelativePathOutsideRoot(filePath: string, basePath: string)
    requires !Includes(filePath, basePath)
    ensures RelativePath(filePath, basePath) == if filePath == [] then [] else filePath[1..]
  {
  }

  /** When the root occurs first somewhere in the middle, that occurrence is cut out. */
  lemma RelativePathCutsFirstOccurrence(filePath: string, basePath: string, k: nat)
    requires IsFirstOccurrence(filePath, basePath, k)
    ensures RelativePath(filePath, basePath) == Substring(filePath[..k] + filePath[k + |basePath|..], 1)
  {
  }

  // ---- One hook call ----

  /** A route without a default component path is left exactly as it was, and nothing is looked up. */
  lemma NoFilePathNoEffect(mode: string, logArgs: string, platform: string, component: Option<string>, cwd: string,
                           gitLogs: bool, prior: Option<GitLogView>, basePath: string, result: LookupResult)
    requires !IsSet(component)
    ensures Request(mode, logArgs, Tty(platform), component, cwd) == None
    ensures Decorated(prior, gitLogs, component, basePath, mode, cwd, result) == prior
    ensures NextMode(mode, platform, component, cwd, gitLogs, prior, result) == mode
  {
  }

  /** With a component path, `git_log` exists afterwards and its path is the
      relative path: the placeholder `[]` never survives the call. */
  lemma PathAlwaysWritten(mode: string, component: Option<string>, cwd: string,
                          gitLogs: bool, prior: Option<GitLogView>, basePath: string, result: LookupResult)
    requires IsSet(component)
    ensures Decorated(prior, gitLogs, component, basePath, mode, cwd, result).Some?
    ensures Decorated(prior, gitLogs, component, basePath, mode, cwd, result).value.path
         == Text(RelativePath(component.value, basePath))
  {
  }

  /** In `'api'` mode the lookup is never made, the contributors stay as they were and the mode stays `'api'`. */
  lemma ApiModeSkipsLookup(logArgs: string, platform: string, component: Option<string>, cwd: string,
                           gitLogs: bool, prior: Option<GitLogView>, basePath: string, result: LookupResult)
    ensures Request("api", logArgs, Tty(platform), component, cwd) == None
    ensures NextMode("api", platform, component, cwd, gitLogs, prior, result) == "api"
    ensures IsSet(component) ==>
      Decorated(prior, gitLogs, component, basePath, "api", cwd, result)
        == Some(GitLogView(Text(RelativePath(component.value, basePath)), PriorContributors(prior)))
  {
  }

  /** A file outside `<cwd>/pages` is never looked up, whatever the mode. */
  lemma OutsidePagesSkipsLookup(mode: string, logArgs: string, platform: string, component: Option<string>, cwd: string,
                                gitLogs: bool, prior: Option<GitLogView>, basePath: string, result: LookupResult)
    requires IsSet(component) && !StartsWith(component.value, cwd + "/pages")
    ensures Request(mode, logArgs, Tty(platform), component, cwd) == None
    ensures NextMode(mode, platform, component, cwd, gitLogs, prior, result) == mode
    ensures Decorated(prior, gitLogs, component, basePath, mode, cwd, result)
         == Some(GitLogView(Text(RelativePath(component.value, basePath)), PriorContributors(prior)))
  {
  }

  /** The lookup is made exactly when there is a path, the mode is not `'api'`
      and the path lies under `<cwd>/pages`; it gets the path, the tty token and the options. */
  lemma LookupRequested(mode: string, logArgs: string, platform: string, component: Option<string>, cwd: string)
    ensures Request(mode, logArgs, Tty(platform), component, cwd).Some?
        <==> IsSet(component) && mode != "api" && StartsWith(component.value, cwd + "/pages")
    ensures Request(mode, logArgs, Tty(platform), component, cwd).Some? ==>
      Request(mode, logArgs, Tty(platform), component, cwd).value
        == LookupRequest(component.value, Tty(platform), mode, logArgs)
  {
  }

  /** A successful lookup on a route without a truthy `gitLogs` replaces the
      contributors by exactly the records returned, in order; the mode is kept. */
  lemma SuccessReplacesContributors(mode: string, platform: string, component: Option<string>, cwd: string,
                                    prior: Option<GitLogView>, basePath: string, found: seq<Contributor>)
    requires LooksUp(mode, component, cwd)
    ensures Decorated(prior, false, component, basePath, mode, cwd, Ok(found)).value.contributors == Some(found)
    ensures NextMode(mode, platform, component, cwd, false, prior, Ok(found)) == mode
  {
    assert [] + found == found;
  }

  /** With a truthy `gitLogs` and an existing list, the returned records are appended to it. */
  lemma SuccessAppendsContributors(mode: string, platform: string, component: Option<string>, cwd: string,
                                   prior: Option<GitLogView>, basePath: string, found: seq<Contributor>,
                                   existing: seq<Contributor>)
    requires LooksUp(mode, component, cwd)
    requires PriorContributors(prior) == Some(existing)
    ensures Decorated(prior, true, component, basePath, mode, cwd, Ok(found)).value.contributors
         == Some(existing + found)
    ensures NextMode(mode, platform, component, cwd, true, prior, Ok(found)) == mode
  {
  }

  /** With a truthy `gitLogs` and no list, a non-empty result makes the first
      push throw: the list stays absent and the error goes to the `catch` block. */
  lemma SuccessOntoAbsentList(mode: string, platform: string, component: Option<string>, cwd: string,
                              prior: Option<GitLogView>, basePath: string, found: seq<Contributor>)
    requires LooksUp(mode, component, cwd)
    requires PriorContributors(prior) == None
    ensures Decorated(prior, true, component, basePath, mode, cwd, Ok(found)).value.contributors == None
    ensures NextMode(mode, platform, component, cwd, true, prior, Ok(found))
         == if |found| == 0 then mode else CatchMode(mode, platform, PushOnUndefined)
  {
  }

  /** A failed lookup switches to `'log'` exactly when the platform is Linux and
      the message names `/dev/tty`; otherwise the mode is kept. Either way the
      path stays written and the contributors are not touched. */
  lemma FailureHandling(mode: string, platform: string, component: Option<string>, cwd: string,
                        gitLogs: bool, prior: Option<GitLogView>, basePath: string, message: string)
    requires LooksUp(mode, component, cwd)
    ensures NextMode(mode, platform, component, cwd, gitLogs, prior, Err(message))
         == if platform == "linux" && Includes(message, "/dev/tty") then "log" else mode
    ensures Decorated(prior, gitLogs, component, basePath, mode, cwd, Err(message))
         == Some(GitLogView(Text(RelativePath(component.value, basePath)), PriorContributors(prior)))
  {
  }

  /** One call either keeps the mode or sets it to `'log'`, and it is `'api'` afterwards exactly when it was before. */
  lemma ModeStep(mode: string, platform: string, component: Option<string>, cwd: string,
                 gitLogs: bool, prior: Option<GitLogView>, result: LookupResult)
    ensures NextMode(mode, platform, component, cwd, gitLogs, prior, result) in {mode, "log"}
    ensures NextMode(mode, platform, component, cwd, gitLogs, prior, result) == "api" <==> mode == "api"
  {
  }

  // ---- A series of hook calls sharing the mode ----

  /** The inputs of one hook call: the route's component path, the working
      directory, the route's frontmatter and what the lookup would return. */
  datatype Call = Call(component: Option<string>, cwd: string, gitLogs: bool,
                       prior: Option<GitLogView>, result: LookupResult)

  /** The mode after the host has run the hook for `calls`, in order. */
  function ModeAfter(mode: string, platform: string, calls: seq<Call>): string
    decreases |calls|
  {
    if calls == [] then mode
    else
      var c := calls[0];
      ModeAfter(NextMode(mode, platform, c.component, c.cwd, c.gitLogs, c.prior, c.result), platform, calls[1..])
  }

  /** A mode that starts as `'api'` stays `'api'` for every later call. */
  lemma {:induction false} ApiStaysApi(platform: string, calls: seq<Call>)
    ensures ModeAfter("api", platform, calls) == "api"
    decreases |calls|
  {
    if calls != [] {
      var c := calls[0];
      ApiModeSkipsLookup("", platform, c.component, c.cwd, c.gitLogs, c.prior, "", c.result);
      ApiStaysApi(platform, calls[1..]);
    }
  }

  /** Once the mode is `'log'` it stays `'log'`. */
  lemma {:induction false} LogStaysLog(platform: string, calls: seq<Call>)
    ensures ModeAfter("log", platform, calls) == "log"
    decreases |calls|
  {
    if calls != [] {
      var c := calls[0];
      ModeStep("log", platform, c.component, c.cwd, c.gitLogs, c.prior, c.result);
      LogStaysLog(platform, calls[1..]);
    }
  }

  /** Over any series of calls the mode ends as it began or as `'log'`: the downgrade is the only transition. */
  lemma {:induction false} ModeEndsInitialOrLog(mode: string, platform: string, calls: seq<Call>)
    ensures ModeAfter(mode, platform, calls) in {mode, "log"}
    decreases |calls|
  {
    if calls != [] {
      var c := calls[0];
      var next := NextMode(mode, platform, c.component, c.cwd, c.gitLogs, c.prior, c.result);
      ModeStep(mode, platform, c.component, c.cwd, c.gitLogs, c.prior, c.result);
      if next == "log" {
        LogStaysLog(platform, calls[1..]);
      } else {
        ModeEndsInitialOrLog(next, platform, calls[1..]);
      }
    }
  }

  /** Off Linux the mode never changes, whatever the lookups report. */
  lemma {:induction false} OffLinuxModeIsFixed(mode: string, platform: string, calls: seq<Call>)
    requires platform != "linux"
    ensures ModeAfter(mode, platform, calls) == mode
    decreases |calls|
  {
    if calls != [] {
      var c := calls[0];
      assert NextMode(mode, platform, c.component, c.cwd, c.gitLogs, c.prior, c.result) == mode;
      OffLinuxModeIsFixed(mode, platform, calls[1..]);
    }
  }
}
