/** The `vue-router:extendRoute` hook: it writes a page's path relative to the
    repository root into `frontmatter.git_log.path` and, outside `'api'` mode,
    fills `git_log.contributors` from the contributor lookup, downgrading the
    addon-wide mode to `'log'` when the lookup fails for want of a terminal on Linux.

    The contributor lookup is a call into code outside this model; the hook is
    given what that call returns (`LookupResult`) and reports, as `request`,
    whether and with what arguments it made the call. */
module RouteHook {
  import opened Setup
  import opened JsString

  /** A contributor record as the lookup returns it; the hook only copies these. */
  type Contributor

  /** What `getContributors` does when called: returns records or throws an error with a message. */
  datatype LookupResult = Ok(found: seq<Contributor>) | Err(message: string)

  /** The arguments of a `getContributors(filePath, tty, _options)` call. */
  datatype LookupRequest = LookupRequest(filePath: string, tty: string, mode: string, logArgs: string)

  /** The value of `git_log.path`: absent, the placeholder `[]`, or a string. */
  datatype PathValue = Absent | Placeholder | Text(text: string)
  {
    /** JavaScript truthiness: `[]` is truthy, the empty string is not. */
    predicate Truthy()
    {
      Placeholder? || (Text? && text != "")
    }
  }

  /** The fields of a `git_log` object that the hook reads or writes. */
  datatype GitLogView = GitLogView(path: PathValue, contributors: Option<seq<Contributor>>)

  /** The JavaScript engine's message for `push` on an undefined array. */
  const PushOnUndefined: string := "Cannot read properties of undefined (reading 'push')"

  /** The path of `filePath` relative to the repository root `basePath`:
      the first occurrence of `basePath` removed, then the first character dropped. */
  function RelativePath(filePath: string, basePath: string): string
  {
    Substring(RemoveFirst(filePath, basePath), 1)
  }

  /** The content guard: `filePath` lies below `<cwd>/pages`. */
  predicate UnderPages(filePath: string, cwd: string)
  {
    StartsWith(filePath, cwd + "/pages")
  }

  /** Whether the hook reaches the lookup call: a non-empty component path,
      a mode other than `'api'`, and a path under the pages directory. */
  predicate LooksUp(mode: string, component: Option<string>, cwd: string)
  {
    IsSet(component) && mode != "api" && UnderPages(component.value, cwd)
  }

  /** The lookup call the hook makes, if any. */
  function Request(mode: string, logArgs: string, tty: string, component: Option<string>, cwd: string): Option<LookupRequest>
  {
    if LooksUp(mode, component, cwd) then Some(LookupRequest(component.value, tty, mode, logArgs)) else None
  }

  /** `git_log.contributors` as the hook finds it: absent on a `git_log` it has just created. */
  function PriorContributors(prior: Option<GitLogView>): Option<seq<Contributor>>
  {
    if prior.Some? then prior.value.contributors else None
  }

  /** How the `try` block ends: with the contributors list it leaves, or with
      the message of the error that the `catch` block receives. */
  datatype TryOutcome = Completed(contributors: Option<seq<Contributor>>) | Caught(message: string)

  /** The `try` block after the lookup returned `result`: unless `gitLogs` is
      truthy the list is reset to `[]`, then every record is pushed in order;
      a push onto an absent list throws. */
  function TryLookup(prior: Option<seq<Contributor>>, gitLogs: bool, result: LookupResult): TryOutcome
  {
    match result
    case Err(message) => Caught(message)
    case Ok(found) =>
      var start := if gitLogs then prior else Some([]);
      if start.Some? then Completed(Some(start.value + found))
      else if |found| == 0 then Completed(None)
      else Caught(PushOnUndefined)
  }

  /** The mode after the `catch` block handled `message`. */
  function CatchMode(mode: string, platform: string, message: string): (m: string)
    ensures m == "log" || m == mode
    ensures m == "log" <==> (mode == "log" || (platform == "linux" && Includes(message, "/dev/tty")))
  {
    if platform == "linux" && Includes(message, Tty(platform)) then "log" else mode
  }

  /** The addon-wide mode after one hook call. */
  function NextMode(mode: string, platform: string, component: Option<string>, cwd: string,
                    gitLogs: bool, prior: Option<GitLogView>, result: LookupResult): string
  {
    if !LooksUp(mode, component, cwd) then mode
    else match TryLookup(PriorContributors(prior), gitLogs, result)
      case Completed(_) => mode
      case Caught(message) => CatchMode(mode, platform, message)
  }

  /** `git_log.contributors` after one hook call, given the list before. */
  function ContributorsAfter(before: Option<seq<Contributor>>, gitLogs: bool, mode: string,
                             component: Option<string>, cwd: string, result: LookupResult): Option<seq<Contributor>>
  {
    if !LooksUp(mode, component, cwd) then before
    else match TryLookup(before, gitLogs, result)
      case Completed(contributors) => contributors
      case Caught(_) => before
  }

  /** The route's `git_log` after one hook call, given the one before (`None`: absent). */
  function Decorated(prior: Option<GitLogView>, gitLogs: bool, component: Option<string>, basePath: string,
                     mode: string, cwd: string, result: LookupResult): Option<GitLogView>
  {
    if !IsSet(component) then prior
    else
      Some(GitLogView(Text(RelativePath(component.value, basePath)),
                      ContributorsAfter(PriorContributors(prior), gitLogs, mode, component, cwd, result)))
  }

  /** A route's `git_log` object. */
  class GitLog {
    var path: PathValue
    var contributors: Option<seq<Contributor>>

    /** The empty object `{}`. */
    constructor ()
      ensures path == Absent && contributors == None
    {
      path := Absent;
      contributors := None;
    }

    /** `found.forEach(c => contributors.push(c))`: appends the records in
        order, or fails at the first push when the list is absent. */
    method PushAll(found: seq<Contributor>) returns (failed: bool)
      modifies this
      ensures path == old(path)
      ensures failed <==> old(contributors).None? && |found| != 0
      ensures contributors == if old(contributors).None? then None else Some(old(contributors).value + found)
    {
      var i := 0;
      failed := false;
      assert contributors.Some? ==> contributors.value + found[..0] == contributors.value;
      while i < |found| && !failed
        invariant 0 <= i <= |found|
        invariant contributors == if old(contributors).None? then None else Some(old(contributors).value + found[..i])
        invariant old(contributors).None? ==> i == 0
        invariant failed ==> old(contributors).None? && |found| != 0
        invariant path == old(path)
        decreases |found| - i, if failed then 0 else 1
      {
        if contributors.None? {
          failed := true;
        } else {
          assert old(contributors).value + found[..i + 1] == contributors.value + [found[i]] by {
            assert found[..i + 1] == found[..i] + [found[i]];
          }
          contributors := Some(contributors.value + [found[i]]);
          i := i + 1;
        }
      }
      assert !failed ==> found[..i] == found;
    }
  }

  /** A route's `meta.frontmatter`, reduced to what the hook touches. */
  class Frontmatter {
    var gitLog: GitLog?
    /** Truthiness of `frontmatter.gitLogs`, which the hook reads and never writes. */
    var gitLogs: bool

    constructor (gitLog: GitLog?, gitLogs: bool)
      ensures this.gitLog == gitLog && this.gitLogs == gitLogs
    {
      this.gitLog := gitLog;
      this.gitLogs := gitLogs;
    }

    ghost function View(): Option<GitLogView>
      reads this, gitLog
    {
      if gitLog == null then None else Some(GitLogView(gitLog.path, gitLog.contributors))
    }
  }

  /** The state `setup` closes over: the options with defaults and the
      values read from the process and from git. */
  class Addon {
    /** `_options.contributor.mode`, shared by every later hook call. */
    var mode: string
    const logArgs: string
    /** `process.platform`. */
    const platform: string
    const tty: string
    /** The trimmed output of `git rev-parse --show-toplevel`. */
    const basePath: string

    ghost predicate Valid()
      reads this
    {
      tty == Tty(platform)
    }

    constructor (contributor: Option<ContributorOptions>, platform: string, basePath: string)
      ensures Valid()
      ensures mode == InitialMode(contributor) && logArgs == InitialLogArgs(contributor)
      ensures this.platform == platform && this.basePath == basePath
    {
      mode := InitialMode(contributor);
      logArgs := InitialLogArgs(contributor);
      this.platform := platform;
      tty := Tty(platform);
      this.basePath := basePath;
    }

    /** The `catch` block: on Linux, an error naming the terminal device switches to `'log'`. */
    method Catch(message: string)
      requires Valid()
      modifies this
      ensures mode == CatchMode(old(mode), platform, message)
    {
      if platform == "linux" && Includes(message, tty) {
        mode := "log";
      }
    }

    /** Lines 60-67: make sure `git_log` exists and write the relative path into it. */
    method WritePath(fm: Frontmatter, filePath: string) returns (log: GitLog)
      modifies fm, fm.gitLog
      ensures fm.gitLog == log && fm.gitLogs == old(fm.gitLogs)
      ensures old(fm.gitLog) != null ==> log == old(fm.gitLog)
      ensures old(fm.gitLog) == null ==> fresh(log)
      ensures log.path == Text(RelativePath(filePath, basePath))
      ensures log.contributors == PriorContributors(old(fm.View()))
    {
      var relative := RelativePath(filePath, basePath);
      if fm.gitLog == null {
        fm.gitLog := new GitLog();
      }
      log := fm.gitLog;
      if !log.path.Truthy() {
        log.path := Placeholder;
      }
      log.path := Text(relative);
    }

    /** Lines 69-104: the guards, the lookup and what follows from its result. */
    method ResolveContributors(log: GitLog, gitLogs: bool, component: Option<string>, cwd: string, result: LookupResult)
      returns (request: Option<LookupRequest>)
      requires Valid() && IsSet(component)
      modifies this, log
      ensures request == Request(old(mode), logArgs, tty, component, cwd)
      ensures log.path == old(log.path)
      ensures log.contributors == ContributorsAfter(old(log.contributors), gitLogs, old(mode), component, cwd, result)
      ensures mode == NextMode(old(mode), platform, component, cwd, gitLogs, Some(GitLogView(old(log.path), old(log.contributors))), result)
    {
      request := None;
      var filePath := component.value;
      if mode == "api" {
        return;
      }
      if !StartsWith(filePath, cwd + "/pages") {
        return;
      }
      request := Some(LookupRequest(filePath, tty, mode, logArgs));
      match result {
        case Err(message) =>
          Catch(message);
        case Ok(found) =>
          if !gitLogs {
            log.contributors := Some([]);
          }
          var failed := log.PushAll(found);
          if failed {
            Catch(PushOnUndefined);
          }
      }
    }

    /** One call of the hook for a route whose default component is `component`. */
    method ExtendRoute(fm: Frontmatter, component: Option<string>, cwd: string, result: LookupResult)
      returns (request: Option<LookupRequest>)
      requires Valid()
      modifies this, fm, fm.gitLog
      ensures request == Request(old(mode), logArgs, tty, component, cwd)
      ensures mode == NextMode(old(mode), platform, component, cwd, fm.gitLogs, old(fm.View()), result)
      ensures fm.View() == Decorated(old(fm.View()), fm.gitLogs, component, basePath, old(mode), cwd, result)
      ensures fm.gitLogs == old(fm.gitLogs)
      ensures old(fm.gitLog) != null ==> fm.gitLog == old(fm.gitLog)
      ensures old(fm.gitLog) == null && IsSet(component) ==> fresh(fm.gitLog)
    {
      if !IsSet(component) {
        return None;
      }
      var log := WritePath(fm, component.value);
      request := ResolveContributors(log, fm.gitLogs, component, cwd, result);
    }
  }
}
