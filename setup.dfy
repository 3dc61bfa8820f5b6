/** What the addon's `setup` computes once, before any route is seen: the
    contributor options with their defaults filled in and the terminal device
    token handed to the contributor lookup. */
module Setup {

  datatype Option<+T> = None | Some(value: T)

  /** The optional `contributor` object of the user's options; each field may be left out. */
  datatype ContributorOptions = ContributorOptions(mode: Option<string>, logArgs: Option<string>)

  /** JavaScript truthiness of an optional string: present and not empty. */
  predicate IsSet(v: Option<string>)
  {
    v.Some? && v.value != ""
  }

  /** `options.contributor?.mode`: absent when the `contributor` object itself is. */
  function ConfiguredMode(contributor: Option<ContributorOptions>): Option<string>
  {
    if contributor.Some? then contributor.value.mode else None
  }

  /** `options.contributor?.logArgs`. */
  function ConfiguredLogArgs(contributor: Option<ContributorOptions>): Option<string>
  {
    if contributor.Some? then contributor.value.logArgs else None
  }

  /** `options.contributor?.mode || 'api'`: the mode the addon starts in. */
  function InitialMode(contributor: Option<ContributorOptions>): (mode: string)
    ensures !IsSet(ConfiguredMode(contributor)) ==> mode == "api"
    ensures IsSet(ConfiguredMode(contributor)) ==> mode == ConfiguredMode(contributor).value
    ensures mode != ""
  {
    var configured := ConfiguredMode(contributor);
    if IsSet(configured) then configured.value else "api"
  }

  /** `options.contributor?.logArgs || ''`: extra arguments for the log-based lookup. */
  function InitialLogArgs(contributor: Option<ContributorOptions>): (args: string)
    ensures !IsSet(ConfiguredLogArgs(contributor)) ==> args == ""
    ensures IsSet(ConfiguredLogArgs(contributor)) ==> args == ConfiguredLogArgs(contributor).value
  {
    var configured := ConfiguredLogArgs(contributor);
    if IsSet(configured) then configured.value else ""
  }

  /** The terminal device token: `'CON'` on `win32`, `'/dev/tty'` on every other platform. */
  function Tty(platform: string): (tty: string)
    ensures tty == "CON" <==> platform == "win32"
    ensures tty == "/dev/tty" <==> platform != "win32"
  {
    if platform == "win32" then "CON" else "/dev/tty"
  }
}
