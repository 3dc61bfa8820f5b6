# valaxy-addon-git-log: the route decoration hook

A Dafny model of the part of the `valaxy-addon-git-log` addon that decorates page
routes (`node/index.ts`). At setup the addon fixes its contributor options (mode
`'api'` and empty `logArgs` unless configured), the terminal device token
(`'CON'` on `win32`, `'/dev/tty'` elsewhere) and the repository root. Then, for
every route the host hands to the `vue-router:extendRoute` hook:

- a route without a default component path is left alone;
- otherwise `frontmatter.git_log` is created if absent and `git_log.path` is set to the
  file path with the first occurrence of the repository root removed and the first
  character dropped;
- in `'api'` mode, or for a file outside `<cwd>/pages`, nothing more happens;
- otherwise the contributor lookup is called. Its records are copied into
  `git_log.contributors` in order. The list is reset first unless `frontmatter.gitLogs`
  is truthy, in which case the records are appended. On a lookup error, the Linux
  platform plus a message naming `/dev/tty` switches the addon-wide mode to `'log'`
  for all later calls.

Files:

- `js_string.dfy` (module `JsString`): the JavaScript string operations the hook uses:
  `indexOf`, `includes`, `startsWith`, `replace` with a string pattern and an empty
  replacement, and one-argument `substring`.
- `setup.dfy` (module `Setup`): option defaults and the tty token.
- `route_hook.dfy` (module `RouteHook`): the functions that specify one hook call
  (`Request`, `Decorated`, `ContributorsAfter`, `NextMode`), the `GitLog`, `Frontmatter` and `Addon` classes,
  and the imperative `Addon.ExtendRoute`. Its contract ties the lookup request, the new
  mode and the new `git_log` to those functions.
- `hook_properties.dfy` (module `HookProperties`): the guarantees of one call, and the
  mode over a series of calls.

Inputs that come from outside the model are parameters: `process.platform` and the
trimmed output of `git rev-parse --show-toplevel` go to the `Addon` constructor.
`process.cwd()`, the route's default component and the result of `getContributors`
go to each `ExtendRoute` call. `ExtendRoute` returns the `getContributors` call it made, if any.

Behaviour kept as the code has it:

- The reset of the contributors list is guarded by `frontmatter.gitLogs`, a different
  field from the `git_log` the list lives in. The model keeps both names as written.
  Normally `gitLogs` is absent, so the list is replaced on every lookup.
- The reset and the pushes happen only after the lookup has returned, so a failed
  lookup leaves the list exactly as it was. No partial list can remain.
- When `gitLogs` is truthy and `git_log.contributors` is absent, pushing the first record
  throws a `TypeError`. Its message goes through the same `catch` rule as a lookup
  error (`SuccessOntoAbsentList`).
- The downgrade target is `'log'`, as written. A mode that is already `'log'` stays
  `'log'`. Any other mode that reaches the lookup (only a configured mode other than
  `'api'` can) becomes `'log'`.
- The mode is a string, not an enumeration, because the code compares it with `=== 'api'`.

## Model

| member | source | states |
|---|---|---|
| JsString.IndexFrom | node/index.ts:66 | the result is -1 and `pat` occurs nowhere from `from` on, or it is the first position from `from` on where `pat` occurs |
| JsString.IndexOf | node/index.ts:66 | -1 exactly when `pat` occurs nowhere; otherwise the first occurrence |
| JsString.Includes | node/index.ts:97 | true exactly when `pat` occurs somewhere in `s` |
| JsString.RemoveFirst | node/index.ts:66 | `replace(pat, '')`: `s` unchanged without an occurrence, otherwise exactly the first occurrence cut out |
| JsString.Substring | node/index.ts:66 | `substring(start)`: start clamped to the string, the rest returned |
| Setup.InitialMode | node/index.ts:33 | `'api'` when the configured mode is absent or empty, the configured mode otherwise; never empty |
| Setup.InitialLogArgs | node/index.ts:34 | `''` when `logArgs` is absent or empty, the configured value otherwise |
| Setup.Tty | node/index.ts:38 | `'CON'` exactly on `win32`, `'/dev/tty'` exactly on every other platform |
| RouteHook.CatchMode | node/index.ts:96-104 | after an error the mode is kept or becomes `'log'`; it is `'log'` exactly when it was already, or the platform is Linux and the message contains `/dev/tty` |
| RouteHook.GitLog.constructor | node/index.ts:60-61 | a new `git_log` is `{}`: no path and no contributors |
| RouteHook.GitLog.PushAll | node/index.ts:88-90 | the records are appended in order to an existing list; it fails, leaving the list absent, exactly when the list is absent and there is a record to push; the path is untouched |
| RouteHook.Addon.constructor | node/index.ts:31-39 | the mode and `logArgs` start from the defaulted options, the tty token is chosen by platform, and the repository root is recorded |
| RouteHook.Addon.Catch | node/index.ts:96-104 | the `catch` block sets the mode as `CatchMode` says |
| RouteHook.Addon.WritePath | node/index.ts:60-67 | `git_log` is the old object or a fresh `{}` when there was none; its path is the relative path; its contributors are as before; `gitLogs` is unchanged |
| RouteHook.Addon.ResolveContributors | node/index.ts:69-104 | the lookup request, the new contributors and the new mode are those of `Request`, `ContributorsAfter` and `NextMode` on the old state; the path is untouched |
| RouteHook.Addon.ExtendRoute | node/index.ts:57-106 | the lookup request, the new mode and the new `git_log` are those of `Request`, `NextMode` and `Decorated` on the old state; an existing `git_log` is updated in place, and a missing one is created fresh only when there is a path; `gitLogs` is unchanged |
| HookProperties.RelativePathBelowRoot | node/index.ts:66 | for a file `<root>/<rest>` the relative path is `<rest>`, even when `<rest>` contains the root again |
| HookProperties.RelativePathExample | node/index.ts:66 | root `/repo` and file `/repo/pages/blog/a.md` give `pages/blog/a.md` |
| HookProperties.RelativePathOutsideRoot | node/index.ts:66 | when the root does not occur in the path, only the first character is dropped |
| HookProperties.RelativePathCutsFirstOccurrence | node/index.ts:66 | when the root first occurs at `k`, that occurrence is removed wherever it is, then the first character is dropped |
| HookProperties.NoFilePathNoEffect | node/index.ts:58-59 | with no component path there is no lookup, `git_log` is exactly as before (absent stays absent) and the mode is kept |
| HookProperties.PathAlwaysWritten | node/index.ts:60-67 | with a component path, `git_log` exists afterwards and its path is the relative path; the placeholder `[]` never survives |
| HookProperties.ApiModeSkipsLookup | node/index.ts:69-70 | in `'api'` mode there is no lookup, the contributors are as before and the mode stays `'api'` |
| HookProperties.OutsidePagesSkipsLookup | node/index.ts:72-75 | a file not under `<cwd>/pages` is never looked up, in any mode; the contributors and the mode are as before |
| HookProperties.LookupRequested | node/index.ts:58-82 | the lookup is called exactly when there is a path, the mode is not `'api'` and the file is under `<cwd>/pages`; it is called with the path, the tty token, the mode and `logArgs` |
| HookProperties.SuccessReplacesContributors | node/index.ts:85-90 | with `gitLogs` falsy, a successful lookup leaves exactly the returned records, in order; the mode is kept |
| HookProperties.SuccessAppendsContributors | node/index.ts:85-90 | with `gitLogs` truthy and an existing list, the returned records are appended to it in order; the mode is kept |
| HookProperties.SuccessOntoAbsentList | node/index.ts:85-90 | with `gitLogs` truthy and no list, the list stays absent; a non-empty result sends the push error to the `catch` rule |
| HookProperties.FailureHandling | node/index.ts:96-104 | a lookup error sets the mode to `'log'` when the platform is Linux and the message contains `/dev/tty`, and keeps it otherwise; the path stays written and the contributors are untouched |
| HookProperties.ModeStep | node/index.ts:69-70 | one call keeps the mode or sets it to `'log'`; the mode is `'api'` after the call exactly when it was before |
| HookProperties.ApiStaysApi | node/index.ts:69-70 | over any series of calls, a mode that starts as `'api'` stays `'api'` |
| HookProperties.LogStaysLog | node/index.ts:97-99 | over any series of calls, once the mode is `'log'` it stays `'log'` |
| HookProperties.ModeEndsInitialOrLog | node/index.ts:97-99 | over any series of calls the mode ends as it began or as `'log'` |
| HookProperties.OffLinuxModeIsFixed | node/index.ts:97 | off Linux the mode never changes over any series of calls |

## Left out

- Resolving the repository URL with `git remote get-url origin`, with its fallback to `''` and its diagnostics (lines 10-20): this is subprocess I/O. The URL only feeds the published options.
- `git rev-parse --show-toplevel` (line 39): subprocess I/O. Its trimmed output is the `basePath` constructor parameter.
- The `build:before` hook (lines 41-55): diagnostic logging through subprocesses only.
- `getContributors`: its source is not part of this model. What it returns or throws is the `result` parameter of `ExtendRoute`.
- Logging with `consola` and `picocolors`, the debug string and the choice of channel from `debug` (lines 77-79, 83, 92-94, 98, 102): observability only, with no effect on state.
- `defineValaxyAddon`, the `options` spread with `repositoryUrl`, `pkg.name`, and the `options!` assertion on absent options: host plumbing.
- The `async` hook and the host's dispatch order: calls are a sequential series on one shared mode (`HookProperties.ModeAfter`).
- Errors thrown by `JSON.stringify`, and errors whose `message` is not a string: the model's lookup errors always carry a string message.
- RouteHook.Addon.ExtendRoute: values of `git_log.path` other than absent, `[]` or a string. Any old path is truthy or falsy and is overwritten, so they behave the same.
- RouteHook.GitLog.PushAll: `contributors` is a sequence value, so aliasing of the JavaScript array with other objects is not modelled. The push error uses the V8 message text.
- HookProperties.SuccessOntoAbsentList: the model routes the push error through the `catch` rule but does not prove that the V8 message lacks `/dev/tty`.
- Strings: JavaScript strings index UTF-16 code units; the model indexes `char`s.
