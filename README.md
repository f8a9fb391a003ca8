# expo-cli: Android credentials screen and build-status helpers

A Dafny model of two small pieces of the Expo command-line tool.

- **The Android credentials "experience" screen** (`ExperienceView`). It is one
  step of the credentials menu. Opening it does five things in order:
  - it fetches the credential record of its experience;
  - it logs "No credentials available for <name> experience." when the record
    has neither a keystore nor push credentials, and otherwise shows the
    record between blank lines, but only when the experience name is
    non-empty;
  - it throws `CommandError('NON_INTERACTIVE', …)` when the CLI runs with
    `--non-interactive`, before any prompt;
  - it asks "What do you want to do?" with four fixed choices;
  - it turns the answer into the next screen through `handleAction`.

  `handleAction` maps each offered value to a screen scoped to the same
  experience name. Every other value, `'fetch-public-cert'` included, gives
  `null`.
- **Build-status reporting helpers** of the native build command:
  - `printBuildTable`: one table row per build. In the status cell every dash
    becomes a space. The artifact cell links to the full URL. Its label is
    the URL itself, or, when the URL is longer than 38 characters, its first
    38 characters followed by `…`. The cell is "not available" when the URL
    is missing or empty.
  - `printBuildResults`: with exactly one entry, prints that entry's artifact
    URL whatever its status. With any other count, prints one line per
    finished build.
  - `printLogsUrls`: puts the account name into the logs URL when there is one
    build. Otherwise it prints one line per build, each with the logged-in
    user's name.

Module `AndroidCredentials` (android_credentials.dfy) models the screen.
`BuildMisc` (build_misc.dfy) models the helpers. `Wrappers` (wrappers.dfy)
holds `Option` and `Reply`; a `Reply` is how an awaited Promise settles,
either resolved with a value or rejected with a cause.

How the effects are modelled:
- The fetch and the prompt are inputs to `AndroidCredentials.Open`, as
  `Reply` values. A rejection of either is propagated unchanged.
- The logging, the credentials display and the prompt are returned as an
  ordered event trace.
- The helpers return rows and lines instead of printing them.
- The date formatting of `createdAt` is a function parameter.
- `constructBuildLogsUrl` stays abstract. `LogsUrls` returns the request each
  logs line would build (build id, user name, `v2` flag), and `LogsUrlTexts`
  gives the printed lines for any URL builder passed in.
- The login awaited by `printLogsUrls` is an input `Reply<User>`.

An unrecognised menu selection is not an error: the code
(packages/expo-cli/src/credentials/views/AndroidCredentials.ts lines 65-68)
returns `null`, for `'fetch-public-cert'` and for any other value, and
`HandleAction` returns `None`.

## Model

| member | source | states |
|---|---|---|
| `AndroidCredentials.OfferedValues` | packages/expo-cli/src/credentials/views/AndroidCredentials.ts:37-41 | the prompt offers four values, listed in the order of the choice list |
| `AndroidCredentials.HandleAction` | packages/expo-cli/src/credentials/views/AndroidCredentials.ts:55-69 | a selection leads to a screen exactly when the prompt offers it; every screen built carries the view's experience name unchanged; the screen's kind is the one the selected value names |
| `AndroidCredentials.OfferedChoicesDispatch` | packages/expo-cli/src/credentials/views/AndroidCredentials.ts:37-64 | the four offered values lead, in order, to UpdateKeystore, RemoveKeystore, UpdateFcmKey and DownloadKeystore for the same experience, so every offered value leads somewhere |
| `AndroidCredentials.PublicCertLeadsNowhere` | packages/expo-cli/src/credentials/views/AndroidCredentials.ts:65-66 | 'fetch-public-cert' gives no next screen (`null`), with no error |
| `AndroidCredentials.HandleActionInvertsChoiceValue` | packages/expo-cli/src/credentials/views/AndroidCredentials.ts:56-64 | selecting a screen's choice value leads back to that very screen if and only if the screen is scoped to this experience |
| `AndroidCredentials.CredentialsReport` | packages/expo-cli/src/credentials/views/AndroidCredentials.ts:17-23 | an empty record logs only the notice naming the experience; the record is displayed if and only if it is non-empty and the name is non-empty; a non-empty record never logs the notice; with a non-empty record and a non-empty name the events are exactly a blank line, the display and a blank line; with a non-empty record and an empty name nothing is printed |
| `AndroidCredentials.Open` | packages/expo-cli/src/credentials/views/AndroidCredentials.ts:14-53 | the fetch for the view's own name comes first; a rejected fetch ends the step with that cause; the report follows the fetch; non-interactive mode throws NON_INTERACTIVE; the prompt is shown if and only if the fetch succeeded and the mode is interactive, and it is the last effect, with the four choices; a rejected prompt propagates; otherwise the result is `handleAction` of the answer |
| `BuildMisc.ReplaceDashes` | packages/expo-cli/src/commands/build-native/utils/misc.ts:24 | same length; each dash becomes a space and every other character is kept in place; no dash remains |
| `BuildMisc.ReplaceDashesIdempotent` | packages/expo-cli/src/commands/build-native/utils/misc.ts:24 | a status without dashes is printed as it is; rewriting an already rewritten status changes nothing |
| `BuildMisc.ArtifactLabel` | packages/expo-cli/src/commands/build-native/utils/misc.ts:28 | a URL of at most 38 characters is its own label; a longer one gives its first 38 characters followed by `…` (39 in all); the label always fits inside the 41-wide artifact column |
| `BuildMisc.ArtifactLabelIdempotent` | packages/expo-cli/src/commands/build-native/utils/misc.ts:28 | shortening a label a second time changes nothing |
| `BuildMisc.ArtifactCell` | packages/expo-cli/src/commands/build-native/utils/misc.ts:25-29 | the cell is "not available" if and only if the URL is missing or empty; a present, non-empty URL gives a link whose target is the full URL and whose caption is its shortened label |
| `BuildMisc.BuildTable` | packages/expo-cli/src/commands/build-native/utils/misc.ts:8-33 | the headers and column widths are the fixed 4-element lists; there is one row per build, in input order |
| `BuildMisc.BuildTableRows` | packages/expo-cli/src/commands/build-native/utils/misc.ts:12-31 | row k holds the formatted start date of build k and its platform unchanged; its status has the same length, a space where the build's status has a dash and every other character kept; its artifact cell is "not available" exactly for a missing or empty URL and otherwise is a link to that build's full URL under the shortened label |
| `BuildMisc.FinishedBuilds` | packages/expo-cli/src/commands/build-native/utils/misc.ts:67-68 | the filter keeps at most as many builds as it is given; nothing is dropped if and only if all entries are finished; nothing is kept if and only if none is |
| `BuildMisc.FinishedBuildsMembers` | packages/expo-cli/src/commands/build-native/utils/misc.ts:67-68 | a build is kept if and only if it is in the input and its status is 'finished' |
| `BuildMisc.FinishedBuildsAppend` | packages/expo-cli/src/commands/build-native/utils/misc.ts:67-68 | the filter keeps input order: filtering a concatenation is concatenating the filtered parts |
| `BuildMisc.BuildResults` | packages/expo-cli/src/commands/build-native/utils/misc.ts:63-73 | one entry prints its URL whatever its status, or an empty URL when the build or its URL is missing; any other count prints one line per finished build in order, no line when none is finished, and one line per entry when all are |
| `BuildMisc.LogsUrls` | packages/expo-cli/src/commands/build-native/utils/misc.ts:38-61 | a rejected login propagates; otherwise there is one line per build; with one build the line is built with the account name; otherwise line k is build k's platform and id with the logged-in user's name; every request sets v2 |
| `BuildMisc.LogsUrlsUsername` | packages/expo-cli/src/commands/build-native/utils/misc.ts:43-59 | the output does not depend on the logged-in user when there is one build, nor on the account name otherwise; each request's user name is the account name when there is exactly one build and the logged-in user's name otherwise, and every request sets v2 |
| `BuildMisc.LogsUrlTexts` | packages/expo-cli/src/commands/build-native/utils/misc.ts:43-59 | a rejected login propagates; otherwise one printed line per build; with one build the line is `Logs url: ` and the URL built for the account name; otherwise line k is `Platform: <platform>, Logs url: ` and the URL built for build k and the logged-in user |

## Left out

- Remote calls: the credential fetch and the login are network and
  authentication I/O. Their results are inputs, and only their rejection is
  modelled.
- Terminal UI: the prompt library and `displayAndroidAppCredentials` are
  events in the trace. A failure inside the display call is not modelled.
- The prompt's answer is a given value. If the prompt library can only return
  one of the offered values, that restriction is not modelled.
- Output formatting: `log`, the escape sequences of `log.terminalLink`, the
  table rendering of `printTableJsonArray` and `console.log` are not
  modelled. A link is kept as a caption and a target.
- `Intl.DateTimeFormat` formatting of `createdAt`: this needs a locale
  library. It is an opaque function parameter.
- `UrlUtils.constructBuildLogsUrl`: its source is not part of this model. It
  is an abstract function of the request.
- The follow-on screens (`UpdateKeystore`, `RemoveKeystore`, `UpdateFcmKey`,
  `DownloadKeystore`): their files are not part of this model. Only their
  kind and experience name are modelled.
- The driver loop that runs screens one after another is not part of the
  modelled files.
- The `Context` argument of `handleAction` is passed on but never read, as
  in the source.
- Async scheduling of Promises is not modelled.
- `ArtifactLabel`: counts characters as Dafny `char`s, not UTF-16 code units.
  Surrogate pairs cut by `slice(0, 38)` are therefore not modelled.
- `BuildInfo` and the record parts have only the fields the helpers read.
  The record's keystore and push credentials are objects or nothing, and
  lodash `isEmpty` becomes "absent or no keys".
