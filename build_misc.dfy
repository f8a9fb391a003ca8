/** Build-status reporting helpers of the native build command: the rows of
    the build table, the "Artifact url" lines printed after a build, and the
    "Logs url" lines. Every helper returns what it would print instead of
    printing it. */
module BuildMisc {
  import opened Wrappers

  datatype Platform = Android | Ios

  /** How a platform appears inside a template string. */
  function PlatformName(p: Platform): string
  {
    match p
    case Android => "android"
    case Ios => "ios"
  }

  datatype Artifacts = Artifacts(buildUrl: Option<string>)

  /** The fields of a build record the helpers read. */
  datatype BuildInfo = BuildInfo(
    createdAt: string,
    platform: Platform,
    status: string,
    artifacts: Option<Artifacts>)

  // ---------------------------------------------------------------------
  // printBuildTable
  // ---------------------------------------------------------------------

  const HEADERS: seq<string> := ["started", "platform", "status", "artifact"]
  const COL_WIDTHS: seq<nat> := [24, 10, 13, 41]

  /** Longest artifact URL shown in full. */
  const MAX_LABEL: nat := 38
  const ELLIPSIS: char := '…'
  const NOT_AVAILABLE: string := "not available"

  /** `status.replace(/-/g, ' ')`: every dash becomes a space, nothing else
      changes. */
  function ReplaceDashes(s: string): (r: string)
    ensures |r| == |s|
    ensures forall i :: 0 <= i < |s| ==> r[i] == (if s[i] == '-' then ' ' else s[i])
    ensures '-' !in r
  {
    if s == [] then []
    else [if s[0] == '-' then ' ' else s[0]] + ReplaceDashes(s[1..])
  }

  /** A status without dashes is printed as it is; in particular rewriting a
      status twice gives what rewriting it once gives. */
  lemma ReplaceDashesIdempotent(s: string)
    ensures '-' !in s ==> ReplaceDashes(s) == s
    ensures ReplaceDashes(ReplaceDashes(s)) == ReplaceDashes(s)
  {
  }

  /** The label shown for an artifact link: URLs longer than 38 characters
      are cut to their first 38 and followed by an ellipsis. */
  function ArtifactLabel(url: string): (shown: string)
    ensures |url| <= MAX_LABEL ==> shown == url
    ensures |url| > MAX_LABEL ==>
      |shown| == MAX_LABEL + 1 && shown[..MAX_LABEL] == url[..MAX_LABEL] && shown[MAX_LABEL] == ELLIPSIS
    ensures |shown| <= MAX_LABEL + 1 < COL_WIDTHS[3]
  {
    if |url| > MAX_LABEL then url[..MAX_LABEL] + [ELLIPSIS] else url
  }

  /** Shortening an already shortened label changes nothing. */
  lemma ArtifactLabelIdempotent(url: string)
    ensures ArtifactLabel(ArtifactLabel(url)) == ArtifactLabel(url)
  {
  }

  /** `build.artifacts?.buildUrl`. */
  function BuildUrl(build: BuildInfo): Option<string>
  {
    match build.artifacts
    case None => None
    case Some(a) => a.buildUrl
  }

  /** A table cell: plain text, or a terminal link with a visible label and
      its target. */
  datatype Cell = Plain(text: string) | TerminalLink(caption: string, target: string)

  /** The artifact cell. A missing or empty URL (both falsy) is "not
      available"; otherwise the cell links to the whole URL under its
      shortened label. */
  function ArtifactCell(buildUrl: Option<string>): (cell: Cell)
    ensures buildUrl.None? || buildUrl.value == "" <==> cell == Plain(NOT_AVAILABLE)
    ensures !(buildUrl.None? || buildUrl.value == "") ==>
      cell == TerminalLink(ArtifactLabel(buildUrl.value), buildUrl.value)
  {
    if buildUrl.Some? && buildUrl.value != "" then
      TerminalLink(ArtifactLabel(buildUrl.value), buildUrl.value)
    else
      Plain(NOT_AVAILABLE)
  }

  datatype Row = Row(started: string, platform: Platform, status: string, artifact: Cell)

  datatype Table = Table(headers: seq<string>, rows: seq<Row>, colWidths: seq<nat>)

  /** One row of the table; `formatStarted` stands for the date formatting of
      `createdAt`. */
  function BuildRow(build: BuildInfo, formatStarted: string -> string): Row
  {
    Row(formatStarted(build.createdAt), build.platform, ReplaceDashes(build.status),
        ArtifactCell(BuildUrl(build)))
  }

  /** `printBuildTable`: fixed headers and widths, one row per build. */
  function BuildTable(builds: seq<BuildInfo>, formatStarted: string -> string): (table: Table)
    ensures |table.headers| == |table.colWidths| == 4
    ensures table.headers == HEADERS && table.colWidths == COL_WIDTHS
    ensures |table.rows| == |builds|
    ensures forall k :: 0 <= k < |builds| ==> table.rows[k] == BuildRow(builds[k], formatStarted)
  {
    Table(HEADERS, seq(|builds|, k requires 0 <= k < |builds| => BuildRow(builds[k], formatStarted)), COL_WIDTHS)
  }

  /** What every row of the table says about its build: the started cell is
      the formatted creation date, the platform is copied, the status has the
      same length, a space where the input had a dash and every other
      character kept, and the artifact column links to the full URL under its
      shortened label or says it is not available. */
  lemma BuildTableRows(builds: seq<BuildInfo>, formatStarted: string -> string, k: nat)
    requires k < |builds|
    ensures var row := BuildTable(builds, formatStarted).rows[k];
      var url := BuildUrl(builds[k]);
      && row.started == formatStarted(builds[k].createdAt)
      && row.platform == builds[k].platform
      && |row.status| == |builds[k].status| && '-' !in row.status
      && (forall i :: 0 <= i < |row.status| && builds[k].status[i] == '-' ==> row.status[i] == ' ')
      && (forall i :: 0 <= i < |row.status| && builds[k].status[i] != '-' ==> row.status[i] == builds[k].status[i])
      && (row.artifact == Plain(NOT_AVAILABLE) <==> url.None? || url.value == "")
      && (!(url.None? || url.value == "") ==> row.artifact == TerminalLink(ArtifactLabel(url.value), url.value))
  {
    var build := builds[k];
    var row := BuildTable(builds, formatStarted).rows[k];
    assert row == BuildRow(build, formatStarted);
    var status := ReplaceDashes(build.status);
    assert row.status == status;
    assert forall i :: 0 <= i < |status| && build.status[i] == '-' ==> status[i] == ' ';
    assert forall i :: 0 <= i < |status| && build.status[i] != '-' ==> status[i] == build.status[i];
    var cell := ArtifactCell(BuildUrl(build));
    assert row.artifact == cell;
  }

  // ---------------------------------------------------------------------
  // printBuildResults
  // ---------------------------------------------------------------------

  const FINISHED: string := "finished"

  /** `i?.status === 'finished'`; a missing build never is. */
  predicate IsFinished(info: Option<BuildInfo>)
  {
    info.Some? && info.value.status == FINISHED
  }

  /** `build?.artifacts?.buildUrl ?? ''`. */
  function UrlOrEmpty(info: Option<BuildInfo>): string
  {
    match info
    case None => ""
    case Some(b) => match BuildUrl(b) case None => "" case Some(u) => u
  }

  /** The filter of `printBuildResults`: the finished builds, in order.
      Nothing is dropped exactly when every entry is finished, and nothing is
      kept exactly when none is. */
  function FinishedBuilds(infos: seq<Option<BuildInfo>>): (r: seq<BuildInfo>)
    ensures |r| <= |infos|
    ensures |r| == |infos| <==> forall i :: 0 <= i < |infos| ==> IsFinished(infos[i])
    ensures r == [] <==> forall i :: 0 <= i < |infos| ==> !IsFinished(infos[i])
  {
    if infos == [] then []
    else (if IsFinished(infos[0]) then [infos[0].value] else []) + FinishedBuilds(infos[1..])
  }

  /** What the filter keeps: exactly the finished builds of the input. */
  lemma {:induction false} FinishedBuildsMembers(infos: seq<Option<BuildInfo>>)
    ensures forall b :: b in FinishedBuilds(infos) <==> b.status == FINISHED && Some(b) in infos
  {
    if infos != [] {
      FinishedBuildsMembers(infos[1..]);
      assert infos == [infos[0]] + infos[1..];
      forall b ensures Some(b) in infos <==> Some(b) == infos[0] || Some(b) in infos[1..] {
      }
    }
  }

  /** What the filter keeps of one entry. */
  function FinishedHead(info: Option<BuildInfo>): seq<BuildInfo>
  {
    if IsFinished(info) then [info.value] else []
  }

  /** One step of the filter: the first entry is kept or dropped on its own. */
  lemma FinishedBuildsCons(info: Option<BuildInfo>, rest: seq<Option<BuildInfo>>)
    ensures FinishedBuilds([info] + rest) == FinishedHead(info) + FinishedBuilds(rest)
  {
  }

  /** Sequence concatenation regroups freely. */
  lemma ConcatAssociative<T>(x: seq<T>, y: seq<T>, z: seq<T>)
    ensures x + (y + z) == (x + y) + z
  {
  }

  /** The filter keeps the order of the input: filtering a concatenation is
      concatenating the filtered parts. */
  lemma {:induction false} FinishedBuildsAppend(a: seq<Option<BuildInfo>>, b: seq<Option<BuildInfo>>)
    ensures FinishedBuilds(a + b) == FinishedBuilds(a) + FinishedBuilds(b)
  {
    if a == [] {
      assert a + b == b;
      assert FinishedBuilds(a) == [];
    } else {
      var head, tail := a[0], a[1..];
      assert a == [head] + tail;
      assert a + b == [head] + (tail + b);
      FinishedBuildsCons(head, tail + b);
      FinishedBuildsCons(head, tail);
      FinishedBuildsAppend(tail, b);
      ConcatAssociative(FinishedHead(head), FinishedBuilds(tail), FinishedBuilds(b));
    }
  }

  function ArtifactUrlLine(info: Option<BuildInfo>): string
  {
    "Artifact url: " + UrlOrEmpty(info)
  }

  function PlatformArtifactUrlLine(build: BuildInfo): string
  {
    "Platform: " + PlatformName(build.platform) + ", Artifact url: " + UrlOrEmpty(Some(build))
  }

  /** `printBuildResults`: with exactly one entry its URL is printed whatever
      its status (or nothing after the prefix when it is missing); with any
      other number of entries, zero included, one line per finished build, in
      order. */
  function BuildResults(infos: seq<Option<BuildInfo>>): (lines: seq<string>)
    ensures |infos| == 1 ==> lines == [ArtifactUrlLine(infos[0])]
    ensures |infos| != 1 ==>
      |lines| == |FinishedBuilds(infos)|
      && forall k :: 0 <= k < |lines| ==> lines[k] == PlatformArtifactUrlLine(FinishedBuilds(infos)[k])
    // with several entries, unfinished ones print nothing
    ensures |infos| != 1 && (forall i :: 0 <= i < |infos| ==> !IsFinished(infos[i])) ==> lines == []
    ensures |infos| != 1 && (forall i :: 0 <= i < |infos| ==> IsFinished(infos[i])) ==> |lines| == |infos|
  {
    if |infos| == 1 then [ArtifactUrlLine(infos[0])]
    else
      var finished := FinishedBuilds(infos);
      seq(|finished|, k requires 0 <= k < |finished| => PlatformArtifactUrlLine(finished[k]))
  }

  // ---------------------------------------------------------------------
  // printLogsUrls
  // ---------------------------------------------------------------------

  datatype LogsBuild = LogsBuild(platform: Platform, buildId: string)

  datatype User = User(username: string)

  /** The arguments passed to `constructBuildLogsUrl`, whose result stays
      abstract. */
  datatype LogsUrlRequest = LogsUrlRequest(buildId: string, username: string, v2: bool)

  /** A printed line: `Logs url: …` or `Platform: …, Logs url: …`. */
  datatype LogsLine =
    | LogsUrl(request: LogsUrlRequest)
    | PlatformLogsUrl(platform: Platform, request: LogsUrlRequest)

  /** The text `log` prints for a line, given the URL builder. */
  function LogsLineText(line: LogsLine, constructBuildLogsUrl: LogsUrlRequest -> string): string
  {
    match line
    case LogsUrl(req) => "Logs url: " + constructBuildLogsUrl(req)
    case PlatformLogsUrl(p, req) => "Platform: " + PlatformName(p) + ", Logs url: " + constructBuildLogsUrl(req)
  }

  /** `printLogsUrls`, after the login it awaits first: a failed login
      propagates and prints nothing; one build prints a single line for the
      account name; any other number prints one line per build, in order,
      for the logged-in user. */
  function LogsUrls(accountName: string, login: Reply<User>, builds: seq<LogsBuild>): (r: Reply<seq<LogsLine>>)
    ensures login.Rejected? ==> r == Rejected(login.cause)
    ensures login.Resolved? ==> r.Resolved? && |r.value| == |builds|
    ensures login.Resolved? && |builds| == 1 ==>
      r.value == [LogsUrl(LogsUrlRequest(builds[0].buildId, accountName, true))]
    ensures login.Resolved? && |builds| != 1 ==>
      forall k :: 0 <= k < |builds| ==>
        r.value[k] == PlatformLogsUrl(builds[k].platform, LogsUrlRequest(builds[k].buildId, login.value.username, true))
  {
    match login
    case Rejected(cause) => Rejected(cause)
    case Resolved(user) =>
      if |builds| == 1 then
        Resolved([LogsUrl(LogsUrlRequest(builds[0].buildId, accountName, true))])
      else
        Resolved(seq(|builds|, k requires 0 <= k < |builds| =>
          PlatformLogsUrl(builds[k].platform, LogsUrlRequest(builds[k].buildId, user.username, true))))
  }

  /** Which name goes into the logs URLs: with one build the output does not
      depend on the logged-in user; with any other count it does not depend
      on the account name. */
  lemma LogsUrlsUsername(accountName: string, otherAccount: string, user: User, otherUser: User,
                         builds: seq<LogsBuild>)
    ensures |builds| == 1 ==>
      LogsUrls(accountName, Resolved(user), builds) == LogsUrls(accountName, Resolved(otherUser), builds)
    ensures |builds| != 1 ==>
      LogsUrls(accountName, Resolved(user), builds) == LogsUrls(otherAccount, Resolved(user), builds)
    ensures forall line :: line in LogsUrls(accountName, Resolved(user), builds).value ==>
      line.request.v2 &&
      line.request.username == (if |builds| == 1 then accountName else user.username)
  {
    var lines := LogsUrls(accountName, Resolved(user), builds).value;
    forall line | line in lines
      ensures line.request.v2
      ensures line.request.username == (if |builds| == 1 then accountName else user.username)
    {
      var k :| 0 <= k < |lines| && lines[k] == line;
    }
  }

  /** The lines `printLogsUrls` prints, for a given URL builder: one
      `Logs url: …` line for the account name when there is one build, and
      otherwise one `Platform: …, Logs url: …` line per build, in order, for
      the logged-in user. */
  function LogsUrlTexts(accountName: string, login: Reply<User>, builds: seq<LogsBuild>,
                        constructBuildLogsUrl: LogsUrlRequest -> string): (r: Reply<seq<string>>)
    ensures login.Rejected? ==> r == Rejected(login.cause)
    ensures login.Resolved? ==> r.Resolved? && |r.value| == |builds|
    ensures login.Resolved? && |builds| == 1 ==>
      r.value == ["Logs url: " + constructBuildLogsUrl(LogsUrlRequest(builds[0].buildId, accountName, true))]
    ensures login.Resolved? && |builds| != 1 ==>
      forall k :: 0 <= k < |builds| ==>
        r.value[k] == "Platform: " + PlatformName(builds[k].platform) + ", Logs url: "
                      + constructBuildLogsUrl(LogsUrlRequest(builds[k].buildId, login.value.username, true))
  {
    match LogsUrls(accountName, login, builds)
    case Rejected(cause) => Rejected(cause)
    case Resolved(lines) =>
      Resolved(seq(|lines|, k requires 0 <= k < |lines| => LogsLineText(lines[k], constructBuildLogsUrl)))
  }
}
