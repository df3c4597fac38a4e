/** The GitHub library (libraries/github.js): it classifies pull-request,
    issue-comment and push events, deduplicates them against the store, and
    publishes the resulting topics. GitHub API responses (file lists, comment
    lists, a fetched pull) are inputs; the database is two maps. */
module GitHub {
  import opened Wrappers
  import opened Strings
  import opened Hunks
  import opened Sequences

  // ---------------------------------------------------------------------
  // Data as GitHub sends it and as the store keeps it
  // ---------------------------------------------------------------------

  /** An entry of the `getFiles` response. */
  datatype ApiFile = ApiFile(filename: Option<string>, blobUrl: string, patch: Option<string>)

  /** A file of `pull.files` after checkFiles: its blob sha, its ranges and the lines already reported. */
  datatype PullFile = PullFile(filename: string, sha: string, ranges: seq<Range>, reported: seq<int>)

  /** A build job recorded on a pull; carried along, never inspected here. */
  datatype Job = Job(id: string, status: string, result: string)

  datatype HeadRepo = HeadRepo(sshUrl: string)

  datatype Head = Head(sha: string, headLabel: string, userLogin: string, repo: Option<HeadRepo>)

  /** A pull request as the API returns it, with the fields the library attaches (`repo`, `files`, `jobs`, `skip_comments`). */
  datatype Pull = Pull(
    number: int,
    baseRepoName: string,
    repo: string,
    head: Option<Head>,
    mergeable: Option<bool>,
    body: Option<string>,
    merged: bool,
    updatedAt: string,
    skipComments: bool,
    files: seq<PullFile>,
    jobs: seq<Job>)

  /** What handlePullRequest receives: a webhook event (it has an `action`) or a polled pull. */
  datatype PullRequestInput =
    | Webhook(action: string, number: int, pullRequest: Pull)
    | Polled(pull: Pull)

  /** An issue_comment webhook event; `pullRequestUrl` is `issue.pull_request.html_url`. */
  datatype IssueCommentEvent = IssueCommentEvent(pullRequestUrl: Option<string>, body: string, number: int, repoName: string)

  /** An entry of the `getComments` response. */
  datatype Comment = Comment(login: string, createdAt: string, body: string)

  /** A push webhook event. */
  datatype PushPayload = PushPayload(
    repoName: Option<string>,
    ref: Option<string>,
    before: Option<string>,
    after: Option<string>,
    pusherName: Option<string>,
    pusherEmail: Option<string>)

  datatype EventData = PullData(pull: Pull) | WebhookData(event: PullRequestInput) | PushData(push: PushPayload)

  /** A published `(topic, data)` pair. */
  datatype Event = Event(topic: string, data: EventData)

  /** A stored pull, keyed by (number, repo). */
  datatype PullRecord = PullRecord(head: string, status: string, updatedAt: string, files: seq<PullFile>, jobs: seq<Job>)

  type PullKey = (int, string)

  /** A stored push, keyed by (repo, ref, after). */
  type PushKey = (string, string, string)

  /** The plugin configuration the handlers read. */
  datatype Settings = Settings(
    user: string,
    authUsername: string,
    retryWhitelist: Option<seq<string>>,
    skipFileListing: bool,
    repos: seq<string>)

  /** What `publish(topic, data)` appends: nothing when no publisher is set. */
  function Emitted(hasPublisher: bool, topic: string, data: EventData): (es: seq<Event>)
    ensures |es| <= 1
    ensures hasPublisher <==> es == [Event(topic, data)]
    ensures !hasPublisher ==> es == []
  {
    if hasPublisher then [Event(topic, data)] else []
  }

  // ---------------------------------------------------------------------
  // checkFiles: which files are kept, their blob sha, their ranges
  // ---------------------------------------------------------------------

  /** A file survives when its filename is truthy and not the string 'undefined'. */
  predicate UsableFilename(f: ApiFile) {
    Truthy(f.filename) && f.filename.value != "undefined"
  }

  /** `files.filter(...)`: the usable files, in order and with their repetitions (`Sequences.FilterCounts`, `Sequences.FilterConcat`). */
  function KeptFiles(files: seq<ApiFile>): (kept: seq<ApiFile>)
    ensures |kept| <= |files|
    ensures forall i :: 0 <= i < |kept| ==> UsableFilename(kept[i])
    ensures forall f :: f in kept <==> f in files && UsableFilename(f)
    ensures forall f :: multiset(kept)[f] == if UsableFilename(f) then multiset(files)[f] else 0
  {
    var kept := Filter(files, UsableFilename);
    assert forall i :: 0 <= i < |kept| ==> kept[i] in kept;
    FilterMembers(files, UsableFilename);
    FilterCounts(files, UsableFilename);
    kept
  }

  /** Length of the run of non-slash characters at the front of `s`. */
  function SegmentLength(s: string): (n: nat)
    ensures n <= |s| && '/' !in s[..n]
    ensures n < |s| ==> s[n] == '/'
  {
    if s == [] || s[0] == '/' then 0
    else
      var m := SegmentLength(s[1..]);
      assert s[..1 + m] == [s[0]] + s[1..][..m];
      1 + m
  }

  /** The pattern /blob\/([^\/]+)/ matches at index `i`. */
  predicate BlobAt(url: string, i: int) {
    0 <= i && i + 6 <= |url| && url[i..i + 5] == "blob/" && url[i + 5] != '/'
  }

  /** The leftmost match at or after `i`. */
  function FirstBlobFrom(url: string, i: nat): (r: Option<nat>)
    requires i <= |url|
    ensures r.Some? ==> i <= r.value && BlobAt(url, r.value)
    ensures forall j :: i <= j && (r.None? || j < r.value) ==> !BlobAt(url, j)
    decreases |url| - i
  {
    if |url| < i + 6 then None
    else if BlobAt(url, i) then Some(i)
    else FirstBlobFrom(url, i + 1)
  }

  /** `blob_url.match(/blob\/([^\/]+)/)[1]`; None where the match fails and the source throws. */
  function BlobSha(url: string): (sha: Option<string>)
    ensures sha.Some? ==> |sha.value| > 0 && '/' !in sha.value
  {
    match FirstBlobFrom(url, 0)
    case None => None
    case Some(j) =>
      var rest := url[j + 5..];
      Some(rest[..SegmentLength(rest)])
  }

  /** The sha is found exactly when the pattern matches, and it is the
      slash-free run after the leftmost match. */
  lemma BlobShaMatches(url: string)
    ensures BlobSha(url).None? <==> forall j :: !BlobAt(url, j)
    ensures BlobSha(url).Some? ==>
      exists j :: && BlobAt(url, j) && (forall k :: 0 <= k < j ==> !BlobAt(url, k))
                  && BlobSha(url).value == url[j + 5..][..SegmentLength(url[j + 5..])]
  {
  }

  predicate AllUsable(fs: seq<ApiFile>) {
    forall i :: 0 <= i < |fs| ==> UsableFilename(fs[i])
  }

  /** One element of the `.map`: None where the blob sha cannot be found. */
  function FileOf(f: ApiFile): (r: Option<PullFile>)
    requires UsableFilename(f)
    ensures r.None? <==> BlobSha(f.blobUrl).None?
    ensures r.Some? ==> r.value.filename == f.filename.value && r.value.sha == BlobSha(f.blobUrl).value
  {
    var sha :- BlobSha(f.blobUrl);
    Some(PullFile(f.filename.value, sha, PatchRanges(f.patch), []))
  }

  /** The `.map` over the kept files: it fails as a whole if any element fails. */
  function ParseAll(fs: seq<ApiFile>): Option<seq<PullFile>>
    requires AllUsable(fs)
  {
    if fs == [] then Some([])
    else
      var init :- ParseAll(fs[..|fs| - 1]);
      var last :- FileOf(fs[|fs| - 1]);
      Some(init + [last])
  }

  /** The mapped list succeeds exactly when every element does. */
  lemma {:induction false} ParseAllSucceeds(fs: seq<ApiFile>)
    requires AllUsable(fs)
    ensures ParseAll(fs).Some? <==> forall i :: 0 <= i < |fs| ==> FileOf(fs[i]).Some?
  {
    if fs != [] {
      var n := |fs| - 1;
      var init := fs[..n];
      assert forall i :: 0 <= i < n ==> init[i] == fs[i];
      ParseAllSucceeds(init);
      if ParseAll(init).None? {
        var k :| 0 <= k < n && FileOf(init[k]).None?;
        assert FileOf(fs[k]).None?;
      }
    }
  }

  /** When it succeeds it holds each element's result, in order. */
  lemma {:induction false} ParseAllValues(fs: seq<ApiFile>)
    requires AllUsable(fs) && ParseAll(fs).Some?
    ensures |ParseAll(fs).value| == |fs|
    ensures forall i :: 0 <= i < |fs| ==> FileOf(fs[i]).Some? && ParseAll(fs).value[i] == FileOf(fs[i]).value
  {
    if fs != [] {
      var n := |fs| - 1;
      var init := fs[..n];
      ParseAllValues(init);
      var r := ParseAll(fs).value;
      assert r == ParseAll(init).value + [FileOf(fs[n]).value];
      forall i | 0 <= i < n ensures FileOf(fs[i]).Some? && r[i] == FileOf(fs[i]).value {
        assert init[i] == fs[i];
      }
    }
  }

  lemma ParseAllSnoc(fs: seq<ApiFile>, i: nat)
    requires AllUsable(fs) && i < |fs| && ParseAll(fs[..i]).Some? && FileOf(fs[i]).Some?
    ensures ParseAll(fs[..i + 1]) == Some(ParseAll(fs[..i]).value + [FileOf(fs[i]).value])
  {
    assert fs[..i + 1][..i] == fs[..i];
  }

  /** The files of a pull after checkFiles, or None when some kept file's blob url has no sha. */
  function FilesOf(files: seq<ApiFile>): Option<seq<PullFile>> {
    ParseAll(KeptFiles(files))
  }

  /** Every file checkFiles keeps has a usable name, a non-empty blob sha
      without slashes, nothing reported yet, and the ranges of its own patch. */
  lemma FilesOfShape(files: seq<ApiFile>)
    requires FilesOf(files).Some?
    ensures |FilesOf(files).value| == |KeptFiles(files)| <= |files|
    ensures forall i :: 0 <= i < |FilesOf(files).value| ==>
      var pf := FilesOf(files).value[i];
      var f := KeptFiles(files)[i];
      && f in files
      && pf.filename == f.filename.value && pf.filename != "" && pf.filename != "undefined"
      && |pf.sha| > 0 && '/' !in pf.sha
      && pf.reported == []
      && pf.ranges == PatchRanges(f.patch)
  {
    var kept := KeptFiles(files);
    ParseAllValues(kept);
    forall i | 0 <= i < |kept| ensures kept[i] in files {
      assert kept[i] in kept;
    }
  }

  /** A kept file whose blob url has no sha makes the whole listing fail. */
  lemma FilesOfFails(files: seq<ApiFile>, i: nat)
    requires i < |KeptFiles(files)| && BlobSha(KeptFiles(files)[i].blobUrl).None?
    ensures FilesOf(files).None?
  {
    ParseAllSucceeds(KeptFiles(files));
  }

  /** The `.filter(...).map(...)` of checkFiles over the API's file list. */
  method ParseFiles(files: seq<ApiFile>) returns (result: Option<seq<PullFile>>)
    ensures result == FilesOf(files)
  {
    var kept := KeptFiles(files);
    var parsed: seq<PullFile> := [];
    var i := 0;
    while i < |kept|
      invariant 0 <= i <= |kept|
      invariant ParseAll(kept[..i]) == Some(parsed)
    {
      var file := kept[i];
      var sha := BlobSha(file.blobUrl);
      if sha.None? {
        FilesOfFails(files, i);
        return None;
      }
      var ranges := ParsePatch(file.patch);
      ParseAllSnoc(kept, i);
      parsed := parsed + [PullFile(file.filename.value, sha.value, ranges, [])];
      i := i + 1;
    }
    assert kept[..i] == kept;
    result := Some(parsed);
  }

  /** What checkFiles publishes for `pull`: `pull.found` only when at least one file is left. */
  function FoundEvents(hasPublisher: bool, pull: Pull, files: seq<ApiFile>): seq<Event> {
    match FilesOf(files)
    case Some(fs) => if |fs| > 0 then Emitted(hasPublisher, "pull.found", PullData(pull.(files := fs))) else []
    case None => []
  }

  // ---------------------------------------------------------------------
  // handlePullRequest: routing
  // ---------------------------------------------------------------------

  function IgnoreDirective(user: string): string {
    "@" + user + " ignore"
  }

  function RetestDirective(user: string): string {
    "@" + user + " retest"
  }

  datatype DropReason = UnsupportedAction | NotMergeable | IgnoreRequested

  /** Where handlePullRequest sends an input. */
  datatype PullRoute =
    | Closed(number: int, repo: string, merged: bool)
    | Dropped(reason: DropReason)
    | Proceed(pull: Pull)

  /** The pull that goes on past the action check. */
  function Candidate(input: PullRequestInput): Pull {
    match input
    case Webhook(_, _, pr) => pr
    case Polled(p) => p
  }

  predicate BuildableAction(input: PullRequestInput) {
    input.Polled? || input.action == "opened" || input.action == "synchronize"
  }

  predicate FlaggedIgnore(p: Pull, user: string) {
    Truthy(p.body) && Contains(p.body.value, IgnoreDirective(user))
  }

  function RoutePull(input: PullRequestInput, user: string): (r: PullRoute)
    ensures r.Closed? <==> input.Webhook? && input.action == "closed"
    ensures r.Closed? ==> r == Closed(input.number, input.pullRequest.baseRepoName, input.pullRequest.merged)
    ensures r == Dropped(UnsupportedAction) <==> input.Webhook? && input.action != "closed" && !BuildableAction(input)
    ensures r == Dropped(NotMergeable) <==> BuildableAction(input) && Candidate(input).mergeable == Some(false)
    ensures r == Dropped(IgnoreRequested) <==>
      BuildableAction(input) && Candidate(input).mergeable != Some(false) && FlaggedIgnore(Candidate(input), user)
    ensures r.Proceed? <==>
      BuildableAction(input) && Candidate(input).mergeable != Some(false) && !FlaggedIgnore(Candidate(input), user)
    ensures r.Proceed? ==> r.pull == Candidate(input).(repo := Candidate(input).baseRepoName)
  {
    if input.Webhook? && input.action == "closed" then
      Closed(input.number, input.pullRequest.baseRepoName, input.pullRequest.merged)
    else if !BuildableAction(input) then Dropped(UnsupportedAction)
    else
      var p := Candidate(input);
      if p.mergeable == Some(false) then Dropped(NotMergeable)
      else if FlaggedIgnore(p, user) then Dropped(IgnoreRequested)
      else Proceed(p.(repo := p.baseRepoName))
  }

  /** `updatePull(number, repo, { status })`: an update, never an insert. */
  function SetStatus(pulls: map<PullKey, PullRecord>, key: PullKey, status: string): (r: map<PullKey, PullRecord>)
    ensures r.Keys == pulls.Keys
    ensures key in pulls ==> r[key] == pulls[key].(status := status)
    ensures forall k :: k in pulls && k != key ==> r[k] == pulls[k]
  {
    if key in pulls then pulls[key := pulls[key].(status := status)] else pulls
  }

  /** The store after a closed event: status `closed`, then `merged` if the pull was merged. */
  function MarkClosed(pulls: map<PullKey, PullRecord>, key: PullKey, merged: bool): (r: map<PullKey, PullRecord>)
    ensures r.Keys == pulls.Keys
    ensures key in pulls ==> r[key] == pulls[key].(status := if merged then "merged" else "closed")
    ensures forall k :: k in pulls && k != key ==> r[k] == pulls[k]
  {
    var closed := SetStatus(pulls, key, "closed");
    if merged then SetStatus(closed, key, "merged") else closed
  }

  // ---------------------------------------------------------------------
  // processPull: carrying reported lines forward, the retest scan
  // ---------------------------------------------------------------------

  /** The `reported` lines of the last stored file named `name`, or `default` when none is. */
  function LastReported(stored: seq<PullFile>, name: string, default: seq<int>): (r: seq<int>)
    ensures (forall j :: 0 <= j < |stored| ==> stored[j].filename != name) ==> r == default
    ensures (exists j :: 0 <= j < |stored| && stored[j].filename == name) ==>
      exists j :: 0 <= j < |stored| && stored[j].filename == name && r == stored[j].reported
                  && forall j' :: j < j' < |stored| ==> stored[j'].filename != name
  {
    if stored == [] then default
    else if stored[|stored| - 1].filename == name then stored[|stored| - 1].reported
    else LastReported(stored[..|stored| - 1], name, default)
  }

  function CarriedFiles(files: seq<PullFile>, stored: seq<PullFile>): seq<PullFile> {
    seq(|files|, i requires 0 <= i < |files| =>
      files[i].(reported := LastReported(stored, files[i].filename, files[i].reported)))
  }

  /** The nested `forEach` that copies `reported` from the stored files by filename. */
  method CarryReported(files: seq<PullFile>, stored: seq<PullFile>) returns (carried: seq<PullFile>)
    ensures |carried| == |files|
    ensures forall i :: 0 <= i < |files| ==>
      carried[i] == files[i].(reported := LastReported(stored, files[i].filename, files[i].reported))
  {
    carried := files;
    var j := 0;
    while j < |stored|
      invariant 0 <= j <= |stored|
      invariant |carried| == |files|
      invariant forall k :: 0 <= k < |files| ==>
        carried[k] == files[k].(reported := LastReported(stored[..j], files[k].filename, files[k].reported))
    {
      assert stored[..j + 1][..j] == stored[..j];
      var i := 0;
      while i < |carried|
        invariant 0 <= i <= |carried| == |files|
        invariant forall k :: 0 <= k < i ==>
          carried[k] == files[k].(reported := LastReported(stored[..j + 1], files[k].filename, files[k].reported))
        invariant forall k :: i <= k < |files| ==>
          carried[k] == files[k].(reported := LastReported(stored[..j], files[k].filename, files[k].reported))
      {
        if carried[i].filename == stored[j].filename {
          carried := carried[i := carried[i].(reported := stored[j].reported)];
        }
        i := i + 1;
      }
      j := j + 1;
    }
    assert stored[..|stored|] == stored;
  }

  /** With a whitelist, only listed users and the pull's author may ask for a retest. */
  predicate MayRequestRetest(login: string, whitelist: Option<seq<string>>, headLogin: string) {
    whitelist.None? || login in whitelist.value || login == headLogin
  }

  /** A comment that re-triggers a build: from an allowed author, newer than the record, carrying the directive. */
  predicate IsRetestComment(c: Comment, settings: Settings, headLogin: string, since: string) {
    && MayRequestRetest(c.login, settings.retryWhitelist, headLogin)
    && LexGreater(c.createdAt, since)
    && Contains(c.body, RetestDirective(settings.authUsername))
  }

  /** The loop over the `getComments` response. */
  method FindRetestComment(comments: seq<Comment>, settings: Settings, headLogin: string, since: string)
    returns (found: bool)
    ensures found <==> exists i :: 0 <= i < |comments| && IsRetestComment(comments[i], settings, headLogin, since)
  {
    var i := 0;
    while i < |comments|
      invariant 0 <= i <= |comments|
      invariant forall k :: 0 <= k < i ==> !IsRetestComment(comments[k], settings, headLogin, since)
    {
      var comment := comments[i];
      if settings.retryWhitelist.Some? && comment.login !in settings.retryWhitelist.value && comment.login != headLogin {
        i := i + 1;
        continue;
      }
      if LexGreater(comment.createdAt, since) && Contains(comment.body, RetestDirective(settings.authUsername)) {
        return true;
      }
      i := i + 1;
    }
    return false;
  }

  predicate HasHeadRepo(p: Pull) {
    p.head.Some? && p.head.value.repo.Some?
  }

  function KeyOf(p: Pull): PullKey {
    (p.number, p.repo)
  }

  /** The record insertPull stores for a new pull. */
  function NewRecord(p: Pull): PullRecord
    requires p.head.Some?
  {
    PullRecord(p.head.value.sha, "open", p.updatedAt, p.files, [])
  }

  /** An already-stored pull is rebuilt on a new head, on `skip_comments`, or on a retest comment. */
  predicate Rebuild(p: Pull, item: PullRecord, comments: seq<Comment>, settings: Settings)
    requires p.head.Some?
  {
    || p.head.value.sha != item.head
    || p.skipComments
    || exists i :: 0 <= i < |comments| && IsRetestComment(comments[i], settings, p.head.value.userLogin, item.updatedAt)
  }

  // ---------------------------------------------------------------------
  // handleIssueComment, handlePush, createComment, setupRepoHook
  // ---------------------------------------------------------------------

  /** A comment on a pull request that carries the retest directive. */
  predicate RequestsRetest(c: IssueCommentEvent, authUsername: string) {
    c.pullRequestUrl.Some? && Contains(c.body, RetestDirective(authUsername))
  }

  /** All of repository name, ref, before, after, pusher name and email are truthy. */
  predicate ValidPush(p: PushPayload) {
    && Truthy(p.repoName) && Truthy(p.ref) && Truthy(p.before) && Truthy(p.after)
    && Truthy(p.pusherName) && Truthy(p.pusherEmail)
  }

  function PushKeyOf(p: PushPayload): PushKey
    requires ValidPush(p)
  {
    (p.repoName.value, p.ref.value, p.after.value)
  }

  predicate PushTriggers(pushes: set<PushKey>, p: PushPayload) {
    ValidPush(p) && PushKeyOf(p) !in pushes
  }

  /** The keys published as `push.found` when `deliveries` are handled one after another. */
  function FoundPushes(pushes: set<PushKey>, deliveries: seq<PushPayload>): seq<PushKey>
    decreases |deliveries|
  {
    if deliveries == [] then []
    else
      var p := deliveries[0];
      if PushTriggers(pushes, p) then [PushKeyOf(p)] + FoundPushes(pushes + {PushKeyOf(p)}, deliveries[1..])
      else FoundPushes(pushes, deliveries[1..])
  }

  /** At most one build per (repo, ref, after): when deliveries are handled
      one after another, however often a push is delivered its key is
      published at most once, and never when it was already stored. */
  lemma {:induction false} PushFoundAtMostOnce(pushes: set<PushKey>, deliveries: seq<PushPayload>)
    ensures forall i :: 0 <= i < |FoundPushes(pushes, deliveries)| ==> FoundPushes(pushes, deliveries)[i] !in pushes
    ensures forall i, j :: 0 <= i < j < |FoundPushes(pushes, deliveries)| ==>
      FoundPushes(pushes, deliveries)[i] != FoundPushes(pushes, deliveries)[j]
    decreases |deliveries|
  {
    if deliveries != [] {
      var p := deliveries[0];
      if PushTriggers(pushes, p) {
        var k := PushKeyOf(p);
        var rest := FoundPushes(pushes + {k}, deliveries[1..]);
        PushFoundAtMostOnce(pushes + {k}, deliveries[1..]);
        var found := [k] + rest;
        assert FoundPushes(pushes, deliveries) == found;
        forall i | 1 <= i < |found| ensures found[i] != k && found[i] !in pushes {
          assert found[i] == rest[i - 1];
        }
      } else {
        assert FoundPushes(pushes, deliveries) == FoundPushes(pushes, deliveries[1..]);
        PushFoundAtMostOnce(pushes, deliveries[1..]);
      }
    }
  }

  /** The same push handled twice is published at most once. */
  lemma SamePushTwice(pushes: set<PushKey>, p: PushPayload)
    ensures |FoundPushes(pushes, [p, p])| == if PushTriggers(pushes, p) then 1 else 0
  {
    assert [p, p][1..] == [p];
    assert [p][1..] == [];
    if PushTriggers(pushes, p) {
      assert !PushTriggers(pushes + {PushKeyOf(p)}, p);
      assert FoundPushes(pushes + {PushKeyOf(p)}, [p]) == [];
    } else {
      assert FoundPushes(pushes, [p]) == [];
    }
  }

  /** The two API calls createComment can make. */
  datatype CommentCall =
    | IssueComment(text: string)
    | ReviewComment(body: Option<string>, commitId: string, path: Option<string>, position: Option<int>)

  predicate PositionTruthy(position: Option<int>) {
    position.Some? && position.value != 0
  }

  /** With no file, position and comment the text goes to the issue thread
      (the sha argument is the body); otherwise it is an inline comment. */
  function CommentTarget(sha: string, file: Option<string>, position: Option<int>, comment: Option<string>): (c: CommentCall)
    ensures c.IssueComment? <==> !Truthy(file) && !PositionTruthy(position) && !Truthy(comment)
    ensures c.IssueComment? ==> c.text == sha
    ensures c.ReviewComment? ==> c == ReviewComment(comment, sha, file, position)
  {
    if !Truthy(file) && !PositionTruthy(position) && !Truthy(comment) then IssueComment(sha)
    else ReviewComment(comment, sha, file, position)
  }

  datatype HookSetup = AlreadyConfigured | CreateWebhook(repo: string)

  /** setupRepoHook refuses a repository already in the configured list. */
  function SetupRepoHook(repos: seq<string>, repo: string): (r: HookSetup)
    ensures r == AlreadyConfigured <==> exists i :: 0 <= i < |repos| && repos[i] == repo
    ensures r.CreateWebhook? ==> r.repo == repo
  {
    if repo in repos then AlreadyConfigured else CreateWebhook(repo)
  }

  // ---------------------------------------------------------------------
  // The library object: its store and what it has published
  // ---------------------------------------------------------------------

  class GitHubLib {
    const settings: Settings
    const hasPublisher: bool
    var events: seq<Event>
    var pulls: map<PullKey, PullRecord>
    var pushes: set<PushKey>

    constructor (settings: Settings, hasPublisher: bool, pulls: map<PullKey, PullRecord>, pushes: set<PushKey>)
      ensures this.settings == settings && this.hasPublisher == hasPublisher
      ensures this.pulls == pulls && this.pushes == pushes && events == []
    {
      this.settings := settings;
      this.hasPublisher := hasPublisher;
      this.pulls := pulls;
      this.pushes := pushes;
      events := [];
    }

    method Publish(topic: string, data: EventData)
      modifies this`events
      ensures events == old(events) + Emitted(hasPublisher, topic, data)
    {
      if !hasPublisher {
        return;
      }
      events := events + [Event(topic, data)];
    }

    method UpdateStatus(key: PullKey, status: string)
      modifies this`pulls
      ensures pulls == SetStatus(old(pulls), key, status)
    {
      if key in pulls {
        pulls := pulls[key := pulls[key].(status := status)];
      }
    }

    method CheckFiles(pull: Pull, files: seq<ApiFile>)
      modifies this`events
      ensures events == old(events) + FoundEvents(hasPublisher, pull, files)
    {
      var parsed := ParseFiles(files);
      if parsed.Some? {
        if |parsed.value| > 0 {
          Publish("pull.found", PullData(pull.(files := parsed.value)));
        }
      }
    }

    method HandlePullRequest(input: PullRequestInput, files: seq<ApiFile>)
      modifies this`events, this`pulls
      ensures pushes == old(pushes)
      ensures match RoutePull(input, settings.user)
        case Closed(number, repo, merged) =>
          && pulls == MarkClosed(old(pulls), (number, repo), merged)
          && events == old(events) + Emitted(hasPublisher, if merged then "pull.merged" else "pull.closed", WebhookData(input))
        case Dropped(_) =>
          pulls == old(pulls) && events == old(events)
        case Proceed(p) =>
          && pulls == old(pulls)
          && events == old(events) + (if settings.skipFileListing then Emitted(hasPublisher, "pull.found", PullData(p.(files := [])))
                                      else FoundEvents(hasPublisher, p, files))
    {
      var pull: Pull;
      match input {
        case Webhook(action, number, pr) =>
          if action == "closed" {
            UpdateStatus((number, pr.baseRepoName), action);
            if pr.merged {
              Publish("pull.merged", WebhookData(input));
              UpdateStatus((number, pr.baseRepoName), "merged");
            } else {
              Publish("pull.closed", WebhookData(input));
            }
            return;
          }
          if action != "synchronize" && action != "opened" {
            return;
          }
          pull := pr;
        case Polled(p) =>
          pull := p;
      }
      if pull.mergeable == Some(false) {
        return;
      }
      if Truthy(pull.body) && Contains(pull.body.value, IgnoreDirective(settings.user)) {
        return;
      }
      pull := pull.(repo := pull.baseRepoName);
      if settings.skipFileListing {
        pull := pull.(files := []);
        Publish("pull.found", PullData(pull));
      } else {
        CheckFiles(pull, files);
      }
    }

    method ProcessPull(pull: Pull, comments: seq<Comment>)
      modifies this`events, this`pulls
      ensures pushes == old(pushes)
      ensures !HasHeadRepo(pull) ==> pulls == old(pulls) && events == old(events)
      ensures HasHeadRepo(pull) && KeyOf(pull) !in old(pulls) ==>
        && pulls == old(pulls)[KeyOf(pull) := NewRecord(pull)]
        && events == old(events) + Emitted(hasPublisher, "pull.processed", PullData(pull.(jobs := [])))
      ensures HasHeadRepo(pull) && KeyOf(pull) in old(pulls) ==>
        var item := old(pulls)[KeyOf(pull)];
        var current := pull.(files := CarriedFiles(pull.files, item.files), jobs := item.jobs);
        && pulls == old(pulls)[KeyOf(pull) := item.(files := current.files)]
        && events == old(events) + (if Rebuild(current, item, comments, settings)
                                    then Emitted(hasPublisher, "pull.processed", PullData(current)) else [])
    {
      if pull.head.None? || pull.head.value.repo.None? {
        return;
      }
      var key := KeyOf(pull);
      if key !in pulls {
        pulls := pulls[key := NewRecord(pull)];
        Publish("pull.processed", PullData(pull.(jobs := [])));
        return;
      }
      var item := pulls[key];
      var files := CarryReported(pull.files, item.files);
      assert files == CarriedFiles(pull.files, item.files);
      pulls := pulls[key := item.(files := files)];
      var current := pull.(files := files, jobs := item.jobs);
      if current.head.value.sha != item.head {
        Publish("pull.processed", PullData(current));
        return;
      }
      if current.skipComments {
        Publish("pull.processed", PullData(current));
        return;
      }
      var retest := FindRetestComment(comments, settings, current.head.value.userLogin, item.updatedAt);
      if retest {
        Publish("pull.processed", PullData(current));
      }
    }

    method HandleIssueComment(comment: IssueCommentEvent, fetched: Option<Pull>)
      modifies this`events
      ensures events == old(events) + (if RequestsRetest(comment, settings.authUsername) && fetched.Some?
                                       then Emitted(hasPublisher, "pull_request", PullData(fetched.value.(skipComments := true)))
                                       else [])
    {
      if comment.pullRequestUrl.None? {
        return;
      }
      if !Contains(comment.body, RetestDirective(settings.authUsername)) {
        return;
      }
      if fetched.Some? {
        Publish("pull_request", PullData(fetched.value.(skipComments := true)));
      }
    }

    method HandlePush(payload: PushPayload)
      modifies this`events, this`pushes
      ensures pulls == old(pulls)
      ensures pushes == if PushTriggers(old(pushes), payload) then old(pushes) + {PushKeyOf(payload)} else old(pushes)
      ensures events == old(events) + (if PushTriggers(old(pushes), payload)
                                       then Emitted(hasPublisher, "push.found", PushData(payload)) else [])
    {
      if !ValidPush(payload) {
        return;
      }
      var key := (payload.repoName.value, payload.ref.value, payload.after.value);
      if key in pushes {
        return;
      }
      pushes := pushes + {key};
      Publish("push.found", PushData(payload));
    }
  }
}
