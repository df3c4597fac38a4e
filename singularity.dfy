/** The runtime configuration of the application object
    (libraries/singularity.js): defaults filled in at start-up, the summary
    the HTTP API shows, and the handlers that add or remove repositories
    and build jobs and announce the change as events. */
module Singularity {
  import opened Wrappers
  import opened Strings
  import opened Sequences

  // ---------------------------------------------------------------------
  // The configuration object
  // ---------------------------------------------------------------------

  /** A Jenkins job entry (`{name, repo, token, rules}`); any key may be missing. */
  datatype Project = Project(name: Option<string>, repo: Option<string>, token: Option<string>, rules: Option<seq<string>>)

  /** `projects` / `push_projects` is either an array of jobs or an object keyed by repository name. */
  datatype Projects =
    | ProjectArray(items: seq<Project>)
    | ProjectMap(entries: seq<(string, Project)>)

  /** `plugins.jenkins`; `isArray` marks the empty array standardizeConfig may put in its place. */
  datatype JenkinsCfg = JenkinsCfg(isArray: bool, token: Option<string>, projects: Option<Projects>, pushProjects: Option<Projects>)

  datatype Auth = Auth(username: Option<string>)

  datatype GithubCfg = GithubCfg(auth: Option<Auth>, repos: Option<seq<string>>)

  datatype Plugins = Plugins(github: Option<GithubCfg>, jenkins: Option<JenkinsCfg>)

  datatype Config = Config(plugins: Option<Plugins>, host: Option<string>, port: Option<string>)

  /** `{}` */
  const EmptyConfig := Config(None, None, None)

  const EmptyJenkins := JenkinsCfg(false, None, None, None)

  // ---------------------------------------------------------------------
  // standardizeConfig
  // ---------------------------------------------------------------------

  /** The shape every handler below relies on. */
  predicate Standardized(c: Config) {
    && c.plugins.Some?
    && c.plugins.value.github.Some?
    && c.plugins.value.github.value.repos.Some?
    && c.plugins.value.jenkins.Some?
    && c.plugins.value.jenkins.value.pushProjects.Some?
  }

  function GithubDefaults(g: Option<GithubCfg>): (r: GithubCfg)
    ensures r.repos.Some?
    ensures g.Some? && g.value.repos.Some? ==> r == g.value
    ensures g.Some? ==> r.auth == g.value.auth
    ensures g.None? ==> r == GithubCfg(None, Some([]))
    ensures g.Some? && g.value.repos.None? ==> r == g.value.(repos := Some([]))
  {
    var github := g.GetOr(GithubCfg(None, None));
    if github.repos.None? then github.(repos := Some([])) else github
  }

  function JenkinsDefaults(j: Option<JenkinsCfg>): (r: JenkinsCfg)
    ensures r.pushProjects.Some?
    ensures j.None? || j.value.projects.None? ==> r == JenkinsCfg(true, None, None, Some(ProjectMap([])))
    ensures j.Some? && j.value.projects.Some? && j.value.pushProjects.Some? ==> r == j.value
    ensures j.Some? && j.value.projects.Some? && j.value.pushProjects.None? ==>
      r == j.value.(pushProjects := Some(ProjectMap([])))
  {
    var jenkins := j.GetOr(EmptyJenkins);
    var jenkins := if jenkins.projects.None? then JenkinsCfg(true, None, None, None) else jenkins;
    if jenkins.pushProjects.None? then jenkins.(pushProjects := Some(ProjectMap([]))) else jenkins
  }

  /** Missing `plugins`, `github`, `github.repos` and `jenkins` are created
      and `push_projects` defaults to `{}`; when `jenkins.projects` is
      missing the whole `jenkins` entry is replaced by an empty array first. */
  function StandardizeConfig(c: Config): (r: Config)
    ensures Standardized(r)
    ensures r.host == c.host && r.port == c.port
  {
    var plugins := c.plugins.GetOr(Plugins(None, None));
    c.(plugins := Some(Plugins(Some(GithubDefaults(plugins.github)), Some(JenkinsDefaults(plugins.jenkins)))))
  }

  /** Values already present are kept: the GitHub section when it has repos,
      the auth block, and a Jenkins section that has `projects`. */
  lemma StandardizeKeeps(c: Config)
    ensures var r := StandardizeConfig(c).plugins.value;
      && (c.plugins.Some? && c.plugins.value.github.Some? ==>
            r.github.value.auth == c.plugins.value.github.value.auth)
      && (c.plugins.Some? && c.plugins.value.github.Some? && c.plugins.value.github.value.repos.Some? ==>
            r.github == c.plugins.value.github)
      && (c.plugins.Some? && c.plugins.value.jenkins.Some? && c.plugins.value.jenkins.value.projects.Some? ==>
            && r.jenkins.value.projects == c.plugins.value.jenkins.value.projects
            && r.jenkins.value.token == c.plugins.value.jenkins.value.token
            && r.jenkins.value.isArray == c.plugins.value.jenkins.value.isArray)
      && (c.plugins.Some? && c.plugins.value.jenkins.Some? && c.plugins.value.jenkins.value.pushProjects.Some?
          && c.plugins.value.jenkins.value.projects.Some? ==>
            r.jenkins == c.plugins.value.jenkins)
  {
  }

  /** The defaults filled in: an empty `repos` list and an empty
      `push_projects` object, with the rest of the section kept. */
  lemma StandardizeFillsDefaults(c: Config)
    ensures var r := StandardizeConfig(c).plugins.value;
      && (c.plugins.None? || c.plugins.value.github.None? ==> r.github == Some(GithubCfg(None, Some([]))))
      && (c.plugins.Some? && c.plugins.value.github.Some? && c.plugins.value.github.value.repos.None? ==>
            r.github == Some(c.plugins.value.github.value.(repos := Some([]))))
      && (c.plugins.Some? && c.plugins.value.jenkins.Some? && c.plugins.value.jenkins.value.projects.Some?
          && c.plugins.value.jenkins.value.pushProjects.None? ==>
            r.jenkins == Some(c.plugins.value.jenkins.value.(pushProjects := Some(ProjectMap([])))))
  {
  }

  /** Without `projects`, Jenkins loses everything else, the token included. */
  lemma StandardizeResetsJenkins(c: Config)
    requires c.plugins.None? || c.plugins.value.jenkins.None? || c.plugins.value.jenkins.value.projects.None?
    ensures StandardizeConfig(c).plugins.value.jenkins == Some(JenkinsCfg(true, None, None, Some(ProjectMap([]))))
  {
  }

  /** Standardizing twice changes nothing more. */
  lemma StandardizeIdempotent(c: Config)
    ensures StandardizeConfig(StandardizeConfig(c)) == StandardizeConfig(c)
  {
    var r := StandardizeConfig(c);
    var j := r.plugins.value.jenkins.value;
    assert JenkinsDefaults(Some(j)) == j;
  }

  /** An already standardized configuration is a fixed point exactly when its Jenkins section has projects or is the reset array. */
  lemma StandardizedFixedPoint(c: Config)
    requires Standardized(c)
    ensures StandardizeConfig(c) == c <==>
      (c.plugins.value.jenkins.value.projects.Some? || c.plugins.value.jenkins.value == JenkinsCfg(true, None, None, Some(ProjectMap([]))))
  {
  }

  // ---------------------------------------------------------------------
  // getConfig and formatProjectCfg
  // ---------------------------------------------------------------------

  /** Characters JavaScript's parseInt skips before the number. */
  predicate IsJsSpace(c: char) {
    c == ' ' || c == '\t' || c == '\n' || c == '\r' || c == '\U{B}' || c == '\U{C}'
    || c == '\U{A0}' || c == '\U{FEFF}' || c == '\U{2028}' || c == '\U{2029}'
  }

  function TrimStart(s: string): string {
    if s != [] && IsJsSpace(s[0]) then TrimStart(s[1..]) else s
  }

  predicate IsHexDigit(c: char) {
    IsDigit(c) || 'a' <= c <= 'f' || 'A' <= c <= 'F'
  }

  /** `!isNaN(parseInt(key))`: after spaces and a sign there is a decimal
      digit, or a `0x` prefix followed by a hexadecimal digit. */
  predicate ParsesAsInt(key: string) {
    var t := TrimStart(key);
    var u := if t != [] && (t[0] == '+' || t[0] == '-') then t[1..] else t;
    if |u| >= 2 && u[0] == '0' && (u[1] == 'x' || u[1] == 'X') then |u| >= 3 && IsHexDigit(u[2])
    else |u| >= 1 && IsDigit(u[0])
  }

  /** Array indices, as for-in yields them, parse as integers. */
  lemma IndexKeyParses(n: nat)
    ensures ParsesAsInt(NatStr(n))
  {
    var s := NatStr(n);
    assert IsDigit(s[0]);
    assert |s| >= 2 ==> IsDigit(s[1]);
  }

  /** A key that starts with a letter or an underscore does not parse. */
  lemma NameKeyDoesNotParse(key: string)
    requires key != [] && ('a' <= key[0] <= 'z' || 'A' <= key[0] <= 'Z' || key[0] == '_')
    ensures !ParsesAsInt(key)
  {
  }

  /** One entry of the summary: `{name, repo, has_trigger_token}`. */
  datatype ProjectSummary = ProjectSummary(name: Option<string>, repo: Option<string>, hasTriggerToken: bool)

  /** The summary of one for-in step: the key is the repository unless it parses as an integer. */
  function SummaryOf(key: string, p: Project): (s: ProjectSummary)
    ensures s.name == p.name
    ensures s.hasTriggerToken <==> Truthy(p.token)
    ensures ParsesAsInt(key) ==> s.repo == p.repo
    ensures !ParsesAsInt(key) ==> s.repo == Some(key)
  {
    ProjectSummary(p.name, if ParsesAsInt(key) then p.repo else Some(key), Truthy(p.token))
  }

  /** The keys and values a for-in loop visits. */
  function Entries(projects: Projects): (es: seq<(string, Project)>)
    ensures projects.ProjectArray? ==>
      |es| == |projects.items| && forall i :: 0 <= i < |es| ==> es[i] == (NatStr(i), projects.items[i])
  {
    match projects
    case ProjectArray(items) => seq(|items|, i requires 0 <= i < |items| => (NatStr(i), items[i]))
    case ProjectMap(entries) => entries
  }

  function SummariesOf(es: seq<(string, Project)>): seq<ProjectSummary> {
    if es == [] then []
    else SummariesOf(es[..|es| - 1]) + [SummaryOf(es[|es| - 1].0, es[|es| - 1].1)]
  }

  /** One summary per entry, in the order visited. */
  lemma {:induction false} SummariesEach(es: seq<(string, Project)>)
    ensures |SummariesOf(es)| == |es|
    ensures forall i :: 0 <= i < |es| ==> SummariesOf(es)[i] == SummaryOf(es[i].0, es[i].1)
  {
    if es != [] {
      var init := es[..|es| - 1];
      SummariesEach(init);
      var r := SummariesOf(es);
      assert r == SummariesOf(init) + [SummaryOf(es[|es| - 1].0, es[|es| - 1].1)];
      forall i | 0 <= i < |init| ensures r[i] == SummaryOf(es[i].0, es[i].1) {
        assert init[i] == es[i];
      }
    }
  }

  /** What formatProjectCfg returns: nothing for a missing list. */
  function Formatted(projects: Option<Projects>): seq<ProjectSummary> {
    if projects.None? then [] else SummariesOf(Entries(projects.value))
  }

  /** For an array every summary takes the job's own repo. */
  lemma FormattedArray(items: seq<Project>)
    ensures |Formatted(Some(ProjectArray(items)))| == |items|
    ensures forall i :: 0 <= i < |items| ==>
      Formatted(Some(ProjectArray(items)))[i] == ProjectSummary(items[i].name, items[i].repo, Truthy(items[i].token))
  {
    var es := Entries(ProjectArray(items));
    SummariesEach(es);
    forall i | 0 <= i < |items| ensures ParsesAsInt(es[i].0) {
      IndexKeyParses(i);
    }
  }

  /** For an object keyed by repository names the key becomes the repo. */
  lemma FormattedNamedKeys(entries: seq<(string, Project)>)
    requires forall i :: 0 <= i < |entries| ==> !ParsesAsInt(entries[i].0)
    ensures |Formatted(Some(ProjectMap(entries)))| == |entries|
    ensures forall i :: 0 <= i < |entries| ==>
      Formatted(Some(ProjectMap(entries)))[i] == ProjectSummary(entries[i].1.name, Some(entries[i].0), Truthy(entries[i].1.token))
  {
    SummariesEach(entries);
  }

  /** The for-in loop of formatProjectCfg. */
  method FormatProjectCfg(projects: Option<Projects>) returns (r: seq<ProjectSummary>)
    ensures r == Formatted(projects)
  {
    if projects.None? {
      return [];
    }
    var es := Entries(projects.value);
    r := [];
    var i := 0;
    while i < |es|
      invariant 0 <= i <= |es|
      invariant r == SummariesOf(es[..i])
    {
      var (key, project) := es[i];
      assert es[..i + 1][..i] == es[..i];
      r := r + [ProjectSummary(project.name, if ParsesAsInt(key) then project.repo else Some(key), Truthy(project.token))];
      i := i + 1;
    }
    assert es[..i] == es;
  }

  /** `ci_user`: the auth username, or `false` without an auth block. */
  datatype CiUser = NoCiUser | CiUsername(username: Option<string>)

  datatype GithubSummary = GithubSummary(ciUser: CiUser, repositories: seq<string>)

  datatype JenkinsSummary = JenkinsSummary(hasGlobalTriggerToken: bool, projects: seq<ProjectSummary>, pushProjects: seq<ProjectSummary>)

  /** The object getConfig returns; `Summary(None, None)` is `{}`. */
  datatype Summary = Summary(github: Option<GithubSummary>, jenkins: Option<JenkinsSummary>)

  /** `host:port`, defaulting to `localhost` and `80`. */
  function GetDomain(c: Config): (d: string)
    ensures Truthy(c.host) && Truthy(c.port) ==> d == c.host.value + ":" + c.port.value
    ensures Truthy(c.host) && !Truthy(c.port) ==> d == c.host.value + ":80"
    ensures !Truthy(c.host) && Truthy(c.port) ==> d == "localhost:" + c.port.value
    ensures !Truthy(c.host) && !Truthy(c.port) ==> d == "localhost:80"
  {
    (if Truthy(c.host) then c.host.value else "localhost") + ":" + (if Truthy(c.port) then c.port.value else "80")
  }

  /** A host without a colon is read back from the domain: the text before
      the first `:` is the host (or `localhost`), the rest the port (or `80`). */
  lemma GetDomainSplits(c: Config)
    requires Truthy(c.host) ==> ':' !in c.host.value
    ensures var d := GetDomain(c);
      exists i :: && 0 <= i < |d| && d[i] == ':' && ':' !in d[..i]
                  && d[..i] == (if Truthy(c.host) then c.host.value else "localhost")
                  && d[i + 1..] == (if Truthy(c.port) then c.port.value else "80")
  {
    var d := GetDomain(c);
    var host := if Truthy(c.host) then c.host.value else "localhost";
    var port := if Truthy(c.port) then c.port.value else "80";
    assert d == host + ":" + port;
    var i := |host|;
    assert d[i] == ':' && d[..i] == host && d[i + 1..] == port;
  }

  // ---------------------------------------------------------------------
  // Adding and removing repositories and jobs
  // ---------------------------------------------------------------------

  /** Parameters of addRepo / addRepoPRJob / addRepoPushJob. */
  datatype JobParams = JobParams(repo: Option<string>, project: Option<string>, token: Option<string>, rules: Option<seq<string>>)

  /** What the application emits. */
  datatype Emit =
    | NewRepo(repo: Option<string>)
    | NewPrJob(job: Project)
    | NewPushJob(job: Project)
    | JenkinsReload(jenkins: JenkinsCfg)
    | GithubReload(github: GithubCfg)

  /** A handler's result: it returned a boolean, or a TypeError escaped. */
  datatype Outcome = Returned(value: bool) | Threw

  /** `params.token || false`: None stands for `false`. */
  function TokenOrFalse(token: Option<string>): (t: Option<string>)
    ensures t.Some? <==> Truthy(token)
    ensures t.Some? ==> t == token
  {
    if Truthy(token) then token else None
  }

  /** The job emitted for the parameters. */
  function JobOf(params: JobParams, rules: Option<seq<string>>): Project {
    Project(params.project, params.repo, TokenOrFalse(params.token), rules)
  }

  /** A job clashes when it has the same name or the same repo (strict equality, so two missing values are equal). */
  predicate Clashes(p: Project, params: JobParams) {
    params.project == p.name || params.repo == p.repo
  }

  /** `list.some(clash)`, or None where the list is no array and `.some` throws. */
  function DuplicateIn(projects: Option<Projects>, params: JobParams): (r: Option<bool>)
    ensures r.None? <==> !(projects.Some? && projects.value.ProjectArray?)
    ensures r.Some? ==> (r.value <==> exists i :: 0 <= i < |projects.value.items| && Clashes(projects.value.items[i], params))
  {
    match projects
    case Some(ProjectArray(items)) => Some(exists i :: 0 <= i < |items| && Clashes(items[i], params))
    case _ => None
  }

  /** The job field a removal filters on. */
  datatype JobField = RepoField | NameField

  function FieldOf(p: Project, field: JobField): Option<string> {
    match field
    case RepoField => p.repo
    case NameField => p.name
  }

  /** `list.filter(p => p.repo !== repo)` and `list.filter(p => p.name !== name)`:
      the jobs whose field differs from `value`, in order (`Sequences.FilterConcat`). */
  function Without(items: seq<Project>, field: JobField, value: string): (r: seq<Project>)
    ensures |r| <= |items|
    ensures forall p :: p in r <==> p in items && FieldOf(p, field) != Some(value)
    ensures forall p :: multiset(r)[p] == if FieldOf(p, field) != Some(value) then multiset(items)[p] else 0
    ensures (forall i :: 0 <= i < |items| ==> FieldOf(items[i], field) != Some(value)) ==> r == items
  {
    var keep := p => FieldOf(p, field) != Some(value);
    FilterMembers(items, keep);
    FilterCounts(items, keep);
    Filter(items, keep)
  }

  /** `s.indexOf(x)` */
  function IndexOf(s: seq<string>, x: string): (i: int)
    ensures -1 <= i < |s|
    ensures i == -1 <==> x !in s
    ensures i >= 0 ==> s[i] == x && x !in s[..i]
  {
    if s == [] then -1
    else if s[0] == x then 0
    else
      var j := IndexOf(s[1..], x);
      assert j >= 0 ==> s[..j + 1] == [s[0]] + s[1..][..j];
      if j == -1 then -1 else j + 1
  }

  /** `s.splice(s.indexOf(x), 1)`: index -1 means the last element. */
  function SpliceOut(s: seq<string>, x: string): (r: seq<string>)
    ensures s == [] ==> r == []
    ensures s != [] ==> |r| == |s| - 1
  {
    var i := IndexOf(s, x);
    if i >= 0 then s[..i] + s[i + 1..]
    else if s != [] then s[..|s| - 1]
    else s
  }

  /** A configured repo loses exactly one copy, its first: the list is
      what precedes the first occurrence followed by what comes after it. */
  lemma SpliceOutPresent(s: seq<string>, x: string)
    requires x in s
    ensures |SpliceOut(s, x)| == |s| - 1
    ensures multiset(SpliceOut(s, x)) == multiset(s) - multiset{x}
    ensures exists i :: 0 <= i < |s| && s[i] == x && x !in s[..i] && SpliceOut(s, x) == s[..i] + s[i + 1..]
  {
    var i := IndexOf(s, x);
    assert s == s[..i] + [x] + s[i + 1..];
    calc {
      multiset(s);
      multiset(s[..i]) + multiset{x} + multiset(s[i + 1..]);
      multiset(s[..i] + s[i + 1..]) + multiset{x};
    }
  }

  /** A repo that is not configured takes the last configured repo with it. */
  lemma SpliceOutAbsent(s: seq<string>, x: string)
    requires x !in s && s != []
    ensures SpliceOut(s, x) == s[..|s| - 1]
  {
  }

  function ItemsOf(projects: Option<Projects>): Option<seq<Project>> {
    match projects
    case Some(ProjectArray(items)) => Some(items)
    case _ => None
  }

  function JenkinsOf(c: Config): JenkinsCfg
    requires Standardized(c)
  {
    c.plugins.value.jenkins.value
  }

  function GithubOf(c: Config): GithubCfg
    requires Standardized(c)
  {
    c.plugins.value.github.value
  }

  function ReposOf(c: Config): seq<string>
    requires Standardized(c)
  {
    GithubOf(c).repos.value
  }

  function WithJenkins(c: Config, j: JenkinsCfg): (r: Config)
    requires Standardized(c) && j.pushProjects.Some?
    ensures Standardized(r) && JenkinsOf(r) == j && GithubOf(r) == GithubOf(c)
  {
    c.(plugins := Some(c.plugins.value.(jenkins := Some(j))))
  }

  function WithRepos(c: Config, repos: seq<string>): (r: Config)
    requires Standardized(c)
    ensures Standardized(r) && ReposOf(r) == repos && JenkinsOf(r) == JenkinsOf(c)
    ensures GithubOf(r).auth == GithubOf(c).auth
  {
    c.(plugins := Some(c.plugins.value.(github := Some(GithubOf(c).(repos := Some(repos))))))
  }

  /** What reloadConfigs emits: Jenkins first, then GitHub. */
  function Reloads(c: Config): seq<Emit>
    requires Standardized(c)
  {
    [JenkinsReload(JenkinsOf(c)), GithubReload(GithubOf(c))]
  }

  /** What addRepo emits: `github.new_repo` unless the repo is configured. */
  function NewRepoEmits(c: Config, params: JobParams): (es: seq<Emit>)
    requires Standardized(c)
    ensures es == [] <==> params.repo.Some? && params.repo.value in ReposOf(c)
    ensures es != [] ==> es == [NewRepo(params.repo)]
  {
    if params.repo.Some? && params.repo.value in ReposOf(c) then [] else [NewRepo(params.repo)]
  }

  class App {
    var config: Config
    var emitted: seq<Emit>

    predicate Valid()
      reads this
    {
      Standardized(config)
    }

    /** `new Singularity(config)`: the application keeps the standardized configuration. */
    constructor (config: Config)
      ensures Valid()
      ensures this.config == StandardizeConfig(config) && emitted == []
    {
      this.config := StandardizeConfig(config);
      emitted := [];
    }

    method GetConfig() returns (s: Summary)
      ensures config.plugins.None? ==> s == Summary(None, None)
      ensures config.plugins.Some? ==>
        var ps := config.plugins.value;
        && (s.github.Some? <==> ps.github.Some?)
        && (s.jenkins.Some? <==> ps.jenkins.Some?)
        && (ps.github.Some? ==>
              && s.github.value.ciUser == (if ps.github.value.auth.Some? then CiUsername(ps.github.value.auth.value.username) else NoCiUser)
              && s.github.value.repositories == ps.github.value.repos.GetOr([]))
        && (ps.jenkins.Some? ==>
              && s.jenkins.value.hasGlobalTriggerToken == Truthy(ps.jenkins.value.token)
              && s.jenkins.value.projects == Formatted(ps.jenkins.value.projects)
              && s.jenkins.value.pushProjects == Formatted(ps.jenkins.value.pushProjects))
    {
      if config.plugins.None? {
        return Summary(None, None);
      }
      var configs := config.plugins.value;
      var github: Option<GithubSummary> := None;
      if configs.github.Some? {
        var g := configs.github.value;
        var ciUser := if g.auth.Some? then CiUsername(g.auth.value.username) else NoCiUser;
        github := Some(GithubSummary(ciUser, g.repos.GetOr([])));
      }
      var jenkins: Option<JenkinsSummary> := None;
      if configs.jenkins.Some? {
        var j := configs.jenkins.value;
        var projects := FormatProjectCfg(j.projects);
        var pushProjects := FormatProjectCfg(j.pushProjects);
        jenkins := Some(JenkinsSummary(Truthy(j.token), projects, pushProjects));
      }
      s := Summary(github, jenkins);
    }

    method AddRepo(params: JobParams) returns (added: bool)
      requires Valid()
      modifies this`emitted
      ensures added <==> !(params.repo.Some? && params.repo.value in ReposOf(config))
      ensures emitted == old(emitted) + NewRepoEmits(config, params)
    {
      if params.repo.Some? && IndexOf(ReposOf(config), params.repo.value) != -1 {
        return false;
      }
      emitted := emitted + [NewRepo(params.repo)];
      return true;
    }

    method AddRepoPRJob(params: JobParams) returns (out: Outcome)
      requires Valid()
      modifies this`emitted
      ensures out == Threw <==> DuplicateIn(JenkinsOf(config).projects, params).None?
      ensures out == Returned(false) <==> DuplicateIn(JenkinsOf(config).projects, params) == Some(true)
      ensures out != Returned(true) ==> emitted == old(emitted)
      ensures out == Returned(true) ==>
        emitted == old(emitted) + NewRepoEmits(config, params) + [NewPrJob(JobOf(params, None))]
    {
      var duplicate := DuplicateIn(JenkinsOf(config).projects, params);
      if duplicate.None? {
        return Threw;
      }
      if duplicate.value {
        return Returned(false);
      }
      var _ := AddRepo(params);
      emitted := emitted + [NewPrJob(JobOf(params, None))];
      return Returned(true);
    }

    method AddRepoPushJob(params: JobParams) returns (out: Outcome)
      requires Valid()
      modifies this`emitted
      ensures out == Returned(false) <==> DuplicateIn(JenkinsOf(config).pushProjects, params) == Some(true)
      ensures out == Returned(true) <==> DuplicateIn(JenkinsOf(config).pushProjects, params) == Some(false) && params.rules.Some?
      ensures DuplicateIn(JenkinsOf(config).pushProjects, params).None? ==> out == Threw && emitted == old(emitted)
      ensures out == Returned(false) ==> emitted == old(emitted)
      ensures DuplicateIn(JenkinsOf(config).pushProjects, params) == Some(false) ==>
        emitted == old(emitted) + NewRepoEmits(config, params)
                   + (if params.rules.Some? then [NewPushJob(JobOf(params, params.rules))] else [])
    {
      var duplicate := DuplicateIn(JenkinsOf(config).pushProjects, params);
      if duplicate.None? {
        return Threw;
      }
      if duplicate.value {
        return Returned(false);
      }
      var _ := AddRepo(params);
      if params.rules.None? {
        return Threw;
      }
      emitted := emitted + [NewPushJob(JobOf(params, params.rules))];
      return Returned(true);
    }

    method ReloadConfigs()
      requires Valid()
      modifies this`emitted
      ensures emitted == old(emitted) + Reloads(config)
    {
      emitted := emitted + [JenkinsReload(JenkinsOf(config))];
      emitted := emitted + [GithubReload(GithubOf(config))];
    }

    method RemoveRepoConfigs(repo: string) returns (threw: bool)
      requires Valid()
      modifies this
      ensures Valid()
      ensures var j := JenkinsOf(old(config));
        match (ItemsOf(j.projects), ItemsOf(j.pushProjects))
        case (None, _) => threw && config == old(config) && emitted == old(emitted)
        case (Some(prs), None) =>
          && threw && emitted == old(emitted)
          && config == WithJenkins(old(config), j.(projects := Some(ProjectArray(Without(prs, RepoField, repo)))))
        case (Some(prs), Some(pushes)) =>
          && !threw
          && config == WithRepos(
               WithJenkins(old(config), j.(projects := Some(ProjectArray(Without(prs, RepoField, repo))),
                                           pushProjects := Some(ProjectArray(Without(pushes, RepoField, repo))))),
               SpliceOut(ReposOf(old(config)), repo))
          && emitted == old(emitted) + Reloads(config)
    {
      var j := JenkinsOf(config);
      var prs := ItemsOf(j.projects);
      if prs.None? {
        return true;
      }
      var pushes := ItemsOf(j.pushProjects);
      j := j.(projects := Some(ProjectArray(Without(prs.value, RepoField, repo))));
      config := WithJenkins(config, j);
      if pushes.None? {
        return true;
      }
      j := j.(pushProjects := Some(ProjectArray(Without(pushes.value, RepoField, repo))));
      config := WithJenkins(config, j);
      config := WithRepos(config, SpliceOut(ReposOf(config), repo));
      ReloadConfigs();
      return false;
    }

    method RemovePushProjectConfigs()
      requires Valid()
      modifies this
      ensures Valid()
      ensures config == WithJenkins(old(config), JenkinsOf(old(config)).(pushProjects := Some(ProjectArray([]))))
      ensures emitted == old(emitted) + Reloads(config)
    {
      config := WithJenkins(config, JenkinsOf(config).(pushProjects := Some(ProjectArray([]))));
      ReloadConfigs();
    }

    method RemovePullProjectConfigs()
      requires Valid()
      modifies this
      ensures Valid()
      ensures config == WithJenkins(old(config), JenkinsOf(old(config)).(projects := Some(ProjectArray([]))))
      ensures emitted == old(emitted) + Reloads(config)
    {
      config := WithJenkins(config, JenkinsOf(config).(projects := Some(ProjectArray([]))));
      ReloadConfigs();
    }

    method RemoveProjectConfigs(project: Option<string>) returns (threw: bool)
      requires Valid()
      modifies this
      ensures Valid()
      ensures !Truthy(project) ==>
        var j := JenkinsOf(old(config));
        var pulled := WithJenkins(old(config), j.(projects := Some(ProjectArray([]))));
        && !threw
        && config == WithJenkins(old(config), j.(projects := Some(ProjectArray([])), pushProjects := Some(ProjectArray([]))))
        && emitted == old(emitted) + Reloads(pulled) + Reloads(config)
      ensures Truthy(project) ==>
        var j := JenkinsOf(old(config));
        match (ItemsOf(j.projects), ItemsOf(j.pushProjects))
        case (None, _) => threw && config == old(config) && emitted == old(emitted)
        case (Some(prs), None) =>
          && threw && emitted == old(emitted)
          && config == WithJenkins(old(config), j.(projects := Some(ProjectArray(Without(prs, NameField, project.value)))))
        case (Some(prs), Some(pushes)) =>
          && !threw
          && config == WithJenkins(old(config), j.(projects := Some(ProjectArray(Without(prs, NameField, project.value))),
                                                   pushProjects := Some(ProjectArray(Without(pushes, NameField, project.value)))))
          && emitted == old(emitted) + Reloads(config)
    {
      if !Truthy(project) {
        RemovePullProjectConfigs();
        RemovePushProjectConfigs();
        return false;
      }
      var j := JenkinsOf(config);
      var prs := ItemsOf(j.projects);
      if prs.None? {
        return true;
      }
      var pushes := ItemsOf(j.pushProjects);
      j := j.(projects := Some(ProjectArray(Without(prs.value, NameField, project.value))));
      config := WithJenkins(config, j);
      if pushes.None? {
        return true;
      }
      j := j.(pushProjects := Some(ProjectArray(Without(pushes.value, NameField, project.value))));
      config := WithJenkins(config, j);
      ReloadConfigs();
      return false;
    }
  }

  /** The summary of an application started from `{}`: no CI user, no
      repositories, no token, no projects. */
  method SparseSummary() returns (s: Summary)
    ensures s == Summary(Some(GithubSummary(NoCiUser, [])), Some(JenkinsSummary(false, [], [])))
  {
    var app := new App(EmptyConfig);
    s := app.GetConfig();
    assert SummariesOf([]) == [];
  }
}
