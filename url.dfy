/**
 * Console URL construction: the resolver that maps a service type and an
 * environment to a Google Cloud console page, and its two formatters.
 */
module Url {
  import opened Wrappers
  import opened Config

  const ConsoleBaseUrl := "https://console.cloud.google.com"

  /** The page prefixes; each is followed directly by the project ID. */
  const LogsViewerPage := ConsoleBaseUrl + "/logs/viewer?project="
  const RunPage := ConsoleBaseUrl + "/run?project="
  /** The common start of both GKE pages. */
  const KubernetesPages := ConsoleBaseUrl + "/kubernetes/"
  const GkeWorkloadsPage := KubernetesPages + "workload/overview" + "?inv=1&invt=Ab2VWw&project="
  const GkeClusterListPage := KubernetesPages + "list?project="
  const SpannerPage := ConsoleBaseUrl + "/spanner?project="
  const RegionParameter := "&region="

  /** The service types the resolver has a page for. */
  const SupportedServiceTypes: set<string> := {"logging", "cloudrun", "gke", "spanner"}

  /** Why a URL could not be generated; the Go code returns these as formatted errors. */
  datatype UrlError =
    | MissingProjectId(serviceType: string)
    | UnsupportedServiceType(serviceType: string)

  /** What the browser opener reports; opening itself happens outside the model. */
  datatype OpenOutcome = Opened | OpenFailed(reason: string)

  predicate StartsWith(s: string, prefix: string) {
    |prefix| <= |s| && s[..|prefix|] == prefix
  }

  predicate Contains(s: string, part: string) {
    exists i :: 0 <= i <= |s| && StartsWith(s[i..], part)
  }

  /** A page URL carries the project ID right after its prefix. */
  lemma PageCarriesProject(prefix: string, projectId: string, tail: string)
    ensures var s := prefix + projectId + tail;
      && StartsWith(s, prefix)
      && Contains(s, projectId)
      && forall q :: StartsWith(prefix, q) ==> StartsWith(s, q)
  {
    var s := prefix + projectId + tail;
    assert s[..|prefix|] == prefix;
    assert StartsWith(s[|prefix|..], projectId) by {
      assert s[|prefix|..][..|projectId|] == projectId;
    }
    forall q | StartsWith(prefix, q) ensures StartsWith(s, q) {
      assert s[..|q|] == prefix[..|q|];
    }
  }

  /** A page URL with nothing after the project. */
  lemma PageOfProject(prefix: string, projectId: string)
    ensures var s := prefix + projectId;
      && StartsWith(s, prefix)
      && Contains(s, projectId)
      && forall q :: StartsWith(prefix, q) ==> StartsWith(s, q)
  {
    PageCarriesProject(prefix, projectId, "");
    assert prefix + projectId + "" == prefix + projectId;
  }

  lemma StartsWithJoin(a: string, b: string)
    ensures StartsWith(a + b, a)
  {
    assert (a + b)[..|a|] == a;
  }

  /** Every page lies under the console's base URL, and both GKE pages under its Kubernetes section. */
  lemma PagesUnderConsole()
    ensures StartsWith(LogsViewerPage, ConsoleBaseUrl) && StartsWith(RunPage, ConsoleBaseUrl)
    ensures StartsWith(SpannerPage, ConsoleBaseUrl) && StartsWith(KubernetesPages, ConsoleBaseUrl)
    ensures StartsWith(GkeWorkloadsPage, KubernetesPages) && StartsWith(GkeClusterListPage, KubernetesPages)
    ensures StartsWith(GkeWorkloadsPage, ConsoleBaseUrl) && StartsWith(GkeClusterListPage, ConsoleBaseUrl)
  {
    StartsWithJoin(ConsoleBaseUrl, "/logs/viewer?project=");
    StartsWithJoin(ConsoleBaseUrl, "/run?project=");
    StartsWithJoin(ConsoleBaseUrl, "/spanner?project=");
    StartsWithJoin(ConsoleBaseUrl, "/kubernetes/");
    StartsWithJoin(KubernetesPages, "workload/overview");
    StartsWithJoin(KubernetesPages + "workload/overview", "?inv=1&invt=Ab2VWw&project=");
    assert GkeWorkloadsPage[..|KubernetesPages|] == (KubernetesPages + "workload/overview")[..|KubernetesPages|];
    StartsWithJoin(KubernetesPages, "list?project=");
    assert GkeWorkloadsPage[..|ConsoleBaseUrl|] == KubernetesPages[..|ConsoleBaseUrl|];
    assert GkeClusterListPage[..|ConsoleBaseUrl|] == KubernetesPages[..|ConsoleBaseUrl|];
  }

  /** The Cloud Run page of a project, narrowed to a region. */
  function GenerateCloudRunUrl(projectId: string, region: string): (url: string)
    ensures StartsWith(url, RunPage) && Contains(url, projectId)
  {
    PageCarriesProject(RunPage, projectId, RegionParameter + region);
    RunPage + projectId + (RegionParameter + region)
  }

  /** The GKE workload overview of a project; the cluster is accepted and not used. */
  function GenerateGkeUrl(projectId: string, cluster: string): (url: string)
    ensures StartsWith(url, GkeWorkloadsPage) && Contains(url, projectId)
  {
    PageOfProject(GkeWorkloadsPage, projectId);
    GkeWorkloadsPage + projectId
  }

  /**
   * The console URL of a service type in an environment.  An empty project
   * fails for every service type, before the type is looked at.
   */
  function GenerateServiceUrl(serviceType: string, envConfig: EnvironmentConfig): (r: Result<string, UrlError>)
    ensures envConfig.projectId == "" ==> r == Err(MissingProjectId(serviceType))
    ensures envConfig.projectId != "" && serviceType !in SupportedServiceTypes ==> r == Err(UnsupportedServiceType(serviceType))
    ensures r.Ok? <==> envConfig.projectId != "" && serviceType in SupportedServiceTypes
    ensures r.Ok? ==> StartsWith(r.value, ConsoleBaseUrl) && Contains(r.value, envConfig.projectId)
  {
    var p := envConfig.projectId;
    PagesUnderConsole();
    if p == "" then Err(MissingProjectId(serviceType))
    else if serviceType == "logging" then
      PageOfProject(LogsViewerPage, p);
      Ok(LogsViewerPage + p)
    else if serviceType == "cloudrun" then
      if envConfig.region != "" then Ok(GenerateCloudRunUrl(p, envConfig.region))
      else
        PageOfProject(RunPage, p);
        Ok(RunPage + p)
    else if serviceType == "gke" then
      if envConfig.cluster != "" then Ok(GenerateGkeUrl(p, envConfig.cluster))
      else
        PageOfProject(GkeClusterListPage, p);
        Ok(GkeClusterListPage + p)
    else if serviceType == "spanner" then
      PageOfProject(SpannerPage, p);
      Ok(SpannerPage + p)
    else Err(UnsupportedServiceType(serviceType))
  }

  // The page prefixes spelled out in full, one lemma each to keep the proofs small.

  lemma LogsViewerPageLiteral()
    ensures LogsViewerPage == "https://console.cloud.google.com/logs/viewer?project="
  {
  }

  lemma RunPageLiteral()
    ensures RunPage == "https://console.cloud.google.com/run?project="
  {
  }

  lemma GkeWorkloadsPageLiteral()
    ensures GkeWorkloadsPage == "https://console.cloud.google.com/kubernetes/workload/overview?inv=1&invt=Ab2VWw&project="
  {
    KubernetesPagesLiteral();
    WorkloadOverviewJoin();
    WorkloadOverviewQueryJoin();
  }

  lemma KubernetesPagesLiteral()
    ensures KubernetesPages == "https://console.cloud.google.com/kubernetes/"
  {
  }

  lemma WorkloadOverviewJoin()
    ensures "https://console.cloud.google.com/kubernetes/" + "workload/overview"
         == "https://console.cloud.google.com/kubernetes/workload/overview"
  {
  }

  lemma WorkloadOverviewQueryJoin()
    ensures "https://console.cloud.google.com/kubernetes/workload/overview" + "?inv=1&invt=Ab2VWw&project="
         == "https://console.cloud.google.com/kubernetes/workload/overview?inv=1&invt=Ab2VWw&project="
  {
  }

  lemma GkeClusterListPageLiteral()
    ensures GkeClusterListPage == "https://console.cloud.google.com/kubernetes/list?project="
  {
    assert KubernetesPages == "https://console.cloud.google.com/kubernetes/";
  }

  lemma SpannerPageLiteral()
    ensures SpannerPage == "https://console.cloud.google.com/spanner?project="
  {
  }

  /** The page each service type resolves to, byte for byte, once a project is set. */
  lemma ServiceUrls(serviceType: string, envConfig: EnvironmentConfig)
    requires envConfig.projectId != ""
    ensures var p, r := envConfig.projectId, GenerateServiceUrl(serviceType, envConfig);
      && (serviceType == "logging" ==> r == Ok("https://console.cloud.google.com/logs/viewer?project=" + p))
      && (serviceType == "cloudrun" && envConfig.region != "" ==>
            r == Ok(GenerateCloudRunUrl(p, envConfig.region))
            && r == Ok("https://console.cloud.google.com/run?project=" + p + "&region=" + envConfig.region))
      && (serviceType == "cloudrun" && envConfig.region == "" ==> r == Ok("https://console.cloud.google.com/run?project=" + p))
      && (serviceType == "gke" && envConfig.cluster != "" ==> r == Ok(GenerateGkeUrl(p, envConfig.cluster)))
      && (serviceType == "gke" && envConfig.cluster == "" ==> r == Ok("https://console.cloud.google.com/kubernetes/list?project=" + p))
      && (serviceType == "spanner" ==> r == Ok("https://console.cloud.google.com/spanner?project=" + p))
  {
    var p := envConfig.projectId;
    LogsViewerPageLiteral();
    RunPageLiteral();
    GkeClusterListPageLiteral();
    SpannerPageLiteral();
    assert RunPage + p + (RegionParameter + envConfig.region) == RunPage + p + RegionParameter + envConfig.region;
  }

  /** The GKE page depends on the project only: every cluster gives the same URL. */
  lemma GkeUrlIgnoresCluster(projectId: string, cluster1: string, cluster2: string)
    ensures GenerateGkeUrl(projectId, cluster1) == GenerateGkeUrl(projectId, cluster2)
    ensures GenerateGkeUrl(projectId, cluster1)
         == "https://console.cloud.google.com/kubernetes/workload/overview?inv=1&invt=Ab2VWw&project=" + projectId
  {
    GkeWorkloadsPageLiteral();
  }

  /** The cases of the Go test table for the resolver, with their expected strings. */
  lemma GenerateServiceUrlTestTable()
    ensures GenerateServiceUrl("logging", EnvironmentConfig("test-project", "", ""))
         == Ok("https://console.cloud.google.com/logs/viewer?project=test-project")
    ensures GenerateServiceUrl("cloudrun", EnvironmentConfig("test-project", "us-central1", ""))
         == Ok("https://console.cloud.google.com/run?project=test-project&region=us-central1")
    ensures GenerateServiceUrl("gke", EnvironmentConfig("test-project", "", "test-cluster"))
         == Ok("https://console.cloud.google.com/kubernetes/workload/overview?inv=1&invt=Ab2VWw&project=test-project")
    ensures GenerateServiceUrl("spanner", EnvironmentConfig("test-project", "", ""))
         == Ok("https://console.cloud.google.com/spanner?project=test-project")
    ensures GenerateServiceUrl("unsupported", EnvironmentConfig("test-project", "", "")).Err?
    ensures GenerateServiceUrl("logging", EnvironmentConfig("", "", "")).Err?
  {
    LoggingTestCase();
    CloudRunTestCase();
    GkeTestCase();
    SpannerTestCase();
  }

  // Each test case is split into small steps: the solver handles a long string
  // literal well only when little else is in view.

  lemma LoggingTestCase()
    ensures GenerateServiceUrl("logging", EnvironmentConfig("test-project", "", ""))
         == Ok("https://console.cloud.google.com/logs/viewer?project=test-project")
  {
    ServiceUrls("logging", EnvironmentConfig("test-project", "", ""));
    LoggingTestUrl();
  }

  lemma LoggingTestUrl()
    ensures "https://console.cloud.google.com/logs/viewer?project=" + "test-project"
         == "https://console.cloud.google.com/logs/viewer?project=test-project"
  {
  }

  lemma CloudRunTestCase()
    ensures GenerateServiceUrl("cloudrun", EnvironmentConfig("test-project", "us-central1", ""))
         == Ok("https://console.cloud.google.com/run?project=test-project&region=us-central1")
  {
    CloudRunResolves("test-project", "us-central1");
    CloudRunUrlSpelledOut("test-project", "us-central1");
    CloudRunTestUrl();
  }

  lemma CloudRunResolves(p: string, r: string)
    requires p != "" && r != ""
    ensures GenerateServiceUrl("cloudrun", EnvironmentConfig(p, r, "")) == Ok(GenerateCloudRunUrl(p, r))
  {
  }

  lemma CloudRunTestUrl()
    ensures "https://console.cloud.google.com/run?project=" + "test-project" + "&region=" + "us-central1"
         == "https://console.cloud.google.com/run?project=test-project&region=us-central1"
  {
    CloudRunTestUrlSteps();
  }

  lemma CloudRunTestUrlSteps()
    ensures "https://console.cloud.google.com/run?project=" + "test-project"
         == "https://console.cloud.google.com/run?project=test-project"
    ensures "https://console.cloud.google.com/run?project=test-project" + "&region="
         == "https://console.cloud.google.com/run?project=test-project&region="
    ensures "https://console.cloud.google.com/run?project=test-project&region=" + "us-central1"
         == "https://console.cloud.google.com/run?project=test-project&region=us-central1"
  {
  }

  lemma GkeTestCase()
    ensures GenerateServiceUrl("gke", EnvironmentConfig("test-project", "", "test-cluster"))
         == Ok("https://console.cloud.google.com/kubernetes/workload/overview?inv=1&invt=Ab2VWw&project=test-project")
  {
    GkeResolves("test-project", "test-cluster");
    GkeUrlIgnoresCluster("test-project", "test-cluster", "test-cluster");
    GkeTestUrl();
  }

  lemma GkeResolves(p: string, c: string)
    requires p != "" && c != ""
    ensures GenerateServiceUrl("gke", EnvironmentConfig(p, "", c)) == Ok(GenerateGkeUrl(p, c))
  {
  }

  lemma GkeTestUrl()
    ensures "https://console.cloud.google.com/kubernetes/workload/overview?inv=1&invt=Ab2VWw&project=" + "test-project"
         == "https://console.cloud.google.com/kubernetes/workload/overview?inv=1&invt=Ab2VWw&project=test-project"
  {
  }

  lemma SpannerTestCase()
    ensures GenerateServiceUrl("spanner", EnvironmentConfig("test-project", "", ""))
         == Ok("https://console.cloud.google.com/spanner?project=test-project")
  {
    ServiceUrls("spanner", EnvironmentConfig("test-project", "", ""));
    SpannerTestUrl();
  }

  lemma SpannerTestUrl()
    ensures "https://console.cloud.google.com/spanner?project=" + "test-project"
         == "https://console.cloud.google.com/spanner?project=test-project"
  {
  }

  /** The Cloud Run formatter on the values of its Go test. */
  lemma GenerateCloudRunUrlTestCase()
    ensures GenerateCloudRunUrl("my-project", "asia-east1")
         == "https://console.cloud.google.com/run?project=my-project&region=asia-east1"
  {
    CloudRunUrlSpelledOut("my-project", "asia-east1");
    CloudRunFormatterTestUrl();
  }

  lemma CloudRunFormatterTestUrl()
    ensures "https://console.cloud.google.com/run?project=" + "my-project" + "&region=" + "asia-east1"
         == "https://console.cloud.google.com/run?project=my-project&region=asia-east1"
  {
    CloudRunFormatterTestUrlSteps();
  }

  lemma CloudRunFormatterTestUrlSteps()
    ensures "https://console.cloud.google.com/run?project=" + "my-project"
         == "https://console.cloud.google.com/run?project=my-project"
    ensures "https://console.cloud.google.com/run?project=my-project" + "&region="
         == "https://console.cloud.google.com/run?project=my-project&region="
    ensures "https://console.cloud.google.com/run?project=my-project&region=" + "asia-east1"
         == "https://console.cloud.google.com/run?project=my-project&region=asia-east1"
  {
  }

  /** The Cloud Run formatter's template spelled out. */
  lemma CloudRunUrlSpelledOut(p: string, r: string)
    ensures GenerateCloudRunUrl(p, r) == "https://console.cloud.google.com/run?project=" + p + "&region=" + r
  {
    RunPageLiteral();
    assert RunPage + p + (RegionParameter + r) == RunPage + p + RegionParameter + r;
  }

  /** The GKE formatter on the values of its Go test. */
  lemma GenerateGkeUrlTestCase()
    ensures GenerateGkeUrl("my-project", "my-cluster")
         == "https://console.cloud.google.com/kubernetes/workload/overview?inv=1&invt=Ab2VWw&project=my-project"
  {
    GkeUrlIgnoresCluster("my-project", "my-cluster", "my-cluster");
    GkeFormatterTestUrl();
  }

  lemma GkeFormatterTestUrl()
    ensures "https://console.cloud.google.com/kubernetes/workload/overview?inv=1&invt=Ab2VWw&project=" + "my-project"
         == "https://console.cloud.google.com/kubernetes/workload/overview?inv=1&invt=Ab2VWw&project=my-project"
  {
  }

  // ---- Reading a generated URL back ----

  /** The service type whose page a console URL shows, or "" for none. */
  function ServiceOfUrl(url: string): string {
    if StartsWith(url, LogsViewerPage) then "logging"
    else if StartsWith(url, RunPage) then "cloudrun"
    else if StartsWith(url, KubernetesPages) then "gke"
    else if StartsWith(url, SpannerPage) then "spanner"
    else ""
  }

  /** Two prefixes that differ at some position cannot both start one string. */
  lemma NotBothPrefixes(s: string, p: string, q: string, i: nat)
    requires i < |p| && i < |q| && p[i] != q[i]
    requires StartsWith(s, p)
    ensures !StartsWith(s, q)
  {
    assert s[i] == p[i];
  }

  /** Every generated URL names the page of exactly the service type it was generated for. */
  lemma {:induction false} ServiceOfGeneratedUrl(serviceType: string, envConfig: EnvironmentConfig)
    requires GenerateServiceUrl(serviceType, envConfig).Ok?
    ensures ServiceOfUrl(GenerateServiceUrl(serviceType, envConfig).value) == serviceType
  {
    var url := GenerateServiceUrl(serviceType, envConfig).value;
    var p := envConfig.projectId;
    PagesUnderConsole();
    var b := |ConsoleBaseUrl|;
    var kube := KubernetesPages;
    if serviceType == "logging" {
      PageOfProject(LogsViewerPage, p);
    } else if serviceType == "cloudrun" {
      var tail := if envConfig.region != "" then RegionParameter + envConfig.region else "";
      assert url == RunPage + p + tail;

      PageCarriesProject(RunPage, p, tail);
      NotBothPrefixes(url, RunPage, LogsViewerPage, b + 1);
    } else if serviceType == "gke" {
      var page := if envConfig.cluster != "" then GkeWorkloadsPage else GkeClusterListPage;
      assert url == page + p;
      PageOfProject(page, p);
      PagesUnderConsole();
      NotBothPrefixes(url, page, LogsViewerPage, b + 1);
      NotBothPrefixes(url, page, RunPage, b + 1);
    } else {
      assert serviceType == "spanner";
      PageOfProject(SpannerPage, p);
      NotBothPrefixes(url, SpannerPage, LogsViewerPage, b + 1);
      NotBothPrefixes(url, SpannerPage, RunPage, b + 1);
      NotBothPrefixes(url, SpannerPage, kube, b + 1);
    }
  }

  /** Different service types never share a URL. */
  lemma GeneratedUrlsDistinguishServices(s1: string, e1: EnvironmentConfig, s2: string, e2: EnvironmentConfig)
    requires GenerateServiceUrl(s1, e1).Ok? && GenerateServiceUrl(s2, e2).Ok?
    requires GenerateServiceUrl(s1, e1).value == GenerateServiceUrl(s2, e2).value
    ensures s1 == s2
  {
    ServiceOfGeneratedUrl(s1, e1);
    ServiceOfGeneratedUrl(s2, e2);
  }

  /** Split at the first occurrence of `c`, if there is one. */
  function SplitAtFirst(s: string, c: char): Option<(string, string)>
    decreases |s|
  {
    if s == [] then None
    else if s[0] == c then Some(([], s[1..]))
    else
      match SplitAtFirst(s[1..], c)
      case None => None
      case Some(parts) => Some(([s[0]] + parts.0, parts.1))
  }

  lemma {:induction false} SplitAtFirstJoined(before: string, c: char, after: string)
    requires c !in before
    ensures SplitAtFirst(before + [c] + after, c) == Some((before, after))
    decreases |before|
  {
    var s := before + [c] + after;
    if before != [] {
      assert s[1..] == before[1..] + [c] + after;
      SplitAtFirstJoined(before[1..], c, after);
      assert [before[0]] + before[1..] == before;
    } else {
      assert s[1..] == after;
    }
  }

  /** The project and region of a Cloud Run page URL. */
  function ParseCloudRunUrl(url: string): Option<(string, string)> {
    if !StartsWith(url, RunPage) then None
    else
      match SplitAtFirst(url[|RunPage|..], '&')
      case None => None
      case Some(parts) =>
        if StartsWith(parts.1, "region=") then Some((parts.0, parts.1[|"region="|..])) else None
  }

  /** A Cloud Run URL gives back its project and region, when the project holds no `&`. */
  lemma CloudRunUrlRoundTrip(projectId: string, region: string)
    requires '&' !in projectId
    ensures ParseCloudRunUrl(GenerateCloudRunUrl(projectId, region)) == Some((projectId, region))
  {
    var url := GenerateCloudRunUrl(projectId, region);
    assert url[|RunPage|..] == projectId + ['&'] + ("region=" + region);
    SplitAtFirstJoined(projectId, '&', "region=" + region);
    assert ("region=" + region)[|"region="|..] == region;
  }

  /** The project of a GKE workloads URL. */
  function ParseGkeUrl(url: string): Option<string> {
    if StartsWith(url, GkeWorkloadsPage) then Some(url[|GkeWorkloadsPage|..]) else None
  }

  /** A GKE URL gives back its project, and nothing of the cluster. */
  lemma GkeUrlRoundTrip(projectId: string, cluster: string)
    ensures ParseGkeUrl(GenerateGkeUrl(projectId, cluster)) == Some(projectId)
  {
  }
}
