/**
 * The command line front-end: `gcp-launch <service> <environment> [context_arg]`
 * resolves the pair through a fixed chain of lookups and checks, opens the
 * URL, and offers shell completion for the first two arguments.  The
 * package-level configuration pointer is an explicit parameter here.
 */
module Cmd {
  import opened Wrappers
  import opened Config
  import opened Keys
  import Url
  import Tui

  /** The errors `executeLaunch` returns, one per early return. */
  datatype LaunchError =
    | ServiceNotFound(service: string)
    | EnvironmentNotFound(environment: string, service: string)
    | ProjectIdMissing(service: string, environment: string)
    | RegionMissing(service: string, environment: string)
    | ClusterMissing(service: string, environment: string)
    | GenerationFailed(cause: Url.UrlError)

  /** A launch that returned nil: the URL, and the reason the browser did not open it, if any. */
  datatype Launched = Launched(url: string, openWarning: Option<string>)

  /** What the resolution chain decides for one environment entry, in the order it checks. */
  function ResolveEntry(service: string, environment: string, envConf: EnvironmentConfig): (r: Result<string, LaunchError>)
    ensures r.Ok? <==>
      && envConf.projectId != ""
      && (service == "cloudrun" ==> envConf.region != "")
      && (service == "gke" ==> envConf.cluster != "")
      && service in Url.SupportedServiceTypes
    ensures r.Ok? ==> Url.StartsWith(r.value, Url.ConsoleBaseUrl) && Url.Contains(r.value, envConf.projectId)
    ensures envConf.projectId == "" ==> r == Err(ProjectIdMissing(service, environment))
    ensures envConf.projectId != "" && service == "cloudrun" && envConf.region == "" ==>
      r == Err(RegionMissing(service, environment))
    ensures envConf.projectId != "" && service == "gke" && envConf.cluster == "" ==>
      r == Err(ClusterMissing(service, environment))
    ensures envConf.projectId != "" && service != "cloudrun" && service != "gke" && r.Err? ==>
      r.error == GenerationFailed(Url.GenerateServiceUrl(service, envConf).error)
  {
    if envConf.projectId == "" then Err(ProjectIdMissing(service, environment))
    else if service == "cloudrun" then
      if envConf.region == "" then Err(RegionMissing(service, environment))
      else
        Url.PagesUnderConsole();
        Ok(Url.GenerateCloudRunUrl(envConf.projectId, envConf.region))
    else if service == "gke" then
      if envConf.cluster == "" then Err(ClusterMissing(service, environment))
      else
        Url.PagesUnderConsole();
        Ok(Url.GenerateGkeUrl(envConf.projectId, envConf.cluster))
    else
      match Url.GenerateServiceUrl(service, envConf)
      case Err(e) => Err(GenerationFailed(e))
      case Ok(u) => Ok(u)
  }

  /** The URL `executeLaunch` opens for a service and environment, or the error it returns. */
  function ResolveLaunchUrl(cfg: Config, service: string, environment: string): (r: Result<string, LaunchError>)
    ensures service !in cfg ==> r == Err(ServiceNotFound(service))
    ensures service in cfg && environment !in cfg[service] ==> r == Err(EnvironmentNotFound(environment, service))
    ensures service in cfg && environment in cfg[service] ==> r == ResolveEntry(service, environment, cfg[service][environment])
    ensures r.Ok? ==> service in cfg && environment in cfg[service]
  {
    if service !in cfg then Err(ServiceNotFound(service))
    else if environment !in cfg[service] then Err(EnvironmentNotFound(environment, service))
    else ResolveEntry(service, environment, cfg[service][environment])
  }

  /**
   * `executeLaunch`: resolve the first two arguments (a third is accepted
   * and ignored), then open the URL.  A browser failure is only a warning.
   */
  function ExecuteLaunch(cfg: Config, args: seq<string>, openUrl: string -> Url.OpenOutcome): (r: Result<Launched, LaunchError>)
    requires 2 <= |args| <= 3
    ensures r.Err? <==> ResolveLaunchUrl(cfg, args[0], args[1]).Err?
    ensures r.Err? ==> r.error == ResolveLaunchUrl(cfg, args[0], args[1]).error
    ensures r.Ok? ==>
      && r.value.url == ResolveLaunchUrl(cfg, args[0], args[1]).value
      && (r.value.openWarning.Some? <==> openUrl(r.value.url).OpenFailed?)
      && (r.value.openWarning.Some? ==> r.value.openWarning.value == openUrl(r.value.url).reason)
  {
    match ResolveLaunchUrl(cfg, args[0], args[1])
    case Err(e) => Err(e)
    case Ok(u) =>
      match openUrl(u)
      case Opened => Ok(Launched(u, None))
      case OpenFailed(reason) => Ok(Launched(u, Some(reason)))
  }

  // ---- Properties of the dispatcher ----

  /**
   * The checks come in a fixed order: the service lookup, the environment
   * lookup, the project ID, then the per-service settings; a launch that
   * fails reports the first check it fails, and never an open failure.
   */
  lemma LaunchChecksInOrder(cfg: Config, args: seq<string>, openUrl: string -> Url.OpenOutcome)
    requires 2 <= |args| <= 3
    ensures var s, e, r := args[0], args[1], ExecuteLaunch(cfg, args, openUrl);
      && (s !in cfg ==> r == Err(ServiceNotFound(s)))
      && (s in cfg && e !in cfg[s] ==> r == Err(EnvironmentNotFound(e, s)))
      && (s in cfg && e in cfg[s] && cfg[s][e].projectId == "" ==> r == Err(ProjectIdMissing(s, e)))
      && (s in cfg && e in cfg[s] && cfg[s][e].projectId != "" && s == "cloudrun" && cfg[s][e].region == "" ==>
            r == Err(RegionMissing(s, e)))
      && (s in cfg && e in cfg[s] && cfg[s][e].projectId != "" && s == "gke" && cfg[s][e].cluster == "" ==>
            r == Err(ClusterMissing(s, e)))
      && (r.Err? ==> !r.error.GenerationFailed? || (s != "cloudrun" && s != "gke"))
  {
  }

  /** Exactly the configured, complete, supported entries launch, whatever the browser does. */
  lemma LaunchSucceedsExactly(cfg: Config, args: seq<string>, openUrl: string -> Url.OpenOutcome)
    requires 2 <= |args| <= 3
    ensures var s, e := args[0], args[1];
      ExecuteLaunch(cfg, args, openUrl).Ok? <==>
        && s in cfg && e in cfg[s]
        && cfg[s][e].projectId != ""
        && (s == "cloudrun" ==> cfg[s][e].region != "")
        && (s == "gke" ==> cfg[s][e].cluster != "")
        && s in Url.SupportedServiceTypes
    ensures ExecuteLaunch(cfg, args, openUrl).Ok? ==>
      && ExecuteLaunch(cfg, args, (u: string) => Url.OpenFailed("")).Ok?
      && ExecuteLaunch(cfg, args, (u: string) => Url.OpenFailed("")).value.url == ExecuteLaunch(cfg, args, openUrl).value.url
  {
  }

  /** The optional third argument changes nothing. */
  lemma ContextArgumentIgnored(cfg: Config, service: string, environment: string, context: string, openUrl: string -> Url.OpenOutcome)
    ensures ExecuteLaunch(cfg, [service, environment, context], openUrl) == ExecuteLaunch(cfg, [service, environment], openUrl)
  {
  }

  /**
   * Where the dispatcher succeeds, the general resolver gives the same URL;
   * the resolver also succeeds on Cloud Run without a region and GKE without
   * a cluster, which the dispatcher rejects.
   */
  lemma DispatcherRefinesResolver(service: string, environment: string, envConf: EnvironmentConfig)
    ensures ResolveEntry(service, environment, envConf).Ok? ==>
      Url.GenerateServiceUrl(service, envConf) == Ok(ResolveEntry(service, environment, envConf).value)
    ensures Url.GenerateServiceUrl(service, envConf).Ok? ==>
      (ResolveEntry(service, environment, envConf).Ok? <==>
        !(service == "cloudrun" && envConf.region == "") && !(service == "gke" && envConf.cluster == ""))
  {
    if ResolveEntry(service, environment, envConf).Ok? {
      if service == "cloudrun" {
        Url.CloudRunResolves(envConf.projectId, envConf.region);
        assert Url.GenerateServiceUrl(service, envConf) == Url.GenerateServiceUrl("cloudrun", EnvironmentConfig(envConf.projectId, envConf.region, ""));
      } else if service == "gke" {
        Url.GkeResolves(envConf.projectId, envConf.cluster);
        assert Url.GenerateServiceUrl(service, envConf) == Url.GenerateServiceUrl("gke", EnvironmentConfig(envConf.projectId, "", envConf.cluster));
      }
    }
  }

  /** A GKE workloads URL never starts like the cluster list page. */
  lemma WorkloadsPageIsNotClusterList(url: string)
    requires Url.StartsWith(url, Url.GkeWorkloadsPage)
    ensures !Url.StartsWith(url, Url.GkeClusterListPage)
  {
    var k := |Url.KubernetesPages|;
    assert Url.GkeWorkloadsPage[k] == 'w';
    assert Url.GkeClusterListPage[k] == 'l';
    Url.NotBothPrefixes(url, Url.GkeWorkloadsPage, Url.GkeClusterListPage, k);
  }

  /**
   * The resolver's two fallbacks, the bare Cloud Run page and the GKE cluster
   * list, are never what the dispatcher opens.
   */
  lemma DispatcherAvoidsFallbacks(service: string, environment: string, envConf: EnvironmentConfig)
    ensures ResolveEntry(service, environment, envConf).Ok? ==>
      var u := ResolveEntry(service, environment, envConf).value;
      && u != Url.RunPage + envConf.projectId
      && !Url.StartsWith(u, Url.GkeClusterListPage)
  {
    var r := ResolveEntry(service, environment, envConf);
    if r.Ok? {
      var p := envConf.projectId;
      if service == "cloudrun" {
        assert |r.value| == |Url.RunPage + p| + |Url.RegionParameter + envConf.region|;
        Url.NotBothPrefixes(r.value, Url.RunPage, Url.GkeClusterListPage, |Url.ConsoleBaseUrl| + 1);
      } else if service == "gke" {
        WorkloadsPageIsNotClusterList(r.value);
      } else {
        OtherPagesAvoidFallbacks(service, envConf);
      }
    }
  }

  /** The logging and Spanner pages start like neither fallback. */
  lemma OtherPagesAvoidFallbacks(service: string, envConf: EnvironmentConfig)
    requires service in {"logging", "spanner"} && envConf.projectId != ""
    ensures var u := Url.GenerateServiceUrl(service, envConf);
      && u.Ok?
      && u.value != Url.RunPage + envConf.projectId
      && !Url.StartsWith(u.value, Url.GkeClusterListPage)
  {
    var p := envConf.projectId;
    var page := if service == "logging" then Url.LogsViewerPage else Url.SpannerPage;
    assert Url.GenerateServiceUrl(service, envConf) == Ok(page + p);
    PageAvoidsFallbacks(page, p);
  }

  /** A page that differs from both fallbacks just after the console base URL avoids them. */
  lemma PageAvoidsFallbacks(page: string, p: string)
    requires page in {Url.LogsViewerPage, Url.SpannerPage}
    ensures page + p != Url.RunPage + p && !Url.StartsWith(page + p, Url.GkeClusterListPage)
  {
    var b := |Url.ConsoleBaseUrl|;
    Url.PageOfProject(page, p);
    Url.StartsWithJoin(Url.RunPage, p);
    Url.NotBothPrefixes(page + p, page, Url.RunPage, b + 1);
    Url.NotBothPrefixes(page + p, page, Url.GkeClusterListPage, b + 1);
  }

  /** Nor are they what the selector opens. */
  lemma SelectorAvoidsFallbacks(service: string, environment: string, envConf: EnvironmentConfig)
    ensures Tui.ResolveSelection(service, environment, envConf).Ok? ==>
      var u := Tui.ResolveSelection(service, environment, envConf).value;
      && u != Url.RunPage + envConf.projectId
      && !Url.StartsWith(u, Url.GkeClusterListPage)
  {
    FrontEndsAgree(service, environment, envConf);
    DispatcherAvoidsFallbacks(service, environment, envConf);
  }

  /**
   * The selector's environment-enter branch and the dispatcher accept the
   * same entries and produce the same URL; they reject an incomplete Cloud
   * Run or GKE entry alike, under their own error names.
   */
  lemma FrontEndsAgree(service: string, environment: string, envConf: EnvironmentConfig)
    ensures Tui.ResolveSelection(service, environment, envConf).Ok? <==> ResolveEntry(service, environment, envConf).Ok?
    ensures ResolveEntry(service, environment, envConf).Ok? ==>
      Tui.ResolveSelection(service, environment, envConf).value == ResolveEntry(service, environment, envConf).value
    ensures service == "cloudrun" && ResolveEntry(service, environment, envConf).Err? ==>
      Tui.ResolveSelection(service, environment, envConf) == Err(Tui.CloudRunSettingsMissing(service, environment))
    ensures service == "gke" && ResolveEntry(service, environment, envConf).Err? ==>
      Tui.ResolveSelection(service, environment, envConf) == Err(Tui.GkeSettingsMissing(service, environment))
  {
  }

  /**
   * End to end: with the selector on an environment of `m`'s configuration,
   * enter records a URL exactly when the command line launch of the same
   * pair succeeds, the same URL, and an open failure is an error on the
   * selector but only a warning on the command line.
   */
  lemma SelectorAndCommandLineAgree(m: Tui.Model, context: seq<string>, openUrl: string -> Url.OpenOutcome)
    requires Tui.Valid(m) && m.state == Tui.SelectEnvironment && |m.environmentKeys| > 0
    requires m.finalUrl == "" && m.finalError == None && |context| <= 1
    ensures Tui.ConfigPresentWhenListed(m) && m.cfg.Some?
    ensures var t := Tui.Update(m, Tui.KeyMsg("enter"), openUrl);
      var r := ExecuteLaunch(m.cfg.value, [m.selectedService, m.environmentKeys[m.environmentCursor]] + context, openUrl);
      && t.quit
      && (r.Ok? <==> Tui.GetFinalUrl(t.next) != "")
      && (r.Ok? ==> r.value.url == Tui.GetFinalUrl(t.next))
      && (r.Ok? ==> (r.value.openWarning.Some? <==> Tui.GetFinalError(t.next).Some?))
  {
    Tui.EnterEnvironmentOutcome(m, openUrl);
    var service, env := m.selectedService, m.environmentKeys[m.environmentCursor];
    var envConf := m.cfg.value[service][env];
    FrontEndsAgree(service, env, envConf);
    var args := [service, env] + context;
    assert args[0] == service && args[1] == env;
    var r := Tui.ResolveSelection(service, env, envConf);
    if r.Ok? {
      assert |r.value| >= |Url.ConsoleBaseUrl| > 0;
    }
  }

  // ---- Completion ----

  /** Cobra's shell completion directives that `contextualArgCompletion` returns. */
  datatype Directive = ShellCompDirectiveError | ShellCompDirectiveNoFileComp | ShellCompDirectiveDefault

  /**
   * `contextualArgCompletion`: the sorted service types for the first
   * argument, the sorted environments of the typed service for the second,
   * nothing after that.  `toComplete` is not consulted.
   */
  method ContextualArgCompletion(cfg: Option<Config>, args: seq<string>, toComplete: string)
    returns (completions: seq<string>, directive: Directive)
    ensures cfg.None? ==> completions == [] && directive == ShellCompDirectiveError
    ensures cfg.Some? && |args| == 0 ==>
      && completions == SortedKeys(cfg.value.Keys)
      && StrictlySorted(completions)
      && (forall k :: k in completions <==> k in cfg.value)
      && directive == ShellCompDirectiveNoFileComp
    ensures cfg.Some? && |args| == 1 ==>
      && completions == (if args[0] in cfg.value then SortedKeys(cfg.value[args[0]].Keys) else [])
      && StrictlySorted(completions)
      && (forall k :: k in completions <==> args[0] in cfg.value && k in cfg.value[args[0]])
      && directive == ShellCompDirectiveNoFileComp
    ensures cfg.Some? && |args| >= 2 ==> completions == [] && directive == ShellCompDirectiveDefault
  {
    if cfg.None? {
      return [], ShellCompDirectiveError;
    }
    var services := cfg.value;
    if |args| == 0 {
      completions := CollectSortedKeys(services);
      directive := ShellCompDirectiveNoFileComp;
    } else if |args| == 1 {
      var serviceName := args[0];
      if serviceName !in services {
        return [], ShellCompDirectiveNoFileComp;
      }
      completions := CollectSortedKeys(services[serviceName]);
      directive := ShellCompDirectiveNoFileComp;
    } else {
      completions, directive := [], ShellCompDirectiveDefault;
    }
  }
}
