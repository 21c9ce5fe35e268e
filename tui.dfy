/**
 * The interactive selector: a two-stage menu (service type, then
 * environment) whose transition function resolves the chosen pair to a
 * console URL.  The Go model is a value: `Update` copies it, changes some
 * fields and returns the copy together with a command, which is either
 * nothing or `tea.Quit`.
 */
module Tui {
  import opened Wrappers
  import opened Config
  import opened Keys
  import Url

  datatype State = SelectService | SelectEnvironment

  /** The errors the selector records in `finalError`. */
  datatype TuiError =
    | ConfigEntryMissing(service: string, environment: string)
    | CloudRunSettingsMissing(service: string, environment: string)
    | GkeSettingsMissing(service: string, environment: string)
    | GenerationFailed(cause: Url.UrlError)
    | BrowserOpenFailed(reason: string)

  /** `cfg` is the `*config.Config` pointer: `None` when it is nil. */
  datatype Model = Model(
    cfg: Option<Config>,
    state: State,
    serviceKeys: seq<string>,
    serviceCursor: int,
    selectedService: string,
    environmentKeys: seq<string>,
    environmentCursor: int,
    finalUrl: string,
    finalError: Option<TuiError>)

  /** A message from the terminal: a key press by its name, or anything else (including nil). */
  datatype Msg = KeyMsg(key: string) | OtherMsg

  /** The model `Update` returns, and whether its command is `tea.Quit`. */
  datatype Transition = Transition(next: Model, quit: bool)

  /** The services of a possibly nil configuration. */
  function Services(cfg: Option<Config>): Config {
    if cfg.Some? then cfg.value else map[]
  }

  /** The environments of a service, none when the service is unknown. */
  function EnvironmentsOf(cfg: Config, service: string): ServiceTypeConfig {
    if service in cfg then cfg[service] else map[]
  }

  /** A cursor within a list of `n` entries, or at 0 when the list is empty. */
  predicate CursorInRange(cursor: int, n: nat) {
    0 <= cursor && (cursor < n || cursor == 0)
  }

  /**
   * Both enter keys dereference `m.cfg` once the list under the cursor is
   * non-empty, which would fault on a nil pointer; a model built from a nil
   * configuration has both lists empty.
   */
  predicate ConfigPresentWhenListed(m: Model) {
    m.cfg.None? ==> m.serviceKeys == [] && m.environmentKeys == []
  }

  /**
   * A recorded URL is a console page, and an open failure is only ever
   * recorded together with the URL that failed to open.
   */
  predicate OutcomeConsistent(m: Model) {
    && (m.finalUrl == "" || Url.StartsWith(m.finalUrl, Url.ConsoleBaseUrl))
    && (m.finalError.Some? && m.finalError.value.BrowserOpenFailed? ==> m.finalUrl != "")
  }

  /** The invariant of every model `NewModel` builds and `Update` reaches. */
  ghost predicate Valid(m: Model) {
    && m.serviceKeys == SortedKeys(Services(m.cfg).Keys)
    && CursorInRange(m.serviceCursor, |m.serviceKeys|)
    && CursorInRange(m.environmentCursor, |m.environmentKeys|)
    && (m.state == SelectService ==>
          m.selectedService == "" && m.environmentKeys == [] && m.environmentCursor == 0)
    && (m.state == SelectEnvironment ==>
          && m.selectedService in Services(m.cfg)
          && m.environmentKeys == SortedKeys(Services(m.cfg)[m.selectedService].Keys))
    && OutcomeConsistent(m)
  }

  lemma ValidHasConfigWhenListed(m: Model)
    requires Valid(m)
    ensures ConfigPresentWhenListed(m)
  {
  }

  /** The initial model: the sorted service types, nothing selected, nothing resolved. */
  method NewModel(cfg: Option<Config>) returns (m: Model)
    ensures Valid(m)
    ensures StrictlySorted(m.serviceKeys) && forall k :: k in m.serviceKeys <==> k in Services(cfg)
    ensures m.cfg == cfg && m.state == SelectService
    ensures m.serviceCursor == 0 && m.environmentCursor == 0
    ensures m.selectedService == "" && m.environmentKeys == []
    ensures m.finalUrl == "" && m.finalError == None
  {
    var keys: seq<string> := [];
    if cfg.Some? {
      keys := CollectSortedKeys(cfg.value);
    }
    m := Model(cfg, SelectService, keys, 0, "", [], 0, "", None);
  }

  /**
   * The URL for a chosen service and environment, with the selector's own
   * handling of `cloudrun` and `gke`; other services go to the resolver.
   */
  function ResolveSelection(service: string, environment: string, envConf: EnvironmentConfig): (r: Result<string, TuiError>)
    ensures r.Ok? <==>
      && envConf.projectId != ""
      && (service == "cloudrun" ==> envConf.region != "")
      && (service == "gke" ==> envConf.cluster != "")
      && service in Url.SupportedServiceTypes
    ensures r.Ok? ==> Url.StartsWith(r.value, Url.ConsoleBaseUrl) && Url.Contains(r.value, envConf.projectId)
    ensures service == "cloudrun" && (envConf.projectId == "" || envConf.region == "") ==>
      r == Err(CloudRunSettingsMissing(service, environment))
    ensures service == "gke" && (envConf.projectId == "" || envConf.cluster == "") ==>
      r == Err(GkeSettingsMissing(service, environment))
    ensures service != "cloudrun" && service != "gke" && r.Err? ==>
      r.error == GenerationFailed(Url.GenerateServiceUrl(service, envConf).error)
  {
    if service == "cloudrun" then
      if envConf.projectId == "" || envConf.region == "" then Err(CloudRunSettingsMissing(service, environment))
      else
        Url.PagesUnderConsole();
        Ok(Url.GenerateCloudRunUrl(envConf.projectId, envConf.region))
    else if service == "gke" then
      if envConf.projectId == "" || envConf.cluster == "" then Err(GkeSettingsMissing(service, environment))
      else
        Url.PagesUnderConsole();
        Ok(Url.GenerateGkeUrl(envConf.projectId, envConf.cluster))
    else
      match Url.GenerateServiceUrl(service, envConf)
      case Err(e) => Err(GenerationFailed(e))
      case Ok(u) => Ok(u)
  }

  /** Enter on the environment list: look the pair up, resolve it, open it, and quit. */
  function EnterEnvironment(m: Model, openUrl: string -> Url.OpenOutcome): (t: Transition)
    requires m.cfg.Some? && 0 <= m.environmentCursor < |m.environmentKeys|
    ensures t.quit && t.next == m.(finalUrl := t.next.finalUrl, finalError := t.next.finalError)
    ensures t.next.finalUrl != m.finalUrl ==> Url.StartsWith(t.next.finalUrl, Url.ConsoleBaseUrl)
    ensures t.next.finalError != m.finalError && t.next.finalError.Some? && t.next.finalError.value.BrowserOpenFailed? ==>
      Url.StartsWith(t.next.finalUrl, Url.ConsoleBaseUrl)
  {
    var selectedEnv := m.environmentKeys[m.environmentCursor];
    var services := m.cfg.value;
    if !(m.selectedService in services && selectedEnv in services[m.selectedService]) then
      Transition(m.(finalError := Some(ConfigEntryMissing(m.selectedService, selectedEnv))), true)
    else
      match ResolveSelection(m.selectedService, selectedEnv, services[m.selectedService][selectedEnv])
      case Err(e) => Transition(m.(finalError := Some(e)), true)
      case Ok(u) =>
        var withUrl := m.(finalUrl := u);
        match openUrl(u)
        case Opened => Transition(withUrl, true)
        case OpenFailed(reason) => Transition(withUrl.(finalError := Some(BrowserOpenFailed(reason))), true)
  }

  /** What a key press does, by the key names the selector reacts to. */
  datatype KeyAction = QuitKey | UpKey | DownKey | EnterKey | BackKey | OtherKey

  function ActionOf(key: string): (a: KeyAction)
    ensures a == QuitKey <==> key in {"ctrl+c", "q"}
    ensures a == UpKey <==> key in {"up", "k"}
    ensures a == DownKey <==> key in {"down", "j"}
    ensures a == EnterKey <==> key == "enter"
    ensures a == BackKey <==> key in {"esc", "backspace"}
    ensures a == OtherKey <==> key !in {"ctrl+c", "q", "up", "k", "down", "j", "enter", "esc", "backspace"}
  {
    if key == "ctrl+c" || key == "q" then QuitKey
    else if key == "up" || key == "k" then UpKey
    else if key == "down" || key == "j" then DownKey
    else if key == "enter" then EnterKey
    else if key == "esc" || key == "backspace" then BackKey
    else OtherKey
  }

  /** The transition function of the selector. */
  function Update(m: Model, msg: Msg, openUrl: string -> Url.OpenOutcome): (t: Transition)
    requires ConfigPresentWhenListed(m)
    ensures t.next.cfg == m.cfg && t.next.serviceKeys == m.serviceKeys
    ensures t.next.finalUrl != m.finalUrl ==> Url.StartsWith(t.next.finalUrl, Url.ConsoleBaseUrl)
    ensures t.quit ==> msg.KeyMsg? && (msg.key in {"ctrl+c", "q"} || (msg.key == "enter" && m.state == SelectEnvironment))
    ensures !t.quit ==> t.next.finalUrl == m.finalUrl && t.next.finalError == m.finalError
  {
    match msg
    case OtherMsg => Transition(m, false)
    case KeyMsg(key) =>
      var action := ActionOf(key);
      if action == QuitKey then Transition(m, true)
      else match m.state
        case SelectService => ServiceScreenKey(m, action)
        case SelectEnvironment => EnvironmentScreenKey(m, action, openUrl)
  }

  /** A key other than quit on the service list. */
  function ServiceScreenKey(m: Model, action: KeyAction): (t: Transition)
    requires ConfigPresentWhenListed(m)
    ensures !t.quit && t.next.cfg == m.cfg && t.next.serviceKeys == m.serviceKeys
    ensures t.next.finalUrl == m.finalUrl && t.next.finalError == m.finalError
  {
    match action
    case UpKey =>
      Transition(if |m.serviceKeys| > 0 && m.serviceCursor > 0
                 then m.(serviceCursor := m.serviceCursor - 1) else m, false)
    case DownKey =>
      Transition(if |m.serviceKeys| > 0 && m.serviceCursor < |m.serviceKeys| - 1
                 then m.(serviceCursor := m.serviceCursor + 1) else m, false)
    case EnterKey =>
      if |m.serviceKeys| > 0 && m.serviceCursor >= 0 && m.serviceCursor < |m.serviceKeys| then
        var service := m.serviceKeys[m.serviceCursor];
        Transition(m.(selectedService := service,
                      environmentKeys := SortedKeys(EnvironmentsOf(m.cfg.value, service).Keys),
                      environmentCursor := 0,
                      state := SelectEnvironment), false)
      else Transition(m, false)
    case _ => Transition(m, false)
  }

  /** A key other than quit on the environment list. */
  function EnvironmentScreenKey(m: Model, action: KeyAction, openUrl: string -> Url.OpenOutcome): (t: Transition)
    requires ConfigPresentWhenListed(m)
    ensures t.next.cfg == m.cfg && t.next.serviceKeys == m.serviceKeys
    ensures t.next.finalUrl != m.finalUrl ==> Url.StartsWith(t.next.finalUrl, Url.ConsoleBaseUrl)
    ensures t.quit ==> action == EnterKey
    ensures !t.quit ==> t.next.finalUrl == m.finalUrl && t.next.finalError == m.finalError
  {
    match action
    case UpKey =>
      Transition(if |m.environmentKeys| > 0 && m.environmentCursor > 0
                 then m.(environmentCursor := m.environmentCursor - 1) else m, false)
    case DownKey =>
      Transition(if |m.environmentKeys| > 0 && m.environmentCursor < |m.environmentKeys| - 1
                 then m.(environmentCursor := m.environmentCursor + 1) else m, false)
    case EnterKey =>
      if |m.environmentKeys| > 0 && m.environmentCursor >= 0 && m.environmentCursor < |m.environmentKeys| then
        var t := EnterEnvironment(m, openUrl);
        Url.PagesUnderConsole();
        t
      else Transition(m, false)
    case BackKey =>
      Transition(m.(state := SelectService, selectedService := "",
                    environmentKeys := [], environmentCursor := 0), false)
    case _ => Transition(m, false)
  }

  /** The outcome the program reports after the selector quits. */
  function GetFinalUrl(m: Model): (url: string)
    ensures Valid(m) ==> url == "" || Url.StartsWith(url, Url.ConsoleBaseUrl)
  {
    m.finalUrl
  }

  function GetFinalError(m: Model): (e: Option<TuiError>)
    ensures Valid(m) && e.Some? && e.value.BrowserOpenFailed? ==> GetFinalUrl(m) != ""
  {
    m.finalError
  }

  // ---- Rendering ----

  const ServiceHeader := "Select a Service Type (Use \U{2191}/\U{2193} arrows, Enter to select, q to quit):\n\n"
  const NoServicesLine := "No services defined in the configuration file.\n"
  const QuitHint := "\n(Press 'q' to quit)\n"

  function EnvironmentHeader(service: string): string {
    "Select Environment for '" + service + "' (Use \U{2191}/\U{2193}, Enter to open, Esc/Backspace back, q to quit):\n\n"
  }

  function NoEnvironmentsLine(service: string): string {
    "No environments defined for service '" + service + "'.\n"
  }

  function CursorIndicator(atCursor: bool): string {
    if atCursor then "> " else "  "
  }

  /** One line per key, in order, the line at the cursor marked. */
  function ListLines(keys: seq<string>, cursor: int): (lines: seq<string>)
    ensures |lines| == |keys|
    ensures forall i :: 0 <= i < |keys| ==> lines[i] == CursorIndicator(i == cursor) + keys[i] + "\n"
    decreases |keys|
  {
    if keys == [] then []
    else
      var last := |keys| - 1;
      ListLines(keys[..last], cursor) + [CursorIndicator(last == cursor) + keys[last] + "\n"]
  }

  function Concat(lines: seq<string>): string
    decreases |lines|
  {
    if lines == [] then "" else lines[0] + Concat(lines[1..])
  }

  /** The body of a list screen: its lines, or the "No ..." line when there are none. */
  function ListBlock(keys: seq<string>, cursor: int, emptyLine: string): string {
    if |keys| == 0 then emptyLine else Concat(ListLines(keys, cursor))
  }

  /** The list on screen and its cursor. */
  function ActiveKeys(m: Model): seq<string> {
    if m.state == SelectService then m.serviceKeys else m.environmentKeys
  }

  function ActiveCursor(m: Model): int {
    if m.state == SelectService then m.serviceCursor else m.environmentCursor
  }

  function Header(m: Model): string {
    match m.state
    case SelectService => ServiceHeader
    case SelectEnvironment => EnvironmentHeader(m.selectedService)
  }

  predicate EndsWith(s: string, suffix: string) {
    |suffix| <= |s| && s[|s| - |suffix|..] == suffix
  }

  /** The screen for a model: header, list block, and the quit hint. */
  function View(m: Model): (text: string)
    ensures Url.StartsWith(text, Header(m)) && EndsWith(text, QuitHint)
  {
    var block := match m.state
      case SelectService => ListBlock(m.serviceKeys, m.serviceCursor, NoServicesLine)
      case SelectEnvironment => ListBlock(m.environmentKeys, m.environmentCursor, NoEnvironmentsLine(m.selectedService));
    var text := Header(m) + block + QuitHint;
    assert text[..|Header(m)|] == Header(m);
    assert text[|text| - |QuitHint|..] == QuitHint;
    text
  }

  // ---- Properties of the transition function ----

  /** Every transition keeps the model invariant. */
  lemma UpdatePreservesValid(m: Model, msg: Msg, openUrl: string -> Url.OpenOutcome)
    requires Valid(m)
    ensures ConfigPresentWhenListed(m) && Valid(Update(m, msg, openUrl).next)
  {
    if msg.KeyMsg? && ActionOf(msg.key) != QuitKey {
      if m.state == SelectService {
        ServiceScreenKeyPreservesValid(m, ActionOf(msg.key));
      } else {
        EnvironmentScreenKeyPreservesValid(m, ActionOf(msg.key), openUrl);
      }
    }
  }

  lemma ServiceScreenKeyPreservesValid(m: Model, action: KeyAction)
    requires Valid(m) && m.state == SelectService
    ensures ConfigPresentWhenListed(m) && Valid(ServiceScreenKey(m, action).next)
  {
    var next := ServiceScreenKey(m, action).next;
    if action == EnterKey && |m.serviceKeys| > 0 {
      var service := m.serviceKeys[m.serviceCursor];
      SortedKeysSpec(Services(m.cfg).Keys);
      assert service in Services(m.cfg);
      assert m.cfg.Some?;
      assert EnvironmentsOf(m.cfg.value, service) == Services(m.cfg)[service];
      assert next == m.(selectedService := service,
                        environmentKeys := SortedKeys(Services(m.cfg)[service].Keys),
                        environmentCursor := 0,
                        state := SelectEnvironment);
    } else {
      assert next == m.(serviceCursor := next.serviceCursor);
      assert CursorInRange(next.serviceCursor, |m.serviceKeys|);
    }
  }

  lemma EnvironmentScreenKeyPreservesValid(m: Model, action: KeyAction, openUrl: string -> Url.OpenOutcome)
    requires Valid(m) && m.state == SelectEnvironment
    ensures ConfigPresentWhenListed(m) && Valid(EnvironmentScreenKey(m, action, openUrl).next)
  {
    var next := EnvironmentScreenKey(m, action, openUrl).next;
    match action
    case EnterKey =>
      assert next == m.(finalUrl := next.finalUrl, finalError := next.finalError);
    case UpKey =>
      assert next == m.(environmentCursor := next.environmentCursor);
    case DownKey =>
      assert next == m.(environmentCursor := next.environmentCursor);
    case BackKey =>
      assert next == m.(state := SelectService, selectedService := "", environmentKeys := [], environmentCursor := 0);
    case _ =>
      assert next == m;
  }

  /** Feed messages one at a time until one of them quits. */
  function Run(m: Model, msgs: seq<Msg>, openUrl: string -> Url.OpenOutcome): (t: Transition)
    requires Valid(m)
    ensures Valid(t.next)
    ensures !t.quit ==> t.next.finalUrl == m.finalUrl && t.next.finalError == m.finalError
    decreases |msgs|
  {
    if msgs == [] then Transition(m, false)
    else
      UpdatePreservesValid(m, msgs[0], openUrl);
      var t := Update(m, msgs[0], openUrl);
      if t.quit then t else Run(t.next, msgs[1..], openUrl)
  }

  /**
   * A session that starts with nothing recorded still has nothing recorded
   * until it quits, so quitting with `q` reports no URL and no error.
   */
  lemma ReachedModelsAreFresh(m: Model, msgs: seq<Msg>, openUrl: string -> Url.OpenOutcome)
    requires Valid(m) && m.finalUrl == "" && m.finalError == None
    ensures var t := Run(m, msgs, openUrl);
      !t.quit ==>
        && Valid(t.next) && t.next.finalUrl == "" && t.next.finalError == None
        && ConfigPresentWhenListed(t.next)
        && var q := Update(t.next, KeyMsg("q"), openUrl);
        && q.quit && GetFinalUrl(q.next) == "" && GetFinalError(q.next) == None
  {
    var t := Run(m, msgs, openUrl);
    if !t.quit {
      assert ActionOf("q") == QuitKey;
    }
  }

  /**
   * Messages the selector does not react to return the model unchanged and do
   * not quit: non-key messages, unknown keys, back on the service list, and
   * enter when the cursor is on no entry.
   */
  lemma UnhandledMessagesChangeNothing(m: Model, msg: Msg, openUrl: string -> Url.OpenOutcome)
    requires ConfigPresentWhenListed(m)
    ensures msg.OtherMsg? ==> Update(m, msg, openUrl) == Transition(m, false)
    ensures msg.KeyMsg? && ActionOf(msg.key) == OtherKey ==> Update(m, msg, openUrl) == Transition(m, false)
    ensures msg.KeyMsg? && ActionOf(msg.key) == BackKey && m.state == SelectService ==>
      Update(m, msg, openUrl) == Transition(m, false)
    ensures msg.KeyMsg? && ActionOf(msg.key) == EnterKey && !(0 <= ActiveCursor(m) < |ActiveKeys(m)|) ==>
      Update(m, msg, openUrl) == Transition(m, false)
  {
  }

  /** The reference behaviour of a cursor key: move by one and clamp to the list. */
  function Clamp(x: int, n: nat): int {
    if x <= 0 || n == 0 then 0 else if x >= n then n - 1 else x
  }

  /** Up and down move the active cursor by one, clamped at both ends, and touch nothing else. */
  lemma CursorKeysClamp(m: Model, key: string, openUrl: string -> Url.OpenOutcome)
    requires Valid(m) && key in {"up", "k", "down", "j"}
    ensures ConfigPresentWhenListed(m)
    ensures var t, step := Update(m, KeyMsg(key), openUrl), if key in {"up", "k"} then -1 else 1;
      && !t.quit
      && (m.state == SelectService ==>
            t.next == m.(serviceCursor := Clamp(m.serviceCursor + step, |m.serviceKeys|)))
      && (m.state == SelectEnvironment ==>
            t.next == m.(environmentCursor := Clamp(m.environmentCursor + step, |m.environmentKeys|)))
  {
    var action := ActionOf(key);
    assert action == if key in {"up", "k"} then UpKey else DownKey;
    ValidHasConfigWhenListed(m);
    if m.state == SelectService {
      ServiceCursorClamp(m, action);
      assert Update(m, KeyMsg(key), openUrl) == ServiceScreenKey(m, action);
    } else {
      EnvironmentCursorClamp(m, action, openUrl);
      assert Update(m, KeyMsg(key), openUrl) == EnvironmentScreenKey(m, action, openUrl);
    }
  }

  lemma ServiceCursorClamp(m: Model, action: KeyAction)
    requires Valid(m) && m.state == SelectService && action in {UpKey, DownKey}
    ensures ConfigPresentWhenListed(m)
    ensures var step := if action == UpKey then -1 else 1;
      ServiceScreenKey(m, action).next == m.(serviceCursor := Clamp(m.serviceCursor + step, |m.serviceKeys|))
  {
  }

  lemma EnvironmentCursorClamp(m: Model, action: KeyAction, openUrl: string -> Url.OpenOutcome)
    requires Valid(m) && m.state == SelectEnvironment && action in {UpKey, DownKey}
    ensures ConfigPresentWhenListed(m)
    ensures var t, step := EnvironmentScreenKey(m, action, openUrl), if action == UpKey then -1 else 1;
      !t.quit && t.next == m.(environmentCursor := Clamp(m.environmentCursor + step, |m.environmentKeys|))
  {
  }

  /** Enter on a non-empty service list selects the service under the cursor and lists its environments. */
  lemma EnterService(m: Model, openUrl: string -> Url.OpenOutcome)
    requires Valid(m) && m.state == SelectService
    ensures ConfigPresentWhenListed(m)
    ensures var t := Update(m, KeyMsg("enter"), openUrl);
      && !t.quit
      && (|m.serviceKeys| == 0 ==> t.next == m)
      && (|m.serviceKeys| > 0 ==>
            var service := m.serviceKeys[m.serviceCursor];
            && service in Services(m.cfg)
            && t.next == m.(selectedService := service,
                            environmentKeys := SortedKeys(Services(m.cfg)[service].Keys),
                            environmentCursor := 0,
                            state := SelectEnvironment)
            && StrictlySorted(t.next.environmentKeys)
            && (forall e :: e in t.next.environmentKeys <==> e in Services(m.cfg)[service]))
  {
    ValidHasConfigWhenListed(m);
    if |m.serviceKeys| > 0 {
      var service := m.serviceKeys[m.serviceCursor];
      SortedKeysSpec(Services(m.cfg).Keys);
      assert service in Services(m.cfg);
      SortedKeysSpec(Services(m.cfg)[service].Keys);
      assert Update(m, KeyMsg("enter"), openUrl) == ServiceScreenKey(m, EnterKey);
    }
  }

  /** Esc and Backspace return to the service list, forgetting the selection but not the service cursor. */
  lemma BackToServices(m: Model, key: string, openUrl: string -> Url.OpenOutcome)
    requires ConfigPresentWhenListed(m) && m.state == SelectEnvironment && key in {"esc", "backspace"}
    ensures var t := Update(m, KeyMsg(key), openUrl);
      && !t.quit
      && t.next == m.(state := SelectService, selectedService := "", environmentKeys := [], environmentCursor := 0)
      && t.next.serviceCursor == m.serviceCursor
  {
  }

  /**
   * Choosing a service, moving about its environments, going back and
   * choosing it again gives the same fresh environment list, cursor at 0.
   */
  lemma ReselectGivesFreshList(m: Model, moves: seq<string>, back: string, openUrl: string -> Url.OpenOutcome)
    requires Valid(m) && m.state == SelectService && |m.serviceKeys| > 0
    requires forall i :: 0 <= i < |moves| ==> moves[i] in {"up", "k", "down", "j"}
    requires back in {"esc", "backspace"}
    ensures ConfigPresentWhenListed(m)
    ensures var chosen := Update(m, KeyMsg("enter"), openUrl).next;
      ConfigPresentWhenListed(chosen) &&
      var moved := Moves(chosen, moves, openUrl);
      var returned := Update(moved, KeyMsg(back), openUrl).next;
      Update(returned, KeyMsg("enter"), openUrl).next == chosen
  {
    ValidHasConfigWhenListed(m);
    EnterService(m, openUrl);
    var chosen := Update(m, KeyMsg("enter"), openUrl).next;
    var moved := Moves(chosen, moves, openUrl);
    BackRestoresServiceScreen(m, moved, back, openUrl);
  }

  /** Going back from any environment list of `m`'s configuration restores `m`. */
  lemma BackRestoresServiceScreen(m: Model, moved: Model, back: string, openUrl: string -> Url.OpenOutcome)
    requires Valid(m) && m.state == SelectService && back in {"esc", "backspace"}
    requires moved.state == SelectEnvironment && moved.cfg == m.cfg && moved.serviceKeys == m.serviceKeys
    requires moved.serviceCursor == m.serviceCursor && moved.finalUrl == m.finalUrl && moved.finalError == m.finalError
    requires ConfigPresentWhenListed(moved)
    ensures Update(moved, KeyMsg(back), openUrl).next == m
  {
    BackToServices(moved, back, openUrl);
  }

  /** Apply cursor keys in order: only the cursor of the list on screen moves. */
  function Moves(m: Model, moves: seq<string>, openUrl: string -> Url.OpenOutcome): (r: Model)
    requires ConfigPresentWhenListed(m)
    requires forall i :: 0 <= i < |moves| ==> moves[i] in {"up", "k", "down", "j"}
    ensures ConfigPresentWhenListed(r)
    ensures m.state == SelectService ==> r == m.(serviceCursor := r.serviceCursor)
    ensures m.state == SelectEnvironment ==> r == m.(environmentCursor := r.environmentCursor)
    decreases |moves|
  {
    if moves == [] then m
    else Moves(Update(m, KeyMsg(moves[0]), openUrl).next, moves[1..], openUrl)
  }

  /** Cursor keys keep the invariant, so every cursor stays within its list. */
  lemma {:induction false} MovesPreserveValid(m: Model, moves: seq<string>, openUrl: string -> Url.OpenOutcome)
    requires Valid(m)
    requires forall i :: 0 <= i < |moves| ==> moves[i] in {"up", "k", "down", "j"}
    ensures ConfigPresentWhenListed(m) && Valid(Moves(m, moves, openUrl))
    decreases |moves|
  {
    ValidHasConfigWhenListed(m);
    if moves != [] {
      UpdatePreservesValid(m, KeyMsg(moves[0]), openUrl);
      MovesPreserveValid(Update(m, KeyMsg(moves[0]), openUrl).next, moves[1..], openUrl);
    }
  }

  /** `q` and `ctrl+c` quit in every state with the model unchanged: a fresh model reports no URL and no error. */
  lemma QuitChangesNothing(m: Model, key: string, openUrl: string -> Url.OpenOutcome)
    requires ConfigPresentWhenListed(m) && key in {"q", "ctrl+c"}
    ensures Update(m, KeyMsg(key), openUrl) == Transition(m, true)
    ensures m.finalUrl == "" && m.finalError == None ==>
      GetFinalUrl(Update(m, KeyMsg(key), openUrl).next) == "" && GetFinalError(Update(m, KeyMsg(key), openUrl).next) == None
  {
  }

  /**
   * Enter on a non-empty environment list always quits.  The configuration
   * entry is always found; a resolution error is recorded with no URL, and a
   * resolved URL is recorded together with an open failure, if any.
   */
  lemma EnterEnvironmentOutcome(m: Model, openUrl: string -> Url.OpenOutcome)
    requires Valid(m) && m.state == SelectEnvironment && |m.environmentKeys| > 0
    ensures ConfigPresentWhenListed(m) && m.cfg.Some?
    ensures var service, env := m.selectedService, m.environmentKeys[m.environmentCursor];
      && service in m.cfg.value && env in m.cfg.value[service]
      && var t := Update(m, KeyMsg("enter"), openUrl);
      && t.quit
      && match ResolveSelection(service, env, m.cfg.value[service][env])
         case Err(e) => t.next == m.(finalError := Some(e))
         case Ok(u) =>
           && GetFinalUrl(t.next) == u
           && GetFinalError(t.next) == (if openUrl(u).OpenFailed? then Some(BrowserOpenFailed(openUrl(u).reason)) else m.finalError)
           && t.next == m.(finalUrl := u, finalError := GetFinalError(t.next))
  {
    var env := m.environmentKeys[m.environmentCursor];
    SortedKeysSpec(Services(m.cfg)[m.selectedService].Keys);
    assert env in m.environmentKeys;
    assert ActionOf("enter") == EnterKey;
    assert Update(m, KeyMsg("enter"), openUrl) == EnterEnvironment(m, openUrl);
  }

  /** A model whose selection is not in its configuration records the internal error and quits. */
  lemma MissingEntryIsReported(m: Model, openUrl: string -> Url.OpenOutcome)
    requires m.cfg.Some? && m.state == SelectEnvironment && 0 <= m.environmentCursor < |m.environmentKeys|
    requires var env := m.environmentKeys[m.environmentCursor];
      !(m.selectedService in m.cfg.value && env in m.cfg.value[m.selectedService])
    ensures Update(m, KeyMsg("enter"), openUrl)
         == Transition(m.(finalError := Some(ConfigEntryMissing(m.selectedService, m.environmentKeys[m.environmentCursor]))), true)
  {
  }

  // ---- Properties of the rendering ----

  /** The marker "> " starts a line exactly when that line is the cursor's. */
  lemma CursorLineMarked(keys: seq<string>, cursor: int, i: int)
    requires 0 <= i < |keys|
    ensures var line := ListLines(keys, cursor)[i];
      |line| >= 2 && (line[..2] == "> " <==> i == cursor) && line[2..] == keys[i] + "\n"
  {
    var line := ListLines(keys, cursor)[i];
    assert line == CursorIndicator(i == cursor) + keys[i] + "\n";
    assert line[..2] == CursorIndicator(i == cursor);
  }

  lemma {:induction false} ConcatAt(lines: seq<string>, i: int)
    requires 0 <= i < |lines|
    ensures Concat(lines) == Concat(lines[..i]) + lines[i] + Concat(lines[i + 1..])
    decreases |lines|
  {
    if i > 0 {
      ConcatAt(lines[1..], i - 1);
      assert lines[1..][..i - 1] == lines[1..i];
      assert lines[1..][i..] == lines[i + 1..];
      assert lines[..i] == [lines[0]] + lines[1..i];
      assert Concat(lines[..i]) == lines[0] + Concat(lines[1..i]);
    } else {
      assert lines[..0] == [];
      assert lines[1..] == lines[i + 1..];
    }
  }

  /** A string shows whatever is written in its middle. */
  lemma ContainsMiddle(a: string, b: string, c: string)
    ensures Url.Contains(a + b + c, b)
  {
    var s := a + b + c;
    assert s[|a|..] == b + c;
    assert s[|a|..][..|b|] == b;
  }

  /** A line of a list stays visible whatever surrounds the list. */
  lemma ConcatShowsLine(before: string, lines: seq<string>, i: int, after: string)
    requires 0 <= i < |lines|
    ensures Url.Contains(before + Concat(lines) + after, lines[i])
  {
    ConcatAt(lines, i);
    var a, b := Concat(lines[..i]), Concat(lines[i + 1..]);
    Regroup(before, a, lines[i], b, after);
    ContainsMiddle(before + a, lines[i], b + after);
  }

  lemma Regroup(w: string, a: string, l: string, b: string, x: string)
    ensures w + (a + l + b) + x == (w + a) + l + (b + x)
  {
  }

  /** The screen of a list state shows one line for every key, marked at the cursor. */
  lemma ViewShowsEveryKey(m: Model, i: int)
    requires 0 <= i < |ActiveKeys(m)|
    ensures Url.Contains(View(m), CursorIndicator(i == ActiveCursor(m)) + ActiveKeys(m)[i] + "\n")
    ensures var line := CursorIndicator(i == ActiveCursor(m)) + ActiveKeys(m)[i] + "\n";
      line[..2] == "> " <==> i == ActiveCursor(m)
  {
    var lines := ListLines(ActiveKeys(m), ActiveCursor(m));
    CursorLineMarked(ActiveKeys(m), ActiveCursor(m), i);
    assert View(m) == Header(m) + Concat(lines) + QuitHint;
    ConcatShowsLine(Header(m), lines, i, QuitHint);
  }

  /** An empty list shows its "No ..." line. */
  lemma ViewOfEmptyList(m: Model)
    ensures m.state == SelectService && m.serviceKeys == [] ==>
      View(m) == ServiceHeader + NoServicesLine + QuitHint
    ensures m.state == SelectEnvironment && m.environmentKeys == [] ==>
      View(m) == EnvironmentHeader(m.selectedService) + NoEnvironmentsLine(m.selectedService) + QuitHint
  {
  }

  /** The screen depends on the menu alone, not on the configuration or the recorded outcome. */
  lemma ViewIgnoresOutcome(m: Model, cfg: Option<Config>, url: string, err: Option<TuiError>)
    ensures View(m.(cfg := cfg, finalUrl := url, finalError := err)) == View(m)
  {
  }
}
