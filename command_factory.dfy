/**
 * `createJsonCommand`: a slash command that sends content from a JSON file of
 * topics, picked by a `topic` argument or from a select menu. The closure
 * variables `menuItems` and `selectMenu` are the fields of a JsonCommand; a
 * failed load resets `menuItems` to the empty array.
 */
module CommandFactory {
  import opened Wrappers
  import opened Platform
  import opened Topics

  /**
   * The `config` of createJsonCommand. `format` is `formatContent`: the channel
   * content for an entry, or the error it throws. `permissions` is None when
   * not given.
   */
  datatype Config = Config(
    commandName: string,
    description: string,
    envVarPath: string,
    format: Entry -> Result<string, JsError>,
    permissions: Option<int>)

  /** The closure state: `menuItems` (never a non-array once a load ran) and `selectMenu`. */
  datatype Snapshot = Snapshot(menuItems: Option<seq<Entry>>, selectMenu: Option<SelectMenu>)

  function CustomId(commandName: string): string
  {
    commandName + "-selector"
  }

  function Placeholder(commandName: string): string
  {
    "Select a " + commandName + " topic"
  }

  /** `c.toUpperCase()` restricted to ASCII. */
  function UpperAscii(c: char): char
  {
    if 'a' <= c <= 'z' then (c as int - 32) as char else c
  }

  /** `commandName.charAt(0).toUpperCase() + commandName.slice(1)`. */
  function Capitalize(name: string): (r: string)
    ensures |r| == |name|
    ensures |name| > 0 ==> r[0] == UpperAscii(name[0]) && r[1..] == name[1..]
  {
    if |name| == 0 then "" else [UpperAscii(name[0])] + name[1..]
  }

  /** Capitalizing twice is capitalizing once. */
  lemma CapitalizeIdempotent(name: string)
    ensures Capitalize(Capitalize(name)) == Capitalize(name)
  {
    if |name| > 0 {
      var once := Capitalize(name);
      assert once[1..] == name[1..];
      assert Capitalize(once) == [UpperAscii(once[0])] + once[1..];
    }
  }

  /** The command names the tests capitalize. */
  lemma CapitalizeExamples()
    ensures Capitalize("support") == "Support"
    ensures Capitalize("wiki") == "Wiki"
    ensures Capitalize("test") == "Test"
    ensures Capitalize("") == ""
  {
  }

  /** `new SlashCommandBuilder()` as createJsonCommand configures it. */
  function CommandData(cfg: Config): (d: SlashCommand)
    ensures d.name == cfg.commandName && d.description == cfg.description
    ensures d.options == [TopicOption("The name of the " + cfg.commandName + " topic to send")]
    ensures !d.options[0].required
    ensures d.defaultMemberPermissions.Some? <==> cfg.permissions.Some? && cfg.permissions.value != 0
    ensures d.defaultMemberPermissions.Some? ==> d.defaultMemberPermissions == cfg.permissions
  {
    var options := [TopicOption("The name of the " + cfg.commandName + " topic to send")];
    // `if (permissions)`: absent and 0 are falsy
    if cfg.permissions.Some? && cfg.permissions.value != 0
    then SlashCommand(cfg.commandName, cfg.description, options, cfg.permissions)
    else SlashCommand(cfg.commandName, cfg.description, options, None)
  }

  /** The state `loadMenuItems` leaves behind. */
  function Reload(commandName: string, s: Snapshot, env: Option<string>, file: FileOutcome, check: OptionCheck): Snapshot
  {
    if !IsSet(env) then s.(menuItems := Some([]))
    else
      match file
      case ReadFailed(_) => s.(menuItems := Some([]))
      case ParseFailed(_) => s.(menuItems := Some([]))
      case Parsed(NonArray) =>
        Snapshot(Some([]), Some(SelectMenu(CustomId(commandName), Placeholder(commandName), [])))
      case Parsed(Array(items)) =>
        var menu := BuiltMenu(CustomId(commandName), Placeholder(commandName), items, check);
        Snapshot(Some(if Rejection(items, check).None? then items else []), Some(menu))
  }

  function LoadFailureText(path: string, message: string): string
  {
    "Failed to load menu items from " + path + ": " + message
  }

  /** The lines `loadMenuItems` logs. */
  function LoadLog(envVarPath: string, env: Option<string>, file: FileOutcome, check: OptionCheck): seq<LogLine>
  {
    if !IsSet(env) then [Error("Environment variable " + envVarPath + " is not set")]
    else
      var path := env.value;
      [Debug("Loading menu items from " + path)] +
      match file
      case ReadFailed(m) => [Error(LoadFailureText(path, m))]
      case ParseFailed(m) => [Error(LoadFailureText(path, m))]
      case Parsed(NonArray) => [Error(LoadFailureText(path, FOREACH_ON_NON_ARRAY))]
      case Parsed(Array(items)) =>
        match Rejection(items, check)
        case None => []
        case Some(m) => [Error(LoadFailureText(path, m))]
  }

  /** With the variable unset, the items become `[]` and the menu is untouched. */
  lemma ReloadUnset(commandName: string, s: Snapshot, env: Option<string>, file: FileOutcome, check: OptionCheck)
    requires !IsSet(env)
    ensures Reload(commandName, s, env, file, check) == Snapshot(Some([]), s.selectMenu)
  {
  }

  /**
   * A load whose options are all accepted stores the parsed entries and a fresh
   * menu with one option per entry, in order; nothing of the previous state survives.
   */
  lemma ReloadSuccess(
    commandName: string, s: Snapshot, env: Option<string>, items: seq<Entry>, check: OptionCheck)
    requires IsSet(env) && Rejection(items, check).None?
    ensures Reload(commandName, s, env, Parsed(Array(items)), check) ==
      Snapshot(Some(items), Some(SelectMenu(CustomId(commandName), Placeholder(commandName), OptionsOf(items))))
  {
    BuiltMenuComplete(CustomId(commandName), Placeholder(commandName), items, check);
  }

  /**
   * Any throw in reading, parsing or building resets the items to `[]`. A throw
   * before the builder is created keeps the old menu; a throw in `forEach`
   * leaves the partly built new menu.
   */
  lemma ReloadFailure(commandName: string, s: Snapshot, env: Option<string>, file: FileOutcome, check: OptionCheck)
    requires IsSet(env)
    requires !(file.Parsed? && file.json.Array? && Rejection(file.json.entries, check).None?)
    ensures Reload(commandName, s, env, file, check).menuItems == Some([])
    ensures (file.ReadFailed? || file.ParseFailed?) ==>
      Reload(commandName, s, env, file, check).selectMenu == s.selectMenu
    ensures file == Parsed(NonArray) ==>
      Reload(commandName, s, env, file, check).selectMenu ==
        Some(SelectMenu(CustomId(commandName), Placeholder(commandName), []))
    ensures file.Parsed? && file.json.Array? ==>
      var items := file.json.entries;
      var k := Admitted(items, check);
      k < |items| &&
      Reload(commandName, s, env, file, check).selectMenu ==
        Some(SelectMenu(CustomId(commandName), Placeholder(commandName), OptionsOf(items[..k])))
  {
    if file.Parsed? && file.json.Array? {
      OptionsOfPrefix(file.json.entries, Admitted(file.json.entries, check));
    }
  }

  /** Whenever items are stored, the menu offers exactly those items. */
  ghost predicate Faithful(commandName: string, s: Snapshot)
  {
    s.menuItems.Some? && |s.menuItems.value| > 0 ==>
      s.selectMenu == Some(SelectMenu(CustomId(commandName), Placeholder(commandName), OptionsOf(s.menuItems.value)))
  }

  /**
   * Because every failure resets the items to `[]`, the menu never offers
   * anything but the stored items, from any state.
   */
  lemma ReloadFaithful(commandName: string, s: Snapshot, env: Option<string>, file: FileOutcome, check: OptionCheck)
    ensures Faithful(commandName, Reload(commandName, s, env, file, check))
  {
    if IsSet(env) && file.Parsed? && file.json.Array? && Rejection(file.json.entries, check).None? {
      ReloadSuccess(commandName, s, env, file.json.entries, check);
    }
  }

  /** Two reloads from the same file give the same state: options never accumulate. */
  lemma ReloadForgetsPrevious(
    commandName: string, s1: Snapshot, s2: Snapshot, env: Option<string>, json: Json, check: OptionCheck)
    requires IsSet(env)
    ensures Reload(commandName, s1, env, Parsed(json), check) == Reload(commandName, s2, env, Parsed(json), check)
  {
  }

  /** The text `promptForTopic` throws when the menu is not ready. */
  const MENU_NOT_READY := JsError("Error", "Menu not properly initialized. Please contact an administrator.")

  /** `!selectMenu || !menuItems || menuItems.length === 0` is false. */
  predicate PromptReady(s: Snapshot)
  {
    s.selectMenu.Some? && s.menuItems.Some? && |s.menuItems.value| > 0
  }

  /** `promptForTopic`: throws when not ready, before replying; otherwise prompts and awaits. */
  function PromptForTopic(s: Snapshot, outcome: PromptOutcome): (p: Prompted)
    ensures p.shown == [] <==> !PromptReady(s)
    ensures !PromptReady(s) ==> p.result == Raised(Thrown(MENU_NOT_READY))
    ensures PromptReady(s) ==> p == Ask(s.selectMenu.value, outcome)
  {
    if !PromptReady(s) then Refuse(MENU_NOT_READY) else Ask(s.selectMenu.value, outcome)
  }

  function NotConfiguredText(commandName: string): string
  {
    commandName + " command is not properly configured. Please contact an administrator."
  }

  function NotFoundText(commandName: string, topic: string): string
  {
    "No " + commandName + " entry for " + topic + " found"
  }

  /** The two texts never coincide: one ends in '.', the other in 'd'. */
  lemma NotFoundIsNotNotConfigured(commandName: string, topic: string)
    ensures NotFoundText(commandName, topic) != NotConfiguredText(commandName)
  {
    var a, b := NotFoundText(commandName, topic), NotConfiguredText(commandName);
    assert a[|a| - 1] == 'd';
    assert b[|b| - 1] == '.';
  }

  function SentText(commandName: string): string
  {
    Capitalize(commandName) + " sent!"
  }

  /** `execute` once the topic is known, against the `menuItems` of that moment. */
  function Respond(cfg: Config, menuItems: Option<seq<Entry>>, topic: string): (es: seq<Effect>)
    ensures Concludes(es)
  {
    if menuItems.None? || |menuItems.value| == 0 then [Reply(NotConfiguredText(cfg.commandName), false)]
    else
      match Find(menuItems.value, topic)
      case None => [Reply(NotFoundText(cfg.commandName, topic), false)]
      case Some(item) =>
        match cfg.format(item)
        case Err(e) => CatchBlock(cfg.commandName, Thrown(e))
        case Ok(content) => [Reply(SentText(cfg.commandName), true), Post(content)]
  }

  /**
   * `execute(interaction)`. `start` is the state when the command is invoked,
   * `resumed` the state when the awaited selection arrives (a file change may
   * reload in between); `topic` is the `topic` argument, `outcome` how the
   * awaited selection ends.
   */
  function Execute(cfg: Config, start: Snapshot, resumed: Snapshot, topic: Option<string>, outcome: PromptOutcome)
    : (es: seq<Effect>)
    ensures WellFormedFlow(es)
  {
    match topic
    case Some(t) =>
      var es := Respond(cfg, start.menuItems, t);
      PromptedFlow([], es);
      es
    case None =>
      var p := PromptForTopic(start, outcome);
      var rest := match p.result
        case Topic(t) => Respond(cfg, resumed.menuItems, t)
        case Raised(f) => CatchBlock(cfg.commandName, f);
      PromptedFlow(p.shown, rest);
      p.shown + rest
  }

  /** A given topic skips the prompt: nothing is prompted and the outcome and later state do not matter. */
  lemma DirectTopicSkipsPrompt(
    cfg: Config, start: Snapshot, r1: Snapshot, r2: Snapshot, t: string, o1: PromptOutcome, o2: PromptOutcome)
    ensures Execute(cfg, start, r1, Some(t), o1) == Execute(cfg, start, r2, Some(t), o2)
    ensures forall i :: 0 <= i < |Execute(cfg, start, r1, Some(t), o1)| ==>
      !Execute(cfg, start, r1, Some(t), o1)[i].Prompt?
  {
  }

  /**
   * The topic looked up is the `topic` argument, in the state at invocation;
   * without one, it is the selected value, in the state when the selection arrives.
   */
  lemma TopicSource(cfg: Config, start: Snapshot, resumed: Snapshot, t: string, outcome: PromptOutcome, v: string)
    ensures Execute(cfg, start, resumed, Some(t), outcome) == Respond(cfg, start.menuItems, t)
    ensures PromptReady(start) ==>
      Execute(cfg, start, resumed, None, Selected(v)) ==
        [Prompt(PROMPT_TEXT, start.selectMenu.value)] + Respond(cfg, resumed.menuItems, v)
  {
  }

  /** Without a topic and with the menu not ready, the guard throws before any reply: error log, then reply. */
  lemma GuardThrowsFirst(cfg: Config, start: Snapshot, resumed: Snapshot, outcome: PromptOutcome)
    requires !PromptReady(start)
    ensures Execute(cfg, start, resumed, None, outcome) ==
      [LogError(FailureText(cfg.commandName, MENU_NOT_READY)), Reply(FailureText(cfg.commandName, MENU_NOT_READY), true)]
  {
  }

  /** Without a topic and with the menu ready, the first effect is the prompt with the current menu. */
  lemma PromptShowsMenu(cfg: Config, start: Snapshot, resumed: Snapshot, outcome: PromptOutcome)
    requires PromptReady(start) && Faithful(cfg.commandName, start)
    ensures Execute(cfg, start, resumed, None, outcome)[0] ==
      Prompt(PROMPT_TEXT, SelectMenu(CustomId(cfg.commandName), Placeholder(cfg.commandName), OptionsOf(start.menuItems.value)))
  {
  }

  /** Missing or empty items give the not-configured reply and nothing else. */
  lemma NotConfigured(cfg: Config, items: Option<seq<Entry>>, t: string)
    requires items.None? || items.value == []
    ensures Respond(cfg, items, t) == [Reply(NotConfiguredText(cfg.commandName), false)]
  {
  }

  /**
   * When no reload happens during the wait, the not-configured reply needs a
   * direct topic: the prompt guard already throws on missing or empty items.
   */
  lemma NotConfiguredNeedsDirectTopic(cfg: Config, s: Snapshot, topic: Option<string>, outcome: PromptOutcome)
    requires Reply(NotConfiguredText(cfg.commandName), false) in Execute(cfg, s, s, topic, outcome)
    ensures topic.Some?
  {
    if topic.None? && PromptReady(s) && outcome.Selected? {
      NotFoundIsNotNotConfigured(cfg.commandName, outcome.value);
    }
  }

  /**
   * A reload that fails during the wait (a watched change of the file while the
   * prompt is open) makes the not-configured reply reachable through the prompt too.
   */
  lemma NotConfiguredAfterFailedReloadDuringPrompt(
    cfg: Config, start: Snapshot, env: Option<string>, file: FileOutcome, check: OptionCheck, v: string)
    requires PromptReady(start)
    requires !(IsSet(env) && file.Parsed? && file.json.Array? && Rejection(file.json.entries, check).None?)
    ensures Execute(cfg, start, Reload(cfg.commandName, start, env, file, check), None, Selected(v)) ==
      [Prompt(PROMPT_TEXT, start.selectMenu.value), Reply(NotConfiguredText(cfg.commandName), false)]
  {
    if IsSet(env) {
      ReloadFailure(cfg.commandName, start, env, file, check);
    }
  }

  /** A topic no item has gives only the not-found reply: no channel post. */
  lemma NotFound(cfg: Config, items: seq<Entry>, t: string)
    requires items != []
    requires forall j :: 0 <= j < |items| ==> items[j].value != t
    ensures Respond(cfg, Some(items), t) == [Reply(NotFoundText(cfg.commandName, t), false)]
  {
    FindMiss(items, t);
  }

  /** The first item with the topic is formatted; the acknowledgement precedes the one channel post. */
  lemma Sent(cfg: Config, items: seq<Entry>, t: string, i: nat, content: string)
    requires i < |items| && items[i].value == t
    requires forall j :: 0 <= j < i ==> items[j].value != t
    requires cfg.format(items[i]) == Ok(content)
    ensures Respond(cfg, Some(items), t) == [Reply(SentText(cfg.commandName), true), Post(content)]
  {
    FindFirstWins(items, t, i);
  }

  /** A formatter that throws takes the generic error path, before any acknowledgement. */
  lemma FormatThrows(cfg: Config, items: seq<Entry>, t: string, i: nat, e: JsError)
    requires i < |items| && items[i].value == t
    requires forall j :: 0 <= j < i ==> items[j].value != t
    requires cfg.format(items[i]) == Err(e)
    ensures Respond(cfg, Some(items), t) ==
      [LogError(FailureText(cfg.commandName, e)), Reply(FailureText(cfg.commandName, e), true)]
  {
    FindFirstWins(items, t, i);
  }

  /** A timed-out prompt gives only the cancellation reply after the prompt. */
  lemma TimedOutCancels(cfg: Config, start: Snapshot, resumed: Snapshot)
    requires PromptReady(start)
    ensures Execute(cfg, start, resumed, None, TimedOut) ==
      [Prompt(PROMPT_TEXT, start.selectMenu.value), Reply(CancelText(cfg.commandName), true)]
  {
  }

  /** Any other error of the prompt is logged and then replied. */
  lemma PromptErrorReported(cfg: Config, start: Snapshot, resumed: Snapshot, e: JsError)
    requires PromptReady(start)
    ensures Execute(cfg, start, resumed, None, Threw(e)) ==
      [Prompt(PROMPT_TEXT, start.selectMenu.value),
       LogError(FailureText(cfg.commandName, e)), Reply(FailureText(cfg.commandName, e), true)]
  {
  }

  /** The closure of one `createJsonCommand` call. */
  class JsonCommand {
    const config: Config
    var menuItems: Option<seq<Entry>>
    var selectMenu: Option<SelectMenu>
    /** Whether a chokidar watcher re-runs `loadMenuItems` on a change. */
    var watching: bool

    /** `createJsonCommand(config)`: nothing is loaded yet. */
    constructor (config: Config)
      ensures this.config == config
      ensures menuItems == None && selectMenu == None && !watching
    {
      this.config := config;
      menuItems := None;
      selectMenu := None;
      watching := false;
    }

    function Current(): Snapshot
      reads this
    {
      Snapshot(menuItems, selectMenu)
    }

    /** `loadMenuItems()`; `env` is `process.env[envVarPath]`, `file` what reading and parsing that path gives. */
    method LoadMenuItems(env: Option<string>, file: FileOutcome, check: OptionCheck) returns (log: seq<LogLine>)
      modifies this
      ensures Current() == Reload(config.commandName, old(Current()), env, file, check)
      ensures Faithful(config.commandName, Current())
      ensures log == LoadLog(config.envVarPath, env, file, check)
      ensures watching == old(watching)
    {
      ReloadFaithful(config.commandName, Current(), env, file, check);
      if !IsSet(env) {
        log := [Error("Environment variable " + config.envVarPath + " is not set")];
        menuItems := Some([]);
        return;
      }
      var path := env.value;
      log := [Debug("Loading menu items from " + path)];
      match file {
        case ReadFailed(m) =>
          log := log + [Error(LoadFailureText(path, m))];
          menuItems := Some([]);
        case ParseFailed(m) =>
          log := log + [Error(LoadFailureText(path, m))];
          menuItems := Some([]);
        case Parsed(json) =>
          var menu := SelectMenu(CustomId(config.commandName), Placeholder(config.commandName), []);
          match json {
            case NonArray =>
              selectMenu := Some(menu);
              log := log + [Error(LoadFailureText(path, FOREACH_ON_NON_ARRAY))];
              menuItems := Some([]);
            case Array(items) =>
              menuItems := Some(items);
              selectMenu := Some(menu);
              var built, rejection := AddOptions(menu, items, check);
              selectMenu := Some(built);
              if rejection.Some? {
                log := log + [Error(LoadFailureText(path, rejection.value))];
                menuItems := Some([]);
              }
          }
      }
    }

    /** `watchForMenuChanges()`; `registration` is the error `chokidar.watch` throws, if any. */
    method WatchForMenuChanges(env: Option<string>, registration: Option<JsError>) returns (log: seq<LogLine>)
      modifies this
      ensures watching == (old(watching) || registration.None?)
      ensures Current() == old(Current())
      ensures log == WatchLog(env, registration)
    {
      if registration.None? {
        watching := true;
      }
      log := WatchLog(env, registration);
    }

    /** A settled change of the watched file: a registered watcher re-runs `loadMenuItems`. */
    method FileChanged(env: Option<string>, file: FileOutcome, check: OptionCheck) returns (log: seq<LogLine>)
      modifies this
      ensures old(watching) ==> Current() == Reload(config.commandName, old(Current()), env, file, check)
      ensures old(watching) ==> Faithful(config.commandName, Current())
      ensures old(watching) ==> log == LoadLog(config.envVarPath, env, file, check)
      ensures !old(watching) ==> Current() == old(Current()) && log == []
      ensures watching == old(watching)
    {
      log := [];
      if watching {
        log := LoadMenuItems(env, file, check);
      }
    }

    /** `init()`: load, then watch. */
    method Init(env: Option<string>, file: FileOutcome, check: OptionCheck, registration: Option<JsError>)
      returns (log: seq<LogLine>)
      modifies this
      ensures Current() == Reload(config.commandName, old(Current()), env, file, check)
      ensures Faithful(config.commandName, Current())
      ensures watching == (old(watching) || registration.None?)
      ensures log == LoadLog(config.envVarPath, env, file, check) + WatchLog(env, registration)
    {
      var loaded := LoadMenuItems(env, file, check);
      var watched := WatchForMenuChanges(env, registration);
      log := loaded + watched;
    }
  }
}
