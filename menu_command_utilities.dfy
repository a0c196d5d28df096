/**
 * `createMenuCommandHelper`: the loading, watching and prompting a menu
 * command shares, with its closure state `menuItems` / `selectMenu` held by a
 * MenuCommandHelper. A failed read or parse keeps the last snapshot; the two
 * variables are assigned one after the other, so a throw while the options
 * are built leaves new items beside a partial menu.
 */
module MenuCommandUtilities {
  import opened Wrappers
  import opened Platform
  import opened Topics

  /** The state `loadMenuItems` leaves behind. */
  function Reload(customId: string, placeholder: string, s: MenuState, env: Option<string>, file: FileOutcome,
                  check: OptionCheck): MenuState
  {
    if !IsSet(env) then s
    else
      match file
      case ReadFailed(_) => s
      case ParseFailed(_) => s
      case Parsed(NonArray) => MenuState(Some(NonArray), Some(SelectMenu(customId, placeholder, [])))
      case Parsed(Array(items)) => MenuState(Some(Array(items)), Some(BuiltMenu(customId, placeholder, items, check)))
  }

  function LoadFailureText(path: string, message: string): string
  {
    "Failed to load menu items from " + path + ": " + message
  }

  /** The lines `loadMenuItems` logs. */
  function LoadLog(envVarName: string, env: Option<string>, file: FileOutcome, check: OptionCheck): seq<LogLine>
  {
    if !IsSet(env) then [Error("Environment variable " + envVarName + " is not set")]
    else
      var path := env.value;
      [Debug("Loading menu items from " + path)] +
      match file
      case ReadFailed(m) => [Error(LoadFailureText(path, m))]
      case ParseFailed(m) => [Error(LoadFailureText(path, m))]
      case Parsed(NonArray) => [Error(LoadFailureText(path, FOREACH_ON_NON_ARRAY))]
      case Parsed(Array(items)) =>
        match Rejection(items, check)
        case None => []
        case Some(m) => [Error(LoadFailureText(path, m))]
  }

  /** With the variable unset, nothing changes. */
  lemma ReloadUnset(customId: string, placeholder: string, s: MenuState, env: Option<string>, file: FileOutcome,
                    check: OptionCheck)
    requires !IsSet(env)
    ensures Reload(customId, placeholder, s, env, file, check) == s
  {
  }

  /** A snapshot whose menu offers exactly its items, under the configured id and placeholder. */
  predicate Consistent(customId: string, placeholder: string, s: MenuState)
  {
    s.menuItems.Some? && s.menuItems.value.Array? &&
    s.selectMenu == Some(SelectMenu(customId, placeholder, OptionsOf(s.menuItems.value.entries)))
  }

  /**
   * A load whose options are all accepted replaces the items with the parsed
   * entries and the menu with a new one, one option per entry in order,
   * whatever the state before.
   */
  lemma ReloadSuccess(customId: string, placeholder: string, s: MenuState, env: Option<string>, items: seq<Entry>,
                      check: OptionCheck)
    requires IsSet(env) && Rejection(items, check).None?
    ensures Reload(customId, placeholder, s, env, Parsed(Array(items)), check) ==
      MenuState(Some(Array(items)), Some(SelectMenu(customId, placeholder, OptionsOf(items))))
    ensures Consistent(customId, placeholder, Reload(customId, placeholder, s, env, Parsed(Array(items)), check))
  {
    BuiltMenuComplete(customId, placeholder, items, check);
  }

  /** A read or parse failure keeps both variables: the last good snapshot (or nothing) stays. */
  lemma ReloadRetains(customId: string, placeholder: string, s: MenuState, env: Option<string>, file: FileOutcome,
                      check: OptionCheck)
    requires file.ReadFailed? || file.ParseFailed?
    ensures Reload(customId, placeholder, s, env, file, check) == s
  {
  }

  /**
   * The update is not atomic: when the builder rejects an option, the items
   * are already the new entries while the menu holds only the options added
   * before the throw.
   */
  lemma ReloadNotAtomic(customId: string, placeholder: string, s: MenuState, env: Option<string>, items: seq<Entry>,
                        check: OptionCheck)
    requires IsSet(env) && Rejection(items, check).Some?
    ensures var r := Reload(customId, placeholder, s, env, Parsed(Array(items)), check);
      r.menuItems == Some(Array(items)) &&
      r.selectMenu == Some(SelectMenu(customId, placeholder, OptionsOf(items[..Admitted(items, check)]))) &&
      !Consistent(customId, placeholder, r)
  {
    OptionsOfPrefix(items, Admitted(items, check));
    BuiltMenuPartial(customId, placeholder, items, check);
  }

  /** The items stay undefined until a load parses the file. */
  lemma UndefinedUntilParsed(customId: string, placeholder: string, s: MenuState, env: Option<string>,
                             file: FileOutcome, check: OptionCheck)
    ensures Reload(customId, placeholder, s, env, file, check).menuItems.None? <==>
      s.menuItems.None? && !(IsSet(env) && file.Parsed?)
  {
  }

  /** Two reloads from the same file give the same state: options never accumulate. */
  lemma ReloadForgetsPrevious(customId: string, placeholder: string, s1: MenuState, s2: MenuState,
                              env: Option<string>, json: Json, check: OptionCheck)
    requires IsSet(env)
    ensures Reload(customId, placeholder, s1, env, Parsed(json), check) ==
      Reload(customId, placeholder, s2, env, Parsed(json), check)
  {
  }

  /** The lines `watchForMenuChanges` logs: the guard's error, or how the registration ended. */
  function WatchForMenuChangesLog(envVarName: string, env: Option<string>, registration: Option<JsError>)
    : seq<LogLine>
  {
    if !IsSet(env) then [Error("Environment variable " + envVarName + " is not set, cannot watch for changes")]
    else WatchLog(env, registration)
  }

  /** The error `promptForTopic` throws when no menu was built. */
  const MENU_NOT_INITIALIZED := JsError("Error", "Menu not initialized. Ensure loadMenuItems() has been called successfully.")

  /** `promptForTopic`: throws if and only if no menu was ever built; an empty menu is still sent. */
  function PromptForTopic(selectMenu: Option<SelectMenu>, outcome: PromptOutcome): (p: Prompted)
    ensures p.shown == [] <==> selectMenu.None?
    ensures selectMenu.None? ==> p.result == Raised(Thrown(MENU_NOT_INITIALIZED))
    ensures selectMenu.Some? ==> p.shown == [Prompt(PROMPT_TEXT, selectMenu.value)]
    ensures selectMenu.Some? ==> p == Ask(selectMenu.value, outcome)
  {
    match selectMenu
    case None => Refuse(MENU_NOT_INITIALIZED)
    case Some(menu) => Ask(menu, outcome)
  }

  /** The closure of one `createMenuCommandHelper` call. */
  class MenuCommandHelper {
    const envVarName: string
    const customId: string
    const placeholder: string
    var menuItems: Option<Json>
    var selectMenu: Option<SelectMenu>
    /** Whether a chokidar watcher re-runs `loadMenuItems` on a change. */
    var watching: bool

    /** `createMenuCommandHelper({ envVarName, customId, placeholder, logger })`: nothing is loaded yet. */
    constructor (envVarName: string, customId: string, placeholder: string)
      ensures this.envVarName == envVarName && this.customId == customId && this.placeholder == placeholder
      ensures menuItems == None && selectMenu == None && !watching
    {
      this.envVarName := envVarName;
      this.customId := customId;
      this.placeholder := placeholder;
      menuItems := None;
      selectMenu := None;
      watching := false;
    }

    function Current(): MenuState
      reads this
    {
      MenuState(menuItems, selectMenu)
    }

    /** `loadMenuItems()`; `env` is `process.env[envVarName]`, `file` what reading and parsing that path gives. */
    method LoadMenuItems(env: Option<string>, file: FileOutcome, check: OptionCheck) returns (log: seq<LogLine>)
      modifies this
      ensures Current() == Reload(customId, placeholder, old(Current()), env, file, check)
      ensures log == LoadLog(envVarName, env, file, check)
      ensures watching == old(watching)
    {
      if !IsSet(env) {
        log := [Error("Environment variable " + envVarName + " is not set")];
        return;
      }
      var path := env.value;
      log := [Debug("Loading menu items from " + path)];
      match file {
        case ReadFailed(m) =>
          log := log + [Error(LoadFailureText(path, m))];
        case ParseFailed(m) =>
          log := log + [Error(LoadFailureText(path, m))];
        case Parsed(json) =>
          menuItems := Some(json);
          var menu := SelectMenu(customId, placeholder, []);
          selectMenu := Some(menu);
          match json {
            case NonArray =>
              log := log + [Error(LoadFailureText(path, FOREACH_ON_NON_ARRAY))];
            case Array(items) =>
              var built, rejection := AddOptions(menu, items, check);
              selectMenu := Some(built);
              if rejection.Some? {
                log := log + [Error(LoadFailureText(path, rejection.value))];
              }
          }
      }
    }

    /** `watchForMenuChanges()`; `registration` is the error `chokidar.watch` throws, if any. */
    method WatchForMenuChanges(env: Option<string>, registration: Option<JsError>) returns (log: seq<LogLine>)
      modifies this
      ensures !IsSet(env) ==> watching == old(watching)
      ensures !IsSet(env) ==> log == [Error("Environment variable " + envVarName + " is not set, cannot watch for changes")]
      ensures IsSet(env) ==> watching == (old(watching) || registration.None?)
      ensures IsSet(env) ==> log == WatchLog(env, registration)
      ensures log == WatchForMenuChangesLog(envVarName, env, registration)
      ensures Current() == old(Current())
    {
      if !IsSet(env) {
        log := [Error("Environment variable " + envVarName + " is not set, cannot watch for changes")];
        return;
      }
      if registration.None? {
        watching := true;
      }
      log := WatchLog(env, registration);
    }

    /** A settled change of the watched file: a registered watcher re-runs `loadMenuItems`. */
    method FileChanged(env: Option<string>, file: FileOutcome, check: OptionCheck) returns (log: seq<LogLine>)
      modifies this
      ensures old(watching) ==> Current() == Reload(customId, placeholder, old(Current()), env, file, check)
      ensures old(watching) ==> log == LoadLog(envVarName, env, file, check)
      ensures !old(watching) ==> Current() == old(Current()) && log == []
      ensures watching == old(watching)
    {
      log := [];
      if watching {
        log := LoadMenuItems(env, file, check);
      }
    }

    /** `getMenuItems()`: the current items, undefined before any parse. */
    method GetMenuItems() returns (items: Option<Json>)
      ensures items == menuItems
    {
      items := menuItems;
    }
  }
}
