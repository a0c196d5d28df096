/**
 * The `support` command: a module of its own with module-level `menuItems` /
 * `selectMenu`, read from `SUPPORT_ITEMS_PATH` with no check that the
 * variable is set, and a prompt with no initialization guard. The message
 * posted is the entry's `content` lines joined with newlines.
 */
module Support {
  import opened Wrappers
  import opened Platform
  import opened Topics
  import MenuCommandUtilities

  const CUSTOM_ID := "support-selector"
  const PLACEHOLDER := "Select a support topic"

  /** What the catch block says it could not send. */
  const SUBJECT := "support message"

  const MESSAGE_SENT := "Support message sent!"

  /** The command's `data`. */
  function CommandData(): (d: SlashCommand)
    ensures d.name == "support" && d.defaultMemberPermissions.None?
    ensures d.options == [TopicOption("The name of the support topic to send")]
  {
    SlashCommand("support", "Sends support prompts to help users provide more details",
      [TopicOption("The name of the support topic to send")], None)
  }

  /**
   * The state `loadMenuItems` leaves behind. There is no guard on the variable:
   * an unset or unreadable path is a read failure like any other.
   */
  function Reload(s: MenuState, file: FileOutcome, check: OptionCheck): MenuState
  {
    match file
    case ReadFailed(_) => s
    case ParseFailed(_) => s
    case Parsed(NonArray) => MenuState(Some(NonArray), Some(SelectMenu(CUSTOM_ID, PLACEHOLDER, [])))
    case Parsed(Array(items)) => MenuState(Some(Array(items)), Some(BuiltMenu(CUSTOM_ID, PLACEHOLDER, items, check)))
  }

  function LoadFailureText(env: Option<string>, message: string): string
  {
    "Failed to load support menu items from " + EnvText(env) + ": " + message
  }

  /** The lines `loadMenuItems` logs: always the loading line, then the error of a failed load. */
  function LoadLog(env: Option<string>, file: FileOutcome, check: OptionCheck): seq<LogLine>
  {
    [Debug("Loading menu items from " + EnvText(env))] +
    match file
    case ReadFailed(m) => [Error(LoadFailureText(env, m))]
    case ParseFailed(m) => [Error(LoadFailureText(env, m))]
    case Parsed(NonArray) => [Error(LoadFailureText(env, FOREACH_ON_NON_ARRAY))]
    case Parsed(Array(items)) =>
      match Rejection(items, check)
      case None => []
      case Some(m) => [Error(LoadFailureText(env, m))]
  }

  /**
   * Once the path is set, the support command's load changes the state exactly
   * as the shared helper's load does, under the support id and placeholder.
   */
  lemma ReloadAgreesWithHelper(s: MenuState, env: Option<string>, file: FileOutcome, check: OptionCheck)
    requires IsSet(env)
    ensures Reload(s, file, check) == MenuCommandUtilities.Reload(CUSTOM_ID, PLACEHOLDER, s, env, file, check)
  {
  }

  /** A load whose options are all accepted gives the parsed entries and a fresh menu offering exactly them. */
  lemma ReloadSuccess(s: MenuState, items: seq<Entry>, check: OptionCheck)
    requires Rejection(items, check).None?
    ensures Reload(s, Parsed(Array(items)), check) ==
      MenuState(Some(Array(items)), Some(SelectMenu(CUSTOM_ID, PLACEHOLDER, OptionsOf(items))))
    ensures MenuCommandUtilities.Consistent(CUSTOM_ID, PLACEHOLDER, Reload(s, Parsed(Array(items)), check))
  {
    BuiltMenuComplete(CUSTOM_ID, PLACEHOLDER, items, check);
  }

  /** The catch block reassigns nothing: a failed read or parse keeps the previous snapshot, or nothing. */
  lemma ReloadRetains(s: MenuState, file: FileOutcome, check: OptionCheck)
    requires file.ReadFailed? || file.ParseFailed?
    ensures Reload(s, file, check) == s
  {
  }

  /** A builder rejection leaves the new items beside the partly built new menu. */
  lemma ReloadNotAtomic(s: MenuState, items: seq<Entry>, check: OptionCheck)
    requires Rejection(items, check).Some?
    ensures var r := Reload(s, Parsed(Array(items)), check);
      r.menuItems == Some(Array(items)) &&
      r.selectMenu == Some(SelectMenu(CUSTOM_ID, PLACEHOLDER, OptionsOf(items[..Admitted(items, check)]))) &&
      !MenuCommandUtilities.Consistent(CUSTOM_ID, PLACEHOLDER, r)
  {
    OptionsOfPrefix(items, Admitted(items, check));
    BuiltMenuPartial(CUSTOM_ID, PLACEHOLDER, items, check);
  }

  /** Without the variable, the read fails; the state stays and the path is logged as `undefined`. */
  lemma UnsetPath(s: MenuState, m: string, check: OptionCheck)
    ensures Reload(s, ReadFailed(m), check) == s
    ensures LoadLog(None, ReadFailed(m), check) ==
      [Debug("Loading menu items from undefined"),
       Error("Failed to load support menu items from undefined: " + m)]
  {
    assert EnvText(None) == "undefined";
    assert "Loading menu items from " + "undefined" == "Loading menu items from undefined";
    assert LoadFailureText(None, m) == "Failed to load support menu items from undefined: " + m;
    assert LoadLog(None, ReadFailed(m), check) == [Debug("Loading menu items from undefined")] + [Error(LoadFailureText(None, m))];
  }

  /** Two loads of the same parsed file give the same state, whatever came before. */
  lemma ReloadForgetsPrevious(s1: MenuState, s2: MenuState, json: Json, check: OptionCheck)
    ensures Reload(s1, Parsed(json), check) == Reload(s2, Parsed(json), check)
  {
  }

  /** What rendering an action row around an undefined component throws. */
  const UNDEFINED_COMPONENT := TypeError("Cannot read properties of undefined (reading 'toJSON')")

  /**
   * `promptForTopic`: no guard. A built menu, empty or not, is sent; an
   * undefined one makes the reply throw before anything is sent.
   */
  function PromptForTopic(selectMenu: Option<SelectMenu>, outcome: PromptOutcome): (p: Prompted)
    ensures p.shown == [] <==> selectMenu.None?
    ensures selectMenu.None? ==> p.result == Raised(Thrown(UNDEFINED_COMPONENT))
    ensures selectMenu.Some? ==> p.shown == [Prompt(PROMPT_TEXT, selectMenu.value)]
    ensures selectMenu.Some? ==> p == Ask(selectMenu.value, outcome)
  {
    match selectMenu
    case None => Refuse(UNDEFINED_COMPONENT)
    case Some(menu) => Ask(menu, outcome)
  }

  const JOIN_ON_STRING := "selectedItem.content.join is not a function"
  const JOIN_ON_UNDEFINED := "Cannot read properties of undefined (reading 'join')"

  /** `selectedItem.content.join('\n')`: only an array of lines has a `join`. */
  function Message(content: Content): (r: Result<string, JsError>)
    ensures r.Ok? <==> content.Lines?
    ensures content.Text? ==> r == Err(TypeError(JOIN_ON_STRING))
    ensures content.NoContent? ==> r == Err(TypeError(JOIN_ON_UNDEFINED))
  {
    match content
    case Lines(lines) => Ok(Join(lines, "\n"))
    case Text(_) => Err(TypeError(JOIN_ON_STRING))
    case NoContent => Err(TypeError(JOIN_ON_UNDEFINED))
  }

  /**
   * The message keeps every line, empty ones included: when no line holds a
   * newline, splitting the message at newlines gives the lines back, and its
   * length is the lines' lengths plus one newline between each two.
   */
  lemma MessageKeepsLines(lines: seq<string>)
    requires |lines| >= 1
    requires forall i :: 0 <= i < |lines| ==> '\n' !in lines[i]
    ensures Message(Lines(lines)).Ok?
    ensures Split(Message(Lines(lines)).value, '\n') == lines
    ensures |Message(Lines(lines)).value| == TotalLength(lines) + |lines| - 1
  {
    SplitJoin(lines, '\n');
    JoinLength(lines, "\n");
  }

  /** No lines give the empty message; a single line is posted as it is. */
  lemma MessageEdgeCases(line: string)
    ensures Message(Lines([])) == Ok("")
    ensures Message(Lines([line])) == Ok(line)
  {
  }

  function NotFoundText(topic: string): string
  {
    "No support entry for " + topic + " found"
  }

  /**
   * `execute` once the topic is known, against the module's `menuItems` at that
   * point. The message is built before the acknowledgement, so content without
   * a `join` throws before anything is sent.
   */
  function Respond(items: Option<Json>, topic: string): (es: seq<Effect>)
    ensures Concludes(es)
  {
    match FindIn(items, topic, "menuItems")
    case Err(e) => CatchBlock(SUBJECT, Thrown(e))
    case Ok(None) => [Reply(NotFoundText(topic), false)]
    case Ok(Some(item)) =>
      match Message(item.content)
      case Err(e) => CatchBlock(SUBJECT, Thrown(e))
      case Ok(message) => [Reply(MESSAGE_SENT, true), Post(message)]
  }

  /**
   * `execute(interaction)`. `start` is the module state when the command is
   * invoked, `resumed` the state when the awaited selection arrives.
   */
  function Execute(start: MenuState, resumed: MenuState, topic: Option<string>, outcome: PromptOutcome)
    : (es: seq<Effect>)
    ensures WellFormedFlow(es)
  {
    match topic
    case Some(t) =>
      var es := Respond(start.menuItems, t);
      PromptedFlow([], es);
      es
    case None =>
      var p := PromptForTopic(start.selectMenu, outcome);
      var rest := match p.result
        case Topic(t) => Respond(resumed.menuItems, t)
        case Raised(f) => CatchBlock(SUBJECT, f);
      PromptedFlow(p.shown, rest);
      p.shown + rest
  }

  /** A given topic skips the prompt; otherwise the selected value is the topic looked up. */
  lemma TopicSource(start: MenuState, resumed: MenuState, t: string, outcome: PromptOutcome, v: string)
    ensures Execute(start, resumed, Some(t), outcome) == Respond(start.menuItems, t)
    ensures start.selectMenu.Some? ==>
      Execute(start, resumed, None, Selected(v)) ==
        [Prompt(PROMPT_TEXT, start.selectMenu.value)] + Respond(resumed.menuItems, v)
  {
  }

  /** The first entry with the topic is posted, joined, after the acknowledgement. */
  lemma Sent(entries: seq<Entry>, t: string, i: nat)
    requires i < |entries| && entries[i].value == t && entries[i].content.Lines?
    requires forall j :: 0 <= j < i ==> entries[j].value != t
    ensures Respond(Some(Array(entries)), t) ==
      [Reply(MESSAGE_SENT, true), Post(Join(entries[i].content.lines, "\n"))]
  {
    FindFirstWins(entries, t, i);
  }

  /** A first match whose content is not an array of lines throws before any acknowledgement or post. */
  lemma ContentWithoutJoin(entries: seq<Entry>, t: string, i: nat)
    requires i < |entries| && entries[i].value == t && !entries[i].content.Lines?
    requires forall j :: 0 <= j < i ==> entries[j].value != t
    ensures Respond(Some(Array(entries)), t) ==
      CatchBlock(SUBJECT, Thrown(Message(entries[i].content).error))
    ensures forall k :: 0 <= k < |Respond(Some(Array(entries)), t)| ==> !Respond(Some(Array(entries)), t)[k].Post?
  {
    FindFirstWins(entries, t, i);
  }

  /**
   * A file of one entry with lines `x` and `y`, loaded with every option
   * accepted: the topic `a` acknowledges and then posts `x`, a newline, `y`.
   */
  lemma OneEntryExample(s: MenuState, check: OptionCheck, outcome: PromptOutcome)
    requires forall n, o :: check(n, o).None?
    ensures var e := Entry("A", "d", "a", Lines(["x", "y"]), "", None);
      Execute(Reload(s, Parsed(Array([e])), check), s, Some("a"), outcome) ==
        [Reply(MESSAGE_SENT, true), Post("x\ny")]
  {
    var e := Entry("A", "d", "a", Lines(["x", "y"]), "", None);
    FindFirstWins([e], "a", 0);
    assert Reload(s, Parsed(Array([e])), check).menuItems == Some(Array([e]));
    assert ["x", "y"][1..] == ["y"];
    assert Join(["x", "y"], "\n") == "x" + "\n" + "y";
    assert "x" + "\n" + "y" == "x\ny";
    assert Message(Lines(["x", "y"])) == Ok(Join(["x", "y"], "\n"));
    assert Message(e.content) == Ok("x\ny");
    assert Respond(Some(Array([e])), "a") == [Reply(MESSAGE_SENT, true), Post("x\ny")];
  }

  /** A topic no entry has gives only the not-found reply. */
  lemma NotFound(entries: seq<Entry>, t: string)
    requires forall j :: 0 <= j < |entries| ==> entries[j].value != t
    ensures Respond(Some(Array(entries)), t) == [Reply(NotFoundText(t), false)]
  {
    FindMiss(entries, t);
  }

  /** Before any load, `.find` on undefined throws into the generic path. */
  lemma NothingLoaded(t: string)
    ensures Respond(None, t) ==
      [LogError(FailureText(SUBJECT, TypeError(FIND_ON_UNDEFINED))),
       Reply(FailureText(SUBJECT, TypeError(FIND_ON_UNDEFINED)), true)]
  {
  }

  /** Without a topic and without a built menu, the unguarded prompt throws before any reply. */
  lemma UnguardedPrompt(start: MenuState, resumed: MenuState, outcome: PromptOutcome)
    requires start.selectMenu.None?
    ensures Execute(start, resumed, None, outcome) ==
      [LogError(FailureText(SUBJECT, UNDEFINED_COMPONENT)), Reply(FailureText(SUBJECT, UNDEFINED_COMPONENT), true)]
  {
  }

  /** A timed-out prompt gives only the cancellation reply after the prompt. */
  lemma TimedOutCancels(start: MenuState, resumed: MenuState)
    requires start.selectMenu.Some?
    ensures Execute(start, resumed, None, TimedOut) ==
      [Prompt(PROMPT_TEXT, start.selectMenu.value), Reply(CancelText(SUBJECT), true)]
  {
  }

  /** Any other error of the prompt is logged and then replied. */
  lemma PromptErrorReported(start: MenuState, resumed: MenuState, e: JsError)
    requires start.selectMenu.Some?
    ensures Execute(start, resumed, None, Threw(e)) ==
      [Prompt(PROMPT_TEXT, start.selectMenu.value),
       LogError(FailureText(SUBJECT, e)), Reply(FailureText(SUBJECT, e), true)]
  {
  }

  /** The module-level `selectMenu` / `menuItems` of `support.js`. */
  class SupportModule {
    var menuItems: Option<Json>
    var selectMenu: Option<SelectMenu>
    /** Whether a chokidar watcher re-runs `loadMenuItems` on a change. */
    var watching: bool

    /** The module as loaded: both variables undefined, nothing watched. */
    constructor ()
      ensures menuItems == None && selectMenu == None && !watching
    {
      menuItems := None;
      selectMenu := None;
      watching := false;
    }

    function Current(): MenuState
      reads this
    {
      MenuState(menuItems, selectMenu)
    }

    /**
     * `loadMenuItems()`; `env` is `process.env.SUPPORT_ITEMS_PATH`, `file` what
     * reading and parsing it gives. Reading an unset or empty path always throws.
     */
    method LoadMenuItems(env: Option<string>, file: FileOutcome, check: OptionCheck) returns (log: seq<LogLine>)
      requires !IsSet(env) ==> file.ReadFailed?
      modifies this
      ensures Current() == Reload(old(Current()), file, check)
      ensures log == LoadLog(env, file, check)
      ensures watching == old(watching)
    {
      log := [Debug("Loading menu items from " + EnvText(env))];
      match file {
        case ReadFailed(m) =>
          log := log + [Error(LoadFailureText(env, m))];
        case ParseFailed(m) =>
          log := log + [Error(LoadFailureText(env, m))];
        case Parsed(json) =>
          menuItems := Some(json);
          var menu := SelectMenu(CUSTOM_ID, PLACEHOLDER, []);
          selectMenu := Some(menu);
          match json {
            case NonArray =>
              log := log + [Error(LoadFailureText(env, FOREACH_ON_NON_ARRAY))];
            case Array(items) =>
              var built, rejection := AddOptions(menu, items, check);
              selectMenu := Some(built);
              if rejection.Some? {
                log := log + [Error(LoadFailureText(env, rejection.value))];
              }
          }
      }
    }

    /** `watchForMenuChanges()`: no guard; `registration` is the error `chokidar.watch` throws, if any. */
    method WatchForMenuChanges(env: Option<string>, registration: Option<JsError>) returns (log: seq<LogLine>)
      modifies this
      ensures watching == (old(watching) || registration.None?)
      ensures Current() == old(Current())
      ensures log == WatchLog(env, registration)
    {
      if registration.None? {
        watching := true;
      }
      log := WatchLog(env, registration);
    }

    /** A settled change of the watched file: a registered watcher re-runs `loadMenuItems`. */
    method FileChanged(env: Option<string>, file: FileOutcome, check: OptionCheck) returns (log: seq<LogLine>)
      requires !IsSet(env) ==> file.ReadFailed?
      modifies this
      ensures old(watching) ==> Current() == Reload(old(Current()), file, check)
      ensures old(watching) ==> log == LoadLog(env, file, check)
      ensures !old(watching) ==> Current() == old(Current()) && log == []
      ensures watching == old(watching)
    {
      log := [];
      if watching {
        log := LoadMenuItems(env, file, check);
      }
    }

    /** `init()`: load, then watch. */
    method Init(env: Option<string>, file: FileOutcome, check: OptionCheck, registration: Option<JsError>)
      returns (log: seq<LogLine>)
      requires !IsSet(env) ==> file.ReadFailed?
      modifies this
      ensures Current() == Reload(old(Current()), file, check)
      ensures watching == (old(watching) || registration.None?)
      ensures log == LoadLog(env, file, check) + WatchLog(env, registration)
    {
      var loaded := LoadMenuItems(env, file, check);
      var watched := WatchForMenuChanges(env, registration);
      log := loaded + watched;
    }
  }
}
