/**
 * The `wiki` command: posts a link to a wiki topic, found in the items of a
 * menu helper configured for `WIKI_ITEMS_PATH`. It has no check for an empty
 * or missing snapshot: a lookup before any load throws into the generic path.
 */
module Wiki {
  import opened Wrappers
  import opened Platform
  import opened Topics
  import opened MenuCommandUtilities

  const ENV_VAR_NAME := "WIKI_ITEMS_PATH"
  const CUSTOM_ID := "wiki-selector"
  const PLACEHOLDER := "Select a wiki topic"

  /** What the catch block says it could not send. */
  const SUBJECT := "wiki link"

  const DEFAULT_PREAMBLE := "Check out the following link for more information:"
  const LINK_SENT := "Link sent!"

  /** The command's `data`. */
  function CommandData(): (d: SlashCommand)
    ensures d.name == "wiki" && d.defaultMemberPermissions.None?
    ensures d.options == [TopicOption("The name of the wiki topic to send")]
  {
    SlashCommand("wiki", "Links to wiki topics", [TopicOption("The name of the wiki topic to send")], None)
  }

  /** The module's `menuHelper`. */
  method CreateHelper() returns (h: MenuCommandHelper)
    ensures fresh(h)
    ensures h.envVarName == ENV_VAR_NAME && h.customId == CUSTOM_ID && h.placeholder == PLACEHOLDER
    ensures h.menuItems.None? && h.selectMenu.None? && !h.watching
  {
    h := new MenuCommandHelper(ENV_VAR_NAME, CUSTOM_ID, PLACEHOLDER);
  }

  /** `init()`: load, then watch. */
  method Init(h: MenuCommandHelper, env: Option<string>, file: FileOutcome, check: OptionCheck,
              registration: Option<JsError>) returns (log: seq<LogLine>)
    modifies h
    ensures h.Current() == Reload(h.customId, h.placeholder, old(h.Current()), env, file, check)
    ensures h.watching == (old(h.watching) || (IsSet(env) && registration.None?))
    ensures log == LoadLog(h.envVarName, env, file, check) + WatchForMenuChangesLog(h.envVarName, env, registration)
  {
    var loaded := h.LoadMenuItems(env, file, check);
    var watched := h.WatchForMenuChanges(env, registration);
    log := loaded + watched;
  }

  /** discord.js `hyperlink(text, url)`, rendered as Markdown. */
  function Hyperlink(text: string, url: string): string
  {
    "[" + text + "](" + url + ")"
  }

  /** `selectedItem.preamble ?? DEFAULT_PREAMBLE`. */
  function Preamble(e: Entry): string
  {
    e.preamble.GetOr(DEFAULT_PREAMBLE)
  }

  /** `${preamble} ${link}`. */
  function LinkMessage(e: Entry): string
  {
    Preamble(e) + " " + Hyperlink(e.description, e.href)
  }

  /**
   * The preamble, one space, then the link: a given preamble is used as it is,
   * even when empty (`??`, not `||`); only a missing one is replaced.
   */
  lemma LinkMessageLayout(e: Entry)
    ensures e.preamble.Some? ==> Preamble(e) == e.preamble.value
    ensures e.preamble.None? ==> Preamble(e) == DEFAULT_PREAMBLE
    ensures var m, p := LinkMessage(e), Preamble(e);
      |m| == |p| + |e.description| + |e.href| + 5 &&
      m[..|p|] == p && m[|p|..|p| + 2] == " [" &&
      m[|p| + 2..|p| + 2 + |e.description|] == e.description &&
      m[|p| + 2 + |e.description|..|p| + 4 + |e.description|] == "](" &&
      m[|m| - |e.href| - 1..|m| - 1] == e.href && m[|m| - 1] == ')'
  {
  }

  function NotFoundText(topic: string): string
  {
    "No wiki entry for " + topic + " found"
  }

  /** `execute` once the topic is known, against what `getMenuItems()` then returns. */
  function Respond(items: Option<Json>, topic: string): (es: seq<Effect>)
    ensures Concludes(es)
  {
    match FindIn(items, topic, "menuHelper.getMenuItems(...)")
    case Err(e) => CatchBlock(SUBJECT, Thrown(e))
    case Ok(None) => [Reply(NotFoundText(topic), false)]
    case Ok(Some(item)) => [Reply(LINK_SENT, true), Post(LinkMessage(item))]
  }

  /**
   * `execute(interaction)`. `start` is the helper's state when the command is
   * invoked, `resumed` its state when the awaited selection arrives.
   */
  function Execute(start: MenuState, resumed: MenuState, topic: Option<string>, outcome: PromptOutcome)
    : (es: seq<Effect>)
    ensures WellFormedFlow(es)
  {
    match topic
    case Some(t) =>
      var es := Respond(start.menuItems, t);
      PromptedFlow([], es);
      es
    case None =>
      var p := PromptForTopic(start.selectMenu, outcome);
      var rest := match p.result
        case Topic(t) => Respond(resumed.menuItems, t)
        case Raised(f) => CatchBlock(SUBJECT, f);
      PromptedFlow(p.shown, rest);
      p.shown + rest
  }

  /** A given topic skips the prompt; otherwise the selected value is the topic looked up. */
  lemma TopicSource(start: MenuState, resumed: MenuState, t: string, outcome: PromptOutcome, v: string)
    ensures Execute(start, resumed, Some(t), outcome) == Respond(start.menuItems, t)
    ensures start.selectMenu.Some? ==>
      Execute(start, resumed, None, Selected(v)) ==
        [Prompt(PROMPT_TEXT, start.selectMenu.value)] + Respond(resumed.menuItems, v)
  {
  }

  /** The first entry with the topic is linked; the acknowledgement precedes the one channel post. */
  lemma Sent(entries: seq<Entry>, t: string, i: nat)
    requires i < |entries| && entries[i].value == t
    requires forall j :: 0 <= j < i ==> entries[j].value != t
    ensures Respond(Some(Array(entries)), t) == [Reply(LINK_SENT, true), Post(LinkMessage(entries[i]))]
  {
    FindFirstWins(entries, t, i);
  }

  /** A topic no entry has, an empty array included, gives only the not-found reply. */
  lemma NotFound(entries: seq<Entry>, t: string)
    requires forall j :: 0 <= j < |entries| ==> entries[j].value != t
    ensures Respond(Some(Array(entries)), t) == [Reply(NotFoundText(t), false)]
  {
    FindMiss(entries, t);
  }

  /** Before any load, `.find` on undefined throws: the error is logged and replied, nothing is posted. */
  lemma NothingLoaded(t: string)
    ensures Respond(None, t) ==
      [LogError(FailureText(SUBJECT, TypeError(FIND_ON_UNDEFINED))),
       Reply(FailureText(SUBJECT, TypeError(FIND_ON_UNDEFINED)), true)]
  {
  }

  /** Without a topic and without a built menu, the helper's guard throws before any reply. */
  lemma GuardThrowsFirst(start: MenuState, resumed: MenuState, outcome: PromptOutcome)
    requires start.selectMenu.None?
    ensures Execute(start, resumed, None, outcome) ==
      [LogError(FailureText(SUBJECT, MENU_NOT_INITIALIZED)), Reply(FailureText(SUBJECT, MENU_NOT_INITIALIZED), true)]
  {
  }

  /** A timed-out prompt gives only the cancellation reply after the prompt. */
  lemma TimedOutCancels(start: MenuState, resumed: MenuState)
    requires start.selectMenu.Some?
    ensures Execute(start, resumed, None, TimedOut) ==
      [Prompt(PROMPT_TEXT, start.selectMenu.value), Reply(CancelText(SUBJECT), true)]
  {
  }

  /** Any other error of the prompt is logged and then replied. */
  lemma PromptErrorReported(start: MenuState, resumed: MenuState, e: JsError)
    requires start.selectMenu.Some?
    ensures Execute(start, resumed, None, Threw(e)) ==
      [Prompt(PROMPT_TEXT, start.selectMenu.value),
       LogError(FailureText(SUBJECT, e)), Reply(FailureText(SUBJECT, e), true)]
  {
  }
}
