/**
 * What the bot's host gives the commands, reduced to values: JavaScript Error
 * objects, the logger, the discord.js select menu and slash-command builders,
 * and the effects an interaction handler performs (replies, channel posts,
 * log lines). The awaited component interaction is an outcome given to the
 * model, or the first qualifying event of a sequence of events.
 */
module Platform {
  import opened Wrappers

  /** A JavaScript Error object, by its `name` and `message`. */
  datatype JsError = JsError(name: string, message: string)

  /** The text `${error}` gives for an Error object (Error.prototype.toString). */
  function ErrorText(e: JsError): string
  {
    if e.message == "" then e.name
    else if e.name == "" then e.message
    else e.name + ": " + e.message
  }

  /** A TypeError raised by the JavaScript runtime. */
  function TypeError(message: string): JsError
  {
    JsError("TypeError", message)
  }

  /** `${process.env.X}` for a variable that may be unset. */
  function EnvText(env: Option<string>): string
  {
    env.GetOr("undefined")
  }

  /** A line handed to the logger. */
  datatype LogLine = Debug(text: string) | Error(text: string)

  /** `${process.env.X}` in a watch log line, and how a chokidar watch registration ended. */
  function WatchLog(env: Option<string>, registration: Option<JsError>): seq<LogLine>
  {
    match registration
    case None => [Debug("Watching for changes in " + EnvText(env))]
    case Some(e) => [Error("Unable to watch for changes to " + EnvText(env) + ": " + ErrorText(e))]
  }

  /** One option of a string select menu; `labelText` is its label. */
  datatype MenuOption = MenuOption(labelText: string, description: string, value: string)

  /** A StringSelectMenuBuilder: its custom id, placeholder and options so far. */
  datatype SelectMenu = SelectMenu(customId: string, placeholder: string, options: seq<MenuOption>)

  /** A string option of a slash command. */
  datatype StringOption = StringOption(name: string, description: string, required: bool)

  /** What a SlashCommandBuilder holds once the command is defined. */
  datatype SlashCommand = SlashCommand(
    name: string,
    description: string,
    options: seq<StringOption>,
    defaultMemberPermissions: Option<int>)

  /** The optional `topic` argument every command declares. */
  function TopicOption(description: string): StringOption
  {
    StringOption("topic", description, false)
  }

  /** The text of the ephemeral prompt that carries the select menu. */
  const PROMPT_TEXT := "Select a topic"

  /**
   * What an interaction handler does, in order:
   *  - Prompt: `interaction.reply` with the menu in one action row (ephemeral);
   *  - Reply: `replyOrEditReply`, always ephemeral; `clearsComponents` when it
   *    passes `components: []`;
   *  - Post: `interaction.channel.send`;
   *  - LogError: `logger.error`.
   */
  datatype Effect =
    | Prompt(content: string, menu: SelectMenu)
    | Reply(content: string, clearsComponents: bool)
    | Post(content: string)
    | LogError(text: string)

  /** A component interaction on the prompt: who made it, and its first selected value. */
  datatype ComponentEvent = ComponentEvent(userId: string, value: string)

  /** How the awaited selection ended. */
  datatype PromptOutcome = Selected(value: string) | TimedOut | Threw(error: JsError)

  /**
   * `menu.awaitMessageComponent({ filter: i => i.user.id === interaction.user.id,
   * time: 60_000 })` followed by `confirmation.values[0]`, where `events` are the
   * component interactions that arrive within the time limit, in order.
   */
  function AwaitComponent(invokerId: string, events: seq<ComponentEvent>): (r: PromptOutcome)
    ensures !r.Threw?
    ensures r.Selected? <==> exists i :: 0 <= i < |events| && events[i].userId == invokerId
    ensures r.Selected? ==>
      exists i :: 0 <= i < |events| && events[i].userId == invokerId && events[i].value == r.value &&
        forall j :: 0 <= j < i ==> events[j].userId != invokerId
  {
    if |events| == 0 then TimedOut
    else if events[0].userId == invokerId then Selected(events[0].value)
    else
      var r := AwaitComponent(invokerId, events[1..]);
      assert forall i :: 1 <= i < |events| ==> events[i] == events[1..][i - 1];
      r
  }

  /** Selections by other users never influence what the invoking user's prompt returns. */
  lemma {:induction false} AwaitIgnoresOthers(
    invokerId: string, before: seq<ComponentEvent>, other: ComponentEvent, after: seq<ComponentEvent>)
    requires other.userId != invokerId
    ensures AwaitComponent(invokerId, before + [other] + after) == AwaitComponent(invokerId, before + after)
  {
    var xs, ys := before + [other] + after, before + after;
    if before == [] {
      assert xs[0] == other && xs[1..] == after;
      assert ys == after;
    } else {
      assert xs[0] == before[0] && ys[0] == before[0];
      if before[0].userId != invokerId {
        assert xs[1..] == before[1..] + [other] + after;
        assert ys[1..] == before[1..] + after;
        assert AwaitComponent(invokerId, xs) == AwaitComponent(invokerId, xs[1..]);
        assert AwaitComponent(invokerId, ys) == AwaitComponent(invokerId, ys[1..]);
        AwaitIgnoresOthers(invokerId, before[1..], other, after);
      }
    }
  }

  /** A thrown error as the catch block of every `execute` tells them apart. */
  datatype Fault = CollectorTimeout | Thrown(error: JsError)

  /** How topic resolution ended: with a topic, or with a thrown error. */
  datatype TopicResult = Topic(topic: string) | Raised(fault: Fault)

  /** The effects of `promptForTopic` and what it returned or threw. */
  datatype Prompted = Prompted(shown: seq<Effect>, result: TopicResult)

  /** `promptForTopic` past its guard: it replies with the menu, then awaits the selection. */
  function Ask(menu: SelectMenu, outcome: PromptOutcome): (p: Prompted)
    ensures p.shown == [Prompt(PROMPT_TEXT, menu)]
    ensures outcome.Selected? <==> p.result.Topic?
    ensures outcome.Selected? ==> p.result.topic == outcome.value
    ensures outcome.TimedOut? <==> p.result == Raised(CollectorTimeout)
    ensures outcome.Threw? ==> p.result == Raised(Thrown(outcome.error))
  {
    Prompted([Prompt(PROMPT_TEXT, menu)],
      match outcome
      case Selected(v) => Topic(v)
      case TimedOut => Raised(CollectorTimeout)
      case Threw(e) => Raised(Thrown(e)))
  }

  /** `promptForTopic` throwing before it sends anything. */
  function Refuse(e: JsError): Prompted
  {
    Prompted([], Raised(Thrown(e)))
  }

  /** The cancellation text of the timeout branch. */
  function CancelText(subject: string): string
  {
    "No response received, canceling sending the " + subject
  }

  /** The text of the generic error branch, logged and replied. */
  function FailureText(subject: string, e: JsError): string
  {
    "Unable to send " + subject + ": " + ErrorText(e)
  }

  /**
   * The catch block of `execute`: an `InteractionCollectorError` (the await timed
   * out) gives the cancellation reply alone; any other error is logged and then
   * replied with the same text.
   */
  function CatchBlock(subject: string, fault: Fault): (es: seq<Effect>)
    ensures Concludes(es)
    ensures fault.CollectorTimeout? <==> |es| == 1
    ensures fault.CollectorTimeout? ==> es == [Reply(CancelText(subject), true)]
    ensures fault.Thrown? ==> es[0] == LogError(FailureText(subject, fault.error))
  {
    match fault
    case CollectorTimeout => [Reply(CancelText(subject), true)]
    case Thrown(e) => [LogError(FailureText(subject, e)), Reply(FailureText(subject, e), true)]
  }

  /**
   * How every `execute` ends: a single ephemeral reply; or an error log followed
   * by the reply carrying the same text; or the acknowledgement (which clears the
   * menu) followed by the one channel post.
   */
  predicate Concludes(es: seq<Effect>)
  {
    || (|es| == 1 && es[0].Reply?)
    || (|es| == 2 && es[0].LogError? && es[1] == Reply(es[0].text, true))
    || (|es| == 2 && es[0].Reply? && es[0].clearsComponents && es[1].Post?)
  }

  /** The whole of one `execute`: at most one prompt, first, then its conclusion. */
  predicate WellFormedFlow(es: seq<Effect>)
  {
    if |es| > 0 && es[0].Prompt? then Concludes(es[1..]) else Concludes(es)
  }

  /** The effects of a flow that starts with `shown` from `promptForTopic` and ends with `rest`. */
  lemma PromptedFlow(shown: seq<Effect>, rest: seq<Effect>)
    requires |shown| <= 1 && (|shown| == 1 ==> shown[0].Prompt?)
    requires Concludes(rest)
    ensures WellFormedFlow(shown + rest)
  {
    if shown != [] {
      assert (shown + rest)[1..] == rest;
    }
  }

  /**
   * In a well-formed flow, at most the first effect is a prompt, nothing follows a
   * channel post, and a post always comes right after the acknowledgement.
   */
  lemma {:induction false} WellFormedFlowOrder(es: seq<Effect>)
    requires WellFormedFlow(es)
    ensures forall i :: 0 < i < |es| ==> !es[i].Prompt?
    ensures forall i :: 0 <= i < |es| && es[i].Post? ==>
      i == |es| - 1 && 0 < i && es[i - 1].Reply? && es[i - 1].clearsComponents
    ensures exists i :: 0 <= i < |es| && es[i].Reply?
  {
    var rest := if |es| > 0 && es[0].Prompt? then es[1..] else es;
    var offset := |es| - |rest|;
    assert Concludes(rest);
    assert forall i :: 0 <= i < |rest| ==> rest[i] == es[i + offset];
    assert es[|es| - 1] == rest[|rest| - 1];
  }
}
