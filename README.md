# MobiFlight Discord bot: menu commands, modelled in Dafny

The bot's `wiki` and `support` slash commands, and the command factory they
were generalised into, share one shape. Each command:

- reads a JSON file of topic entries named by an environment variable;
- builds a select menu from those entries and watches the file for changes;
- answers an invocation by the `topic` argument or by prompting with the menu.

After that, the command looks the topic up, first match wins, and sends an
ephemeral acknowledgement and then one post to the channel. A timeout gets a
cancellation reply, and any other error is logged and replied.

The model consists of these files:

- `platform.dfy` (module `Platform`) holds what the host provides, as values:
  - JavaScript errors and their `${error}` text;
  - log lines, select menus and slash-command data;
  - the effects of a handler: prompt, ephemeral reply, channel post and error log;
  - the awaited component interaction: a given outcome, or the first event from the invoking user;
  - the catch block that every `execute` shares;
  - the predicate `WellFormedFlow`, the shape every `execute` has: at most one prompt, first, then one conclusion.
- `topics.dfy` (module `Topics`) holds:
  - the parsed file outcome and the topic entries;
  - the projection of entries to menu options;
  - the builder's per-option validation, which may reject the option at some index;
  - the `forEach` loop that adds options to the builder (`AddOptions`, a method with loop invariants, proved equal to the function `BuiltMenu`);
  - lookup by `find`;
  - `Array.prototype.join` and its inverse split.
- `command_factory.dfy` (module `CommandFactory`) models `createJsonCommand`:
  - the class `JsonCommand` holds the closure variables `menuItems` and `selectMenu`;
  - its `LoadMenuItems` is proved equal to the pure `Reload` and `LoadLog`;
  - `Execute` is the `execute` handler as a function from the state, the argument and the prompt outcome to the effects performed.
- `menu_command_utilities.dfy` (module `MenuCommandUtilities`) models `createMenuCommandHelper` the same way (class `MenuCommandHelper`).
- `wiki.dfy` (module `Wiki`) models the wiki command on top of a helper.
- `support.dfy` (module `Support`) models the support command's module-level state (class `SupportModule`) and its handler.

How the three loads differ:

- The factory's load resets `menuItems` to `[]` on every failure, and also when the variable is unset.
- The helper's load and support's load keep the last snapshot on a read or parse failure.
- The helper returns early when the variable is unset; support has no such check.
- The helper and support assign `menuItems` before the options are built, so a rejected option leaves the new items beside a partly built menu.
- The factory assigns in the same order, but its catch block then resets `menuItems` to `[]`, so a rejected option leaves `[]` beside the partly built menu.

Interaction state is split in two. `start` is the state when the command is
invoked; the prompt guard and a direct topic use it. `resumed` is the state
when the awaited selection arrives; the lookup after a prompt uses it, because
a file change can reload during the 60-second wait.

Two behaviours of the code matter here:

- The snapshot is not replaced atomically (`ReloadNotAtomic`).
- The support command does not accept a string `content`: it calls `join` on it, which throws (`Support.Message`), though tests/commands/support.test.js:24-38 formats one as it is.

## Model

| member | source | states |
|---|---|---|
| Platform.AwaitComponent | src/commandFactory.js:104-111 | the awaited selection is made if and only if some event comes from the invoking user's id, and its value is the one of the first such event; it never throws |
| Platform.AwaitIgnoresOthers | src/menuCommandUtilities.js:91-98 | inserting a selection by another user anywhere does not change what the prompt returns |
| Platform.Ask | src/menuCommandUtilities.js:83-98 | past the guard, the prompt is sent with the menu; a selection resolves to its value, a timeout becomes the collector error, and any other error thrown by the wait is passed on as it is |
| Platform.CatchBlock | src/commandFactory.js:174-192 | a collector timeout gives only the cancellation reply (clearing the menu); any other error is logged and then replied with the same text |
| Platform.PromptedFlow | src/commandFactory.js:135-194 | one conclusion, alone or after a single prompt, is a well-formed flow |
| Platform.WellFormedFlowOrder | src/commandFactory.js:162-172 | in every well-formed flow, no prompt comes after the first effect, a channel post is last and comes right after the clearing acknowledgement, and some reply is sent |
| Topics.OptionsOf | src/menuCommandUtilities.js:41-48 | one option per entry, in order, with label, description and value copied verbatim |
| Topics.OptionsOfPrefix | src/menuCommandUtilities.js:41-48 | the options of the first k entries are the first k options |
| Topics.AdmittedFrom | src/menuCommandUtilities.js:41-48 | from index i on, every option before the returned index is accepted, and the one at it, if any, is rejected |
| Topics.Admitted | src/menuCommandUtilities.js:41-48 | the options before the first rejected index are all accepted, and the option at that index is rejected |
| Topics.Rejection | src/menuCommandUtilities.js:41-55 | no error is thrown if and only if every option is accepted |
| Topics.BuiltMenuComplete | src/menuCommandUtilities.js:37-48 | with every option accepted, the built menu offers exactly the entries' options under the given id and placeholder |
| Topics.BuiltMenuPartial | src/menuCommandUtilities.js:41-48 | a rejected option leaves a menu with fewer options than entries, different from the full projection |
| Topics.OptionsOfExtend | src/menuCommandUtilities.js:41-48 | adding the option of entry i to the options of the first i entries gives the options of the first i + 1 |
| Topics.AddOptions | src/menuCommandUtilities.js:41-48 | the `forEach` loop leaves the builder with the accepted prefix of options and reports the first rejection's message |
| Topics.FindIndex | src/commandFactory.js:152 | the index found holds the topic and no earlier entry does; no index means no entry holds it |
| Topics.Find | src/commandFactory.js:152 | an entry is found if and only if some entry has the topic as its value; the entry found is an item with that value |
| Topics.FindFirstWins | src/commandFactory.js:152 | with duplicates, lookup returns the first entry with the value |
| Topics.FindMiss | src/commandFactory.js:152-154 | a topic no entry has is not found |
| Topics.FindIn | src/commands/general/wiki.js:42 | `find` throws on an undefined or non-array receiver, and otherwise is the first-match lookup |
| Topics.Split | src/commands/general/support.js:115 | splitting gives at least one piece (the inverse side of the join) |
| Topics.SplitWithoutSeparator | src/commands/general/support.js:115 | a line without a newline splits to itself |
| Topics.SplitAfterPiece | src/commands/general/support.js:115 | a line followed by a newline splits to that line and the split of the rest |
| Topics.SplitJoin | src/commands/general/support.js:115 | splitting the joined lines at the separator gives the lines back, empty ones included |
| Topics.JoinLength | src/commands/general/support.js:115 | the joined text has the lines' lengths plus one separator between each two lines |
| CommandFactory.Capitalize | src/commandFactory.js:165 | same length; the first character upper-cased, the rest unchanged |
| CommandFactory.CapitalizeIdempotent | src/commandFactory.js:165 | capitalizing a capitalized name changes nothing |
| CommandFactory.CapitalizeExamples | src/commandFactory.js:165 | "support", "wiki" and "test" become "Support", "Wiki" and "Test"; the empty name stays empty |
| CommandFactory.CommandData | src/commandFactory.js:114-126 | the name, the description and one optional `topic` option; default member permissions are set if and only if `permissions` is given and non-zero |
| CommandFactory.ReloadUnset | src/commandFactory.js:37-43 | with the variable unset, the items become `[]` and the menu is untouched |
| CommandFactory.ReloadSuccess | src/commandFactory.js:47-62 | a load with every option accepted stores the parsed entries and a fresh menu of one option per entry, whatever the previous state |
| CommandFactory.ReloadFailure | src/commandFactory.js:46-71 | any failure resets the items to `[]`; a read or parse failure keeps the old menu; a non-array gets the new empty menu; a rejection leaves the partly built new menu |
| CommandFactory.ReloadFaithful | src/commandFactory.js:36-72 | after any load, non-empty stored items are exactly what the menu offers |
| CommandFactory.ReloadForgetsPrevious | src/commandFactory.js:47-62 | two loads of the same file give the same state: options never accumulate |
| CommandFactory.PromptForTopic | src/commandFactory.js:90-112 | nothing is sent, and the initialization error is thrown, if and only if the menu is absent or the items are absent or empty; otherwise the prompt is sent with the menu |
| CommandFactory.NotFoundIsNotNotConfigured | src/commandFactory.js:144-160 | the not-found text never equals the not-configured text |
| CommandFactory.Respond | src/commandFactory.js:143-192 | after the topic is known, the handler ends in exactly one conclusion |
| CommandFactory.Execute | src/commandFactory.js:135-194 | every invocation is well formed: at most one prompt, first, then one conclusion (which topic is looked up, and in which state, is `CommandFactory.TopicSource`) |
| CommandFactory.DirectTopicSkipsPrompt | src/commandFactory.js:137-141 | with a topic argument nothing is prompted, and the prompt outcome and later state do not matter |
| CommandFactory.TopicSource | src/commandFactory.js:104-152 | a given `topic` argument is the topic looked up, against the items at invocation; without one, once the menu is ready, the prompt is sent and the selected value is the topic looked up, against the items when the selection arrives |
| CommandFactory.GuardThrowsFirst | src/commandFactory.js:92-94 | without a topic and with the menu not ready, the only effects are the error log and the error reply |
| CommandFactory.PromptShowsMenu | src/commandFactory.js:96-102 | from a faithful ready state, the prompt carries the menu of the stored items |
| CommandFactory.NotConfigured | src/commandFactory.js:144-150 | missing or empty items give only the not-configured reply |
| CommandFactory.NotConfiguredNeedsDirectTopic | src/commandFactory.js:92-93 | without a reload during the wait, the not-configured reply is only reachable with a direct topic |
| CommandFactory.NotConfiguredAfterFailedReloadDuringPrompt | src/commandFactory.js:140-150 | when a watched reload of a file that fails to load runs during the wait, the prompt is followed by the not-configured reply alone |
| CommandFactory.NotFound | src/commandFactory.js:152-160 | a topic no item has gives only the not-found reply, with no channel post |
| CommandFactory.Sent | src/commandFactory.js:162-172 | the first matching item is formatted; the acknowledgement "<Name> sent!" comes before the one channel post |
| CommandFactory.FormatThrows | src/commandFactory.js:162 | a formatter that throws gives the error log and reply, and no acknowledgement |
| CommandFactory.TimedOutCancels | src/commandFactory.js:175-184 | a timed-out prompt is followed only by the cancellation reply |
| CommandFactory.PromptErrorReported | src/commandFactory.js:185-192 | any other prompt error is logged and then replied as "Unable to send <name>: …" |
| CommandFactory.JsonCommand.constructor | src/commandFactory.js:23-34 | nothing is loaded and nothing is watched |
| CommandFactory.JsonCommand.LoadMenuItems | src/commandFactory.js:36-72 | the new state is `Reload` of the old one and is faithful, and the log is `LoadLog` |
| CommandFactory.JsonCommand.WatchForMenuChanges | src/commandFactory.js:74-88 | a successful registration turns watching on; the state is unchanged; the log is the watch line or the error |
| CommandFactory.JsonCommand.FileChanged | src/commandFactory.js:80 | a change re-runs the load only when a watcher is registered, and the state after it is faithful |
| CommandFactory.JsonCommand.Init | src/commandFactory.js:129-132 | load, then watch; the resulting state is faithful |
| MenuCommandUtilities.ReloadUnset | src/menuCommandUtilities.js:26-30 | with the variable unset, nothing changes |
| MenuCommandUtilities.ReloadSuccess | src/menuCommandUtilities.js:33-48 | a load with every option accepted replaces the items with the parsed entries and the menu with a fresh one of one option per entry |
| MenuCommandUtilities.ReloadRetains | src/menuCommandUtilities.js:50-55 | a read or parse failure keeps both variables |
| MenuCommandUtilities.ReloadNotAtomic | src/menuCommandUtilities.js:33-48 | a rejected option leaves the new items beside the partial new menu, which is then inconsistent with them |
| MenuCommandUtilities.UndefinedUntilParsed | src/menuCommandUtilities.js:23-35 | the items are undefined after a load if and only if they were before and this load did not parse the file |
| MenuCommandUtilities.ReloadForgetsPrevious | src/menuCommandUtilities.js:37-48 | two loads of the same parsed file give the same state, whatever came before |
| MenuCommandUtilities.PromptForTopic | src/menuCommandUtilities.js:79-99 | it throws before sending anything if and only if no menu was built; otherwise, an empty menu included, it sends the prompt with the menu and resolves as the awaited selection does (`Platform.Ask`) |
| MenuCommandUtilities.MenuCommandHelper.constructor | src/menuCommandUtilities.js:20-23 | the configuration is stored, and nothing is loaded or watched |
| MenuCommandUtilities.MenuCommandHelper.LoadMenuItems | src/menuCommandUtilities.js:25-56 | the new state is `Reload` of the old one, and the log is `LoadLog` |
| MenuCommandUtilities.MenuCommandHelper.WatchForMenuChanges | src/menuCommandUtilities.js:58-77 | with the variable unset, nothing is registered and the guard's error is logged; otherwise a successful registration turns watching on |
| MenuCommandUtilities.MenuCommandHelper.FileChanged | src/menuCommandUtilities.js:69 | a change re-runs the same load only when a watcher is registered |
| MenuCommandUtilities.MenuCommandHelper.GetMenuItems | src/menuCommandUtilities.js:101-103 | it returns the current items, undefined before any parse |
| Wiki.CommandData | src/commands/general/wiki.js:25-33 | the command is named "wiki", has no permissions and takes one optional `topic` option |
| Wiki.CreateHelper | src/commands/general/wiki.js:12-17 | the helper is configured for WIKI_ITEMS_PATH, "wiki-selector" and "Select a wiki topic", with nothing loaded |
| Wiki.Init | src/commands/general/wiki.js:20-23 | the helper loads, then watches: the state is the helper's reload, and the log is the load log followed by the watch log |
| Wiki.LinkMessageLayout | src/commands/general/wiki.js:52-55 | the preamble is the entry's own when given, even if empty, and the default otherwise; the message is the preamble, " [", the description, "](", the href and ")", each at its position |
| Wiki.Respond | src/commands/general/wiki.js:42-86 | after the topic is known, the handler ends in exactly one conclusion |
| Wiki.Execute | src/commands/general/wiki.js:34-87 | every invocation is well formed |
| Wiki.TopicSource | src/commands/general/wiki.js:36-40 | a given topic skips the prompt; otherwise the selected value is the topic looked up |
| Wiki.Sent | src/commands/general/wiki.js:57-65 | the first matching entry's link message is posted after "Link sent!" |
| Wiki.NotFound | src/commands/general/wiki.js:44-50 | a topic no entry has gives only "No wiki entry for <topic> found" |
| Wiki.NothingLoaded | src/commands/general/wiki.js:42 | before any load, `.find` on undefined throws, which is logged and replied |
| Wiki.GuardThrowsFirst | src/commands/general/wiki.js:38-40 | without a topic and without a menu, the helper's guard error is logged and replied, and nothing is prompted |
| Wiki.TimedOutCancels | src/commands/general/wiki.js:68-77 | a timed-out prompt gives only "No response received, canceling sending the wiki link" |
| Wiki.PromptErrorReported | src/commands/general/wiki.js:78-85 | any other prompt error is logged and then replied |
| Support.CommandData | src/commands/general/support.js:87-95 | the command is named "support", has no permissions and takes one optional `topic` option |
| Support.ReloadAgreesWithHelper | src/commands/general/support.js:18-44 | with the path set, support's load changes the state exactly as the shared helper's load does |
| Support.ReloadSuccess | src/commands/general/support.js:21-36 | a load with every option accepted gives the parsed entries and a fresh menu of one option per entry |
| Support.ReloadRetains | src/commands/general/support.js:38-43 | the catch block reassigns nothing: a read or parse failure keeps the snapshot, or undefined |
| Support.ReloadNotAtomic | src/commands/general/support.js:21-36 | a rejected option leaves the new items beside the partial new menu |
| Support.UnsetPath | src/commands/general/support.js:18-22 | there is no check for the variable: an unset path is read, fails, keeps the state and is logged as "undefined" |
| Support.ReloadForgetsPrevious | src/commands/general/support.js:21-36 | two loads of the same parsed file give the same state |
| Support.PromptForTopic | src/commands/general/support.js:62-79 | there is no guard: a built menu, even an empty one, is sent and resolves as the awaited selection does (`Platform.Ask`); an undefined menu fails before anything is sent |
| Support.Message | src/commands/general/support.js:115 | only an array of lines can be joined; string or missing content throws a TypeError |
| Support.MessageKeepsLines | src/commands/general/support.js:115 | the message keeps every line, empty ones included: splitting it at newlines gives the lines back, and its length is the lines' lengths plus the newlines |
| Support.MessageEdgeCases | src/commands/general/support.js:115 | `[]` gives the empty message; a single line is posted as it is |
| Support.Respond | src/commands/general/support.js:105-145 | after the topic is known, the handler ends in exactly one conclusion |
| Support.Execute | src/commands/general/support.js:96-147 | every invocation is well formed |
| Support.TopicSource | src/commands/general/support.js:99-103 | a given topic skips the prompt; otherwise the selected value is the topic looked up |
| Support.Sent | src/commands/general/support.js:105-125 | the first matching entry's joined lines are posted after "Support message sent!" |
| Support.ContentWithoutJoin | src/commands/general/support.js:115 | content without a `join` throws before any acknowledgement: no channel post |
| Support.OneEntryExample | src/commands/general/support.js:18-125 | after loading one entry with lines "x" and "y", topic "a" is acknowledged and then posted as "x\ny" |
| Support.NotFound | src/commands/general/support.js:105-113 | a topic no entry has gives only "No support entry for <topic> found" |
| Support.NothingLoaded | src/commands/general/support.js:105 | before any load, `.find` on undefined throws, which is logged and replied |
| Support.UnguardedPrompt | src/commands/general/support.js:62-69 | without a topic and without a menu, the failed prompt is logged and replied, and nothing is prompted |
| Support.TimedOutCancels | src/commands/general/support.js:128-137 | a timed-out prompt gives only the cancellation reply |
| Support.PromptErrorReported | src/commands/general/support.js:138-145 | any other prompt error is logged and then replied |
| Support.SupportModule.constructor | src/commands/general/support.js:15-16 | both module variables start undefined, and nothing is watched |
| Support.SupportModule.LoadMenuItems | src/commands/general/support.js:18-44 | the new state is `Reload` of the old one, and the log is `LoadLog`; an unset or empty path is read, and that read fails |
| Support.SupportModule.WatchForMenuChanges | src/commands/general/support.js:46-60 | there is no guard: a successful registration turns watching on, and the state is unchanged |
| Support.SupportModule.FileChanged | src/commands/general/support.js:52 | a change re-runs the load only when a watcher is registered |
| Support.SupportModule.Init | src/commands/general/support.js:82-85 | load, then watch |

## Left out

- Reading the file and parsing JSON: the model takes the outcome as input (a read error, a parse error with its message, or a value), because the JSON grammar and the file system are not this repository's code.
- A top-level `null`: the model treats it like any other non-array value (the runtime's message differs).
- Entries that are not objects, or whose fields are not strings: the model takes every array element as an object with string fields (with `[null]`, for example, the helper and support store the array and `.find` then throws on `item.value`).
- The builders' validation rules for options (lengths, duplicates, the option limit): the model takes them as an abstract check on each option added.
- The builders' validation of the menu's custom id and placeholder (`setCustomId`, `setPlaceholder`) and of the command's name and description (`setName`, `setDescription`): the model assumes they are valid. With an invalid custom id, for example an empty one, the helper's load would throw after assigning `menuItems` and keep the old menu, and an invalid command name would make `createJsonCommand` throw; neither is modelled.
- Discord's rejection of a menu with no options when it is sent: not modelled.
- chokidar's watching and its `awaitWriteFinish` settling: the model has only "a registered watcher re-runs the load on a settled change".
- The 60-second timer: the awaited selection is a given outcome, or the first event from the invoking user among those arriving in time.
- `interaction.reply` (the prompt), `replyOrEditReply` and `interaction.channel.send`: they are effects, assumed to succeed. A rejected prompt send would record no prompt and take the generic error path; `Platform.Ask` always records the prompt first. `src/utilities.js` is not part of this model, so a failing reply or send inside the catch block is out of scope.
- The logger's second argument (the error object) and log levels other than debug and error.
- JavaScript `toUpperCase` beyond ASCII: `CommandFactory.Capitalize` changes only 'a' to 'z'.
- The exact wording of the runtime's TypeErrors: the messages are kept as constants of the model.
- Support.PromptForTopic: the error thrown when the undefined `selectMenu` is put in an action row and sent comes from discord.js, whose code is not part of this model; it is a constant of the model.
- `src/commands/general/mods.js`: a constant message with no logic of its own.
- Concurrency between a reload and a running `execute` beyond the two states `start` and `resumed`: the model does not interleave effects with reloads.
