# wechaty-group-invite, modelled in Dafny

A model of the chat bot in `src/index.ts`. The bot logs in to a chat account, accepts every friend
request, greets the new friend, and invites into one configured group chat anybody who messages it
one of the two join keywords, `进群` or `入群`. Along the way it writes every notable step to an
in-memory log journal. A small console prints that journal (`logs`) or logs the account out and
empties it (`logout`).

The model has these modules:

- `Wrappers`: `Option` and `Result`.
- `Text`: substring containment (`Contains`), which the template properties are stated with, and the
  decimal rendering of the numeric message-type tag.
- `Config`: the startup check of `WB_WHO_AM_I` and `WB_TARGET_GROUP_NAME`.
- `Client`: the chat client as the bot sees it. Contacts, rooms, messages and scan statuses are
  values. Every call the bot makes into the client is a `Command`: `FindRoom`, `AddMember`,
  `RoomSay`, `Delay`, `Accept`, `ContactSay` and `SessionLogout`.
- `Journal`: journal entries (`Log` or `Error`) and the bot's history. The history is a sequence of
  `Effect`s, each either an entry written (`Logged`) or a client call made (`Issued`). `Entries` and
  `Commands` project the history onto entries and calls. `Journaled` says what the journal holds
  after a history: the entries written since the last console logout.
- `Policy`: for each session event, the history its handler adds, as a pure function of the event,
  the room-lookup result and the configuration. `PolicyFacts` proves what each handler does.
- `Session`: the class `Bot`, holding the journal `logs` and the history `trace`. It has one method
  per handler and per console command, each updating the state step by step in the order of the
  source. Its invariant `Valid()` is `logs == Journaled(trace)`. Each handler's `ensures` ties its new
  state to the `Policy` function for that handler.

The room lookup's answer is an input: the message handler receives the `Option<Room>` that the
lookup returns. The two delays are `Delay(3000)` entries in the history, not real time.

Logging out does not clear the journal, although one might expect it to. The platform's `logout`
event only appends a line (`src/index.ts:43-45`); it does not clear anything. Only the console `logout`
command empties the journal, and it empties all of it (`src/index.ts:105-107`), not just some
categories. `PolicyFacts.LogoutEventKeepsJournal` and `PolicyFacts.SessionEventsOnlyAppend` state this
behaviour.

## Model

| member | source | states |
|---|---|---|
| Config.LoadConfig | src/index.ts:19-29 | Startup succeeds exactly when both variables are set. Set means present and not the empty string, since `!value` rejects both. `WB_WHO_AM_I` is checked first. A success carries the two values unchanged, both non-empty. |
| Session.Bot.constructor | src/index.ts:6 | The bot is built only from a configuration that passed the startup check, as the handlers are registered only after src/index.ts:23-29. The journal starts empty, with nothing done yet, and the invariant holds. |
| Session.Bot.DebugLog | src/index.ts:9-12 | `debug.log(t)` appends exactly one `{type: 'log', text: t}` entry at the end of the journal and changes no earlier entry. It keeps the invariant. |
| Session.Bot.DebugError | src/index.ts:13-16 | `debug.error(t)` appends exactly one `{type: 'error', text: t}` entry at the end of the journal and changes no earlier entry. |
| Session.Bot.OnScan | src/index.ts:34-39 | The scan handler adds exactly the scan reaction to the history and its entries to the journal. |
| Session.Bot.OnLogin | src/index.ts:40-42 | The login handler appends one log line naming the user and makes no call. |
| Session.Bot.OnLogout | src/index.ts:43-45 | The platform logout handler appends one log line naming the user. It keeps every earlier entry. |
| Session.Bot.OnError | src/index.ts:46-48 | The error handler appends one `error` entry, `遇到错误：` followed by the error text. |
| Session.Bot.OnMessage | src/index.ts:49-76 | The message handler adds exactly the message reaction to the history. Its journal entries, in order, go to the journal. |
| Session.Bot.InviteSender | src/index.ts:67-75 | After the lookup, the handler adds the sender, logs the invite and says the welcome if the room exists. Otherwise it only logs that the room was not found. |
| Session.Bot.OnFriendship | src/index.ts:77-88 | The friendship handler adds exactly the friendship reaction to the history and its three entries to the journal. |
| Session.Bot.Befriend | src/index.ts:78-87 | Given the welcome text, the handler's steps add exactly `Befriending(contact, greeting)` to the history and its entries to the journal. |
| Session.Bot.Handle | src/index.ts:33-88 | Delivering any event runs the matching handler to completion. Its reaction is appended to the history and its entries to the journal. |
| Session.Bot.ConsoleLogs | src/index.ts:101-104 | The `logs` command prints every journal entry, in order: `log` entries on stdout, `error` entries on stderr. It leaves the journal unchanged. |
| Session.Bot.ConsoleLogout | src/index.ts:105-107 | The `logout` command logs the session out and then leaves the journal empty. |
| Journal.Printed | src/index.ts:103 | An entry is printed with its own text, on stderr exactly when it is an `error` entry. |
| Journal.Journaled | src/index.ts:6-16 | What the `logs` array holds after a history: the entries written since the last console logout. It never holds more entries than were written. |
| Journal.JournalIsLatestEntries | src/index.ts:105-107 | The journal is always the most recent entries written, in the order they were written. |
| Journal.JournaledAppend | src/index.ts:9-16 | Any steps that are not a console logout only append their own entries, in order, at the end of the journal. |
| Journal.ClearThenAppend | src/index.ts:105-107 | After a console logout, the journal holds exactly the entries written since. |
| Text.Decimal | src/index.ts:53 | A message type prints as its decimal number: one or more digits that spell exactly `n` (by `DigitsValue`, an independent left-to-right digit fold). There is never a leading zero, and zero prints as exactly `0`. |
| Policy.IsJoinKeyword | src/index.ts:63 | The keyword test. Any text it accepts is exactly two characters ending in `群`. That exactly `进群` and `入群` trigger the lookup is stated by `PolicyFacts.LookupExactlyForKeywords`. |
| Policy.RoomWelcome | src/index.ts:72 | The welcome said in the group contains the new member's name. |
| Policy.Greeting | src/index.ts:86 | The welcome sent to a new friend contains the bot's name, the target group's name and the keyword `进群`. |
| Policy.InviteReaction | src/index.ts:67-75 | The invite step never empties the journal: none of its steps is a console logout. |
| Policy.TextReaction | src/index.ts:56-75 | The text part of the message handler never empties the journal. |
| Policy.MessageReaction | src/index.ts:49-76 | The message handler never empties the journal. |
| Policy.Befriending | src/index.ts:78-87 | The friendship handler's steps never empty the journal, whatever the welcome text. |
| Policy.Reaction | src/index.ts:33-88 | The handler dispatch: each event maps to its handler's reaction. No reaction empties the journal. |
| PolicyFacts.ScanLogsCodeOnlyWhileWaiting | src/index.ts:34-39 | Any status other than `Waiting` does nothing. `Waiting` logs one line containing the code and makes no call. |
| PolicyFacts.LoginLogoutOnlyLog | src/index.ts:40-45 | A login or logout event logs one line containing the user's name and makes no call. |
| PolicyFacts.ErrorIsLoggedAsError | src/index.ts:46-48 | An error event writes exactly one `error` entry, `遇到错误：` followed by the error text, and makes no call. |
| PolicyFacts.NonTextMessageOnlyLogs | src/index.ts:50-58 | A non-text message writes exactly two `log` entries, one with its type's number and then one with its sender's name. It makes no call. |
| PolicyFacts.OrdinaryTextOnlyLogs | src/index.ts:50-65 | A text other than the two keywords writes exactly three `log` entries: its type's number, its sender's name and its text, in that order. It makes no call, so no room lookup. |
| PolicyFacts.KeywordCalls | src/index.ts:60-67 | For a keyword message, the calls are the lookup of the target group followed by the invite step's calls. The entries are the three message lines followed by the invite step's entry. |
| PolicyFacts.InviteCalls | src/index.ts:69-75 | If the room exists, the invite step calls `AddMember` and then `RoomSay` on it, and otherwise nothing. Either way it logs one line. |
| PolicyFacts.LookupExactlyForKeywords | src/index.ts:63-67 | A message makes exactly one room lookup if it is text equal to `进群` or `入群`, and none otherwise. Every lookup is for the target group. |
| PolicyFacts.KeywordInvitesIntoFoundRoom | src/index.ts:67-72 | If the room exists, the calls are exactly: lookup, add the sender, then say in that room a text containing the sender's name. The invite log line, naming sender and group, sits between the add and the say. |
| PolicyFacts.KeywordWithoutRoomOnlyLogs | src/index.ts:67-75 | If the room does not exist, the only call is the lookup: no add and no say. The fourth entry is a `log` line naming the group. |
| PolicyFacts.GreetingTeachesKeyword | src/index.ts:86 | The greeting contains a text that the message handler accepts as a join keyword. |
| PolicyFacts.BefriendingSteps | src/index.ts:78-87 | Whatever the welcome text, the calls are exactly `Delay(3000)`, `Accept`, `Delay(3000)`, then `ContactSay` with that text. The entries are exactly the three log lines. |
| PolicyFacts.FriendshipSteps | src/index.ts:77-88 | A friend request calls exactly `Delay(3000)`, `Accept`, `Delay(3000)`, `ContactSay`, in that order. It writes exactly its three log lines. |
| PolicyFacts.FriendshipAcceptsThenGreets | src/index.ts:77-88 | Exactly one accept and one greeting go to the requester, each after a 3000 ms delay. The greeting names both the bot and the group. Three `log` entries are written, each naming the requester. |
| PolicyFacts.ReplayKeepsJournal | src/index.ts:33-88 | No run of session events empties the journal. |
| PolicyFacts.SessionEventsOnlyAppend | src/index.ts:33-88 | Any run of session events only appends entries. The old journal is a prefix of the new one, followed by exactly the run's entries. |
| PolicyFacts.LogoutEventKeepsJournal | src/index.ts:43-45 | A platform logout event keeps every earlier entry and adds one line naming the user. |

## Left out

- The chat library itself is outside the model: building the client, `start`, `stop` and its object model. Its calls appear only as `Command`s in the history, and the room lookup's answer is an input.
- The model assumes every client call returns normally. A call that rejects, such as a failed `add` or `say`, would abandon the rest of its handler; that path is not modelled.
- Handlers that run concurrently can interleave at their `await` points. The model runs each handler to completion on its own.
- `qrcode.generate`, which draws the QR code in the terminal, is not modelled: it is a foreign rendering library.
- Console output of `debug.log` and `debug.error` is not modelled. Only the output of the `logs` command is, as `ConsoleLine`s.
- Process glue is not modelled: reading stdin and trimming a line, the `exit` command, `SIGINT` and `process.exit`.
- `String(error)` is not modelled: an error event carries its text already converted.
- The numeric tag of text messages, `TextType = 7`, is the chat library's constant. It is taken as given, not derived.
- A broadcast hub for live observers, an SSE endpoint, a stored login state, log timestamps and log categories other than `log`/`error` are not modelled: `src/index.ts` has none of them.
