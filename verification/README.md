# Telegram referral bot: the conversation state machine and the operator console

This project models three pieces of the bot in Dafny and proves properties about them:

- **The per-user conversation** of `app/bot.py`, as one pure transition `Bot.Step(session, update, context) -> (session, effects)`.
  - The session is one of six state tags plus a scratch dictionary. The dictionary has four keys: `preferred_age`, `bank`, `comment` and `menu_msg_id`.
  - An update is a text message, a photo, a document or an inline-button press.
  - The effects are what a handler asks of Telegram and of the database:
    - render the one tracked menu;
    - send an untracked message;
    - delete the old menu;
    - answer a callback;
    - log an action;
    - persist a submission, question or report.
- **The admin-id parser** `_parse_admins` of `app/config.py`.
- **The decisions of the operator console** in `app/admin_routes.py`:
  - the signed session cookie and its check;
  - the authentication gate;
  - credential matching at login;
  - the replies to questions and reports;
  - the broadcast tally.

## How the model is organised

| module | contents |
|---|---|
| `Wrappers` | `Option`, `Result`, and Python truthiness of an optional string or integer. |
| `Text` | The Python string operations the handlers use. These are `strip`, `split`, `split(sep, 1)`, `startswith`, `lower`, `int()` and `str(int)`. Each comes with the lemmas the rest needs: split/join, the uniqueness of the first split, and the `int`/`str` round trip. |
| `Config` | The settings record, `_parse_admins` and `_is_admin`. |
| `Session` | The state tags, the scratch dictionary (a record of optional fields; a field is `Some` exactly when its key is present) and `clear_state_keep_age`. |
| `Callbacks` | The callback handlers' first-match rule, as a parser from the raw data string to a closed set of intents, and the encoder the keyboards use. |
| `Ui` | The button labels (the exact strings), the keyboards, the opaque message copy, the persisted rows and the effects. |
| `Dispatch` | The 26 `@dp.message` registrations in source order with their filters, and aiogram's first-match rule. |
| `Bot` | Every handler as a function of the session, the update and a `Context`. The `Context` carries what the handler reads from outside: the sender, the id Telegram gives the sent menu, the new submission id, the settings and the rows the listings return. `Bot.Step` joins them. |
| `BotProps` | Properties of `Bot.Step` as a whole, and of a run of steps. |
| `Console` | The console logic. It takes the MAC as an arbitrary function, and the outcome of every send as an input. |

The menu helper `_send_menu` is defined twice in the source (app/bot.py:168 and :235). The later definition is the one bound when the handlers run, and it is the one modelled.

## Model

Some members carry no row because their meaning is stated by other members:

- `Callbacks.Parse`, by `Callbacks.EncodeParse` and `Callbacks.ParseEncode`.
- `Dispatch.Registrations` and `Dispatch.Route`, by the `Dispatch` rows.
- `Ui.OfferRows` and `Ui.OffersKeyboard`, by `BotProps.OffersKeyboardHandled`.
- `Config.IsAdmin`, by `Config.IsAdminFromEnvironment` and `Bot.RecentActions`.
- `Bot.Evidence` and `Text.Lower`, by `BotProps.StepCollectsEvidence` and the three refusal examples in `Bot`.
- `Text.FirstWord`, by `BotProps.LateCommandsCollected` and `Dispatch.SkipButtons`.
- `Bot.Payload`, by `Bot.CollectPayloadStep`.

| member | source | states |
|---|---|---|
| `Config.CollectIds` | app/config.py:10-17 | Pieces that are empty once stripped, and pieces that are not integers once stripped, are skipped. No other piece is skipped. The result has at most one id per piece, and an id is in it exactly when some piece parses to it. |
| `Config.ParseAdmins` | app/config.py:6-18 | A missing or empty value gives no ids. Otherwise an id is in the result exactly when some comma-separated piece, once stripped, is its decimal text. There are at most as many ids as pieces, and the function never fails. |
| `Config.CollectIdsAppend` | app/config.py:10-17 | The ids of two lists of pieces put together are the ids of the first list followed by those of the second. So the pieces contribute in input order, each on its own. |
| `Config.CollectIdsOne` | app/config.py:11-17 | A single piece contributes exactly one id when it parses once stripped, and nothing otherwise. Together with `Config.CollectIdsAppend` this fixes both the order and the count of the result. |
| `Config.ParseAdminsPieces` | app/config.py:6-18 | Parsing a non-empty comma-join of comma-free pieces gives the ids those pieces contribute, in order. |
| `Config.ParseAdminsRoundTrip` | app/config.py:6-18 | Parsing the comma-join of the decimal renderings of any list of ids gives back the same list, in order. |
| `Config.IsAdminFromEnvironment` | app/config.py:44 | With `admin_ids` loaded from a non-empty `ADMIN_IDS`, a user is an admin exactly when some piece of the variable is that user's id. |
| `Session.SoftClear` | app/bot.py:145-150 | The state becomes none. The dictionary keeps only `preferred_age`, and only when it was truthy. `bank`, `comment` and `menu_msg_id` are gone. |
| `Session.SoftClearIdempotent` | app/bot.py:145-150 | Clearing twice is the same as clearing once. |
| `Session.SoftClearForgetsAllButAge` | app/bot.py:145-150 | Two sessions with the same `preferred_age` clear to the same session, whatever their states and other keys. |
| `Callbacks.PayloadAfter` | app/bot.py:511 | For data of the form `prefix::rest` with a colon-free prefix, `split("::", 1)[1]` is exactly `rest`, including any further `::` inside it. |
| `Callbacks.EncodeParse` | app/bot.py:321-777 | The callback first-match rule loses nothing: re-encoding the intent a data string is routed to gives back that string. So two different strings never reach the same handler with the same payload. |
| `Callbacks.ParseEncode` | app/bot.py:321-777 | The data string of every handled intent is routed back to that intent. No earlier exact or prefix filter steals it. |
| `Dispatch.FirstTrue` | app/bot.py:312-977 | Over the registrations' verdicts on a message: the chosen registration accepts it, and every registration before it rejects it. With no choice, every registration rejects it. |
| `Dispatch.FirstTrueIs` | app/bot.py:312-977 | A registration that accepts, with no earlier one accepting, is the one that runs. |
| `Dispatch.FirstTrueSkip` | app/bot.py:312-977 | Registrations that all reject a message can be skipped without changing which one runs. |
| `Dispatch.SkipButtons` | app/bot.py:312-799 | A message that is no button label and no early command is routed as if the button handlers were not registered. |
| `Dispatch.ShadowedNeverRun` | app/bot.py:717-720 | The second registrations of the tasks label (:717) and of the report-card label (:884) never run, in any state, for any message. |
| `Dispatch.CollectorRuns` | app/bot.py:801-812 | In the bank and comment states, a text that is no button label and no early command goes to that state's collector. This includes `/my` and `/actions`, which are registered after the collectors. |
| `Dispatch.ContentCollectorRuns` | app/bot.py:814-943 | In the evidence, question and report states, a message with content that is no label and no early command goes to that state's collector. |
| `Dispatch.CollectorNeedsState` | app/bot.py:801-943 | A collector runs only in its own state. |
| `Dispatch.CollectorPositions` | app/bot.py:801-943 | Each collector is registered behind its own state filter. |
| `Bot.ClearMenu` | app/bot.py:158-166 | The old menu is deleted only when `menu_msg_id` is truthy. At most one deletion happens, and it names the stored id. |
| `Bot.SendMenu` | app/bot.py:235-247 | The old menu is deleted exactly when the stored id is truthy. The new menu is always sent last. Afterwards `menu_msg_id` is the new message's id, and the state and every other key are unchanged. |
| `Bot.ShowTasks` | app/bot.py:357-369 | With a truthy age, the offer list for that age is shown. Without one, the age question is shown. Either way it is the one tracked menu, and only `menu_msg_id` changes. |
| `Bot.ShowTasksOrMain` | app/bot.py:249-261 | With a truthy age, the offer list is shown. Without one, the main menu is shown. Only `menu_msg_id` changes. |
| `Bot.StoreAgeAndShow` | app/bot.py:400-416 | `preferred_age` is overwritten with the given text and the state becomes none. Every other key is kept except the menu id. The age choice is logged first. The offer list shows the 14+ offers only for exactly "14+", and the 18+ offers otherwise. |
| `Bot.ShowBanksByAge` | app/bot.py:225-233 | With a truthy age the state becomes none, as when picking that age again. Without one the state is kept. Either way one tracked menu is rendered, the bank, comment and age are untouched, and the callback is answered. |
| `Bot.SpecialNames` | app/bot.py:152-156 | Exactly the Alfa and T-Bank offer names have special instructions. |
| `Bot.PickBank` | app/bot.py:466-476 | The name is stored as `bank` and the state becomes the comment step. The choice is logged, and the comment prompt becomes the tracked menu. |
| `Bot.BankSelection` | app/bot.py:440-476 | Whatever the name, one tracked menu is shown and nothing is persisted. Either the state and `bank` are left as they were, or the comment step starts with the name stored as `bank`. |
| `Bot.BankSelectionCases` | app/bot.py:440-476 | The two special offers show their instruction menu, and the MTS offer shows a coming-soon menu. Both leave the state and `bank` untouched. Any other name is logged and stored, and starts the comment step. |
| `Bot.BeginTask` | app/bot.py:515-530 | A special offer shows its instructions as the menu. Any other payload only answers the callback. The state never changes and nothing is persisted. |
| `Bot.SendStart` | app/bot.py:295-310 | The first effect deletes the old menu exactly when `menu_msg_id` is truthy, and then it names the stored id. Every deletion names the stored id. The last effect shows the welcome with the "next" keyboard, as a photo when a start photo id is set and as text otherwise, and it becomes the one tracked menu. Only `menu_msg_id` changes. |
| `Bot.CollectBankStep` | app/bot.py:801-805 | The stripped text becomes `bank` and the state moves to the comment step. A message without text raises and changes nothing. |
| `Bot.CollectCommentStep` | app/bot.py:807-812 | A stripped "-" stores a comment of none. Any other text stores its stripped form. The state moves to the evidence step. A message without text raises. |
| `Bot.RefusalIgnoresCaseAndSpace` | app/bot.py:821 | " No " is a refusal: the text is lower-cased and then stripped before the comparison. |
| `Bot.CyrillicRefusal` | app/bot.py:821 | "НЕТ" is a refusal. |
| `Bot.LongerAnswerIsNoRefusal` | app/bot.py:821 | "no thanks" is not a refusal. The whole stripped text must be "нет" or "no". |
| `Bot.CollectEvidenceStep` | app/bot.py:814-848 | Unacceptable input reprompts and changes nothing. Otherwise exactly one submission with the stored bank and comment and the evidence file is persisted and logged, and the session is soft cleared. |
| `Bot.CollectPayloadStep` | app/bot.py:851-881 | With neither a truthy text nor a truthy file id, the user is reprompted and nothing changes. Otherwise exactly one question or report with `message = text or ""` is persisted, and the session is soft cleared. |
| `Bot.Limit` | app/bot.py:947 | A listing query returns a prefix of the rows. Its length is the number of rows when there are at most `n`, and `n` otherwise. |
| `Bot.OwnRows` | app/bot.py:948-950 | A row is kept exactly when the sender exists and the row's user id is the sender's. |
| `Bot.OwnRowsAppend` | app/bot.py:948-950 | Filtering two lists put together gives the kept rows of the first followed by those of the second, so the filter keeps the rows' order. |
| `Bot.OwnRowsOne` | app/bot.py:948-950 | A single row is kept, once, exactly when it belongs to the sender. With `Bot.OwnRowsAppend` this fixes order and multiplicity. |
| `Bot.OwnRowsAllOwn` | app/bot.py:948-950 | When every row belongs to the sender, the filter returns the rows unchanged. |
| `Bot.MySubmissions` | app/bot.py:945-960 | The reply lists exactly the sender's rows among the latest ten, or says there are none exactly when no such row exists. |
| `Bot.MySubmissionsAllOwn` | app/bot.py:945-960 | When all recent rows are the sender's, the reply lists the first ten of them in the order the query returned them. |
| `Bot.MySubmissionsOrder` | app/bot.py:945-960 | Splitting the latest ten rows anywhere, the listed rows are the sender's rows of the first part followed by those of the second, so the listing keeps the query's order. |
| `Bot.RecentActions` | app/bot.py:962-977 | A sender that is missing or not an admin is refused. An admin gets "no events" exactly when the log is empty, and otherwise exactly the listing of the latest fifteen actions. |
| `BotProps.OnMessageTracksMenu` | app/bot.py:312-977 | Every message handler renders at most one tracked menu and records its id as `menu_msg_id`, or renders none and keeps or forgets the id. It persists at most one row. Only the evidence, question and report collectors persist anything. |
| `BotProps.OnCallbackTracksMenu` | app/bot.py:321-785 | Every callback handler keeps the one-menu rule and persists nothing. The callback is answered exactly when the data string has a handler. |
| `BotProps.StepTracksMenu` | app/bot.py:312-977 | Every update keeps the one-menu rule and persists at most one row. A button press persists none. |
| `BotProps.OnMessageWellFormed` | app/bot.py:801-848 | From a session where the comment step implies a stored bank, and the evidence step implies a bank and a comment, every message handler leads to such a session. |
| `BotProps.OnMessageNamesBank` | app/bot.py:814-848 | From such a session, every submission a message handler persists names a bank. |
| `BotProps.OnCallbackWellFormed` | app/bot.py:321-785 | Every callback handler keeps the submission dialog well formed. |
| `BotProps.StepWellFormed` | app/bot.py:312-977 | One update keeps the dialog well formed, and every submission it persists names a bank. |
| `BotProps.RunWellFormed` | app/bot.py:312-977 | However a user goes through the bot, from a well-formed session, every persisted submission names a bank. |
| `BotProps.FreshRunsNameBank` | app/bot.py:312-977 | This holds for a user the bot has never seen. |
| `BotProps.LabelsBeatCollectors` | app/bot.py:312-799 | A button label is taken in every state, and never by a collector. Typing a menu button inside a dialog runs the button's handler. |
| `BotProps.EarlyNotCollector` | app/bot.py:312-799 | No registration ahead of the collectors is a collector. |
| `BotProps.InlineKeyboardsHandled` | app/bot.py:78-118 | Every button of the fixed inline keyboards carries data some callback handler takes. |
| `BotProps.OfferIntroKeyboardHandled` | app/bot.py:449-454 | The start-task button carries the offer it was shown for. |
| `BotProps.OffersKeyboardHandled` | app/bot.py:274-282 | Each offer button picks its own offer. The switch button switches to the other age, and switching twice on "14+" or "18+" returns to the start. |
| `BotProps.ReplyKeyboardHandled` | app/bot.py:135-143 | Every key of the main reply keyboard is a label that some handler takes in every state. |
| `BotProps.SendMenuReplaces` | app/bot.py:235-247 | A second tracked menu deletes the first one, when the first has a non-zero id. |
| `BotProps.CancelShowsTasksOrMain` | app/bot.py:608-616 | Both cancel buttons soft clear, then show the offer list when the kept age is truthy and the main menu otherwise. The session becomes the soft clear plus the new menu id, and nothing is deleted. |
| `BotProps.GoMainLeavesOldMenu` | app/bot.py:602-606 | "Home" soft clears before showing the main menu, so the old menu is never deleted. The session becomes the soft clear plus the new menu id. |
| `BotProps.SwitchAgeStoresAnyAge` | app/bot.py:547-550 | The switch-age button stores its payload as the age without checking it, and becomes idle. |
| `BotProps.StepCollectsBank` | app/bot.py:801-805 | In the bank step, any text other than a label or early command is stored, stripped, as the bank. The state moves to the comment step. |
| `BotProps.StepCollectsComment` | app/bot.py:807-812 | In the comment step, such text sets the comment, with "-" giving none, and moves to the evidence step. |
| `BotProps.StepCollectsEvidence` | app/bot.py:814-848 | In the evidence step, a photo, document or refusal persists exactly one submission and soft clears. Any other text reprompts and changes nothing. |
| `BotProps.EmptyTextIgnoredInEvidence` | app/bot.py:814 | An empty text in the evidence step matches no registration, so it changes nothing. |
| `BotProps.LateCommandsCollected` | app/bot.py:801-805 | In the bank step a slash command other than /start, /help and /submit is collected as the bank name. `/my` and `/actions` are among these. |
| `Console.SessionSecret` | app/admin_routes.py:22-29 | The panel secret wins when truthy, else the API key. With neither, the request fails with 500. |
| `Console.AllowedLogins` | app/admin_routes.py:31-35 | Reading the credentials attribute fails with 500 exactly when it is not declared on the settings. Otherwise a login is allowed exactly when it is a configured login, or the decimal panel user id when that id is truthy. |
| `Console.Sign` | app/admin_routes.py:37-40 | A token is the user id, a dot, and the MAC of the id under the secret. It fails with 500 exactly when there is no secret. |
| `Console.VerifySession` | app/admin_routes.py:42-55 | A missing or empty cookie verifies to nothing. A verified id never contains a dot, and its cookie is ASCII. A dotted cookie fails with 500 when there is no secret or the cookie has a non-ASCII character, because `compare_digest` raises on such text. The only other failure is reading an undeclared credentials attribute after the signature matched. A verified id is admitted: the allowed list is empty or holds it. |
| `Console.SplitSigned` | app/admin_routes.py:46 | Splitting a token of a dot-free id on its first dot gives back the id and the digest. |
| `Console.SignVerify` | app/admin_routes.py:37-55 | With the credentials attribute declared, a token signed for an admitted, dot-free ASCII id verifies to that id. Admission needs the attribute declared; the undeclared case is `Console.SignedCookieFailsAsWritten`. |
| `Console.NonAsciiCookieFails` | app/admin_routes.py:42-51 | With a secret configured, a cookie with a dot and a non-ASCII character fails with 500, whatever id it carries. |
| `Console.VerifyIsSignature` | app/admin_routes.py:42-55 | A cookie verifies to an id exactly when it is that id's token, the id is ASCII with no dot, the credentials attribute is declared, and the allowed list is empty or contains the id. |
| `Console.DottedTokenMismatch` | app/admin_routes.py:46-51 | With dot-free digests, the token of an id containing a dot splits at the id's own dot, and the signature of that prefix differs from the token. |
| `Console.DottedIdNeverVerifies` | app/admin_routes.py:37-55 | With dot-free digests, the token of an ASCII id containing a dot never verifies. |
| `Console.VerifyAdmin` | app/admin_routes.py:57-65 | The gate passes exactly when a configured API key equals the header, or the cookie verifies to a non-empty id. Otherwise it answers 500 exactly when verifying the cookie fails, and 401 in every other case. |
| `Console.RequireCredentials` | app/admin_routes.py:69-78 | Reading an undeclared credentials attribute is 500. Otherwise the pairs are the configured ones, plus the panel user id and password when both are truthy, and having none at all is 500. |
| `Console.Login` | app/admin_routes.py:223-244 | Login succeeds exactly when the credentials load, some pair equals both inputs and signing succeeds, and then its cookie is the signed id. Failing to load the credentials is 500, a matching pair with no secret is 500, and no matching pair is 401. No failure sets a cookie. |
| `Console.LoginConfiguredPair` | app/admin_routes.py:223-244 | With the credentials attribute declared and a secret configured, a configured pair logs in and its cookie is the signed id. |
| `Console.LoginOpensGate` | app/admin_routes.py:31-65 | The cookie from a successful login for a non-empty, dot-free ASCII id passes the gate. A login succeeds only with the credentials attribute declared (`Console.LoginFailsAsWritten`). |
| `Console.NonAsciiLoginFailsGate` | app/admin_routes.py:37-65 | A successful login for an id with a non-ASCII character sets a cookie the gate answers with 500, unless the API key header passes first. A login succeeds only with the credentials attribute declared. |
| `Console.LoginFailsAsWritten` | app/admin_routes.py:69-78 | With the credentials attribute undeclared, as `Settings` (app/config.py:21-33) leaves it, every login answers 500, whatever the inputs. |
| `Console.SignedCookieFailsAsWritten` | app/admin_routes.py:42-53 | With the attribute undeclared and a secret configured, the correctly signed cookie of any dot-free ASCII id answers 500 after its signature matches. |
| `Console.GateNeedsApiKeyAsWritten` | app/admin_routes.py:57-65 | With the attribute undeclared, the gate passes exactly when a configured API key equals the header. No cookie opens it. |
| `Console.ReplyQuestion` | app/admin_routes.py:106-128 | A missing question gives 404, and a falsy user id gives 400, both before any send. A failed send gives 502 and logs nothing. Otherwise exactly one `question_reply` is logged after the send. |
| `Console.ReplyReport` | app/admin_routes.py:130-153 | Same precedence as a question reply. On success `report_reply` is logged and the report is deleted after it. On 404, 400 or 502 nothing is deleted. |
| `Console.ReplyReportLikeQuestion` | app/admin_routes.py:106-153 | A report reply answers with the same status and the same send as a question reply. It differs only in the logged action and the deletion. |
| `Console.CountDelivered` | app/admin_routes.py:163-168 | No more sends succeed than were attempted. |
| `Console.Broadcast` | app/admin_routes.py:155-175 | One send attempt is made per id, in order. `sent + failed == total == len(ids)`, and `sent` is the number of successful attempts. Exactly one `broadcast` action carrying the counts is logged last. |
| `Text.Strip` | app/config.py:11 | The result has no leading or trailing whitespace. A string already without edge whitespace is returned unchanged. The result is empty exactly when the input is all whitespace. |
| `Text.StripPadded` | app/bot.py:821 | A word with one space on each side strips back to the word. |
| `Text.StripIsCut` | app/config.py:11 | The result is a slice of the input, and everything cut off before and after it is whitespace. |
| `Text.Split` | app/config.py:10 | Joining the pieces with the separator gives back the input. |
| `Text.SplitJoin` | app/config.py:10 | Splitting a join of separator-free pieces gives back the pieces. |
| `Text.ParseInt` | app/config.py:15 | A string parses exactly when it is one or more ASCII digits, optionally after one '+' or '-'. Its value is the digits' decimal value, negated after '-'. A string that parses is non-empty and holds no whitespace, comma or dot. |
| `Text.ParseIntCanonical` | app/config.py:15 | A string that parses, written without '+', without a leading zero and not as "-0", is exactly the decimal text of its value. |
| `Text.SplitOnce` | app/admin_routes.py:46 | `split(sep, 1)` cuts at the first occurrence of the separator: the parts joined around it give back the input, and the first part holds no occurrence. It fails exactly when the separator does not occur. |
| `Text.IntToString` | app/admin_routes.py:34 | The decimal text of an integer parses back to it. |

## Left out

- Telegram and aiogram I/O: polling, the actual sends and deletions, and retries. A handler's Telegram calls are modelled as the effects it emits. A send that raises would abort a handler halfway, and that is not modelled.
- A failed menu deletion is swallowed in the source. The model emits the deletion and carries on, which is the same outcome.
- The photo-or-file fallback of `send_start` (app/bot.py:295-310) is reduced to two cases: the photo by file id, or plain text. The `start_photo_path` file upload is left out because it is file-system I/O.
- Commands with an `@botname` suffix or with a caption are not modelled. A command is the first whitespace-separated word of a text message.
- `str.lower()` is modelled only for ASCII and the Cyrillic alphabet, which covers the sentinels "нет" and "no".
- `int()` is modelled as an optional sign and ASCII digits. Python also accepts underscores between digits and non-ASCII digits, and those are left out.
- A non-text message in the bank or comment state raises on `None.strip()` (app/bot.py:803, 809). It is modelled as a single `Crash` effect that changes nothing.
- The database (app/db.py) is a collaborator:
  - writes are effects;
  - the id of a new submission and the rows the listings read are inputs;
  - `delete_question`, `delete_report` and `count_users_all` are not defined in app/db.py.
  - `reject_question` calls `delete_question` (app/admin_routes.py:196) and is not modelled.
  - `/stats/users` calls `count_users_all` (app/admin_routes.py:102), so it always answers 500. It is not modelled.
- `Console.ReplyReport`: as written, a successful report reply raises `AttributeError` at the missing `delete_report` (app/admin_routes.py:152), after the send and the `report_reply` log. So it answers 500 and the report stays stored. The model answers 200 and emits the evidently intended deletion as a database write.
- `settings.admin_credentials` is read by the console (app/admin_routes.py:32, 70) but is not a field of `Settings` (app/config.py:21-33). Reading it raises `AttributeError`, which the console answers with 500. `Console.Panel` models the attribute as `Undeclared`, the code as written, or `Declared`, the evidently intended list (see "## Findings").
- `Console.RequireCredentials`: the source appends the panel pair to the configured list in place, so the stored list grows on every request. The model returns a fresh list each time. The decision is the same, because a repeated pair changes no match.
- HMAC-SHA256 is replaced by an arbitrary MAC function whose output is ASCII, as a hex digest is. `hmac.compare_digest` is string equality, plus the `TypeError` it raises on non-ASCII `str` arguments, which the console answers with 500. Timing is not modelled.
- Concurrency between users and between the bot and the console is not modelled. One user's updates are a sequence.
- `Settings.load` reads the environment, and only its `_parse_admins` call is modelled.
- The console's listing endpoints, the card routes, `logout` and the static pages are left out because they make no decisions.
- The Russian message copy, including `_instruction_text`, is opaque. Each text is a constant of `Ui.Copy`.
- `all_banks_inline_keyboard` (app/bot.py:284-293) is never used by a handler, so it is not modelled.
- The first `_send_menu` (app/bot.py:168-172) is rebound by the second before any handler runs, so it is not modelled.
- `Bot.OnMessage`, `Bot.OnCallback` and `Bot.Step` carry no contracts of their own. Their properties are the `BotProps` lemmas about them, listed above.
- The evidence collector's filter (`F.text | F.photo | F.document`, app/bot.py:814) rejects an empty text before the handler runs, so an empty text in the evidence step matches no registration, changes nothing and is not reprompted (`BotProps.EmptyTextIgnoredInEvidence`).

## Findings

| source | as written | input that shows it | evidently intended | confidence | as-written member | corrected member |
|---|---|---|---|---|---|---|
| app/admin_routes.py:32, app/admin_routes.py:70 | Both helpers read `settings.admin_credentials`, which `Settings` (app/config.py:21-33) does not declare, so the read raises `AttributeError` and the request answers 500. Only the `x-api-key` header opens the console. | Any POST to `/admin/login`; any `session` cookie whose signature matches. | A configured list of (login, password) pairs, absent meaning none: a configured pair logs in and its cookie opens the console. | high, not executed | `Console.LoginFailsAsWritten`, `Console.SignedCookieFailsAsWritten`, `Console.GateNeedsApiKeyAsWritten` | `Console.LoginConfiguredPair`, `Console.LoginOpensGate`, `Console.SignVerify` |
