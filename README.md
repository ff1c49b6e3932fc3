# PosterFlix bot: navigation logic and Telegram client helpers

This project models the core of a Telegram bot that runs as a Cloudflare
Worker. The bot looks up movie and TV artwork through a search service
and caches each result in a key-value store under `media:<id>` for an
hour. It then lets the user browse posters and backdrops through inline
keyboards.

The model covers two source files:

- `src/entry.py`:
  - the message handler: commands, the "include a year" guard, the search and the one cache write;
  - the callback handler: the `action:...:<id>` button tokens and their dispatch;
  - the single-image pager;
  - the keyboards of the main menu, the language picker and the details page.
- `src/telegram_bot.py`:
  - the reply-markup normaliser;
  - the multipart/form-data serialiser (RFC 7578 section 4, with the delimiter syntax of RFC 2046 section 5.1.1);
  - payload assembly for messages and file uploads;
  - the handler registry `Dispatcher`.

Python dicts become ordered association lists (`PyDict.ODict`). This
keeps what the code relies on: insertion order, in-place overwrite,
`pop` and `update`.

JSON values are the `Json.Json` datatype, and Python truthiness is
`Json.Truthy`. Exceptions become `Err` results, or the `raised` flag of
a handler outcome.

The handlers are methods of `Entry.Worker`, which owns two fields:

- `cache`, a map in which a missing key means the entry expired;
- `log`, the outbound effects in the order they are awaited.

Each handler's `ensures` ties the new log and cache to an effect
function. Module `EntryLaws` proves the bot's promises about those
functions.

The imperative parts keep their loops, each proved against a reference
function:

- the nested loops of `_fix_reply_markup`;
- the `parts.extend` loop of `_build_multipart`;
- the form-field loop of `_send_file`;
- the `sorted(langs)` loop of the language picker;
- the `row1.append` steps of the pager;
- the dispatcher's handler lists.

Files:

- `wrappers.dfy`, `odict.dfy`, `json.dfy`: Option/Result, ordered dicts, JSON values.
- `text.dfy`, `sorting.dfy`, `utf8.dfy`: the `str` operations used, `sorted`, and `str.encode('utf-8')`.
- `telegram_bot.dfy`, `dispatch.dfy`: the client helpers and the registry.
- `tokens.dfy`, `media.dfy`, `views.dfy`: button tokens, the cached record, and the keyboards and captions.
- `entry.dfy`, `entry_laws.dfy`: the handlers, and what they promise.

## Model

| member | source | states |
|---|---|---|
| TelegramBot.FixReplyMarkup | src/telegram_bot.py:130-145 | The nested loops return exactly the reference normalisation `FixedMarkup`. A keyboard that is a list of lists of dicts is normalised button by button. Any other keyboard gives `Err`. |
| TelegramBot.FixLeavesOtherMarkupsAlone | src/telegram_bot.py:131-132 | A falsy markup, or a dict without `inline_keyboard`, comes back unchanged. |
| TelegramBot.FixKeepsShape | src/telegram_bot.py:133-144 | Normalising keeps the top-level key order and every other top-level value. The keyboard keeps its number of rows and each row its number of buttons, each button replaced in place by its normalised copy. |
| TelegramBot.FixButtonRenamesAliases | src/telegram_bot.py:138-141 | `callbackData` is always dropped. `callback` is dropped unless a truthy `callbackData` was used. `callback_data` takes the truthy `callbackData`, else a non-None `callback`, else keeps its old value. All other keys are untouched. |
| TelegramBot.FixButtonWithoutAliases | src/telegram_bot.py:138-142 | A button with neither alias is copied unchanged. |
| TelegramBot.PayloadFails | src/telegram_bot.py:211-218 | Without options the payload is the base dict. Assembly fails exactly when a given `reply_markup` cannot be normalised. |
| TelegramBot.PayloadKeys | src/telegram_bot.py:211-218 | The payload has distinct keys. The base keys come first in their order. A key is present iff it is a base key or an option key. |
| TelegramBot.PayloadValues | src/telegram_bot.py:184-190 | Each key holds the normalised markup (for `reply_markup`), else the option's value (options override base keys), else the base value. |
| TelegramBot.AssemblePayload | src/telegram_bot.py:213-217 | The `dict(options)` / `pop` / `update` steps produce the reference payload `AssembledPayload`. |
| TelegramBot.EditMessageTextShape | src/telegram_bot.py:220-227 | An `editMessageText` payload starts with `text`. Its other keys are exactly the option keys, such as the chat and message ids. The given text survives unless an option named `text` overrides it. Building the payload fails exactly when a given `reply_markup` cannot be normalised. |
| TelegramBot.SendMessageShape | src/telegram_bot.py:211-218 | A `sendMessage` payload starts with `chat_id`, `text`. The given text survives unless an option named `text` overrides it. |
| TelegramBot.FormOptionsFacts | src/telegram_bot.py:174-176 | An option becomes a form field iff it is not `filename` or `content_type`. |
| TelegramBot.FormOptionsGet | src/telegram_bot.py:174-176 | Each such field holds `json.dumps(v)` for a dict value and `str(v)` otherwise, and the fields have distinct keys. |
| TelegramBot.FormFields | src/telegram_bot.py:172-176 | The loop yields the reference field list. `chat_id` is the first field. `filename` and `content_type` are never fields. Every other option is a field with its dumped or stringified value. `chat_id` keeps `str(chat_id)` unless an option overrides it. |
| TelegramBot.RenderAll | src/telegram_bot.py:176 | Rendering the recorded values to text keeps the field names and their order. |
| TelegramBot.ConcatAppend | src/telegram_bot.py:151-165 | Joining after `parts.extend(more)` equals joining `parts` followed by joining `more`. |
| TelegramBot.BuildMultipart | src/telegram_bot.py:147-167 | The body is the UTF-8 encoding of the form-data text: per field in insertion order the delimiter line, the `Content-Disposition` header, the value and CRLF; then the file part with filename and `Content-Type` headers and the raw bytes; then CRLF and the close delimiter `--B--`. The header is `multipart/form-data; boundary=B`. |
| TelegramBot.FieldsTextStarts | src/telegram_bot.py:150-156 | With at least one field, the field text starts with the delimiter line. |
| TelegramBot.HeadStartsWithDelimiter | src/telegram_bot.py:150-160 | The fields followed by the file header always start with a delimiter line. |
| TelegramBot.MultipartFraming | src/telegram_bot.py:149-165 | Every body starts with the encoded `--B\r\n` and ends with exactly the encoded `--B--\r\n`. |
| TelegramBot.SendFile | src/telegram_bot.py:169-190 | The request sent matches the reference `FileRequest` for both branches: multipart on raw bytes, JSON otherwise. |
| TelegramBot.SendFileShape | src/telegram_bot.py:169-190 | Raw bytes go out as a multipart request with the right content type. Its body is the form-data body of fields that start with `chat_id` and include neither `filename` nor `content_type`. The body opens with `--B\r\n` and ends with `--B--\r\n`. A file id or URL goes out as JSON with `chat_id` first and the file field second, unless the file field is itself named `chat_id`. It fails exactly when the given `reply_markup` cannot be normalised. |
| TelegramBot.FormFieldsOfFacts | src/telegram_bot.py:172-176 | Whatever the options, the upload's form fields start with `chat_id` and never include `filename` or `content_type`. |
| Dispatch.Dispatcher.constructor | src/telegram_bot.py:68-70 | Both handler lists start empty. |
| Dispatch.Dispatcher.OnMessage | src/telegram_bot.py:72-77 | The decorator appends the function to the message handlers, leaves the other list alone and returns the function unchanged. |
| Dispatch.Dispatcher.OnCallbackQuery | src/telegram_bot.py:79-84 | The same for the callback-query handlers. |
| Dispatch.Dispatcher.RouteUpdate | src/telegram_bot.py:86-93 | A truthy `message` calls every message handler, in registration order, and no other handler. Failing that, a truthy `callback_query` calls every callback handler. Otherwise no handler is called. |
| Entry.RegisterHandlers | src/entry.py:124-176 | Loading the module registers exactly one message handler and one callback handler. |
| Tokens.EncodeJoins | src/entry.py:61-64 | Every emitted token is its fields joined with `:`. |
| Tokens.DigitsHaveNoColon | src/entry.py:100 | The decimal index in a pager token contains no `:`. |
| Tokens.SplitEncode | src/entry.py:179 | If kind, language and id contain no `:`, splitting an emitted token on `:` gives back exactly its fields. |
| Tokens.TokenFields | src/entry.py:179-188 | For such a token, `parts[0]` is its action and `parts[-1]` its media id. A `nav` token splits into 5 parts with its index, in decimal, at position 3. |
| Tokens.DecodeEncode | src/entry.py:179-188 | Reading an emitted token back gives the token. |
| Text.SplitJoin | src/entry.py:179 | Splitting a join of separator-free pieces gives the pieces back. |
| Text.JoinSplit | src/entry.py:179 | Joining the pieces of a split gives the original string. |
| Text.ParseNatToString | src/entry.py:77 | `int(str(n)) == n` for the index a token carries. |
| Text.StripFacts | src/entry.py:128 | `strip()` cuts only whitespace, from both ends, and keeps a middle piece that neither starts nor ends with whitespace. |
| Text.Take | src/entry.py:56 | `plot[:800]` is a prefix of at most 800 characters, and the whole plot when it is shorter. |
| Sorting.Sort | src/entry.py:205 | `sorted` yields an ordered permutation of the language keys. |
| Media.CacheKeyInjective | src/entry.py:168 | Distinct ids never share a cache entry. |
| Views.MainMenuCaptionPlot | src/entry.py:54-56 | The caption ends with the plot cut to its first 800 characters. |
| Views.MainMenuTargets | src/entry.py:58-66 | The menu is a row with the posters and backdrops buttons, then a row with the details button, and for an id free of `:`, each button reads back as the action it names. |
| Views.LanguageRowsShape | src/entry.py:204-208 | One row per language, in the given order, each holding that language's button. |
| Views.LanguagePickerShape | src/entry.py:202-210 | The picker has one row per language key, in sorted order. The sorted keys are a permutation of the kind's keys. The last row leads back to the main menu. |
| Views.LanguagePickerOnce | src/entry.py:202-205 | The languages of a kind are dict keys, so no language is listed twice and every language of the kind is listed. |
| Views.LanguageButtonTargets | src/entry.py:206-208 | For a kind, language and id free of `:`, a language button opens the pager at index 0 for that language. It shows the upper-cased two-letter code (or "No Language") and the number of images. |
| Views.BuildLanguageKeyboard | src/entry.py:202-210 | The `for lang in sorted(langs)` loop builds exactly the reference picker keyboard. |
| Views.Clamp | src/entry.py:94 | The index used is inside the list; it is the requested index when that is in range, else 0 below and the last index above. |
| Views.IndicatorIsNotArrow | src/entry.py:102 | The counter button can never be mistaken for Prev or Next. |
| Views.PagerRowShape | src/entry.py:97-105 | The row is Prev, counter, Next. Prev is present iff the index is positive and points one back. Next is present iff a later image exists and points one forward. The counter is always present. |
| Views.PagerShows | src/entry.py:86-112 | The pager shows an image iff the list is not empty. It then shows the image at the clamped index, with the navigation row and one Back button to `view:<kind>:<id>`. |
| Views.PagerSteps | src/entry.py:99-105 | For a kind, language and id free of `:`, following Next shows the next image and following Prev the previous one. |
| Views.BotMarkupNeedsNoFixing | src/telegram_bot.py:137-142 | The keyboards the bot builds already use `callback_data`, so normalising them changes nothing. |
| Entry.Worker.SendMainMenu | src/entry.py:51-71 | Sends one photo: the poster or the placeholder, the menu caption and the menu keyboard. The cache is unchanged. |
| Entry.Worker.HandleCommand | src/entry.py:131-140 | A known command sends its one reply, with Markdown for all but `/start`. An unknown command sends nothing. |
| Entry.Worker.Search | src/entry.py:149-173 | The log grows by the search effects. The cache gets exactly the writes among them. |
| Entry.Worker.HandleText | src/entry.py:131-170 | Dispatches the stripped text to the command, empty or search branch as the reference effects say. |
| Entry.Worker.HandleMessage | src/entry.py:125-173 | The log grows by `MessageEffects`. The cache is the old cache with that run's writes applied. |
| Entry.Worker.PagerButtons | src/entry.py:96-109 | The appends build exactly the reference pager keyboard. |
| Entry.Worker.HandlePagination | src/entry.py:73-117 | The log grows by `PagerEffects`, and the cache is unchanged. |
| Entry.Worker.HandleCallback | src/entry.py:176-255 | The log grows by the callback's effects, `raised` reports the uncaught `IndexError`, and the cache is unchanged. |
| Entry.Worker.HandleAction | src/entry.py:196-255 | After a cache hit, the log grows by the effects of the `view`, `nav`, `details` or `back` branch. `raised` reports a token too short for `parts[1]`, and the cache is unchanged. |
| EntryLaws.CommandsNeverSearch | src/entry.py:131-140 | A command sends at most one message, fetches nothing and writes nothing. It sends nothing exactly when the command is unknown. |
| EntryLaws.NoDigitPrompt | src/entry.py:143-151 | Text without a digit gets the typing action and the "include the year" prompt, and no fetch. |
| EntryLaws.SearchFetches | src/entry.py:149-154 | The search part fetches iff the query has a digit, and the fetch comes first. |
| EntryLaws.FetchRule | src/entry.py:142-154 | The search service is asked iff the stripped text is non-empty, not a command and has a digit. The request comes right after the typing action, with spaces turned into `+`. |
| EntryLaws.SearchWrites | src/entry.py:149-168 | The search part writes at most once, and does so iff the query has a digit and the response is a found record. |
| EntryLaws.CacheWriteRule | src/entry.py:131-170 | A message causes at most one cache write, and causes one iff it is a search answered with status 200 and a body with a truthy `media_id`. |
| EntryLaws.FoundSearchStores | src/entry.py:160-170 | A found search runs typing, fetch, the write under `media:<id>` with TTL 3600, then the main menu, in that order. The cache afterwards is the old one with that entry set. |
| EntryLaws.OtherMessagesKeepCache | src/entry.py:125-173 | Every other message leaves the cache as it was. |
| EntryLaws.NoopOnlyAnswers | src/entry.py:184-191 | Only `noop` is acknowledged without a cache read. Every other press first reads `media:<last field>`. |
| EntryLaws.ExpiredSession | src/entry.py:188-194 | A press whose entry is missing gets the "session expired" alert and edits nothing. |
| EntryLaws.ShortTokenRaises | src/entry.py:198-199 | A bare `view` or `back` raises `IndexError` once its lookup succeeds. |
| EntryLaws.ViewDispatch | src/entry.py:198-219 | An emitted `view` token opens the language picker for its kind and answers the query. |
| EntryLaws.DetailsDispatch | src/entry.py:224-236 | An emitted `details` token shows the details page with the one Back button. |
| EntryLaws.BackMainRestoresMenu | src/entry.py:238-255 | `back:main` restores the caption and keyboard the main-menu photo was sent with. |
| EntryLaws.NavShowsPage | src/entry.py:221-222 | An emitted `nav` token reads the entry again in the pager. It then shows the image at the token's clamped index, with that position's keyboard. |
| EntryLaws.NavWithoutImages | src/entry.py:89-91 | A language without images gets the "no images" notice and no edit. |
| EntryLaws.PagerExpired | src/entry.py:80-83 | Inside the pager, a missing entry also gets the expiry alert and no edit. |
| EntryLaws.PagerEditsIff | src/entry.py:73-117 | The pager edits iff the token is well formed, the entry is cached and the list is non-empty. The image it shows is one of the list's. |
| EntryLaws.PagerShown | src/entry.py:73-117 | The pager's outcome edits the photo exactly when the token is well formed, the entry is cached and the list is non-empty. It then holds three effects, the edit second and showing one of the list's images. Every other outcome holds no edit. |
| EntryLaws.MalformedNavAlerts | src/entry.py:75-117 | A `nav` token without 5 fields or an integer index ends in the error alert, never an unhandled exception. |
| EntryLaws.UnknownActionOnlyReads | src/entry.py:188-255 | Unknown actions, and `back` to anywhere but `main`, only read the cache. |
| EntryLaws.MenuButtonsHit | src/entry.py:58-66 | For an id free of `:`, every main-menu button for a cached record finds it and edits the message. |
| EntryLaws.MenuButtonsFindStoredRecord | src/entry.py:168-170 | After a found search whose record id is free of `:`, every button of the menu it sent finds the stored record, so none meets an expired session. |

## Left out

- TelegramBot.FixReplyMarkup: a keyboard must be a list of lists of dicts, and every other shape gives `Err`. Python's loops also accept a few odd shapes without raising: an empty string or a dict iterated in place of a list, and a button given as a list of key-value pairs. The model does not reproduce that leniency.
- The HTTP layer is not modelled: `fetch`, `_api_call` and `_post_json`. The Bot API calls appear only as recorded effects.
- The search response is a parameter (`SearchResponse`). A network failure or an undecodable body ends in the generic search-failure reply, as the handler's `except` does.
- The Worker entrypoint `Default.fetch` and the webhook management routes are request plumbing and are not modelled.
- `TelegramBot.handle_update` is called with an extra argument, and `route_update` calls handlers with one argument fewer than they declare. Handlers are modelled abstractly, so this failure at run time is not reproduced.
- Cache expiry after 3600 seconds is time-based: a missing key stands for an expired entry, and the TTL is only recorded on the write.
- `json.dumps`, `json.loads` and `repr` are not modelled. The cached record is a structured datatype. `json.dumps` and `str` of form values are function parameters.
- `secrets.token_hex(16)` is random: the boundary token is a parameter.
- Character classes are ASCII only. This covers `isdigit`, `isspace`, `upper`, `capitalize` and `int()`; `int()` also does not accept underscores.
- Record fields that are present with a null value are not modelled. A field is either missing or holds text, and media ids are strings or integers.
- `edit_message_caption` and `edit_message_media` are called by the handlers but not defined in `src/telegram_bot.py`. Their calls, and the handlers' `send_photo`, appear as effects carrying the caption or image and the keyboard. `send_photo` of a URL is the file-reference branch of `TelegramBot.SendFile`, and `Views.BotMarkupNeedsNoFixing` shows that its keyboard goes out unchanged. Because the two methods are missing, Python as written raises `AttributeError` at each call. In the pager (src/entry.py:113) the `except` at src/entry.py:116-117 catches it and answers with the "An error occurred" alert. In the view, details and back:main branches (src/entry.py:212, 235, 254) it escapes before `answer_callback_query`. The model's edit followed by a plain answer is therefore the flow the handlers intend once the two methods exist, not the flow of the code as it stands.
- The Markdown texts of the replies and alerts are not modelled. They are the `Notice` enumeration, plus the query for "nothing found", and the exception text is dropped.
- A callback query without `message` (an inline-mode press) is not modelled: chat and message ids are parameters.
- Dispatch.Dispatcher.RouteUpdate records a call to every registered handler. In Python, a handler that raises ends the `for` loop and the later handlers are not called. The bot registers one handler per list, so this difference cannot be observed.
- async scheduling is not modelled. Effects are logged in the order they are awaited.
- EntryLaws.ViewDispatch, EntryLaws.DetailsDispatch, EntryLaws.BackMainRestoresMenu, EntryLaws.NavShowsPage, EntryLaws.MenuButtonsHit, EntryLaws.MenuButtonsFindStoredRecord, Views.MainMenuTargets, Views.LanguageButtonTargets and Views.PagerSteps are stated only for ids, kinds and languages free of `:`. With a `:` inside, `parts[-1]` is no longer the id, and these lemmas say nothing. The handler then truly fails in the same way: the button `view:posters:a:b` of the id `a:b` looks up `media:b` and can meet an expired session.
