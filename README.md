# India stock alerts over WhatsApp: a Dafny model

The system is a WhatsApp bot for Indian equity markets. A scheduler broadcasts stock
picks to every subscriber at eight fixed IST times on weekdays. A webhook handles
subscribe, unsubscribe and help commands. Any other message gets an instant reply that
depends on the market session, and a REST endpoint triggers any alert by hand. The picks
come from a language model whose reply is cut down to a JSON object. Messages go out
through Twilio.

This project models the decision logic of that system and proves it:

- the session classifier and the slot table;
- the mode and report selection;
- the broadcast loop and the webhook's command router;
- the manual trigger;
- the message formatters;
- the subscriber store, as a class over a sequence;
- the text extraction applied to the model's reply, the intraday prompt context and the
  stock schema;
- the destination and credential handling of the WhatsApp service.

Four things are parameters: the clock (weekday, hour, minute and the timestamp text), the
report generator (`Request -> Result<Report, string>`), the JSON parser and the message
transport (`Outgoing -> Result<sid, string>`). Each state-changing entry point returns the
list of delivery requests it gave to the transport, in order.

Modules:

- `Wrappers`: Option and Result.
- `Text`: the Python string operations the code relies on. These are `find`, `rfind`,
  `str.replace`, `strip`, ASCII `lower`, `str(int)` and `:02d`.
- `Reports`: the report as a record of optional fields.
- `Formatting`: the formatters of `app.py`.
- `Analyzer`: `stock_analyzer.py`.
- `Session`: the pure tables and decisions of `app.py`.
- `WhatsApp`: `whatsapp_service.py`.
- `Subscribers`: `subscriber_store.py`, with the class `SubscriberStore`.
- `Alerts`: the imperative entry points of `app.py`.

Where the source disagrees with its own comments, the model follows the code:

- The docstring of `market_session` (app.py:34-39) says that night runs from 18:00 to
  09:15. The code classifies a weekday morning before 09:15 as `pre_open`, and
  `Session.MarketSession` does the same.
- The dictionary in `intraday_prompt` has the key 14 twice. Python keeps the later value
  ("pre-close setup"), so the "afternoon" text can never be chosen.

Two further facts about what the code does, which the model follows:

- Messages are passed to the transport whole: no formatter or send path cuts them to a
  length. `handle_adhoc` is called directly by the webhook after the wait message.
- Removing the `whatsapp:` prefix removes every occurrence, not just a leading one. The
  webhook strips it and `add`/`remove` strip again. That double removal is modelled as
  written, and `Subscribers.NormaliseNotIdempotent` shows an address where the two
  removals differ.

## Model

| member | source | states |
|---|---|---|
| Session.MarketSession | app.py:32-47 | Weekend exactly on weekdays 5 and 6. Otherwise, with m = hour*60+minute: pre-open exactly when m < 555, market exactly when 555 <= m <= 930, post-close exactly when 930 < m <= 1080, night exactly when m > 1080. |
| Session.SessionBoundaries | app.py:44-47 | On a weekday, 9:14 is pre-open and 9:15 is market. 15:30 is market and 15:31 is post-close. 18:00 is post-close and 18:01 is night. |
| Session.SessionMonotone | app.py:41-47 | On a weekday, a later time never falls in an earlier phase of the day, and it is never the weekend. |
| Session.ScheduleTable | app.py:49-107 | The schedule (`SCHEDULE`, app.py:98-107) has 8 slots, from (9,20) to (15,0). The slots strictly increase by minute of day. A pair is scheduled exactly when it is a key of `SLOT_LABELS` (app.py:49-58). Every slot falls in the market session on every weekday. |
| Session.ScheduledLabels | app.py:77 | A scheduled slot gets its table label, never the "📣 HH:MM UPDATE" fallback. |
| Session.SlotJobChoice | app.py:79-88 | (9,20) gives the market-open report in open mode. Hour 15 gives the closing report in closing mode, whatever the minute. Any other slot gives the intraday report for that hour in intraday mode. |
| Session.ScheduleJobs | app.py:79-88 | The first slot is open, the last is closing, and the six in between are intraday for their own hour. |
| Session.AdhocRequest | app.py:285-296 | Market gives the ad-hoc report for the hour. Pre-open gives the pre-open report. Post-close or night gives the next-day report. Weekend gives the weekend report. Each case holds in both directions. |
| Session.WaitMessageNeverFallback | app.py:365-371 | Every session is a key of the wait-message table, so the fallback text is never sent. |
| Session.WaitMessageDistinct | app.py:365-371 | Two different sessions never get the same wait message. |
| Session.ParseCommand | app.py:308-345 | On the trimmed, lower-cased body: subscribe exactly for start/subscribe/hi/hello/hey, unsubscribe exactly for stop/unsubscribe, help exactly for "help". |
| Session.ParseCommandIgnoresCase | app.py:309 | A body and its lower-cased form give the same command. |
| Session.AdhocErrorReply | app.py:297-299 | The error reply is the fixed apology (which ends with the opening underscore), then the error text, then a closing underscore as the last character. |
| Session.TriggerTable | app.py:397-410 | A slot name is accepted exactly when it is one of the ten mapping keys. The eight time names map to the eight scheduled slots in order. "night" and "weekend" map to their own reports. |
| Formatting.Emoji | app.py:122-127 | Case-insensitive substring test in priority order: bullish gives 🟢, else bearish gives 🔴, else neutral gives 🟡, else ⚪. |
| Formatting.EmojiIgnoresCase | app.py:123 | The emoji does not depend on the case of the sentiment. |
| Formatting.EmojiRange | app.py:122-127 | The emoji is always one of the four markers. |
| Formatting.HeaderLines | app.py:143-150 | The four header lines are the bold title, the time stamp, the sentiment followed by its indicator, and the index level. A missing sentiment or index level reads "N/A", and a missing sentiment gives the indicator of the empty text. |
| Formatting.DividerLines | app.py:163-164 | The divider is a blank line, then the bold title between two rules. |
| Formatting.StockLines | app.py:129-141 | A pick block has 8 lines with the Hold line and 7 without. It starts with the numbered heading. |
| Formatting.HoldLineIffShown | app.py:139-140 | A pick block has a line headed "Hold" exactly when it is asked to show one. |
| Formatting.TomorrowLinesShape | app.py:227-235 | A next-day block starts with the numbered heading and ends with the horizon line. A missing horizon reads "2-3 days". The block has no Hold line. |
| Formatting.NextWeekLinesShape | app.py:259-267 | A next-week block starts with the numbered heading and ends with the Hold line. A missing holding period reads "1 week". |
| Formatting.Footer | app.py:152-161 | The footer ends with the disclaimer line, and that line uses the default text when the field is absent. |
| Formatting.RenderBlock | app.py:181-182 | Pick k of a message is rendered, with number k+1, as the k-th block after the lines above the picks. |
| Formatting.PickBlocksLength | app.py:181-182 | The pick section has exactly one fixed-size block per rendered pick. |
| Formatting.ScheduledShape | app.py:167-191 | The first four lines are the header. In closing mode a present day summary is line 4, ahead of the theme. Otherwise a present theme is line 4. At most three picks appear, with Hold except in intraday mode. The last line is the disclaimer. |
| Formatting.ScheduledPickBlock | app.py:129-191 | Block k of a scheduled message is pick k, numbered k+1. It carries the Hold line exactly when the mode is not intraday. |
| Formatting.AdhocShape | app.py:194-200 | The header is titled INSTANT PICKS. At most three picks appear, with Hold. The last line is the disclaimer. |
| Formatting.PreOpenShape | app.py:203-213 | The header comes first, then the Gift Nifty line with the N/A default. At most three picks appear, with Hold. The last line is the disclaimer. |
| Formatting.NightShape | app.py:216-246 | The message opens with the tomorrow title and the timestamp. At most four picks appear, in the next-day block. The last line is the disclaimer. |
| Formatting.WeekendShape | app.py:249-275 | The message opens with the weekend title and the timestamp. At most four picks appear, in the next-week block. The last line is the disclaimer. |
| Formatting.AppendPicks | app.py:181-182 | The enumerate loop appends the blocks of the picks, numbered from 1, after the existing lines. |
| Formatting.AppendBlocks | app.py:181-182 | Appending blocks one at a time, in order, adds their concatenation after the existing lines. |
| Formatting.FormatScheduledMessage | app.py:167-191 | Returns the newline-joined scheduled message that ScheduledShape describes. |
| Formatting.FormatAdhocMessage | app.py:194-200 | Returns the newline-joined ad-hoc message that AdhocShape describes. |
| Formatting.FormatPreOpenMessage | app.py:203-213 | Returns the newline-joined pre-open message that PreOpenShape describes. |
| Formatting.FormatNightMessage | app.py:216-246 | Returns the newline-joined night message that NightShape describes. |
| Formatting.FormatWeekendMessage | app.py:249-275 | Returns the newline-joined weekend message that WeekendShape describes. |
| Analyzer.NewAnalyzer | stock_analyzer.py:196-201 | Construction succeeds exactly when the key is present and non-empty, and keeps the key and the model name. Otherwise it fails with the missing-key message. |
| Analyzer.IntradayContextChoice | stock_analyzer.py:62-69 | Hours 10 to 13 get their own text. Hour 14 gets the later "pre-close setup" text. Any other hour gets "current {hour}:00 session.". The "afternoon" text is never chosen. |
| Analyzer.IntradayPrompt | stock_analyzer.py:71 | The prompt opens with "It is currently " followed by the hour. |
| Analyzer.IntradayPromptInjective | stock_analyzer.py:61-87 | Different hours give different prompts. |
| Analyzer.StockSchema | stock_analyzer.py:26-41 | The schema opens with "Array of exactly " followed by n. |
| Analyzer.StockSchemaInjective | stock_analyzer.py:26-41 | The schema determines both the count n and the holding-period text. |
| Analyzer.TextOfAppend | stock_analyzer.py:215-217 | The joined text of a concatenation is the concatenation of the joined texts, so block order is kept. |
| Analyzer.TextOfIgnoresOthers | stock_analyzer.py:216 | A block whose type is not "text" contributes nothing. |
| Analyzer.TextOfTextBlock | stock_analyzer.py:215-217 | A text block contributes exactly its text, in its position. |
| Analyzer.BeforeFirst | stock_analyzer.py:224 | `split(sep)[0]` is everything before the first separator, or the whole text when there is none. |
| Analyzer.BeforeFirstAbsent | stock_analyzer.py:224 | What comes before the first separator contains no separator. |
| Analyzer.StripFencesShape | stock_analyzer.py:221-225 | After fence stripping no ``` is left. Text without a fence is unchanged. |
| Analyzer.BareFence | stock_analyzer.py:221-224 | Without "```json", a bare ``` is used: the result is the stripped text between its first occurrence and the next ```. |
| Analyzer.JsonFenceFirst | stock_analyzer.py:222-225 | When "```json" occurs, the result is the stripped text between its first occurrence and the next ```. |
| Analyzer.StripFirstFence | stock_analyzer.py:221-225 | The loop over the two fences, with its break, computes exactly the fence stripping. |
| Analyzer.SliceObject | stock_analyzer.py:228-231 | The find/rfind slice computes exactly the outermost-object cut. |
| Analyzer.OutermostObject | stock_analyzer.py:228-231 | If a `{` exists and the last `}` comes after it, the result is the inclusive slice between them. Otherwise the text is unchanged. |
| Analyzer.OutermostObjectShape | stock_analyzer.py:228-231 | Whenever the text is cut, the result starts with `{` and ends with `}`. |
| Analyzer.OutermostObjectFound | stock_analyzer.py:228-231 | When some `{` precedes some `}`, the cut is taken: at least two characters, from `{` to `}`. |
| Analyzer.OutermostObjectIdempotent | stock_analyzer.py:228-231 | Applying the brace extraction twice gives the same result as applying it once. |
| Analyzer.Call | stock_analyzer.py:214-237 | A failed model call propagates its error. Otherwise the parser's value is returned, or its error is prefixed with "Claude returned invalid JSON: ". |
| WhatsApp.NewService | whatsapp_service.py:9-18 | Construction succeeds exactly when the SID and the token are both non-empty. The from-number defaults to whatsapp:+14155238886. On failure the error names both variables. |
| WhatsApp.Destination | whatsapp_service.py:24-25 | The destination always starts with "whatsapp:". A prefixed address is passed through. Otherwise the prefix is put in front. |
| WhatsApp.DestinationIdempotent | whatsapp_service.py:24-25 | Normalising a destination twice gives the same address as normalising it once. |
| WhatsApp.DestinationKeepsAddress | whatsapp_service.py:24-25 | The input is either unchanged or it follows the prefix intact. |
| WhatsApp.Envelope | whatsapp_service.py:28-32 | The request goes from the service's number, to the normalised destination, with the body unchanged. |
| WhatsApp.SendMessage | whatsapp_service.py:21-37 | The outcome, a SID or an error, is the transport's answer to that one request. |
| Subscribers.NormalisePlain | subscriber_store.py:37 | An address without "whatsapp:" is stored as it is. |
| Subscribers.NormaliseDestination | subscriber_store.py:37-45 | Storing a normalised destination gives the same entry as storing the bare address. |
| Subscribers.NormaliseNotIdempotent | subscriber_store.py:37 | Prefix removal is one left-to-right pass (Text.RemoveAllFirst states its general form). That pass is not idempotent: on "whatwhatsapp:sapp:" a second pass changes the result. |
| Subscribers.Without | subscriber_store.py:46 | The filtered list holds exactly the entries different from the number. |
| Subscribers.AddedShape | subscriber_store.py:37-40 | After add the normalised number is listed. A listed number leaves the list unchanged. A new number is appended behind the existing entries. |
| Subscribers.AddedIdempotent | subscriber_store.py:33-40 | Adding twice gives the same list as adding once. |
| Subscribers.AddedNoDup | subscriber_store.py:38-39 | Add keeps the list free of duplicates. |
| Subscribers.WithoutAppend | subscriber_store.py:46 | Filtering commutes with concatenation, so the remaining entries keep their order. |
| Subscribers.WithoutAbsent | subscriber_store.py:46 | Removing an absent number leaves the list unchanged. |
| Subscribers.WithoutMultiset | subscriber_store.py:46 | Remove drops every copy of the number and keeps every other entry as often as before. |
| Subscribers.WithoutNoDup | subscriber_store.py:46 | Remove keeps the list free of duplicates. |
| Subscribers.RemovedIdempotent | subscriber_store.py:43-47 | Removing twice gives the same list as removing once. |
| Subscribers.AddThenRemove | subscriber_store.py:33-47 | Adding a new number and then removing it restores the list. |
| Subscribers.SubscriberStore.constructor | subscriber_store.py:14-20 | A missing file is created empty with one write. An existing one is read as it is. |
| Subscribers.SubscriberStore.Add | subscriber_store.py:33-40 | The list becomes the list after add. The file is written only when the number is new. The no-duplicate invariant is kept. |
| Subscribers.SubscriberStore.Remove | subscriber_store.py:43-47 | The list becomes the filtered list. The file is always written. The no-duplicate invariant is kept. |
| Subscribers.SubscriberStore.GetAll | subscriber_store.py:50-52 | Returns the stored entries in stored order. |
| Subscribers.SubscriberStore.Count | subscriber_store.py:54-55 | Equals the number of stored entries. For a store without duplicates, this is also the number of distinct subscribers. |
| Subscribers.NoDupDistinct | subscriber_store.py:37-39 | A list without duplicates, as `add` keeps it, has exactly one entry per distinct number. |
| Alerts.BroadcastTraceShape | app.py:62-71 | A broadcast makes one request per listed number, in list order, each with the same body. |
| Alerts.FailuresZero | app.py:67-71 | No failure is counted exactly when the transport accepts every request. |
| Alerts.Broadcast | app.py:62-71 | An empty list makes no request. Otherwise every listed number gets its request in order, whatever earlier sends returned. The failures are counted. |
| Alerts.ScheduledAlertReachesAll | app.py:75-92 | A generator failure sends nothing. Otherwise there is one request per subscriber, and request i goes to subscriber i with the slot's scheduled text, so all of them carry the same message. |
| Alerts.RunScheduledAlert | app.py:75-92 | Generates the slot's report, formats it under the slot's label and mode, and broadcasts it. A generator failure is caught and sends nothing. |
| Alerts.AdhocReplyBySession | app.py:279-299 | By session: weekend asks for the weekend report, after 15:30 the next-day report, market hours the ad-hoc report for the hour, before 9:15 the pre-open report. A generator error is quoted in the reply. |
| Alerts.FormatForSession | app.py:285-296 | The formatter chosen for the session renders that session's layout: the live layout in market hours, the pre-market layout before the open, the next-day layout after the close and at night, and the weekend layout. |
| Alerts.HandleAdhoc | app.py:279-301 | Exactly one reply goes to the sender, and the send's outcome is passed back. |
| Alerts.SenderShape | app.py:307 | The sender is empty when `From` is missing. For a number without the prefix, the plain form and the prefixed form both give the bare number. |
| Alerts.WebhookRepliesToSender | app.py:306-375 | Each webhook request sends one or two messages, all to the sender. It sends two exactly for a non-command whose wait message was accepted. |
| Alerts.AcknowledgeTraceShape | app.py:362-374 | A non-command gets the wait message for its session first and at most one more message, all to the sender. The second message is sent exactly when the wait message went through. |
| Alerts.Acknowledge | app.py:362-374 | The requests are the wait message and then the ad-hoc reply, which is sent only when the wait message went through. `ok` holds exactly when every request succeeded. |
| Alerts.SendCommandReply | app.py:316-359 | A command gets exactly one message: its fixed reply, sent to the sender. `ok` is that send's outcome. |
| Alerts.Webhook | app.py:306-375 | Subscribe and any non-command add the sender. They write the file once exactly when the sender was not listed, and otherwise not at all. Unsubscribe removes the sender and writes the file once. Help changes neither the list nor the file. The fixed reply, or the wait message followed by the ad-hoc reply, is sent. A failed wait message stops the flow. |
| Alerts.TriggerAlert | app.py:395-424 | An unknown slot answers 400 with the list of names and sends nothing. "night" and "weekend" broadcast their report, or answer 500 with the generator's error. The time names run the scheduled alert for their slot. |
| Text.FindFrom | stock_analyzer.py:228 | `find`: -1 when the pattern does not occur, otherwise its first occurrence. |
| Text.FirstIndexOf | stock_analyzer.py:228 | The first index of the character, or -1. |
| Text.LastIndexOf | stock_analyzer.py:229 | The last index of the character, or -1. |
| Text.RemoveAllAbsent | subscriber_store.py:37 | `replace` of an absent pattern leaves the text unchanged. |
| Text.RemoveAllKeeps | subscriber_store.py:37 | `replace(p, "")` keeps unchanged any text before the first position where `p` occurs. |
| Text.RemoveAllFirst | subscriber_store.py:37 | `replace(p, "")` removes every occurrence, not only a leading one. The text before the first occurrence is kept, that occurrence is dropped, and removal goes on after it. |
| Text.LeadingPatternDropped | subscriber_store.py:37 | `replace` drops an occurrence at the front. |
| Text.StripSlice | app.py:308 | `strip` keeps a slice of the input. Everything before and after the slice is whitespace, and the slice neither starts nor ends with whitespace. |
| Text.StripLowerCommute | app.py:308-309 | Trimming and lower-casing can be applied in either order. |
| Text.LowerIdempotent | app.py:309 | Lower-casing twice gives the same text as lower-casing once. |
| Text.NatToStringRoundTrip | stock_analyzer.py:69 | The decimal digits of n read back as n. |
| Text.IntToStringInjective | stock_analyzer.py:69 | Different integers give different decimal texts. |
| Text.IntToStringPrefixUnique | stock_analyzer.py:71 | A decimal number followed by a non-digit text splits back into that number and that text. |
| Text.Pad2 | app.py:77 | `:02d`: one zero in front for 0 to 9, otherwise the plain decimal text. |

## Left out

- HTTP: Flask routing, `request.form` and `jsonify` are not modelled. The webhook takes the two form fields as options. The trigger answer is a datatype of status and text.
- The `/health` and `/subscribers` endpoints are not modelled. They only read the clock, the schedule and the store.
- APScheduler: the job registration and the cron firing are not modelled. Only the static schedule data is kept.
- The clock: `datetime.now`, pytz and `strftime` are parameters. Weekday, hour, minute and the formatted timestamp are passed in, and the webhook and `handle_adhoc` each take their own clock reading.
- The Anthropic API call and `json.loads` are foreign. The model's reply and the JSON parser are parameters, and the generator is an abstract function that may fail.
- The Twilio client is a foreign network call. The transport is an abstract function that answers with a SID or an error.
- Exceptions are modelled as `Result` values. An escaping send exception is modelled as a false `ok` or a stopped flow.
- The subscriber file: file I/O, the `threading.Lock` and the fallback to an empty list when the file cannot be read are not modelled. The file's contents are the `subs` field, and writes are counted in `writes`.
- Logging is not modelled.
- Prompts: the long prompt constants other than the intraday one are opaque text and are not modelled.
- Analyzer.IntradayPrompt: the contract states the opening and the hour only. It does not state the literal context and schema text that follow.
- Analyzer.StockSchema: the contract states the opening and the count n only. The embedded holding-period text is captured through StockSchemaInjective, not as a slice.
- Session.UnknownSlotError: the list of names in the 400 answer is built from the ten names in mapping order, as Python prints them. Its exact text is not proved as a literal.
- Text.Lower: only ASCII letters are lower-cased. The command words and sentiment keywords are ASCII, but Python's Unicode lower-casing of other characters is not modelled.
- Report values are the text the f-strings render. Numbers are not formatted, and values of any other type are not modelled.
