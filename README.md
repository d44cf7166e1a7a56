# Nuki smart-lock notification — a verified model

The system watches Nuki smart locks through the Nuki Web API and tells people
when a lock is used. A monitor polls the cloud for each lock's activity log.
It keeps the ids of the entries it has already handled in an activity
tracker, so no entry is reported twice. Each new entry becomes an event
record with a readable action, user and trigger. The monitor sends these
records either one at a time or batched into a digest. Sending goes through
the e-mail (SMTP) and Telegram services, using either the newer notification
dispatcher or the older legacy notifier. Digests are sorted newest first.

Next to this pipeline, the model covers:

- the security rule engine (failed attempts, unusual-hour access, rapid
  access);
- the web application's stores of temporary entry codes and of user
  accounts;
- the browser's CSV export and its mapping from request failures to
  messages.

Files, one module each:

| file | module | what it holds |
|---|---|---|
| values.dfy | PyValues | Python values, truthiness, `str()` of ints, `strip`, `split`/`join`, `lower`, line splitting |
| datetimes.dfy | DateTimes | the `'%Y-%m-%d %H:%M:%S'` stamp: formatting and parsing |
| records.dfy | Records | log entries, event records, the trigger table |
| config.dfy | Config | `_parse_list` and the `[Filter]` lists of the INI file |
| event_filter.dfy | EventFilter | `_should_filter_event` |
| digest_order.dfy | DigestOrder | the stable newest-first sort of a digest |
| email_service.dfy | EmailService | e-mail bodies, the SMTP send |
| telegram_service.dfy | TelegramService | Telegram texts, the Bot API send |
| dispatcher.dfy | Dispatch | `NotificationDispatcher` (class) |
| legacy_notifier.dfy | LegacyNotifier | the legacy `Notifier` (class) |
| tracker.dfy | ActivityTracking | `ActivityTracker` (class) |
| nuki_api.dfy | NukiApi | action and trigger names, user lookup, `parse_date` |
| monitor.dfy | Monitor | `NukiMonitor` (class): poll, collect, deliver |
| security.dfy | Security | `SecurityMonitor` (class) and its rules |
| temp_codes.dfy | TempCodes | `TemporaryCodeDatabase` (class) |
| users.dfy | Users | `UserDatabase` (class) and `User.from_db_user` |
| web_client.dfy | WebClient | `formatCsvData` and the two error handlers of the browser code |


Objects that update their own fields are classes whose methods state the
whole new state. Lists and dicts they mutate are `seq` and `map` fields. A
Python dict's insertion order is kept as a `seq` of keys next to the `map`.
The clock is a `now` parameter. The network, SMTP, the Telegram Bot API and
the Nuki cloud are function parameters (oracles). Whether a JSON file write
succeeds is a boolean parameter.

Python compares `True == 1` and hashes them alike; `Records.Norm` models that
when ids meet in a set or a dict.

Behaviours of the code that the model keeps:

- Within one lock's log, two entries with the same id are both reported; the
  processed-id set holds the ids saved by earlier polls and by the locks
  already scanned in this poll.
- The tracker file holds only the most recent snapshot of the activity list,
  while the processed ids accumulate.
- The legacy Telegram digest computes a clock emoji and never prints it
  (`LegacyNotifier.EmojiDigestTelegramDiffers`).

## Model

| member | source | states |
|---|---|---|
| PyValues.StripFacts | scripts/nuki/config.py:64 | `strip()` returns the slice between the leading and trailing white space (Python's `str.isspace` set, Unicode white space included); the removed parts are all white space and the result neither starts nor ends with it |
| PyValues.SplitJoin | scripts/nuki/config.py:64 | splitting the join of separator-free pieces gives the pieces back |
| PyValues.SplitCount | scripts/nuki/config.py:64 | `split(',')` yields one more piece than there are commas |
| PyValues.SplitNoSeparator | scripts/nuki/config.py:64 | a string without the separator splits into itself alone |
| PyValues.Lower | security/security_monitor.py:145 | `lower()` keeps the length and lower-cases each ASCII capital and the Kelvin sign, the characters whose lower case is ASCII |
| PyValues.NatToDecimal | app/notifications/notifier.py:119 | `str()` of a natural number is all digits, with no leading zero unless it is `0` |
| PyValues.DecimalRoundTrip | scripts/nuki/api.py:149 | `int(str(n)) == n` for every natural `n` |
| Config.ParseList | scripts/nuki/config.py:60-64 | the empty string gives `[]`; otherwise one item per comma-separated piece, each stripped |
| Config.ParseListLength | scripts/nuki/config.py:64 | a non-empty value gives exactly (commas + 1) items |
| Config.ParseListItems | scripts/nuki/config.py:64 | no item contains a comma or starts or ends with white space |
| Config.ParseListKeepsEmpty | scripts/nuki/config.py:64 | empty pieces are kept: `"a,,b"` gives `["a", "", "b"]` |
| Config.StripClean | scripts/nuki/config.py:64 | `strip()` leaves text without surrounding white space unchanged |
| Config.ParseJoin | scripts/nuki/config.py:60-64 | parsing the comma-join of clean, comma-free items gives the items back |
| Config.IniGet | scripts/nuki/config.py:23-25 | the stored value when section and key exist, the fallback otherwise |
| Config.FilterFromIni | scripts/nuki/config.py:23-25 | each of the three filter lists is the parsed INI value, or empty when the key is absent |
| Config.MissingFilterKeys | scripts/nuki/config.py:23-25 | with no `[Filter]` section all three exclusion lists are empty |
| DateTimes.Two | scripts/nuki_monitor.py:156 | a two-digit zero-padded field |
| DateTimes.Four | scripts/nuki_monitor.py:156 | a four-digit zero-padded year |
| DateTimes.FormatStamp | scripts/nuki_monitor.py:156 | the `%Y-%m-%d %H:%M:%S` stamp is always 19 characters |
| DateTimes.ParseStamp | scripts/nuki/notification.py:90 | a parsed stamp is a valid calendar date and time, with no microseconds |
| DateTimes.FormatPieces | scripts/nuki_monitor.py:156 | year, month, day, hour, minute and second sit at their fixed offsets, zero-padded, with `-`, ` ` and `:` between them |
| DateTimes.ParseFormat | scripts/nuki/notification.py:90 | parsing a formatted stamp gives the date back, with microseconds dropped |
| DateTimes.FormatParse | scripts/nuki/notification.py:90 | formatting a parsed stamp gives the text back |
| Records.Norm | scripts/nuki/notification.py:216 | `True`/`False` become `1`/`0`; every other value is unchanged |
| Records.TableIndex | scripts/nuki/notification.py:215-217 | a key is found exactly when, under Python equality, it is an integer inside the table, and then at that index |
| Records.TriggerDescriptionCases | scripts/nuki/notification.py:202-218 | the description is a table name exactly when the trigger is a key of the table, and then that key's name; any other trigger gives `Unknown (<value>)`; the e-mail and Telegram services use the same table |
| EventFilter.ShouldFilterReasons | app/notifications/notifier.py:170-196 | an event is filtered exactly when its user is Auto Lock and auto-lock notifications are off, or its user, action or trigger is on the matching exclusion list |
| EventFilter.FilterMonotone | app/notifications/notifier.py:181-194 | growing the exclusion lists, or switching auto-lock notifications off, never lets through an event that was filtered |
| EventFilter.NothingExcluded | scripts/nuki/notification.py:57-75 | with empty lists and auto-lock events kept, nothing is filtered |
| DigestOrder.Insert | app/notifications/notifier.py:111-115 | insertion adds exactly one element |
| DigestOrder.InsertAtMost | app/notifications/notifier.py:111-115 | inserting a key no larger than a bound keeps every key at most that bound |
| DigestOrder.InsertSorted | app/notifications/notifier.py:111-115 | inserting into a newest-first sequence keeps it newest first |
| DigestOrder.InsertPerm | app/notifications/notifier.py:111-115 | insertion adds exactly the one element to the multiset |
| DigestOrder.InsertStable | app/notifications/notifier.py:111-115 | insertion keeps the relative order of the elements sharing a key |
| DigestOrder.SortNewestFirst | app/notifications/notifier.py:111-115 | the result has the input's length; `DigestOrder.SortSpec` proves it a stable newest-first permutation |
| DigestOrder.SortSpec | app/notifications/notifier.py:111-115 | the sort is a permutation, newest first, and stable: equal stamps keep their queue order |
| DigestOrder.SortedStays | app/notifications/notifier.py:111-115 | an already newest-first, stably ordered queue is left unchanged |
| DigestOrder.SortForDigest | scripts/nuki/notification.py:87-92 | the sort succeeds exactly when every event has a parseable date; then it is a stable newest-first permutation |
| EmailService.SendEmail | app/notifications/email_service.py:90-124 | a missing SMTP server, a zero port, or a missing sender, recipient, user name or password gives False without sending; otherwise the SMTP result |
| EmailService.SinglePlainLayout | app/notifications/email_service.py:168-188 | with single-line fields, the plain e-mail splits into the header, then the Action, Lock, User, Time and Trigger lines carrying the event's values |
| EmailService.PlainDigestBlock | app/notifications/email_service.py:266-273 | a digest entry is eight lines: Date, Lock, Action, User and Trigger lines, a blank line, the dashed separator, a blank line |
| EmailService.DigestPlainHeaderText | app/notifications/email_service.py:262-264 | the digest text starts with the fixed header: the title, its underline, a blank line, "The following activity has been recorded:", a blank line (no event count) |
| EmailService.PlainDigestBlockStep | app/notifications/email_service.py:266-273 | appending one event adds exactly its block to the digest text |
| EmailService.BuildDigestPlainEmail | app/notifications/email_service.py:252-275 | the loop builds exactly the digest text of the events |
| EmailService.PlainDigestBlockNoNewline | app/notifications/email_service.py:266-273 | an event with single-line fields gives a block of single lines |
| EmailService.DigestPlainLayout | app/notifications/email_service.py:252-275 | with single-line fields, the digest splits into the header lines, then eight lines per event with event `i` at lines `8i` to `8i+7`, then a final empty piece |
| EmailService.SingleBody | app/notifications/email_service.py:126-137 | a plain-text body exactly when HTML is off, and then the plain single-event text |
| EmailService.DigestBody | app/notifications/email_service.py:190-201 | a plain-text body exactly when HTML is off, and then the plain digest text |
| EmailService.SendNotification | app/notifications/email_service.py:45-60 | the send of the single-event body; True only with complete credentials |
| EmailService.SendDigest | app/notifications/email_service.py:62-77 | the send of the digest body; True only with complete credentials |
| TelegramService.SendTelegram | app/notifications/telegram_service.py:84-108 | missing token or chat id gives False without posting; otherwise the post's result |
| TelegramService.CompactEmojiIgnoresTrigger | app/notifications/telegram_service.py:129-130 | two events that differ only in the trigger give the same compact emoji message |
| TelegramService.CompactPlainShowsTrigger | app/notifications/telegram_service.py:123-124 | two events that differ only in the trigger description give different compact plain messages |
| TelegramService.AnyOtherFormatIsDetailed | app/notifications/telegram_service.py:122-137 | every format other than `compact` gives the same (detailed) message |
| TelegramService.PlainTelegramLayout | app/notifications/telegram_service.py:122-126 | with single-line fields, the plain compact message is one line, and the detailed one splits into a header and one line per field |
| TelegramService.DetailedPlainLines | app/notifications/telegram_service.py:125-126 | the detailed plain message text, field by field |
| TelegramService.DigestHeader | app/notifications/telegram_service.py:149-150 | two lines: the title, with the bell emoji exactly when emoji are on, then a blank line |
| TelegramService.EmojiDigestBlock | app/notifications/telegram_service.py:155-163 | an emoji digest entry is four lines: bullet, clock, date and lock; padlock, action, "by", person emoji and user; phone emoji and trigger; a blank line |
| TelegramService.PlainDigestBlock | app/notifications/telegram_service.py:164-167 | a plain digest entry is four lines: bullet, date and lock; action "by" user; trigger; a blank line |
| TelegramService.HeaderText | app/notifications/telegram_service.py:149-150 | the header lines join into the title and a blank line |
| TelegramService.DigestStart | app/notifications/telegram_service.py:149-150 | before any event the text is the title followed by a blank line |
| TelegramService.DigestStep | app/notifications/telegram_service.py:152-167 | one more event appends exactly its block |
| TelegramService.BuildDigestTelegram | app/notifications/telegram_service.py:139-169 | the loop builds exactly the digest text |
| TelegramService.AppendDigestEvent | app/notifications/telegram_service.py:152-167 | one loop step extends the text by the event's block |
| TelegramService.DigestTelegramLayout | app/notifications/telegram_service.py:139-169 | with single-line fields, the digest splits into the header, then four lines per event with event `i` at lines `4i` to `4i+3`, then a final empty piece |
| TelegramService.SendNotification | app/notifications/telegram_service.py:40-55 | the post of the formatted single message; True only with a token and a chat id |
| TelegramService.SendDigest | app/notifications/telegram_service.py:57-72 | the post of the digest text; True only with a token and a chat id |
| Dispatch.EnabledServices | app/notifications/notifier.py:33-49 | e-mail is enabled exactly for `email`/`both`, Telegram exactly for `telegram`/`both`, e-mail first when both |
| Dispatch.ChannelOutcome | app/notifications/notifier.py:150-159 | a channel returns (never raises) its service's result for that notification |
| Dispatch.BothChannelsSingle | app/notifications/notifier.py:147-168 | with both channels, a dispatch succeeds exactly when both services succeed |
| Dispatch.NotificationDispatcher.constructor | app/notifications/notifier.py:18-31 | empty queue, last digest time `now`, services from the notification type |
| Dispatch.NotificationDispatcher.DispatchToServices | app/notifications/notifier.py:133-168 | no enabled service gives False; otherwise True exactly when every enabled service succeeds |
| Dispatch.NotificationDispatcher.SendNotification | app/notifications/notifier.py:51-76 | a filtered event gives False and calls no service; otherwise every enabled service is called and the result is the dispatch result |
| Dispatch.NotificationDispatcher.SendDigestNotification | app/notifications/notifier.py:97-131 | an empty queue gives True and changes nothing; an unparseable date raises and changes nothing; otherwise the sorted digest goes to every enabled service, and the queue is cleared and the time reset whatever the result |
| Dispatch.NotificationDispatcher.AddToDigest | app/notifications/notifier.py:78-95 | a filtered event changes nothing; otherwise it is queued, and once the interval has passed the queue is flushed as SendDigestNotification does |
| LegacyNotifier.Selected | scripts/nuki/notification.py:32-39 | the legacy notifier selects the same channels as the dispatcher for every notification type |
| LegacyNotifier.SendEmail | scripts/nuki/notification.py:286-310 | the SMTP result, with no credential check before it |
| LegacyNotifier.LegacyDigestBlock | scripts/nuki/notification.py:189-198 | a legacy Telegram digest entry is four lines |
| LegacyNotifier.LegacyBlockStep | scripts/nuki/notification.py:189-198 | one more event appends exactly its four lines, as the loop body writes them |
| LegacyNotifier.BuildLegacyDigestTelegram | scripts/nuki/notification.py:184-200 | the loop builds exactly the legacy digest text |
| LegacyNotifier.PlainDigestTelegramAgrees | scripts/nuki/notification.py:184-200 | in plain format the legacy digest equals the dispatcher's Telegram digest |
| LegacyNotifier.EmojiBlockLonger | scripts/nuki/notification.py:193-196 | the dispatcher's emoji entry is two characters longer than the legacy one |
| LegacyNotifier.EmojiDigestLonger | scripts/nuki/notification.py:193-196 | so the dispatcher's emoji digest is longer by two characters per event |
| LegacyNotifier.EmojiDigestTelegramDiffers | scripts/nuki/notification.py:191-198 | in emoji format the legacy and the dispatcher digests differ for any non-empty queue |
| LegacyNotifier.Notifier.constructor | scripts/nuki/notification.py:11-14 | empty queue and last digest time `now` |
| LegacyNotifier.Notifier.SendSelected | scripts/nuki/notification.py:31-41 | the selected channels are used, and the result is True exactly when each of them succeeds (so True when none is selected) |
| LegacyNotifier.Notifier.SendNotification | scripts/nuki/notification.py:16-41 | a filtered event gives False and sends nothing; otherwise the selected channels' result |
| LegacyNotifier.Notifier.BuildDigestEmail | scripts/nuki/notification.py:114-117 | the digest e-mail body of the events |
| LegacyNotifier.Notifier.SendDigestNotification | scripts/nuki/notification.py:77-112 | an empty queue returns None and changes nothing; an unparseable date raises and changes nothing; otherwise the sorted digest goes to the selected channels, and the queue is cleared and the time reset whatever the result |
| LegacyNotifier.Notifier.AddToDigest | scripts/nuki/notification.py:43-55 | a filtered event changes nothing; otherwise it is queued, and once the interval has passed the queue is flushed (cleared when every date parses, kept when one raises) |
| ActivityTracking.IdsOfMembers | scripts/nuki/utils.py:22-25 | a value is a saved id exactly when some saved entry has that id |
| ActivityTracking.SavedAreProcessed | scripts/nuki/utils.py:44-60 | after saving, every saved entry with a truthy id reads as processed |
| ActivityTracking.ProcessedMonotone | scripts/nuki/utils.py:44-46 | adding ids never un-processes an entry |
| ActivityTracking.ActivityTracker.constructor | scripts/nuki/utils.py:9-31 | a stored file gives its entries and their ids; none gives an empty tracker |
| ActivityTracking.ActivityTracker.IsEventProcessed | scripts/nuki/utils.py:53-60 | a missing or falsy id is never processed; otherwise membership in the id set |
| ActivityTracking.ActivityTracker.SaveActivity | scripts/nuki/utils.py:33-51 | the result is whether the write succeeded; on success the activity list is replaced and its ids added; on failure nothing changes; ids only grow |
| NukiApi.ActionDescription | scripts/nuki/api.py:30-43 | a name that is not blank is used as it is; otherwise action codes 1 to 6 by the table; anything else is Unknown Action |
| NukiApi.TriggerName | scripts/nuki/api.py:45-49 | codes 0 to 7 by the table (True and False count as 1 and 0); anything else is Unknown Trigger |
| NukiApi.FindFrom | scripts/nuki/api.py:138-140 | the first user from a position on whose id equals the target, or none exactly when no later user matches |
| NukiApi.FindUser | scripts/nuki/api.py:138-140 | the first user whose id equals the target, or none exactly when no user matches |
| NukiApi.UserName | scripts/nuki/api.py:126-152 | no auth id gives Auto Lock; no users gives Unknown User; else the first direct match, then the first match of the converted id, else Unknown User; a user without a name is Unknown User |
| NukiApi.ConvertedMatch | scripts/nuki/api.py:142-150 | after a direct miss, an integer id finds the first user whose id is its string, and a digit string the first user whose id is its integer value |
| NukiApi.ReplaceChar | scripts/nuki/api.py:162 | each occurrence of one character becomes the other; the length and every other character stay |
| NukiApi.ParseDate | scripts/nuki/api.py:154-169 | a falsy value gives None; a string with `T` is cut at its first `.`, has `T` replaced by a space and is parsed as `%Y-%m-%d %H:%M:%S`; another string goes to the millisecond-timestamp conversion; a number makes the membership test raise, which gives None; every date returned is valid |
| NukiApi.SplitHead | scripts/nuki/api.py:162 | `split('.')[0]` is the text before the first `.` |
| NukiApi.IsoRoundTrip | scripts/nuki/api.py:160-163 | the cloud's ISO stamp, with or without a fraction, parses back to its date without microseconds |
| NukiApi.FractionIgnored | scripts/nuki/api.py:162 | a fraction after `.` does not change the parsed date |
| Monitor.LocksAsWritten | scripts/nuki_monitor.py:50-63 | lock selection as written: reading the absent explicit-id attribute raises |
| Monitor.LoadedSettingsRaise | scripts/nuki_monitor.py:51 | settings loaded by the configuration manager always make the selection raise |
| Monitor.SelectLocks | scripts/nuki_monitor.py:92-105 | never raises; the configured lock when set; otherwise the cloud's locks, and no locks exactly when the cloud lists none |
| Monitor.SelectLocksAgrees | scripts/nuki_monitor.py:93-105 | with an explicit lock configured, the corrected selection equals the written one |
| Monitor.UserFor | scripts/nuki_monitor.py:140-146 | trigger 6 gives Auto Lock; a truthy auth id gives the looked-up name; otherwise Unknown User |
| Monitor.MakeRecord | scripts/nuki_monitor.py:148-158 | the record's date parses back to the event time; it carries the lock's name and id, the entry's id, action and trigger as they are, the action description and the user the entry is attributed to |
| Monitor.RecordOf | scripts/nuki_monitor.py:120-158 | a record is made exactly for an unprocessed entry with a parseable date |
| Monitor.NewRecordsSource | scripts/nuki_monitor.py:120-134 | every new record comes from an unprocessed, dated entry |
| Monitor.NewRecordsComplete | scripts/nuki_monitor.py:120-160 | every unprocessed, dated entry yields a new record |
| Monitor.NewRecordsDated | scripts/nuki_monitor.py:131-156 | every new record has a parseable date |
| Monitor.Save | scripts/nuki/utils.py:33-51 | a successful write adds the fetched ids and replaces the list; a failed one changes nothing; ids only grow |
| Monitor.TrackGrows | scripts/nuki_monitor.py:164 | a poll never forgets processed ids |
| Monitor.ScanMarksFetched | scripts/nuki_monitor.py:109-164 | after a poll whose writes succeed, every fetched entry with a truthy id reads as processed |
| Monitor.PollRecordsDated | scripts/nuki_monitor.py:131-160 | every event a poll reports has a parseable date |
| Monitor.Unfiltered | scripts/nuki/notification.py:46-50 | only unfiltered events of the poll remain |
| Monitor.NukiMonitor.constructor | scripts/nuki_monitor.py:31-42 | first run; the tracker as loaded from the stored file (or empty); the notifier with an empty queue and the current time |
| Monitor.NukiMonitor.CollectNew | scripts/nuki_monitor.py:120-160 | the loop over one lock's entries collects exactly its new records |
| Monitor.NukiMonitor.ScanLocks | scripts/nuki_monitor.py:109-164 | the tracker after saving the last 5 entries of every lock, and exactly the new records of the poll |
| Monitor.NukiMonitor.InitializeHistory | scripts/nuki_monitor.py:46-79 | no locks gives False and changes nothing; otherwise the last 20 log entries of every lock are saved, lock by lock |
| Monitor.NukiMonitor.Deliver | scripts/nuki_monitor.py:166-175 | immediate mode leaves the digest queue alone; digest mode before the interval has passed queues exactly the unfiltered new events, in order |
| Monitor.NukiMonitor.CheckNewActivity | scripts/nuki_monitor.py:81-177 | the first run only saves the history and notifies nothing; later runs with no locks give False and change nothing; otherwise the last 5 entries of each lock are saved, the new events are exactly those of the poll, and they are delivered |
| Security.LastN | security/security_monitor.py:60 | the last `n` elements (all of them when shorter) |
| Security.LastNSnoc | security/security_monitor.py:103 | trimming after each append equals trimming once at the end |
| Security.EventDate | security/security_monitor.py:110-117 | a parseable date string gives that date; anything else gives `now` |
| Security.EmptyRangeNeverUnusual | security/security_monitor.py:190-195 | equal start and end hours flag no hour |
| Security.SwappedBoundsComplement | security/security_monitor.py:190-195 | swapping start and end flags exactly the other hours |
| Security.Within | security/security_monitor.py:166-167 | the stamps inside the window, and no others |
| Security.WithinSnoc | security/security_monitor.py:163-167 | a new stamp adds one to the count exactly when it is inside the window |
| Security.Pruned | security/security_monitor.py:246-261 | users without stamps in the window are dropped; the rest keep only in-window stamps |
| Security.FailedAlerts | security/security_monitor.py:163-176 | one failed-attempts alert exactly when the count in the window reaches the threshold |
| Security.UnusualAlerts | security/security_monitor.py:197-212 | one alert exactly for an opening action at an unusual hour |
| Security.RapidAlerts | security/security_monitor.py:224-239 | one rapid-access alert exactly when the count in the window reaches the threshold |
| Security.Recorded | security/security_monitor.py:163 | the stamp is appended to that user's list; other users are unchanged |
| Security.FailedAfter | security/security_monitor.py:120-121 | failed attempts record the stamp; other events leave the map |
| Security.AccessAfter | security/security_monitor.py:224-226 | access events record the stamp; other events leave the map |
| Security.EventAlerts | security/security_monitor.py:119-128 | at most three alerts, all about this event and user |
| Security.Prune | security/security_monitor.py:246-252 | the loop computes Pruned |
| Security.SecurityMonitor.constructor | security/security_monitor.py:42-67 | empty recent list, maps and alert log, with the given configuration |
| Security.SecurityMonitor.HandleFailedAttempt | security/security_monitor.py:153-176 | records the attempt and appends the failed-attempts alert when due |
| Security.SecurityMonitor.HandleUnusualHourAccess | security/security_monitor.py:197-212 | appends the unusual-hour alert when due |
| Security.SecurityMonitor.TrackAccessEvent | security/security_monitor.py:214-239 | records access events and appends the rapid-access alert when due; others change nothing |
| Security.SecurityMonitor.CleanupOldEntries | security/security_monitor.py:241-261 | both maps keep only stamps within twice their window |
| Security.SecurityMonitor.TriggerAlert | security/security_monitor.py:263-288 | appends exactly that alert |
| Security.SecurityMonitor.CheckEvent | security/security_monitor.py:119-128 | the maps and alerts after all three rules |
| Security.SecurityMonitor.Assess | security/security_monitor.py:119-131 | the rules followed by the cleanup |
| Security.SecurityMonitor.ProcessEvent | security/security_monitor.py:92-131 | the recent list keeps the last 100 events; then the failed-attempt, unusual-hour and rapid-access rules run on the event's date and the maps are pruned |
| TempCodes.Six | web/temp_codes.py:57 | the microseconds field of `isoformat()` is six characters |
| TempCodes.IsoFormat | web/temp_codes.py:57 | `isoformat()` is 19 characters, or 26 when there are microseconds |
| TempCodes.NewCode | web/temp_codes.py:53-61 | the stored record has exactly the seven keys, the given code, is active and has never been used |
| TempCodes.Overlay | web/temp_codes.py:83-85 | the keys stay those of the record; a key the record has takes the update's value; keys it lacks are ignored |
| TempCodes.Tag | web/temp_codes.py:101-102 | a copy with `id` set to the code id and every other field kept |
| TempCodes.TaggedWhere | web/temp_codes.py:97-113 | every record that matches appears tagged with its id, and nothing else appears |
| TempCodes.FirstWithCode | web/temp_codes.py:71-72 | the first record in insertion order whose code equals the value under Python equality, or none exactly when no record has it |
| TempCodes.Without | web/temp_codes.py:94 | the key order of a dict without the deleted key (also the user store's order, web/models.py:133) |
| TempCodes.WithoutDistinct | web/temp_codes.py:94 | deleting keeps the key order free of duplicates |
| TempCodes.Deactivated | web/temp_codes.py:115-133 | the same ids, and no record left both active and past a parseable expiry |
| TempCodes.CleanedAt | web/temp_codes.py:120-129 | after visiting some ids, exactly the visited records have been deactivated where expired and the rest are unchanged |
| TempCodes.CleanedAll | web/temp_codes.py:120-129 | visiting every id gives Deactivated |
| TempCodes.AnyExpiredAt | web/temp_codes.py:127-131 | the expired-codes list of the loop is non-empty exactly when some visited record expired |
| TempCodes.AnyExpiredAll | web/temp_codes.py:127-131 | over every id, that is exactly when some record in the store expired |
| TempCodes.DeactivatedIdempotent | web/temp_codes.py:115-133 | cleaning twice at the same time equals cleaning once |
| TempCodes.CleaningKeepsActive | web/temp_codes.py:135-154 | cleaning first does not change which codes are listed as active |
| TempCodes.TemporaryCodeDatabase.constructor | web/temp_codes.py:10-25 | the stored codes and order, or an empty store |
| TempCodes.TemporaryCodeDatabase.GetCode | web/temp_codes.py:65-67 | the record under `str(id)`, or none exactly when absent |
| TempCodes.TemporaryCodeDatabase.AddCode | web/temp_codes.py:44-63 | a missing code, name, creator or expiry gives False and no change; otherwise the new record is stored under the id (added or replaced), and the result is whether the save succeeded |
| TempCodes.TemporaryCodeDatabase.GetCodeByValue | web/temp_codes.py:69-75 | none and no change when no record has the code; otherwise the first such record, which gets its `id` key in the store as well |
| TempCodes.TemporaryCodeDatabase.OverlayKeys | web/temp_codes.py:83-85 | the update loop computes Overlay |
| TempCodes.TemporaryCodeDatabase.UpdateCode | web/temp_codes.py:77-87 | an unknown id gives False and no change; otherwise the record becomes its overlay with the update, and the result is whether the save succeeded |
| TempCodes.TemporaryCodeDatabase.DeleteCode | web/temp_codes.py:89-95 | an unknown id gives False; otherwise the key leaves the map and the order |
| TempCodes.TemporaryCodeDatabase.GetAllCodes | web/temp_codes.py:97-105 | every record, tagged, in insertion order |
| TempCodes.TemporaryCodeDatabase.CodesByCreator | web/temp_codes.py:107-113 | the records created by that user, and only those: every returned record has that creator, and every stored record with that creator is returned |
| TempCodes.TemporaryCodeDatabase.DeactivateOne | web/temp_codes.py:121-127 | one loop step: the record is deactivated when expired, and the flag says whether it was |
| TempCodes.TemporaryCodeDatabase.CleanExpiredCodes | web/temp_codes.py:115-133 | the store becomes Deactivated; the result is the save's success when some record expired and True otherwise |
| TempCodes.TemporaryCodeDatabase.GetActiveCodes | web/temp_codes.py:135-154 | the records that are active and whose parseable expiry is still ahead, tagged, in insertion order; a code without an expiry is never listed |
| Users.NormalRole | web/models.py:53-55 | the result is always admin or agent, and a role that already is one of them is kept |
| Users.NewUser | web/models.py:57-64 | the stored record has exactly the six keys, the given role and active flag, no last login and the dark theme |
| Users.Listed | web/models.py:139-144 | the listed entry has the user name, no password hash, and every other field of the record |
| Users.UserDatabase.constructor | web/models.py:10-29 | a non-empty stored file is loaded as it is; otherwise the store holds only the default admin |
| Users.UserDatabase.AddUser | web/models.py:48-66 | an empty name or password gives False and no change; otherwise the user is written (added or replaced) with the normalised role, and the result is whether the save succeeded |
| Users.UserDatabase.GetUser | web/models.py:68-70 | the stored user, or none exactly when absent |
| Users.UserDatabase.Authenticate | web/models.py:72-87 | True exactly for a stored, active user whose password checks; then only that user's last login changes; otherwise nothing changes |
| Users.UserDatabase.UpdatePassword | web/models.py:89-95 | an unknown user gives False; otherwise only that hash changes |
| Users.UserDatabase.UpdateRole | web/models.py:97-107 | an unknown user or a role other than admin or agent gives False and no change; otherwise only that role changes |
| Users.UserDatabase.UpdateActive | web/models.py:109-115 | an unknown user gives False; otherwise only the active flag changes |
| Users.UserDatabase.UpdateTheme | web/models.py:117-123 | an unknown user gives False; otherwise only the theme changes |
| Users.UserDatabase.DeleteUser | web/models.py:125-134 | an unknown user or `admin` gives False and no change; otherwise the user leaves the map and the order; the admin is never deleted |
| Users.UserDatabase.GetAllUsers | web/models.py:136-146 | one listed entry per user, in insertion order, none with a password hash |
| Users.FromDbUser | web/models.py:184-195 | no record, or an empty one, gives no user; otherwise the user with the stored role, active flag and theme, defaulting to agent, active and dark |
| Users.AddedUserLoads | web/models.py:48-64 | a user added then loaded has the normalised role, the given active flag and the dark theme, and is an admin exactly when added as one |
| Users.MissingRoleIsAgent | web/models.py:190-195 | a stored record without a role loads as an agent and not as an admin |
| WebClient.CellText | web/static/js/main.js:170 | a missing or falsy cell gives the empty text; any other cell its non-empty string form |
| WebClient.Escape | web/static/js/main.js:171 | doubling quotes never shortens the text and leaves text without `"` unchanged |
| WebClient.QuotedAll | web/static/js/main.js:171 | one quoted text per input text, in order |
| WebClient.CellTexts | web/static/js/main.js:169-172 | one cell text per header, in header order |
| WebClient.CsvTextStep | web/static/js/main.js:168-174 | one more row appends exactly its line |
| WebClient.FormatCsvData | web/static/js/main.js:163-177 | the loop builds exactly the CSV text: the header line, then one line per row |
| WebClient.QuotedBodyEscape | web/static/js/main.js:171 | reading back an escaped, quoted cell gives the cell text and the rest of the input |
| WebClient.FieldsRoundTrip | web/static/js/main.js:171-173 | reading back a comma-joined line of quoted cells gives the cell texts |
| WebClient.LineRoundTrip | web/static/js/main.js:169-173 | a row's line reads back as that row's cell texts, leaving the rest of the input |
| WebClient.Table | web/static/js/main.js:165-176 | one list of cell texts per row, in order |
| WebClient.RowsRoundTrip | web/static/js/main.js:165-176 | the row lines read back as exactly the table of cell texts: quoting loses nothing, even with commas, quotes or line breaks in a cell |
| WebClient.Classify | web/static/js/api-utils.js:110-126 | the server's error text exactly when there is one; a timeout exactly when there is none and the request timed out; 401 and 403 only for those statuses; a server fault carries the status; the generic case exactly when no branch applies |
| WebClient.RequestErrorOutcome | web/static/js/main.js:217-237 | the request helper redirects to the login page after 2 seconds exactly for 401 and 403; a server error text is shown as it is; the generic case gives the default message |
| WebClient.ApiErrorOutcome | web/static/js/api-utils.js:107-129 | the API helper redirects to the login page after 3 seconds exactly for 401; a server error text is shown as it is; a server fault names its status; the generic case gives the default message |
| WebClient.ServerTextWins | web/static/js/api-utils.js:110-111 | with a server error text, both handlers show that text and never redirect, whatever the status |
| WebClient.TimeoutIgnoresStatus | web/static/js/api-utils.js:112-113 | a timeout without a server text gives the same outcome in both handlers whatever the status, and the API helper does not redirect |
| WebClient.ServerFaultNamesStatus | web/static/js/api-utils.js:124-125 | two server faults with the same message have the same status |

## Left out

- The network is not modelled. The Nuki Web API, SMTP and the Telegram Bot API are function parameters, and so is their answer.
- Reading and writing JSON files is modelled as a stored value and a `writeOk`/`canWrite` flag. One `canWrite` covers every write of one poll.
- The clock is a `now` parameter. One `now` serves a whole call, although the source reads the clock several times.
- One users answer (`Cloud.users`) serves every user-name lookup of a poll, although `get_user_name` fetches the user list again for each lookup (scripts/nuki/api.py:132). A fetch that fails (an empty list) or a list that changes in the middle of a poll would affect only some of that poll's records; the model cannot show that.
- JSON values are `None`, booleans, integers and strings only (`PyValues.Value`). Floats, lists and objects coming from the cloud or the stores are not modelled; for example a float `trigger` of `6.0`, which Python compares equal to `6`, cannot be written.
- HTML e-mail markup is left abstract. The bodies are the `HtmlSingle`/`HtmlDigest` parameters; only the plain-text bodies are spelled out.
- Logging is left out, including the warnings of `_validate_config` in both services, which change no state.
- Import failures of the service modules in `_initialize_services` are left out.
- PyValues.Lower: maps only the ASCII capitals and the Kelvin sign. Python's `lower()` also maps other non-ASCII letters, and turns `İ` (U+0130) into two characters. Those results always hold a non-ASCII character where the model keeps the original one (for `İ`, an `i` then a combining dot, and none of the compared words ends in `i`), so Security.Kind and the tests built on it (`IsFailedAttempt`, `IsOpening`, `IsAccess`), which compare against ASCII words, decide as Python does; the lowered text itself differs.
- NukiApi.UserName: a string auth id counts as digits only when it is made of ASCII `0`-`9`. Python's `isdigit()` also accepts other Unicode decimal digits (`٣`, `３`), which `int()` converts, so such an id would match the user whose id is that number; the model gives "Unknown User". It also accepts digits that are not decimal (`²`), on which `int()` raises `ValueError` and aborts the poll; that failure is not modelled either, and the model gives "Unknown User".
- NukiApi.ConvertedMatch: states the converted match for ASCII digit strings only, for the reason given for NukiApi.UserName.
- NukiApi.ParseDate: the millisecond-timestamp branch (`fromtimestamp`, a local-time conversion) is an oracle parameter.
- TempCodes: `datetime.fromisoformat` on stored expiry dates is an oracle parameter.
- Time differences use whole microseconds rather than the float `total_seconds()`.
- DateTimes.ParseStamp: accepts only the zero-padded form that `strftime` writes, while `strptime` also takes single-digit fields.
- Security.EventDate: for the same reason, an unpadded date string falls back to `now`.
- Security settings come in as a configuration value with the source's defaults. Reading the `[Security]` section of the INI file is left out.
- The alert file, the alert callback and the reset of a corrupt alert file are left out; the alert log is the `alerts` sequence.
- `Message` builds the alert text, but no contract describes it.
- Records.LogEntry: the user name field is a string only. A non-string `name` (which makes Python raise in `strip`) is not modelled.
- TempCodes.TemporaryCodeDatabase.AddCode: the code id is a string; non-string ids are not modelled.
- TempCodes.TemporaryCodeDatabase.UpdateCode: the record is overlaid in a local copy and then stored, so no alias of the stored dict is mutated.
- Password hashing is a pair of parameters (the hash and the check); the algorithm is left out.
- Users.UserExists carries no contract; it is a plain membership test.
- WebClient.CellText: numbers are integers only; NaN and floating-point cells are not modelled.
- WebClient.Classify: a non-string `responseJSON.error` is not modelled.
- Console output is left out of the browser code.
- The `errorCallback` dispatch is left out; the redirect is an output of the outcome functions.
- `downloadCsv`, `formatBytes` and the timers of the browser code are left out.
- LegacyNotifier.Notifier.AddToDigest: when the interval has passed, the contract states that the queue was flushed through SendDigestNotification, not the flag the flush returned.
- Monitor.NukiMonitor.Deliver: the results of the immediate sends are not stated, and once the digest interval has passed only the notifier's invariant is stated (the flush itself is LegacyNotifier.Notifier.AddToDigest's contract).
- Monitor.NukiMonitor.CheckNewActivity: states no more about delivery than Deliver does.
- The rest of the configuration manager is not part of this model: only `_parse_list` and the `[Filter]` lists are.
- The `run` loop with its sleep is not part of this model, and neither are the Flask applications.

## Findings

| source | as written | input that shows it | evidently intended | confidence | as-written member | corrected member |
|---|---|---|---|---|---|---|
| scripts/nuki_monitor.py:51 | the monitor reads `config.use_explicit_id` and `config.smartlock_id`, which the configuration manager (scripts/nuki/config.py:7-58) never sets, so every initialisation and every poll raises AttributeError | any configuration loaded by the configuration manager | a missing setting means no fixed lock, so use the locks listed by the cloud | not executed | Monitor.LocksAsWritten (with Monitor.LoadedSettingsRaise) | Monitor.SelectLocks (with Monitor.SelectLocksAgrees) |
