# YouTube transcript downloader: a verified model

The repository has two batch scripts. Each walks a JSON catalogue of
content creators and their videos, and saves one transcript per video under
`transcripts/MMDDYYYY_Creator_videoId.txt`:

- `main_supadata.py` handles videos that have no YouTube captions. It asks
  the Supadata service for the transcript, polls a queued job up to thirty
  times, and records the outcome in the video's `downloaded_via_supadata`
  flag.
- `main.py` fetches transcripts through a caption library and records the
  outcome in the video's `downloaded` flag.

This project models the logic of both scripts in Dafny and proves
properties of that model:

- **File names.** Both versions of `format_date`, `sanitize_creator_name`
  and `generate_filename`, including the grammar of Python's
  `strptime("%m-%d-%Y")` (modules `Dates`, `Text`, `SupadataNaming`,
  `LegacyNaming`).
- **Supadata.** The request and polling state machine of
  `download_transcript_via_supadata` (modules `SupadataApi`,
  `SupadataApiFacts`).
- **Drivers.** The two `main()` drivers, with their skip rules, flag
  updates, saves and counters (modules `Catalogue`, `Loops`,
  `SupadataDriver`, `SupadataDriverFacts`, `LegacyDriver`,
  `LegacyDriverFacts`).
- **Examples.** Every `format_date`, `sanitize_creator_name` and
  `generate_filename` case of the three test files: test_main.py and
  test_main_supadata.py (`SanitizeExamples`, `NamingExamples`), and the
  CJK, mixed and punctuated names of test_encoding.py
  (`EncodingExamples`). Each file name is stated exactly, which implies
  the containment, prefix, suffix and length checks the tests make. The download tests' cases follow from the general
  lemmas of `SupadataApiFacts`; only the 429 reply is also stated on its
  own (`RateLimited`).

The outside world is input data:

- the API key;
- the reply to the transcript request;
- the sequence of replies to job-status polls;
- whether the output file can be opened;
- the set of existing files;
- for main.py, which download calls and which saves succeed.

A download or a save is an event in the model's state, not an action.
Each loop in the source is a Dafny method with loop invariants. Each method
is proved equal to a function: `SupadataApi.Fetch`, `SupadataDriver.Final`
or `LegacyDriver.Final`. The properties are lemmas about those functions.

The driver runs are folds of a single turn function over creators and
videos (`Loops.Upto`, `Loops.Prefix`). A turn on a state that an uncaught
exception has ended is not taken. The whole-run facts are proved once for
one turn (`Proper`) and carried through both loops by induction
(`PrefixFacts`, `UptoFacts`).

Where the scripts' tests and the code disagree, the model follows the code:

- A 200 reply with an empty or blank body is written to the file and counts
  as a success (`SupadataApiFacts.ImmediateReply`). The tests at
  test_main_supadata.py:240-276 expect a failure.
- test_main.py imports main.py but checks the strict sanitiser and the
  "Invalid date format" message, which only main_supadata.py has. Those
  examples are proved against `SupadataNaming`. main.py's `format_date`
  raises `strptime`'s own error (`LegacyNaming.FormatDate`).

## Model

| member | source | states |
|---|---|---|
| Dates.DaysInMonth | main_supadata.py:28 | every month has 28 to 31 days; February has 29 exactly in Gregorian leap years |
| Dates.MonthField | main_supadata.py:28 | `%m` accepts `1[0-2]`, `0[1-9]` or `[1-9]` and reads a month from 1 to 12 |
| Dates.DayField | main_supadata.py:28 | `%d` accepts `3[01]`, `[12]\d`, `0[1-9]`, `[1-9]` or a space and a digit, and reads a day from 1 to 31 |
| Dates.FirstDash | main_supadata.py:28 | the first `-` of the text, with no dash before it; none when the text has no dash |
| Dates.StrptimeValid | main_supadata.py:28 | whatever `strptime` accepts is a date `datetime` can hold: month 1-12, year 1-9999, a day that exists in that month |
| Dates.StrptimeSound | main_supadata.py:28 | an accepted text is exactly an accepted month spelling, `-`, an accepted day spelling, `-` and the four digits of the year |
| Dates.StrptimeAccepts | main_supadata.py:28 | every valid date, with any accepted spelling of its month and day and a four-digit year, is parsed as that date |
| Dates.StrptimeOf | main_supadata.py:28 | once the month, day and four-digit year fields are read, the parse is decided by the calendar: year 0 is out of range, a day past the month's end is out of range, otherwise it is that date |
| Dates.StrptimeFields | main_supadata.py:28 | an accepted text has its month before the first dash, its day before the second and exactly four year digits after it, and their values agree with the parsed date |
| Dates.MonthSpellingRead | main_supadata.py:28 | every accepted spelling of a month is read back as that month |
| Dates.DaySpellingRead | main_supadata.py:28 | every accepted spelling of a day is read back as that day |
| Dates.MonthFieldSpelling | main_supadata.py:28 | every text `%m` matches is an accepted spelling of the month it is read as |
| Dates.DayFieldSpelling | main_supadata.py:28 | every text `%d` matches is an accepted spelling of the day it is read as |
| Dates.Pad2 | main_supadata.py:29 | `%m` and `%d` output is two digits |
| Dates.Pad4 | main_supadata.py:29 | `%Y` output is four digits |
| Dates.Pad2RoundTrip | main_supadata.py:29 | two output digits read back as the number |
| Dates.Pad4RoundTrip | main_supadata.py:29 | four output digits read back as the year |
| Dates.Pad4ReadBack | main_supadata.py:28-29 | four digits read as a year and written again give the same four digits |
| Dates.Pad4Injective | main_supadata.py:29 | different years give different `%Y` output |
| Dates.Render | main_supadata.py:29 | `strftime("%m%d%Y")` is eight digits |
| Dates.RenderRoundTrip | main_supadata.py:29 | the eight digits hold month, day and year, in that order |
| Dates.Reformat | main_supadata.py:28-29 | succeeds exactly when `strptime` does, with the rendering of the parsed date; otherwise carries `strptime`'s error |
| Dates.ReformatCanonical | main_supadata.py:28-29 | the `MM-DD-YYYY` text of every valid date becomes its `MMDDYYYY` digits |
| SupadataNaming.InvalidDateMessage | main_supadata.py:31 | the message starts with "Invalid date format" and ends with "expected MM-DD-YYYY" |
| SupadataNaming.FormatDate | main_supadata.py:25-31 | succeeds exactly on texts `strptime` accepts, with the `MMDDYYYY` rendering of a valid date; otherwise fails with the message naming the input |
| SupadataNaming.RemoveForbidden | main_supadata.py:41 | keeps none of the forbidden characters (angle brackets, colon, double quote, slash, backslash, vertical bar, question mark, asterisk, U+0000 to U+001F), keeps only characters of the input, and changes nothing when none is present |
| SupadataNaming.Clean | main_supadata.py:39-41 | the result has no space and no forbidden character |
| SupadataNaming.CleanAppend | main_supadata.py:39-41 | replacing spaces and removing forbidden characters works character by character, so it distributes over concatenation |
| SupadataNaming.CleanOfEdge | main_supadata.py:37-41 | dots and spaces come out of the cleaning as dots and underscores |
| SupadataNaming.SanitizeCreatorName | main_supadata.py:34-44 | never empty, no space or forbidden character, does not start or end with `.` or `_` |
| SupadataNaming.StripKeepsSafe | main_supadata.py:43 | stripping the ends of a safe name leaves it safe |
| SupadataNaming.UnknownIsSafe | main_supadata.py:44 | the fallback "Unknown" is itself a safe name |
| SupadataNaming.SanitizeIsStrippedClean | main_supadata.py:34-44 | the first strip makes no difference: the name is the cleaned input with dots and underscores stripped from its ends, or "Unknown" when nothing is left |
| SupadataNaming.SanitizeKeeps | main_supadata.py:34-44 | a safe name without `.` or `_` at its ends is returned unchanged |
| SupadataNaming.SanitizeIdempotent | main_supadata.py:34-44 | sanitising twice equals sanitising once |
| SupadataNaming.GenerateFilename | main_supadata.py:47-51 | fails exactly when `format_date` fails, with its message |
| SupadataNaming.FilenameLayout | main_supadata.py:47-51 | the name is the eight date digits, `_`, the sanitised creator, `_`, the id and `.txt`, each in its place |
| SupadataNaming.FilenameInjective | main_supadata.py:47-51 | different ids with the same date and creator give different names |
| LegacyNaming.FormatDate | main.py:19-22 | succeeds exactly on texts `strptime` accepts, with the `MMDDYYYY` rendering; otherwise carries `strptime`'s own error |
| LegacyNaming.SanitizeCreatorName | main.py:25-27 | same length, no space left, every other character kept in place |
| LegacyNaming.SanitizeIdempotent | main.py:25-27 | replacing spaces twice equals once |
| LegacyNaming.GenerateFilename | main.py:30-34 | fails exactly when `strptime` does, with its error |
| LegacyNaming.FilenameLayout | main.py:30-34 | the eight date digits and `_` first, the name with spaces replaced, then a suffix `_id.txt` |
| LegacyNaming.FilenameInjective | main.py:30-34 | different ids with the same date and creator give different names |
| LegacyNaming.SanitizersAgree | main.py:25-27 | on a name with no forbidden character and no dot, space or underscore at either end, both sanitisers agree |
| Text.ReplaceSpaces | main.py:27 | every space becomes `_` and every other character is kept, position by position |
| Text.Strip | main_supadata.py:37 | the result does not start or end with a stripped character and is a contiguous part of the input |
| Text.StripSurrounded | main_supadata.py:43 | stripping ignores a prefix and suffix made only of stripped characters |
| Text.StripParts | main_supadata.py:37 | the input is the stripped text surrounded by stripped characters only |
| Text.Decimal | main_supadata.py:161 | a status code is written as its decimal digits, which read back as the code; a negative code is `-` followed by the digits of its magnitude |
| Text.NaturalRoundTrip | main_supadata.py:161 | decimal digits read back as the number |
| Json.KeyIndex | main_supadata.py:100 | the position of the first member with a key, or the number of members when none has it |
| Json.MembersDict | main_supadata.py:100 | the dictionary `json` builds from an object's members takes its entries from the members, has no repeated key, holds each key's last value, has every key of the members, and keeps the keys in the order they first appear |
| Json.MembersOfDistinct | main_supadata.py:100 | an object without repeated keys is its own dictionary |
| Json.RepeatedKey | main_supadata.py:142 | `repr` of the dictionary of `{"a": 1, "a": 2}` is `{'a': 2}` |
| Json.Lookup | main_supadata.py:101 | a key is found exactly when some member has it, and the value found is that of the last member with the key, as `json` keeps the last of duplicate keys |
| SanitizeExamples.SanitizeSpace | test_main_supadata.py:313-315 | two plain words joined by a space become `Word_Word` |
| SanitizeExamples.StrictTwoWords | test_main_supadata.py:313-315 | "Test Creator" becomes "Test_Creator" |
| SanitizeExamples.LegacyTwoWords | test_main.py:107-110 | main.py turns "Test Creator" into "Test_Creator" |
| SanitizeExamples.KeepsPair | test_main.py:61-71 | two plain pieces written together are kept unchanged by both sanitisers |
| SanitizeExamples.SanitizeUnchanged | test_main.py:61-71 | "CreatorName" and "海伦子Hellen" are kept unchanged by both sanitisers |
| SanitizeExamples.SanitizeSpacedWords | test_main.py:57-59 | "Money or Life 美股频道" becomes "Money_or_Life_美股频道" in both scripts |
| SanitizeExamples.SanitizeDoubleSpaces | test_main.py:65-67 | "Content  Creator  Name" becomes "Content__Creator__Name" in both scripts |
| SanitizeExamples.SanitizeWindowsCharacters | test_main.py:73-82 | each of `:`, `/`, `\`, `\|`, `?`, `*`, `"` and the angle brackets is dropped: the names all become "CreatorName" |
| SanitizeExamples.SanitizeEdgeDotsAndSpaces | test_main.py:84-87 | "...Creator Name..." and "  Creator Name  " both become "Creator_Name" |
| SanitizeExamples.SanitizeControlCharacters | test_main.py:89-92 | U+0000 and U+001F between two words are dropped |
| SanitizeExamples.SanitizeComplexMixed | test_main.py:99-101 | "Creator: 海伦子?" becomes "Creator_海伦子" |
| SanitizeExamples.CleanKeeps | test_main.py:69-71 | a name without space or forbidden character passes the cleaning unchanged, CJK included |
| SanitizeExamples.SanitizeOnlyForbidden | test_main.py:94-97 | ":::" becomes "Unknown" |
| SanitizeExamples.SanitizeOnlyDots | test_main.py:94-97 | "..." becomes "Unknown" |
| NamingExamples.FormatDateExamples | test_main.py:18-30 | both `format_date`s turn "01-08-2026", "12-19-2025", "06-14-2025" and "09-01-2025" into "01082026", "12192025", "06142025" and "09012025" |
| NamingExamples.FormatsAs | test_main.py:18-30 | a valid date given as an accepted month spelling, `-`, an accepted day spelling, `-` and its four year digits becomes its eight digits in both scripts |
| NamingExamples.LegacyFilenameOf | main.py:30-34 | main.py's file name is the formatted date, `_`, the sanitised creator, `_`, the id and `.txt` |
| NamingExamples.StrictFilenameOf | main_supadata.py:47-51 | main_supadata.py's file name is the formatted date, `_`, the sanitised creator, `_`, the id and `.txt` |
| NamingExamples.LegacyFilenameBasic | test_main.py:107-110 | "01-08-2026", "Test Creator" and "abc123" give "01082026_Test_Creator_abc123.txt" |
| NamingExamples.LegacyFilenameChinese | test_main.py:112-115 | "12-19-2025", "海伦子Hellen" and "inXOHNc_UUo" give "12192025_海伦子Hellen_inXOHNc_UUo.txt" |
| NamingExamples.LegacyFilenameWords | test_main.py:117-120 | "06-14-2025", "Money or Life 美股频道" and "t7XX6-pon8M" give "06142025_Money_or_Life_美股频道_t7XX6-pon8M.txt" |
| NamingExamples.StrictFilenameBasic | test_main_supadata.py:317-319 | "12-25-2025", "Test Creator" and "abc123" give "12252025_Test_Creator_abc123.txt" in main_supadata.py |
| NamingExamples.AcceptsPlainDate | test_main_supadata.py:309-311 | "01-15-2026" becomes "01152026" |
| NamingExamples.AcceptsLeapDay | test_main.py:32-34 | "02-29-2024" becomes "02292024" in both scripts |
| NamingExamples.AcceptsShortFields | main.py:21-22 | main.py accepts the single-digit fields of "1-8-2026" and writes "01082026" |
| NamingExamples.RejectsMonth13 | test_main.py:43-46 | "13-01-2025" does not match the format |
| NamingExamples.StrictRejectsMonth13 | test_main.py:43-46 | the strict `format_date` fails on "13-01-2025" with its own message |
| NamingExamples.RejectsFebruary30 | test_main.py:48-51 | "02-30-2025" is rejected: the day is out of range for February 2025 |
| NamingExamples.RejectsIsoOrder | test_main.py:36-41 | "2025-12-19" does not match the format |
| NamingExamples.StrictRejectsIsoOrder | test_main.py:36-41 | the strict `format_date` fails on "2025-12-19" with its own message, which says "Invalid date format" and "expected MM-DD-YYYY" |
| EncodingExamples.UnspacedFilename | main.py:25-34 | a creator name with no space is kept whole, and the file name is the date digits, `_`, the name, `_`, the id and `.txt` |
| EncodingExamples.SpaceThenWord | main.py:25-27 | a space before an unspaced word becomes `_` and the word is kept, whatever comes before |
| EncodingExamples.ThreeWords | main.py:25-27 | three unspaced words with single spaces between them come out joined by `_` |
| EncodingExamples.ChineseCreatorNames | test_encoding.py:21-36 | "01-08-2026" and "test123" with "海伦子Hellen", "Money or Life 美股频道", "中文频道" and "English Channel 中文" give `01082026_<name with spaces replaced>_test123.txt`, CJK characters kept |
| EncodingExamples.TranscriptFilename | test_encoding.py:153 | "12-19-2025", "海伦子Hellen" and "test_video" give "12192025_海伦子Hellen_test_video.txt" |
| EncodingExamples.PunctuationNames | test_encoding.py:182-201 | each of the six names with CJK punctuation, "$" or "%" is sanitised to itself, so never empty, and with "01-08-2026" and "test123" gives `01082026_<name>_test123.txt` |
| EncodingExamples.FileSystemNames | test_encoding.py:203-214 | the four (creator, date, id) triples give "12192025_海伦子Hellen_inXOHNc_UUo.txt", "06142025_Money_or_Life_美股频道_t7XX6-pon8M.txt", "01012026_纯中文频道名称_abc123.txt" and "12312025_Pure_English_Channel_xyz789.txt" |
| EncodingExamples.EndToEndFilename | test_encoding.py:265-271 | the end-to-end video ("11-11-2025", "海伦子Hellen", "73cdsu6TrbI") is named "11112025_海伦子Hellen_73cdsu6TrbI.txt" |
| SupadataApi.Message | main_supadata.py:60-166 | the error text is absent exactly on success; each failure has the message the function returns |
| SupadataApi.LangParam | main_supadata.py:78-79 | `lang` is sent exactly when `native_lang` is truthy, with its value |
| SupadataApi.Repeat | main_supadata.py:112-117 | `n` identical job-status requests |
| SupadataApi.FirstTerminal | main_supadata.py:112-153 | the first poll that ends the loop, at most thirty: every poll before it goes round again |
| SupadataApi.FirstNonObject | main_supadata.py:140-141 | the first list entry on which `.get` raises; all before it are dictionaries |
| SupadataApi.WriteEntries | main_supadata.py:140-142 | writes one line per entry, in order, up to the first entry that is not a dictionary, and reports that entry; the lines are those of `LinesOfEntries` |
| SupadataApi.WriteContent | main_supadata.py:127-148 | equals the specification of the `completed` branch: empty content, write failure, string, list or other type |
| SupadataApi.PollJob | main_supadata.py:108-155 | the polling loop equals its specification: the first terminal poll decides, or a time-out after thirty sleeps and polls |
| SupadataApi.QueuedEndsAt | main_supadata.py:112-151 | a first terminal poll at attempt `k` ends the call with its verdict after `k + 1` sleeps and polls |
| SupadataApi.Download | main_supadata.py:60-166 | the function body equals the specification `Fetch` of outcome, requests, sleeps and file |
| SupadataApi.DownloadTranscriptViaSupadata | main_supadata.py:54-166 | returns `(True, None)` exactly on success and otherwise the outcome's message, with the requests, sleeps and file of `Fetch` |
| SupadataApiFacts.MissingKeyIff | main_supadata.py:60-63 | the call fails for a missing key exactly when the key is absent or empty, with the message "SUPADATA_API_KEY not found in .env file" |
| SupadataApiFacts.QueuedVerdict | main_supadata.py:112-155 | a queued call ends with the outcome and file of its first terminal poll; when none of the thirty polls is terminal it times out with no file |
| SupadataApiFacts.QueuedOutcome | main_supadata.py:98-158 | a queued call never ends for a missing key, a missing `jobId`, the service's refusal, a network error or an unexpected error |
| SupadataApiFacts.CompletedNeverEarly | main_supadata.py:127-148 | the `completed` branch gives none of the outcomes that belong to the key or the first reply |
| SupadataApiFacts.UpstreamReply | main_supadata.py:160-161 | a first reply with a status other than 200 or 202 fails after that one request, with no sleep and no file; the message is "Supadata API error: ", the status in decimal, " - " and the reply text |
| SupadataApiFacts.UpstreamErrorIff | main_supadata.py:85-161 | the service's refusal is reported exactly for a first reply with a status other than 200 or 202, and carries that status and text |
| SupadataApiFacts.RateLimited | test_main_supadata.py:185-200 | a 429 reply gives the message "Supadata API error: 429 - " followed by the reply text |
| SupadataApiFacts.NoJobIdIff | main_supadata.py:98-104 | "Received 202 but no jobId in response" comes exactly from a 202 reply whose JSON object has no truthy `jobId` |
| SupadataApiFacts.CompletedIs | main_supadata.py:112-148 | a call whose job reports `completed` ends as its `content` decides; no other call fails on empty content or on the content type |
| SupadataApiFacts.CompletedEmptyIff | main_supadata.py:128-130 | completed content fails as empty exactly when it is falsy, and then leaves no file |
| SupadataApiFacts.CompletedUnexpectedIff | main_supadata.py:133-146 | completed content fails on its type exactly when it is truthy, neither a string nor a list, and the file could be opened; the file is left empty and the message names the type |
| SupadataApiFacts.EmptyContentIff | main_supadata.py:127-130 | a whole call fails with "Job completed but no content in response" exactly when its job completes with falsy content, and leaves no file |
| SupadataApiFacts.UnexpectedContentTypeIff | main_supadata.py:127-146 | a whole call fails on the content type exactly when its job completes with truthy content that is neither a string nor a list and the file opens, with that content's type |
| SupadataApiFacts.RequestShape | main_supadata.py:60-117 | no request without a key; otherwise the transcript request for the video, with `lang` exactly when `native_lang` is truthy, then one job-status request per sleep, at most thirty |
| SupadataApiFacts.PollsOnlyWhenQueued | main_supadata.py:98-117 | only a queued job is polled; any other call sends at most one request and never sleeps |
| SupadataApiFacts.Unqueued | main_supadata.py:85-104 | a call that is not queued sends at most the first request, does not sleep and does not time out |
| SupadataApiFacts.TimedOutIff | main_supadata.py:109-155 | time-out happens exactly when the job was queued and none of the thirty polls ended it, after thirty sleeps and thirty-one requests |
| SupadataApiFacts.FailedStopsAtOnce | main_supadata.py:150-151 | a "failed" status fails at once, with no further polls and no file |
| SupadataApiFacts.PollExceptionIsPollingError | main_supadata.py:157-158 | an exception while polling, a network error included, is a polling error |
| SupadataApiFacts.NetworkErrorOnlyFirst | main_supadata.py:163-164 | "Network error" comes exactly from a request exception on the first request |
| SupadataApiFacts.LaterPollsIgnored | main_supadata.py:112-155 | replies after the first terminal poll never matter |
| SupadataApiFacts.ImmediateReply | main_supadata.py:85-95 | a 200 reply is written verbatim, empty body included, and is a success after one request |
| SupadataApiFacts.FileOnlyWhenOpened | main_supadata.py:89-93 | the file exists only if it could be opened; a success always leaves it; a write failure carries the `IOError` text |
| SupadataApiFacts.QueuedThenCompleted | main_supadata.py:112-148 | polls that do not end the job, then "completed" with text: written after `k + 1` polls |
| SupadataApiFacts.EntryTextCases | main_supadata.py:141-142 | an entry's line holds nothing when it has no `text` member, the string itself for a string `text`, and `repr` of any other value |
| SupadataApiFacts.MissingTextLine | main_supadata.py:141-142 | an entry without a `text` member writes an empty line, `"\n"` |
| SupadataApiFacts.LinesOfEntries | main_supadata.py:140-142 | any list of dictionaries is written as each entry's `str(entry.get("text", ""))` followed by a newline, in order |
| SupadataApiFacts.StructuredEntries | main_supadata.py:138-148 | non-empty list content made only of dictionaries is written line by line and is a success |
| SupadataApiFacts.RepeatedKeyText | main_supadata.py:141-142 | a `text` value `{"a": 1, "a": 2}` is written as `{'a': 2}` and a newline, as the dictionary `json` builds keeps one entry per key |
| SupadataApiFacts.LinesOfTexts | main_supadata.py:140-142 | list content of `{"text": t}` entries is written as each `t` followed by a newline, in order |
| SupadataApiFacts.StructuredContent | main_supadata.py:138-142 | a non-empty list of text entries is written line by line and is a success |
| SupadataApiFacts.StructuredContentBadEntry | main_supadata.py:140-158 | an entry that is not a dictionary stops the writing after the lines before it and fails as a polling error |
| Catalogue.WithVideo | main_supadata.py:242 | replacing one video changes that video only |
| Catalogue.Shape | main_supadata.py:193-207 | the number of videos of each creator |
| Catalogue.ShapeCount | main_supadata.py:193-207 | the counts of the creators add up to the catalogue's number of videos |
| Catalogue.SameShapeCount | main_supadata.py:193-207 | catalogues with the same creators and collection sizes hold as many videos |
| Loops.UptoSucc | main_supadata.py:193-200 | a run that has not halted goes on with the next creator's inner loop |
| Loops.PrefixHalted | main_supadata.py:207-255 | after an uncaught exception, the inner loop takes no more turns |
| Loops.UptoHalted | main_supadata.py:193-255 | after an uncaught exception, no more creators are visited |
| Loops.HaltEndsRun | main_supadata.py:193-255 | an exception part-way through a creator is where the whole run ends |
| Loops.InnerNext | main_supadata.py:207-255 | the state after one more turn, and the creator's final state if that turn raised |
| Loops.OuterNext | main_supadata.py:193-255 | the state after one more creator, and the final state if it raised |
| SupadataDriver.OutputPathIs | main_supadata.py:220-221 | with the real namer, the output path fails exactly on a bad date, with its message |
| SupadataDriver.DecideRules | main_supadata.py:213-227 | skipped for captions exactly when `caption_enabled` is absent or truthy; skipped as downloaded exactly when the flag is set and the file exists; a bad date raises; otherwise attempted |
| SupadataDriver.TurnSkips | main_supadata.py:213-216 | a video with captions is only counted in `skipped_has_captions` |
| SupadataDriver.TurnAlready | main_supadata.py:219-225 | a video already downloaded whose file exists is only counted in `already_downloaded` |
| SupadataDriver.TurnInvalid | main_supadata.py:219-220 | a bad date met while checking the file ends the run with the counters unchanged |
| SupadataDriver.TurnAttempts | main_supadata.py:227-238 | an attempt is counted in `total_videos` first, then a bad date ends the run, otherwise the video is downloaded |
| SupadataDriver.Download | main_supadata.py:238-255 | one download, the flag set to the outcome, one save, and the success or failure counter |
| SupadataDriver.Visit | main_supadata.py:207-255 | the body of the inner loop equals one turn |
| SupadataDriver.VisitCreator | main_supadata.py:207-255 | the inner loop equals the fold of turns over the creator's videos, stopping at an uncaught exception |
| SupadataDriver.RunSupadata | main_supadata.py:186-255 | `main()` equals `Final`, the fold of turns over all creators |
| SupadataDriverFacts.SupadataWritesOnSuccess | main_supadata.py:85-148 | the downloader reports success only after writing the file |
| SupadataDriverFacts.AttemptedKeeps | main_supadata.py:238-255 | an attempt changes only that video's flag, makes one call and one save of the current catalogue, and loses no file |
| SupadataDriverFacts.AttemptedRecords | main_supadata.py:238-255 | an attempt sets the video's `downloaded_via_supadata` to whether the download succeeded, adds one to `successful` on success and to `failed` otherwise, saves the catalogue once and makes one call; the path is a file afterwards exactly when it was before or the download left one |
| SupadataDriverFacts.TurnRecords | main_supadata.py:227-255 | a turn that attempts a video counts it in `total_videos` and records the download's success in its flag and in exactly one of `successful` and `failed` |
| SupadataDriverFacts.TurnKeeps | main_supadata.py:207-255 | each turn keeps the frame, the call and save ledger, the balance of successes and failures, and settled videos |
| SupadataDriverFacts.TurnCounts | main_supadata.py:207-255 | each turn that does not raise adds exactly one to the sum of `skipped_has_captions`, `already_downloaded` and `total_videos` |
| SupadataDriverFacts.TurnSettles | main_supadata.py:207-255 | after a turn that does not raise, its video is one a later run skips or retries without loss |
| SupadataDriverFacts.PrefixFacts | main_supadata.py:207-255 | the inner loop keeps the facts, counts each video once and settles each |
| SupadataDriverFacts.UptoStep | main_supadata.py:193-255 | one more creator keeps the facts and counts its videos |
| SupadataDriverFacts.UptoFacts | main_supadata.py:193-255 | the first `i` creators keep the facts; absent an exception they are counted and settled |
| SupadataDriverFacts.RunOk | main_supadata.py:186-255 | the whole run is the fold over every creator and has the facts of `UptoFacts` |
| SupadataDriverFacts.RunKeeps | main_supadata.py:186-255 | a run changes only `downloaded_via_supadata` of caption-less videos, loses no file, and makes one call and one save per outcome |
| SupadataDriverFacts.RunCounts | main_supadata.py:186-255 | a run that reaches its end has `successful + failed == total`, counts every video in exactly one of the three skip/total counters, and settles every video |
| SupadataDriverFacts.RunFacts | main_supadata.py:186-255 | a run changes only `downloaded_via_supadata` of caption-less videos, loses no file, makes one call and one save per outcome; when it reaches its end, `successful + failed == total` and every video is counted in exactly one of the three skip/total counters |
| SupadataDriverFacts.SettledDecides | main_supadata.py:213-227 | a settled video is skipped by a later run unless its flag is false |
| SupadataDriverFacts.SupadataRun | main_supadata.py:169-255 | the whole-run facts for the script's own namer and downloader; after a run that reaches its end, a second run skips each video for captions or as already downloaded, unless its `downloaded_via_supadata` is falsy |
| LegacyDriver.TurnAlready | main.py:97-105 | a truthy `downloaded` is counted in `total_videos` and `already_downloaded`, with no name, call or save |
| LegacyDriver.TurnBadDate | main.py:97-109 | otherwise a bad date, after counting, ends the run with that error |
| LegacyDriver.LegacyBadDate | main.py:30-34 | with main.py's namer, that error is `strptime`'s own |
| LegacyDriver.TurnDownloads | main.py:97-127 | otherwise the video is counted and downloaded to its path |
| LegacyDriver.TurnShape | main.py:96-127 | a turn keeps the creators and their collection sizes |
| LegacyDriver.Download | main.py:116-127 | one call; on success `downloaded` is True and the catalogue is saved before counting, and a failing save ends the run; on failure `downloaded` is False, counted, not saved (the state of `Attempted`, stated in `AttemptedRecords`) |
| LegacyDriver.Visit | main.py:96-127 | the body of the inner loop equals one turn |
| LegacyDriver.VisitCreator | main.py:96-127 | the inner loop equals the fold of turns over the creator's videos, stopping at an uncaught exception |
| LegacyDriver.RunLegacy | main.py:74-127 | `main()` equals `Final`, the fold of turns over all creators |
| LegacyDriverFacts.RecordFacts | main.py:116-127 | recording an outcome changes only that video's `downloaded`, to the outcome |
| LegacyDriverFacts.AttemptedRecords | main.py:116-127 | a download sets `downloaded` to its outcome and makes one call; a failure adds one to `failed` with no save; a success is saved as the catalogue now is and adds one to `successful`; a failing save ends the run with nothing counted |
| LegacyDriverFacts.TurnRecords | main.py:96-127 | a turn that downloads a video counts it in `total_videos`, sets `downloaded` to the outcome, and adds one to `failed` on failure or to `successful` once the save succeeds |
| LegacyDriverFacts.AttemptedFacts | main.py:116-127 | a download keeps the frame, the save and call ledger and the counter partition, and counts and settles its video |
| LegacyDriverFacts.TurnFacts | main.py:96-127 | each turn keeps the facts and, without an exception, counts one video and settles it |
| LegacyDriverFacts.StepperProper | main.py:96-127 | the driver's turn has the single-turn facts |
| LegacyDriverFacts.PrefixFacts | main.py:96-127 | the inner loop keeps the facts, counts each video once in `total_videos` and settles each |
| LegacyDriverFacts.UptoStep | main.py:81-127 | one more creator keeps the facts and counts its videos |
| LegacyDriverFacts.UptoFacts | main.py:81-127 | the first `i` creators keep the facts; absent an exception they are counted and settled |
| LegacyDriverFacts.RunFacts | main.py:74-127 | a run changes only `downloaded`, only where it was not truthy and only to True or False; saves are the successes; calls are the outcomes plus a failed save; `total == already + successful + failed`, plus one for the video that raised; a run that reaches its end counts every video and leaves each marked downloaded or False |

## Left out

- Loading and saving the JSON file, and the Unicode round trips of Python's `json` module and file I/O that the tests check. The transcript and file-system tests of test_encoding.py (test_encoding.py:156-180 and 216-227) write and read back files of their own; only their file names come from the scripts, and those are stated. The catalogue is a value; a save is recorded as the catalogue saved.
- The HTTP layer (`requests.get`, URLs as sent, headers, time-outs), `time.sleep`, `os.getenv`, `dotenv`, `os.makedirs`. Replies, the key and file-open failures are inputs; sleeps are counted.
- Console output and the printed summaries.
- main.py's `download_transcript` (main.py:37-62). It wraps a foreign library and formats floats. The main.py driver takes the download outcome as an oracle of the video id, the output path, the creator's `native_lang` and the call number.
- Missing catalogue keys (`resource['content_creator']`, `video['video_id']` and so on raise `KeyError`). The catalogue always has them.
- JSON floating-point numbers. Numbers are integers.
- The types of catalogue fields. The model takes `content_creator`, `video_id` and `published_time` to be strings, `native_lang` a string or absent, and `content_collection` a list. A non-string `published_time` would make `strptime` raise `TypeError`, and a `null` collection is skipped by `if not content_collection`; neither is modelled. An empty collection is skipped too, which the model gets by taking no turn.
- Partial writes and disk errors after opening. Opening the output file either fails with an `IOError` or the content is written completely.
- File existence apart from the set of existing paths. main.py never checks it, so its model has no file set.
- Poll replies past the end of the given sequence. They read as an exception, as an exhausted mock of `requests.get` would raise.
- Python's `\d` in `strptime` also matches non-ASCII digits. Only ASCII digits are modelled.
- `%Y` output is always four digits, zero-padded. Older Python versions write years below 1000 unpadded.
- `Json.Repr`: escaping of quotes, backslashes and unprintable characters in `repr` is not reproduced. It only shapes error messages and lines written for non-string `text` values. Repeated keys are modelled: a dictionary is shown as `Members` builds it.
- `SupadataApi.Message`: `type(content)` is rendered from the JSON type name only. It covers the types `json` can produce.
- `SupadataDriver.RunSupadata`: the namer and the downloader are parameters. `SupadataRun` instantiates them with the script's own functions.
- `LegacyDriver.RunLegacy`: which downloads and saves succeed is an oracle, not a model of the caption library or the disk.
- The empty- and blank-body tests at test_main_supadata.py:240-276 are not stated as properties. The code writes such a body and succeeds, and the model follows the code.
