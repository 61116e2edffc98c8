# Speech-customization tools: readiness poller and word records

This project models, in Dafny, the two pieces of authored logic in a set of
command-line tools that drive a cloud speech-to-text service's
customization API.

- **The customization-readiness poller** (`whenCustomizationReady` in
  `acoustic.js`). Each attempt fetches the acoustic customization and sorts
  its `status`. `pending` and `training` become a retryable "still pending"
  error coded `ERR_TIMEOUT`. `ready` and `available` succeed with the
  customization. `failed` is a terminal "Customization training failed"
  error. Any other status is a terminal "Unexpected customization status:
  <status>" error. A transport error from the fetch is passed on unchanged.
  The retry helper repeats an attempt only when its error is coded
  `ERR_TIMEOUT`, at most `times` attempts (default 30), `interval`
  milliseconds apart (default 5000). The caller's parameters override both
  defaults; `trainAcousticModel` sets only the interval, to 10000.
  The service is modelled as a finite sequence of answers: the `k`-th fetch
  returns `answers[k]`, a transport error or a customization. A session
  records what the callback receives, how many fetches were made and how long
  was waited between them. `Poller.FollowsProtocol` states the protocol
  without recursion, and `Poller.ProtocolDeterminesSession` proves that
  exactly one session satisfies it.
- **The find-or-create model lookup.** It takes the first listed
  customization whose name is the configured model name. Only when there is
  none does it use the id the create call answers.
- **The `add` argument layout** of `acoustic.js`. For `application/zip` or
  `application/gzip`, the contained content type is argument 5 and the file
  is argument 6. For any other content type, the file is argument 5.
- **The word-record transform** inside `makeWordsFromFile` in `words.js`.
  The text is split on `\r\n` or `\n`, and empty lines are dropped. Each
  remaining line becomes `{word: line with spaces replaced by '_',
  display_as: line}`, in order.

Modules: `Wrappers` (Option, Result), `Customizations`, `PollOptions`,
`Poller`, `PollerProperties`, `AddCommand`, `Lines`, `Words`.

Behaviour worth noting:

- The code retries *any* error coded `ERR_TIMEOUT`, including a transport
  error that carries that code (acoustic.js:66-71). It does not refuse all
  transport errors.
- When the attempts run out, the callback gets the last error itself, which
  is the "still pending" error when every answer was pending. There is no
  separate timed-out outcome.
- The code does not validate `interval` or `times`. There is no
  configuration error. A `times` below 1 still allows the first attempt,
  because the retry helper always makes it (see `Poller.Budget`).

## Model

| member | source | states |
|---|---|---|
| Customizations.FirstIndexNamed | acoustic.js:14 | the index returned holds a customization with the name and no earlier one has it; no index only when no customization has the name |
| Customizations.FindByName | words.js:10 | a customization is found iff one with that name is listed; the one found is listed, has the name, and every customization before it has another name |
| Customizations.FindByNameFirstWins | acoustic.js:14 | among several customizations with the configured name, the first listed is chosen whatever follows it |
| Customizations.ChooseModelId | words.js:9-31 | a listed customization with the configured name gives its id; otherwise the created model's id, or no id when creation failed or the list call gave no result |
| Customizations.ChooseModelIdFromList | words.js:9-31 | stated on the list itself: the first listed customization with the name supplies the id whatever creation would answer; with no such customization, or no list, the id is the created model's, or none when creation failed |
| PollOptions.Resolve | acoustic.js:59-65 | interval defaults to 5000 and times to 30; a value the caller supplies replaces the default |
| PollOptions.TrainingOptions | acoustic.js:111-114 | the training call polls every 10000 ms with the default 30 attempts |
| PollOptions.ResolveIdempotent | acoustic.js:59-65 | passing resolved options back in as parameters changes nothing |
| Poller.Attempt | acoustic.js:75-101 | a transport error is passed on unchanged; success exactly for ready/available, returning the fetched customization; pending/training give the ERR_TIMEOUT "still pending" error, which is retried; failed and unknown statuses give uncoded errors, which are not retried; retried means passing `ErrorFilter`, the filter at acoustic.js:66-71 that accepts only the ERR_TIMEOUT code |
| Poller.Budget | acoustic.js:69 | at least one attempt is made, and never fewer than `times` are allowed |
| Poller.PollFrom | acoustic.js:66-105 | from attempt k on: the fetch count stays within the budget; the callback gets the last attempt's outcome; every earlier attempt asked for a retry; stopping short of the budget happens only on an outcome the filter does not retry |
| Poller.Poll | acoustic.js:55-106 | a polling session satisfies `FollowsProtocol`, the non-recursive statement of the retry contract in the comments at acoustic.js:67-69: 1 to `times` fetches, each but the last retried, the last outcome delivered, and an interval waited before each repeat |
| Poller.ProtocolDeterminesSession | acoustic.js:66-71 | the protocol admits exactly one session for a given sequence of answers, so it fully defines polling |
| Poller.StopsAtFirstNonRetry | acoustic.js:66-71 | polling ends at the first attempt within the budget that is not retried, delivering that attempt's outcome after k intervals |
| Poller.ExhaustsBudget | acoustic.js:67-69 | if every attempt within the budget asks for a retry, exactly `times` fetches are made and the last error is delivered |
| Poller.OnlyFetchedAnswersMatter | acoustic.js:72-105 | no answer past the last fetch is read: services that agree on the fetched answers yield the same session |
| Poller.RetryLoop | acoustic.js:72-105 | the attempt/wait/retry loop produces the session the protocol defines |
| PollerProperties.PendingFetchesAgain | acoustic.js:78-87 | a pending or training status leads to another fetch while attempts remain |
| PollerProperties.ReadyEndsPolling | acoustic.js:88-92 | ready or available ends polling successfully at that fetch with the same customization object |
| PollerProperties.FailedEndsPolling | acoustic.js:93-94 | failed ends polling at that fetch with "Customization training failed", however many attempts remain |
| PollerProperties.UnexpectedEndsPolling | acoustic.js:95-100 | any other status ends polling at that fetch with an error whose message ends with that status |
| PollerProperties.TransportErrorHandling | acoustic.js:66-77 | a fetch error is delivered unchanged and ends polling unless it is coded ERR_TIMEOUT with attempts left, in which case the fetch runs again |
| PollerProperties.AllPendingTimesOut | acoustic.js:78-87 | if every fetch finds pending or training, the fetch runs exactly `times` times and the "still pending" error is delivered |
| PollerProperties.WaitBounded | acoustic.js:59-69 | the time waited never exceeds (times - 1) intervals |
| PollerProperties.TrainingWaitBound | acoustic.js:108-114 | training readiness polling makes at most 30 fetches and waits at most 290000 ms |
| PollerProperties.ScenarioReadyOnThird | acoustic.js:78-92 | with 3 attempts and answers pending, training, ready: 3 fetches and success |
| PollerProperties.ScenarioTimesOut | acoustic.js:78-87 | with 2 attempts and answers pending, pending: 2 fetches and the "still pending" error |
| PollerProperties.ScenarioFailedFirst | acoustic.js:93-94 | with default options, a first answer of failed gives 1 fetch and the training-failed error |
| AddCommand.ParseAdd | acoustic.js:191-209 | zip/gzip take the contained type from argument 5 and the file from argument 6; any other type takes the file from argument 5 and no contained type; the usage line shows exactly when a needed argument is absent or empty |
| AddCommand.ParseAddRoundTrip | acoustic.js:197-209 | a well-formed `add` command line reads back as the values written |
| AddCommand.ExtraArgumentsIgnored | acoustic.js:204-209 | for a non-archive content type, arguments after the file change nothing |
| Lines.SplitLines | words.js:72 | splitting gives at least one line, no line contains a line feed, and a single line is the whole text |
| Lines.NoLineFeedIsOneLine | words.js:72 | text without a line feed is one line, so a lone carriage return stays inside it |
| Lines.SplitAfterCrLf | words.js:72 | a line followed by CR LF is split off on its own |
| Lines.SplitAfterLf | words.js:72 | a line followed by LF is split off on its own unless it ends in CR |
| Lines.SplitJoinCrLf | words.js:72 | splitting undoes joining with CR LF for any lines without a line feed |
| Lines.SplitJoinLf | words.js:72 | splitting undoes joining with LF for lines without a line feed, none but the last ending in CR |
| Words.ReplaceSpaces | words.js:77 | the word has the line's length; each space becomes '_' and every other character is kept |
| Words.RecordsFrom | words.js:75-85 | no more records than lines; every record has a non-empty display_as and a space-free word of the same length that agrees with it off the spaces |
| Words.MakeWords | words.js:72-85 | every record built from a text is well formed in that sense |
| Words.NonEmptyFrom | words.js:76 | the positions returned are increasing, in range, of non-empty lines, and include every non-empty line |
| Words.RecordsFollowLines | words.js:75-85 | the i-th record comes from the i-th non-empty line, and there are exactly as many records as non-empty lines |
| Words.MakeWordsDisplayLines | words.js:72-85 | display_as read back off the records gives the non-empty lines of the text in order, and each word is its display_as with spaces replaced |
| Words.WordsOfCrLfText | words.js:72-85 | non-empty lines joined by CR LF give one record per line, in order |
| Words.AllNonEmptyKept | words.js:75-85 | when no line is empty, every line gives a record at its own position |
| Words.BuildWords | words.js:75-85 | a single pass appending a record per non-empty line builds the same records, one per non-empty line |

## Left out

- The speech service calls (list, create, get, train, and the add corpus, words and audio calls) are foreign and networked. Their answers are parameters: the `answers` sequence, the `listing` and `created` values.
- The timer is not modelled. Waiting is recorded as the sum of intervals, and nothing is delayed.
- The internals of the third-party retry helper are not modelled. Only the contract its caller states for it is: retry a filtered error after the interval, deliver any other outcome, and deliver the last error at the limit. How the helper coerces a non-numeric or zero `times` is not modelled. A `times` below 1 is taken as one attempt.
- Poller.Poll: it requires at least `times` answers, because the service answers every fetch. This does not constrain the caller's inputs.
- The value of the SDK's `ERR_TIMEOUT` constant is not visible. It is modelled as the string `"ERR_TIMEOUT"`.
- The `extend` helper (a shallow merge here) is modelled only for the `interval` and `times` fields. Its treatment of `null` and other properties is not modelled.
- File reading, `JSON.parse` of the words file and the upload of the records are I/O or a foreign parser (words.js:64-70, 94-101).
- corpus.js holds only the find-or-create and upload glue. stt_stream.js holds microphone capture, stream piping and prompts, which are event-driven I/O.
- The `getCustomModelId` in acoustic.js (lines 41-52) never calls back when no customization matches. It is context for the training call and is not modelled.
- The command dispatch and all console output, including the usage text, are not modelled. Only whether the `add` usage line is shown is.
