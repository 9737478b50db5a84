# appleid-guard, modelled in Dafny

appleid-guard is a scheduled Apple ID keeper. Each run does the following:

- fetches its task configuration and launches a browser;
- walks Apple's account-recovery pages: login with a bounded captcha-submit loop, the two-factor and lock probes, and the unlock chain (date of birth, then security questions, then a freshly generated password);
- reports a changed password and notifies the configured channels;
- optionally signs in again to remove the account's devices;
- chooses how many minutes to wait before the next run.

The project models that decision logic. Every browser, HTTP, OCR, clock and random call becomes an oracle supplied to the model:

- **Random draws.** The draws of `Math.random()` are a `seq<real>` of values in `[0, 1)`.
- **Web page.** The page is a record of probe answers: `Visible`, `Hidden` or `ProbeFailed`, list lengths, question texts, the captcha rounds, and the position of a failing removal click. The lock probe of `check()` is answered twice, once for the task and once for `unlock()`, and the two answers may differ.
- **Recognisers and notification channels.** Each recogniser call and each channel outcome is a function of the call index or the channel.
- **A run's environment.** One run is given the fetched configuration, the body of the proxy fetch, the launch outcome, the page and the random draws. Every account step catches its own errors, so an error inside a step is that step failing, as the page says.

What the TypeScript program does to objects in place stays imperative here:

- `AppleId.AppleIdService` and `Task.TaskService` are classes whose methods update their fields:
  - the account password;
  - the browser actions;
  - the delay;
  - the stored configuration;
  - the log of events a run causes outside the page.
- Each such method is proved against a specification function, and the lemmas are stated about that function.
- The loops keep their loop form, with invariants:
  - the rejection-sampling password generator and its inner character loop;
  - the captcha-submit loop;
  - the password-input loop;
  - the device-removal loop;
  - the OCR retry loops and the 2Captcha polling loop;
  - the run loop of the entry point.

Observable behaviour worth knowing, all following the code:

- **Login can succeed without passing the captcha.** `login` returns true even when the captcha error stayed visible after all ten submit clicks.
- **Early returns keep the old delay.** An early `return` inside `executeTask`'s `try` block skips the scheduling block, so the previous delay survives. This happens on login failure and on unlock failure, and also on a failed browser launch.
- **`LANG` is read from the system environment.** The `LANG` option comes from the ordinary environment variable, so a system locale such as `en_US.UTF-8` wins over `-lang=`. `getLocale` then falls back to the Chinese table.
- **Only the first two security questions are used.** When a question is repeated in the configuration, the later answer replaces the earlier one in the answer object.
- **The 2Captcha and custom recognisers post the image unchanged.** Only the Tesseract and ddddocr recognisers strip a `data:image/...;base64,` prefix.
- **`getPassword()` and `getNextRunMinutes()` are plain field reads.** In the model they read the `password` field and the `nextRunMinutes` field. `Task.TaskService.GetNextRunMinutes` is what `Entry.RunLoop` reads after each run.
- **`PASSWORD_LENGTH` is 10.** It is `Constants.PasswordLength`.

## Model

| member | source | states |
|---|---|---|
| Random.ScaledIndex | src/common/utils/password.ts:13 | `Math.floor(r * n)` for a draw `r` in [0,1) is an index below `n`, the integer part of `r * n` |
| Strings.EmptyOccursEverywhere | src/modules/appleid/appleid.service.ts:27 | `includes('')` holds for every string |
| Strings.ContainsInfix | src/modules/task/task.service.ts:56 | a string includes any piece written inside it |
| Strings.BeforeFirst | src/modules/task/task.service.ts:58 | `split('+')[0]`: a prefix of the text without the separator, ending at the first separator or at the end |
| Strings.BeforeFirstOfJoin | src/modules/task/task.service.ts:58 | the first piece of `a + sep + b` is `a` when `a` has no separator |
| Strings.Utf16Length | src/modules/appleid/ocr.service.ts:49 | `length` counts between one and two code units per character |
| Strings.BmpLength | src/modules/appleid/ocr.service.ts:49 | within the Basic Multilingual Plane `length` is the number of characters |
| Strings.SupplementaryLength | src/modules/appleid/ocr-ddddocr.service.ts:92 | each character outside the Basic Multilingual Plane counts as two code units |
| Strings.LeadingSpaces | src/modules/appleid/ocr-ddddocr.service.ts:71 | the length of the maximal whitespace prefix |
| Strings.TrailingSpaces | src/modules/appleid/ocr-ddddocr.service.ts:71 | the length of the maximal whitespace suffix |
| Strings.Trim | src/modules/appleid/ocr-ddddocr.service.ts:71 | `trim()`: the infix left after removing only whitespace before and after it, and which neither starts nor ends with whitespace, so exactly the surrounding whitespace goes |
| Strings.TrimKeepsUnpadded | src/modules/appleid/ocr-ddddocr.service.ts:71 | trimming leaves an unpadded text unchanged |
| Strings.TrimIdempotent | src/modules/appleid/ocr-ddddocr.service.ts:71 | trimming twice is trimming once |
| Constants.FirstLine | src/common/constants/index.ts:33 | the part of a text before its first line terminator, which is as far as a `.*` lookahead reaches |
| Constants.PatternRequiresAllClasses | src/common/constants/index.ts:33 | a text the pattern accepts has a lowercase letter, an uppercase letter and a digit |
| Constants.PatternOnSingleLine | src/common/constants/index.ts:33 | on a text without line breaks the pattern accepts exactly the texts with all three classes, with no length or alphabet restriction |
| Constants.PatternAcceptsShortText | src/common/constants/index.ts:33 | the pattern accepts the three-character text `aA0` |
| Constants.PatternStopsAtLineBreak | src/common/constants/index.ts:33 | classes that occur only after a line break do not satisfy the pattern |
| Constants.PickUserAgent | src/common/constants/index.ts:24-30 | a random pick from the user-agent list is always one of its entries, since the list is non-empty |
| Password.PoolComposition | src/common/utils/password.ts:4-7 | the pool has 72 characters, all letters or digits, on one line, and the ten digits appear twice |
| Password.PoolPiecesAreRuns | src/common/utils/password.ts:4-6 | the three alphabets are the runs `a`-`z`, `A`-`Z` and `0`-`9` |
| Password.JoinWeights | src/common/utils/password.ts:7 | in `lower + upper + digits + digits` a digit occurs twice, a letter once, anything else never |
| Password.PoolWeights | src/common/utils/password.ts:7 | the multiplicity of every character in the pool: digits 2, letters 1, others 0 |
| Password.PoolChar | src/common/utils/password.ts:13 | every drawn character belongs to the pool |
| Password.Candidate | src/common/utils/password.ts:11-14 | a candidate built from a block of draws has one character per draw |
| Password.CandidateFromPool | src/common/utils/password.ts:13 | every character of a candidate comes from the pool |
| Password.CandidatePointwise | src/common/utils/password.ts:12-14 | character `i` of a candidate is the pool character picked by draw `i` |
| Password.BuildCandidate | src/common/utils/password.ts:11-14 | the inner `for` loop, started from the empty string, builds exactly the candidate of its block |
| Password.Blocks | src/common/utils/password.ts:10-14 | the draws split into blocks of `PASSWORD_LENGTH` draws, one block per pass of the outer loop |
| Password.GeneratedShape | src/common/utils/password.ts:10-17 | a generated password has length 10, matches the pattern, has all three classes and uses pool characters only |
| Password.GeneratedIsFirstAccepted | src/common/utils/password.ts:10-15 | the result is the candidate of the first block the pattern accepts; each earlier candidate was rejected and discarded whole |
| Password.ExampleDraws | src/common/utils/password.ts:13 | the draws 0, 0.375 and 0.75 pick `a`, `B` and `2` from the pool |
| Password.ExampleCandidates | src/common/utils/password.ts:11-14 | ten zero draws build only `a`s; the mixed block builds a candidate starting `aB2` |
| Password.RejectsWithoutUpper | src/common/utils/password.ts:15 | a candidate with no uppercase letter is rejected |
| Password.AcceptsAllClasses | src/common/utils/password.ts:15 | a pool-only candidate with a lowercase letter, an uppercase letter and a digit is accepted |
| Password.RetryAfterRejection | src/common/utils/password.ts:10-15 | a stream whose first block (ten zero draws) is rejected is retried; the password is then the second block's candidate, starting `aB2`, so streams that yield a password exist |
| Password.GeneratePassword | src/common/utils/password.ts:3-18 | the `do`-`while` loop returns the first accepted candidate, of length 10, matching the pattern, drawn from the pool |
| Locales.GetLocale | src/locales/index.ts:5-13 | a listed language gets its table; a member name inherited from `Object.prototype` gets that member, not a table; any other key falls back to the Chinese table |
| Locales.InheritedNamesAreNotTables | src/locales/index.ts:11-13 | `constructor`, `toString` and `__proto__` yield an inherited member, not the Chinese fallback |
| Locales.EnglishKeys | src/locales/index.ts:5-12 | the English table is returned exactly for `en_us` and `vi_vn` |
| Locales.KnownLanguages | src/locales/index.ts:6-8 | `zh_cn` gives the Chinese table; `en_us` and `vi_vn` give the English one |
| Notification.MessageLayout | src/modules/notification/notification.service.ts:18 | the message is `【`, the username, `】`, then the content, in that layout |
| Notification.Selected | src/modules/notification/notification.service.ts:21-34 | Telegram is selected iff token and chat id are set, WeChat iff the pusher id is set, the webhook iff its URL is set, in the fixed order Telegram, WeChat, webhook |
| Notification.PlanFollowsSelection | src/modules/notification/notification.service.ts:17-35 | `send` makes one attempt per selected channel, in order, each with that channel's request and outcome |
| Notification.FailuresAreIsolated | src/modules/notification/notification.service.ts:52-54 | which channels are attempted, and with which requests, does not depend on which channels fail |
| Notification.NoTargetsNoAttempts | src/modules/notification/notification.service.ts:17-35 | with no channel field set, no attempt is made |
| Notification.OnlyWebhook | src/modules/notification/notification.service.ts:32-34 | a webhook alone gets one post, carrying the username and the raw, unprefixed content |
| Notification.AllChannels | src/modules/notification/notification.service.ts:21-34 | with all channels set, three attempts in order Telegram, WeChat, webhook, each delivered iff its own channel works |
| Notification.NotificationService.constructor | src/modules/notification/notification.service.ts:14-15 | a new service has made no attempts |
| Notification.NotificationService.Send | src/modules/notification/notification.service.ts:17-35 | the attempts made are exactly the plan for the configuration, appended after the earlier ones, and `send` never fails |
| Captcha.AttemptBound | src/modules/appleid/ocr.service.ts:47 | `for (i = 0; i < maxAttempts; …)` runs `maxAttempts` times, or never when `maxAttempts` is at most 0 |
| Captcha.AcceptableCountsCodeUnits | src/modules/appleid/ocr-ddddocr.service.ts:92 | `result.length >= 4` counts UTF-16 code units: three characters outside the Basic Multilingual Plane are accepted, three ASCII characters are not |
| Captcha.FirstAcceptable | src/modules/appleid/ocr.service.ts:47-52 | the index of the first call, within the bound, whose result has a `length` of at least 4 UTF-16 code units |
| Captcha.Retry | src/modules/appleid/ocr.service.ts:46-56 | at most `maxAttempts` calls; a non-empty result is the first acceptable one and no call follows it; `''` only after every allowed call fell short |
| Captcha.SucceedsOnThirdCall | src/modules/appleid/ocr.service.ts:46-56 | the default of three attempts finds a result that only the third call gives; two attempts return `''` |
| Captcha.FirstCallSuffices | src/modules/appleid/ocr.service.ts:49-51 | an acceptable first result is returned after a single call |
| Captcha.NoAttempts | src/modules/appleid/ocr.service.ts:46-56 | a non-positive `maxAttempts` makes no call and returns `''` |
| Captcha.WordRun | src/modules/appleid/ocr.service.ts:16 | the length of the longest `\w+` run at the start of a text |
| Captcha.StripDataUri | src/modules/appleid/ocr.service.ts:16 | the replace returns the text or a proper suffix of it |
| Captcha.WordRunStopsAt | src/modules/appleid/ocr.service.ts:16 | the `\w+` run stops at the first non-word character, such as the `;` of `;base64,` |
| Captcha.StripDataUriPayload | src/modules/appleid/ocr.service.ts:16 | `data:image/<word>;base64,<payload>` becomes `<payload>` |
| Captcha.StripMalformedUnchanged | src/modules/appleid/ocr.service.ts:16 | a text that starts with `data:image/` but has no `\w+;base64,` there is left unchanged |
| Captcha.StripOnlyAtStart | src/modules/appleid/ocr.service.ts:16 | a text that does not start with `data:image/` is left unchanged |
| Ocr.KeepAlphanumeric | src/modules/appleid/ocr.service.ts:30 | the cleaned text is no longer than the input and holds ASCII letters and digits only |
| Ocr.KeepAlphanumericOne | src/modules/appleid/ocr.service.ts:30 | one character is kept exactly when it is an ASCII letter or digit |
| Ocr.KeepAlphanumericOfJoin | src/modules/appleid/ocr.service.ts:30 | the cleaning of a concatenation is the concatenation of the cleanings, so every letter and digit survives, in order |
| Ocr.KeepAlphanumericKeepsClean | src/modules/appleid/ocr.service.ts:30 | a text of letters and digits passes through the cleaning unchanged |
| Ocr.CleanTwice | src/modules/appleid/ocr.service.ts:30 | cleaning is idempotent |
| Ocr.TrimAfterFilterIsIdentity | src/modules/appleid/ocr.service.ts:30 | the `trim()` after the cleaning never changes anything |
| Ocr.RecognizeCaptcha | src/modules/appleid/ocr.service.ts:13-38 | a recognised text comes back with every character other than an ASCII letter or digit removed (the `trim()` changes nothing), and a failing engine gives `''` instead of an error |
| Ocr.RecognizeWithRetry | src/modules/appleid/ocr.service.ts:46-56 | the loop returns, with the number of calls made, exactly the retry outcome over `recognizeCaptcha` |
| OcrDdddocr.RecognizeCaptcha | src/modules/appleid/ocr-ddddocr.service.ts:47-84 | `''` when ddddocr is unavailable, on `ERROR` in stderr or when the script fails to run; otherwise the stdout of the stripped image with its surrounding whitespace removed |
| OcrDdddocr.KeepsPunctuation | src/modules/appleid/ocr-ddddocr.service.ts:71 | unlike the Tesseract variant, punctuation in the output survives, and only surrounding whitespace is removed |
| OcrDdddocr.RecognizeWithRetry | src/modules/appleid/ocr-ddddocr.service.ts:89-99 | the retry outcome over `recognizeCaptcha`, with a one-second pause after every failed attempt |
| OcrApi.Recognize2Captcha | src/modules/appleid/ocr-api.service.ts:15-55 | a rejected submit gives `''` without polling; otherwise at most 20 polls, every poll before the last was pending, and the first ready poll's text is returned; a failed poll or 20 pending ones give `''` |
| OcrApi.RecognizeCustomApi | src/modules/appleid/ocr-api.service.ts:79-90 | `text`, when non-empty, else `result`, and `''` when the request fails |
| OcrApi.RecognizeAliyunOcr | src/modules/appleid/ocr-api.service.ts:60-74 | always `''` |
| AppleId.GetAnswer | src/modules/appleid/appleid.service.ts:25-32 | `''` when no key occurs in the question; a non-empty answer belongs to a key that occurs in it |
| AppleId.GetAnswerFirstMatch | src/modules/appleid/appleid.service.ts:26-29 | the answer is that of the first key, in iteration order, that occurs in the question |
| AppleId.EmptyKeyMatchesEverything | src/modules/appleid/appleid.service.ts:27 | an empty key matches every question reached before any other matching key |
| AppleId.SubmitLoopBound | src/modules/appleid/appleid.service.ts:56-79 | from attempt `k`, the loop clicks submit at most `10 - k` times |
| AppleId.LoginClicksAtMostTen | src/modules/appleid/appleid.service.ts:45-86 | `login` clicks submit at most 10 times |
| AppleId.SubmitLoopStopsAtPass | src/modules/appleid/appleid.service.ts:66-77 | the loop stops after the first click that leaves no error visible |
| AppleId.LoginStopsAtFirstPass | src/modules/appleid/appleid.service.ts:56-81 | with the error gone after click `m + 1`, login succeeds after exactly `m + 1` clicks |
| AppleId.SubmitLoopExhausted | src/modules/appleid/appleid.service.ts:56-81 | ten rejected rounds still end the loop normally |
| AppleId.LoginSucceedsAfterTenErrors | src/modules/appleid/appleid.service.ts:56-81 | `login` returns true after ten clicks even when the error stayed visible every time |
| AppleId.FillAll | src/modules/appleid/appleid.service.ts:184-186 | one fill per password input, in order, all with the same text |
| AppleId.UnlockSucceedsIff | src/modules/appleid/appleid.service.ts:211-241 | `unlock` succeeds iff its own probe finds the account unlocked or the date of birth, the questions and the password reset all go through |
| AppleId.UnlockShortCircuits | src/modules/appleid/appleid.service.ts:216-223 | when `unlock`'s own probe finds the lock, a failing date-of-birth step stops the chain with its own actions only, and so does a failing question step; with the date field not visible nothing is done at all |
| AppleId.UnlockedAccountUntouched | src/modules/appleid/appleid.service.ts:211-214 | when the probe with which `unlock` starts sees a hidden date field, or fails, the account reads as unlocked: `unlock` succeeds without any step |
| AppleId.QuestionsFailBeforeFilling | src/modules/appleid/appleid.service.ts:135-149 | fewer than two questions, or an empty answer to either of the first two, fails before anything is filled |
| AppleId.QuestionsUseFirstTwo | src/modules/appleid/appleid.service.ts:140-144 | questions beyond the second do not change the outcome or the actions |
| AppleId.RemovalClicks | src/modules/appleid/appleid.service.ts:291-298 | three clicks per listed device |
| AppleId.RemovalClicksMidway | src/modules/appleid/appleid.service.ts:291-298 | the clicks made before a failure at device `i` are all of the earlier devices' clicks, then that device's first clicks |
| AppleId.EachDeviceExpandedOnce | src/modules/appleid/appleid.service.ts:291-292 | each listed device is expanded exactly once, in list order, at the head of its three clicks |
| AppleId.NoDevicesNoClicks | src/modules/appleid/appleid.service.ts:284-287 | an empty device list succeeds with no clicks |
| AppleId.AppleIdService.constructor | src/modules/appleid/appleid.service.ts:13-19 | the service holds the account's username, password, date of birth and answers, on its page, with no actions yet |
| AppleId.AppleIdService.Login | src/modules/appleid/appleid.service.ts:45-86 | the result and the actions are those of the login specification: no form action after a failed refresh, then the bounded submit loop |
| AppleId.AppleIdService.ProcessDob | src/modules/appleid/appleid.service.ts:106-130 | fails when the date field is not visible; otherwise fills it, presses Enter, and succeeds iff no form error shows |
| AppleId.AppleIdService.ProcessSecurityQuestions | src/modules/appleid/appleid.service.ts:132-173 | the questions step as specified: two answers filled, Enter pressed, success iff no form error |
| AppleId.AppleIdService.ProcessPassword | src/modules/appleid/appleid.service.ts:175-209 | fills the generated password into every input; the password field changes to it only when no error shows, and is otherwise unchanged |
| AppleId.AppleIdService.Unlock | src/modules/appleid/appleid.service.ts:211-241 | the result and actions of the unlock chain; the password becomes the generated one exactly when the reset goes through |
| AppleId.AppleIdService.LoginAppleId | src/modules/appleid/appleid.service.ts:243-275 | fills the account name and the current password, and succeeds iff no error message shows |
| AppleId.AppleIdService.RemovalClick | src/modules/appleid/appleid.service.ts:292-296 | one click, recorded unless the page throws at that click |
| AppleId.AppleIdService.RemoveDevice | src/modules/appleid/appleid.service.ts:291-298 | the three clicks for one device, stopping at a throwing click |
| AppleId.AppleIdService.DeleteDevices | src/modules/appleid/appleid.service.ts:277-306 | the clicks and result of the removal specification: all devices in order, `false` at the first throwing click |
| Task.IndexOf | src/modules/task/task.service.ts:88-92 | the position of a key in the answer object: the first entry with that key, or the end |
| Task.Assign | src/modules/task/task.service.ts:88-92 | `obj[key] = value`: a new key is appended, an existing key keeps its place and takes the new value |
| Task.AssignKeepsKeysDistinct | src/modules/task/task.service.ts:88-92 | assignment never duplicates a key |
| Task.AnswersHaveDistinctKeys | src/modules/task/task.service.ts:88-92 | the answer object holds each question once |
| Task.AnswersOfDistinctQuestions | src/modules/task/task.service.ts:88-92 | three distinct questions give three entries in configuration order |
| Task.AnswersOfRepeatedQuestion | src/modules/task/task.service.ts:88-92 | a repeated question keeps its first place and takes the later answer |
| Task.ProxyString | src/modules/task/task.service.ts:53-68 | `''` in debug mode or without protocol and content; `protocol://content` for a plain protocol; for a `url` protocol, the scheme before the first `+`, `://` and the fetched body, and `''` if the fetch fails |
| Task.ProxyFromUrl | src/modules/task/task.service.ts:56-60 | `socks5+url`-style protocols keep the part before `+` as scheme and use the fetched body |
| Task.NotifyTarget | src/modules/task/task.service.ts:190-197 | the task's notifications carry the configuration's username, Telegram token and chat id, WxPusher id and webhook, each in its own field, and never a proxy |
| Task.Report | src/modules/task/task.service.ts:135-158 | reporting and the device step always finish the `try` block: they never return early |
| Task.NoConfigNoActivity | src/modules/task/task.service.ts:38-43 | with no configuration, the delay becomes 10, and nothing is launched, reported or sent |
| Task.DisabledTask | src/modules/task/task.service.ts:45-51 | outside debug mode a disabled task stores its configuration, sets the delay to 10 and does nothing else |
| Task.LaunchFailureKeepsDelay | src/modules/task/task.service.ts:77-82 | a failed launch reports and notifies the driver failure, and the previous delay stays |
| Task.LoginFailureKeepsDelay | src/modules/task/task.service.ts:111-115 | a failed login closes the browser and keeps the previous delay |
| Task.EarlyReturnKeepsDelay | src/modules/task/task.service.ts:107-167 | any `return` inside the `try` block closes the browser and keeps the previous delay |
| Task.UnlockFailureReturns | src/modules/task/task.service.ts:120-130 | a locked account, found locked again by `unlock`, whose reset fails gets the unlock-failure notice, and the session returns early |
| Task.RecheckSkipsUnlock | src/modules/task/task.service.ts:123-131 | when the task's probe finds the lock but `unlock`'s own probe does not, the unlock succeeds with nothing done, no failure is notified and reporting goes on with the unchanged password |
| Task.LaunchedRunClosesBrowser | src/modules/task/task.service.ts:107-167 | after a launch, however the session ends, the run's last event is closing the browser |
| Task.DelayPolicy | src/modules/task/task.service.ts:169-174 | once the account is usable, the delay is `check_interval`, or 5 when `fail_retry` is set and the requested sign-in failed |
| Task.ReportOutcome | src/modules/task/task.service.ts:133-158 | the job fails only when a requested sign-in is rejected |
| Task.ReportKeepsPrefix | src/modules/task/task.service.ts:133-158 | reporting only appends events to the log |
| Task.ReportTailSteps | src/modules/task/task.service.ts:148-158 | reporting invokes only the sign-in and the device removal |
| Task.TwoFactorSkipsUnlock | src/modules/task/task.service.ts:120-123 | with two-factor detected, the session never probes the lock or unlocks |
| Task.PasswordChangeReported | src/modules/task/task.service.ts:135-146 | a changed password is reported and announced; an unchanged one is reported as `''` and nothing is announced |
| Task.PasswordChangesOnlyByReset | src/modules/task/task.service.ts:117-136 | the password differs from the configured one only after an accepted reset, and then it is the generated one |
| Task.DeviceStepConditions | src/modules/task/task.service.ts:148-158 | sign-in only when device removal or a password check is asked for; removal iff asked for and signed in; a failed sign-in fails the job |
| Task.TaskService.constructor | src/modules/task/task.service.ts:15-30 | the delay starts at 10, with no stored configuration, and the locale table is chosen from `lang` |
| Task.TaskService.SendNotification | src/modules/task/task.service.ts:187-200 | nothing before a configuration is known; otherwise one notification to the configured contacts |
| Task.TaskService.ReportAndRemove | src/modules/task/task.service.ts:133-158 | the event log and success of the reporting specification |
| Task.TaskService.CheckAndUnlock | src/modules/task/task.service.ts:117-158 | the event log, early return and success of the status specification |
| Task.TaskService.UnlockAccount | src/modules/task/task.service.ts:125 | `unlock()` succeeds iff its own probe finds the account unlocked or the reset chain goes through; the password is the generated one only in the latter case, else unchanged |
| Task.TaskService.UnlockAndReport | src/modules/task/task.service.ts:124-158 | the event log, early return and success of the unlock specification |
| Task.TaskService.TrySession | src/modules/task/task.service.ts:107-158 | the event log, early return and success of the session specification |
| Task.TaskService.ExecuteTask | src/modules/task/task.service.ts:32-177 | the events, the delay and the stored configuration after a run are those of the run specification |
| Entry.FindArg | src/main.ts:15 | `argv.find(startsWith(prefix))`: none iff no element has the prefix; otherwise the first one that has it |
| Entry.SecondField | src/main.ts:15 | `split('=')[1]` holds no `=`, and is empty when there is no `=` |
| Entry.Resolve | src/main.ts:14-32 | exits with code 1 iff the API URL, API key or task id resolves to `''`; otherwise the started configuration holds the resolved API URL, API key and task id, and the resolved `LANG` when there is one |
| Entry.EnvironmentFirst | src/main.ts:14-19 | a non-empty environment variable wins over the flag; otherwise the flag decides |
| Entry.FlagValueTruncated | src/main.ts:15 | a flag value containing `=` is cut at it |
| Entry.FlagValueWhole | src/main.ts:15 | a flag value without `=` is taken whole |
| Entry.LangDefaults | src/main.ts:20-23 | `lang` is `zh_cn` when neither source gives one |
| Entry.SystemLangOverridesFlag | src/main.ts:20-23 | a system `LANG=en_US.UTF-8` wins over `-lang=` and selects the Chinese table |
| Entry.DebugSwitch | src/main.ts:24 | debug iff `DEBUG` is exactly `true` or some argument is `-debug` |
| Entry.TimerDelay | src/main.ts:58-64 | the wait of a Node.js timer: the requested delay when it lies in 1..2^31-1 milliseconds, otherwise one millisecond |
| Entry.Schedule | src/main.ts:52-67 | one delay per run, the first being the first run's delay in milliseconds as the timer clamps it |
| Entry.ScheduleDelaysInRange | src/main.ts:58-64 | every delay waited between runs lies between 1 and 2^31-1 milliseconds |
| Entry.NoConfigTenMinutes | src/main.ts:52-67 | if no run gets a configuration, every re-arm waits ten minutes |
| Entry.RunLoop | src/main.ts:52-67 | runs one after another, each timer armed with `getNextRunMinutes() * 60 * 1000` after the run before it completed |
| Entry.Bootstrap | src/main.ts:10-68 | exits with code 1 and no run when a required option is missing; otherwise runs the schedule from a fresh task service |

## Left out

- The browser wrapper is not part of this model: the Playwright launch internals, the user-agent and webdriver hiding, the IP lookup, screenshots, and the files written by `saveErrorInfo`. A run records only that the browser was launched and that it was closed.
- The API client is not part of this model. The configuration fetch is an oracle, and the results of `updateAccount` and `updateMessage` only choose a log line, so they are left out. `apiUrl` and `apiKey` are resolved but only feed that client.
- The proxy fetch (`axios.get`) is an oracle: the fetched body, or none when the request throws.
- Every account step catches its own errors and returns `false`. The page fields model that failure at each place where it changes what the step did: the refresh, the Apple ID input, each submit round, each probe, the sign-in page and each removal click. An error at another point of a step, such as a fill, has the same outcome as the nearest modelled failure, and the actions already taken are not recorded.
- The `catch` block of `executeTask` (saved diagnostics, the unknown-error message and notice) is not modelled. No call in the `try` block lets an error escape: the account steps, `updateAccount` and the notification channels all catch their own.
- All `waitForTimeout`, `setTimeout` and timeout durations are left out except the milliseconds of the run timer. The pause left for solving a visible captcha by hand is recorded as a `WaitForCaptcha` action, without its length.
- Entry.Schedule: `check_interval` is taken as a whole number of minutes. A fractional interval, and a missing or non-numeric one whose `NaN` delay the timer also replaces by one millisecond, are not modelled. The clamping of a delay below 1 or above 2^31-1 milliseconds to one millisecond is modelled by `Entry.TimerDelay`.
- Logging and the texts of the locale message tables are left out. Notices are named, not spelled.
- JavaScript property order for integer-like keys, and inherited keys in `for…in`, are left out. The answer object keeps insertion order.
- Locales.GetLocale: a member name inherited from `Object.prototype` is returned as that member, but what a run then does with it is left out. The messages are not modelled, so the `TypeError` that `this.locale.nextRun(...)` would throw after scheduling is not followed.
- The constructor calls do not match the declared parameters. `main.ts` passes 7 arguments to `TaskService`'s 8, and `TaskService` passes 6 to `AppleIdService`'s 5. Each service is modelled from its declared fields.
- Password.GeneratePassword: termination of the rejection loop holds only with probability 1. The model requires a draw stream that does yield an accepted candidate (`Yields`); `Password.RetryAfterRejection` exhibits such a stream.
- Task.TaskService.ExecuteTask: the notification service is not called from the run. Each `sendNotification` is recorded as a `Notified` event carrying the target, and `Notification.NotificationService.Send` specifies what that call does.
- `OcrService` is not used by the task. The recognisers are modelled on their own.
- The ddddocr subprocess, its shell quoting and temporary script, and `checkDdddocrAvailable` are oracles: the availability answer and stdout/stderr or a failure per call.
- OcrApi.Recognize2Captcha: `status` is compared as an integer. JSON values of other types are not modelled.
- Task.DisabledTask: stated for non-debug runs. In debug mode a disabled task runs like an enabled one, and the other run lemmas require only `enable || debug`.
- The unused configuration fields `proxy_id` and `enable_auto_update_password` are left out of `TaskConfig`.
