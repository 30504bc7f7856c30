# Rate-limited, retrying mail send pipeline (Dafny model)

This project models the core of a Laravel mail helper: the `EmailService`
send pipeline and the `email:status` console command that inspects and
resets its counter.

A send validates the recipient address. It then checks a global counter kept
in the cache under the key `email_rate_limit` against a maximum of 100, once.
After that it tries the transport up to 3 times, sleeping 5 seconds after
every failure except the last. On the first accepted attempt it increments
the counter and dispatches one `email.sent` or `email.template.sent` event.
The event carries the attempt number. The increment writes the visible count
(0 when absent or expired) plus one and gives the entry a fresh lifetime of
3600 seconds. `getStats` reports the visible count, the maximum and the time
left before the counter expires. The console command either removes the
counter (`--reset`, which wins over `--watch`), enters its polling loop
(`--watch`), or shows one report. The report formats the reset time as
`"S segundos"` or `"M minutos R segundos"`.

Layout:

- `wrappers.dfy` (`Wrappers`): `Option`.
- `decimal.dfy` (`Decimal`): PHP's decimal string of an integer, and a reader proving it determines the number.
- `runtime.dfy` (`Runtime`): the framework cache is a map from keys to values with absolute expiry times, read against an integer `Clock`.
- `email_service.dfy` (`Services`): the class `EmailService` holds the cache, the clock and a ghost trace of side effects. It has the imperative `Send` loop. Beside it, `SendSpec` describes the same behaviour as a pure state transformer, and lemmas state its properties.
- `email_status_command.dfy` (`ConsoleCommands`): the class `EmailStatusCommand`, `FormatSeconds` and a reader for its output.

Abstractions:

- The transport is a function from the 0-based attempt index to accepted/failed.
- Laravel's `email` validation rule and `file_exists` are abstract function fields of the service. The `required` rule is modelled: the address must not be blank after PHP's `trim`.
- Sleeping advances the clock by 5 seconds. The counter can therefore expire between the admission check and the increment. The model states the increment against the clock at the moment it happens.
- Log calls are omitted. Transport attempts, sleeps, counter increments and event dispatches go into the ghost `trace`, in order.

Points where the behaviour is easy to misread, modelled as the code does it:

- The window slides rather than being fixed. A fixed hourly window would restart only when it expires. The code instead gives the counter a fresh lifetime of 3600 seconds on every write (`Cache::put` at `app/Services/EmailService.php:52`). So the window runs from the last successful send, and increments less than an hour apart keep adding up. `ChainedIncrementsAccumulate` states this.
- `send` returns only a boolean, not an outcome record with an attempt count and the last error. The attempt count is visible in the trace and in the dispatched event.
- `reset_in` uses PHP truthiness of the cached value. A live entry holding 0 reports 0.

## Model

| member | source | states |
|---|---|---|
| Services.EmailService.ValidateEmail | app/Services/EmailService.php:26-33 | an accepted address satisfies the `email` rule and is non-empty; an all-blank string is rejected (`required`) |
| Services.EmailService.CheckRateLimit | app/Services/EmailService.php:40-44 | admission holds exactly when no live counter is stored or the live counter is below 100 |
| Services.EmailService.IncrementRateLimit | app/Services/EmailService.php:49-53 | the counter becomes the visible count (0 if absent) plus one, expiring 3600 s from now; other keys unchanged |
| Services.EmailService.Send | app/Services/EmailService.php:66-122 | the shared loop: result flag, cache, clock and appended effects are exactly those of `SendSpec` for the pre-state |
| Services.EmailService.SendEmail | app/Services/EmailService.php:64-123 | the raw-HTML send behaves as `SendSpec` with an `Html` body |
| Services.EmailService.SendTemplateEmail | app/Services/EmailService.php:135-196 | the templated send behaves as `SendSpec` with a `Template` body |
| Services.EmailService.GetStats | app/Services/EmailService.php:203-212 | max is 100; current is the visible count; reset_in is non-negative and positive exactly when current is non-zero; reset_in is the live counter's remaining lifetime (expiry minus now) when current is non-zero, else 0; no counter gives (0, 100, 0); bounded by 3600 and current ≤ max under the counter invariants |
| Services.AttachExisting | app/Services/EmailService.php:87-91 | the attachment loop attaches exactly the existing paths, in order |
| Services.FilterExistingMembership | app/Services/EmailService.php:157-161 | a path is attached iff it was given and exists |
| Services.FilterExistingAppend | app/Services/EmailService.php:87-91 | filtering keeps order: it distributes over concatenation of path lists |
| Services.FirstSuccessSpec | app/Services/EmailService.php:79-120 | the loop stops at the first accepted attempt: all earlier ones failed, and it never goes beyond 3 attempts |
| Services.TraceTally | app/Services/EmailService.php:79-120 | a trace holds one attempt per try, one sleep per delay, and one increment and one event exactly on delivery |
| Services.SendRejectsInvalidAddress | app/Services/EmailService.php:66-69 | an invalid address returns false with no effect and no change to counter or clock |
| Services.SendRejectsAtLimit | app/Services/EmailService.php:71-74 | a visible count ≥ 100 returns false with zero attempts and no change |
| Services.SendSucceedsAfterFailures | app/Services/EmailService.php:79-107 | k < 3 failures then acceptance: true, k sleeps of 5 s, counter written once, exactly one event with attempt k+1, right after the increment |
| Services.SendFailsAfterAllAttempts | app/Services/EmailService.php:108-122 | three failures: false, 3 attempts, 2 sleeps, no increment, no event, counter unchanged |
| Services.SendBounded | app/Services/EmailService.php:76-122 | success iff valid, admitted and one of the first 3 attempts accepted; at most 3 attempts; increments = events = 1 on success, 0 otherwise |
| Services.SendKeepsLimit | app/Services/EmailService.php:71-94 | after a successful send the stored count is ≤ 100, so every send preserves count ≤ max; expiry stays within one window of the clock |
| Services.TwoFailuresThenSuccess | app/Services/EmailService.php:108-118 | two failures then acceptance: success on attempt 3, 10 s of delay, one increment, event attempt 3 |
| Services.LastAdmittedSendClosesWindow | app/Services/EmailService.php:40-44 | a send whose accepted attempt, on any retry, finds the count at 99 and lifts it to 100 makes every send within the next hour fail with no attempt |
| Services.IncrementRestartsWindow | app/Services/EmailService.php:49-53 | one increment adds one to a live count, or starts at 1 after expiry, and always expires 3600 s later |
| Services.ChainedIncrementsAccumulate | app/Services/EmailService.php:51-52 | n increments each less than an hour after the previous one add n, whatever their total span |
| Services.SequentialSendsKeepLimit | app/Services/EmailService.php:66-122 | over any sequence of sends, each after some idle time, the stored count stays ≤ 100, its expiry stays within one hour of the clock, and the clock never goes back |
| Services.ClockMonotone | app/Services/EmailService.php:116-118 | a run of sends never moves the clock back (sleeps only add time) |
| Services.SendInWindow | app/Services/EmailService.php:49-53 | a send that ends while a counter entry is still live leaves it live for at least as long, grown by one exactly on delivery |
| Services.DeliveriesWithinWindow | app/Services/EmailService.php:40-53 | over a run of sends ending before a live entry would expire, the counter grows by exactly the number of delivered messages |
| Services.DeliveriesBoundedByLimit | app/Services/EmailService.php:40-53 | a run inside the live window of a counter at c delivers at most 100 - c messages |
| Decimal.NatToString | app/Console/Commands/EmailStatusCommand.php:90 | PHP's decimal form of an integer: non-empty digits, and a leading '0' only in "0" itself |
| Decimal.IntToString | app/Console/Commands/EmailStatusCommand.php:90 | PHP's string of an integer: a leading '-' exactly for negatives, then non-empty digits that denote the magnitude, with a leading '0' only in "0" itself |
| Decimal.SplitNumeralOf | app/Console/Commands/EmailStatusCommand.php:90-96 | a numeral followed by a non-digit is read back as that number and the rest of the text |
| ConsoleCommands.FormatSeconds | app/Console/Commands/EmailStatusCommand.php:87-97 | the formatted text reads back as the same number of seconds, in both the short and the minutes form |
| ConsoleCommands.FormatSecondsBelowMinute | app/Console/Commands/EmailStatusCommand.php:89-91 | below 60 s, negatives included, the text is PHP's decimal of the number followed by " segundos" |
| ConsoleCommands.FormatSecondsInjective | app/Console/Commands/EmailStatusCommand.php:87-97 | distinct durations give distinct texts |
| ConsoleCommands.FormatSecondsMinutes | app/Console/Commands/EmailStatusCommand.php:93-96 | from 60 s on: M = s div 60 ≥ 1, R = s mod 60 < 60, M*60+R = s, text is "M minutos R segundos" |
| ConsoleCommands.StatusReport | app/Console/Commands/EmailStatusCommand.php:64-72 | the report carries the current count and maximum, and a reset time that reads back as reset_in |
| ConsoleCommands.EmailStatusCommand.Handle | app/Console/Commands/EmailStatusCommand.php:25-40 | exit code 0 on every branch; `--reset` wins, removes the service's counter and leaves stats (0, 100, 0); otherwise the cache is untouched and watch or show follows |

## Left out

- Laravel's `email` validation rule: a foreign library, kept as an abstract predicate.
- Mail transport, message building and template rendering: foreign. Each attempt is one accepted/failed answer, and the message is recorded as recipient, subject, body and existing attachments.
- `file_exists`: filesystem access, kept as an abstract predicate that answers the same on every attempt.
- Failures raised after the transport accepted a message: the try body is one atomic attempt. An exception from the increment, the event dispatch or the success log would cause a re-send and possibly a double increment in the PHP code.
- Log calls: side effects only. The failure log's attempt numbers are not recorded.
- Real time: `sleep` advances an integer clock. No other time passes during a send.
- Concurrency: the race between the admission read and the increment is not modelled. The model is sequential.
- Cache backends: the time to live is expiry minus now. Expired entries are invisible to reads.
- The `--watch` polling loop never terminates (a 5 s refresh forever). `Handle` records that it was entered, as `Watching`, and returns.
- `showStatus`: the SMTP configuration table, the table rendering and the rounded floating-point percentage are not modelled.
- The constructors of the service and the command: dependency injection only.
- `TestEmailCommand`, `EmailController`, the mail configuration file and the Blade view: CLI prompting, HTTP mapping, configuration lookups and markup, with no pipeline logic.
- ConsoleCommands.FormatSeconds: PHP's `floor` returns a float, and PHP prints floats with 14 significant digits. The minutes branch prints the minutes as an exact integer, which differs from 10^14 minutes on, where PHP switches to E notation.
- ConsoleCommands.FormatSecondsMinutes: states the same exact-integer minutes text, so it shares that gap from 10^14 minutes on.
- PHP integers are 64-bit; the model's are unbounded. The counter and the clock never approach the limit.
