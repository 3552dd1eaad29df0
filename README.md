# Website monitor: the per-URL health state machine in Dafny

This project models the core of a small website monitor. For every
monitored URL a `WebsiteChecker` keeps four values:

- whether the site is down;
- how many failures in a row it has seen;
- the current backoff interval;
- the last HTTP status code.

Each check cycle probes the site and classifies the result. A failure
backs the checks off exponentially, up to a ceiling, and mails the
operators only a few times per outage. A success silently resets the
state.

The repository has two versions of the checker, and both are modelled:

- `ThreadedMonitor` (website-monitor.py). One thread per URL. The status
  probe (HEAD, up iff the code is in [200, 400)) is followed by a content
  probe. The content probe reads the page until the first chunk holding
  `</head>` and looks for five error phrases, ignoring ASCII case. The
  backoff is `min(300 * 3^n, 3600)`, with `n` the failure count before
  the failure. A mail goes out iff that backoff is below 3600 and `n < 4`.
  There are three mail templates, one per kind of failure.
- `SingleLoopMonitor` (websiteMonitor.py). A single loop over all the
  checkers, status probe only. The failure count goes up first. The
  backoff is `min(initial * 2^n * jitter, 3600)`, with a jitter in
  [0.8, 1.2]. A mail goes out iff the backoff is below 3600. The sleep
  while down is `min(60 * 2^n, 3600)`.
- `Credentials`: the start-up check that all five mail settings are
  present and non-empty. Both files contain the same code for it.
- `Text`, `Powers` and `Probes`: string search, integer powers and the
  datatypes for probe results. The other modules use them.

Each checker is a `class` with the source's fields and one method per
Python method. A ghost field logs the mails it sends, each as the
template plus the values filled into it. Every method is proved against a
pure transition function on a `State` value (`AfterFailure`,
`AfterSuccess`, `AfterCycle`, `AfterCheck`). The lemmas state the
source's properties in terms of those functions.

Network probes are inputs (`StatusOutcome`, `ContentOutcome`). So are the
random draws (`randint(300, 600)` and `uniform(0.8, 1.2)`), constrained
to their ranges. Sleeps are returned as values instead of being taken.

Two behaviours of the code are reproduced as written:

- In website-monitor.py, a status probe that raises runs two failure
  transitions in one cycle: the timeout mail inside the probe, then the
  status-code mail (`StatusRaisedFailsTwice`).
- In website-monitor.py, a content probe that raises runs a failure
  transition and then, since the site now looks down, a recovery
  (`ContentRaisedResets`). So a content probe that keeps raising sends a
  timeout mail on every cycle and is never suppressed
  (`ContentRaisedMailsEveryCycle`).

The code differs from the documented design in three places. This model
follows the code each time:

- The design says a down site sleeps for its current interval. In
  websiteMonitor.py the sleep is `min(60 * 2^n, 3600)` and does not read
  `current_interval` (`SleepBounds`, `DownSleepSchedule`).
- The design says the failure count goes up once per classified failure.
  A raising status probe in website-monitor.py raises it by two.
- The design says every outage sends a bounded number of mails. That
  fails for the raising-content-probe path described above.

## Model

| member | source | states |
|---|---|---|
| `Credentials.MissingAmong` | website-monitor.py:80 | a name is listed iff it is one of the given names and is unset or empty; the list keeps the given order |
| `Credentials.ValidateEmailCredentials` | website-monitor.py:70-84 | start-up passes iff all five settings are present and non-empty; otherwise the error lists exactly the missing ones, non-empty, in the fixed order |
| `Credentials.OnlyPasswordMissing` | websiteMonitor.py:118-131 | with only SMTP_PASSWORD missing, start-up fails naming exactly it, with the message text of the source |
| `Text.Contains` | website-monitor.py:177 | Python's `in` on strings: true iff the tag occurs at some index of the chunk |
| `Text.ContainsIgnoringCaseMeaning` | website-monitor.py:183 | a case-insensitive search matches iff some window of the text agrees with the pattern letter by letter after ASCII lower-casing |
| `ThreadedMonitor.Backoff` | website-monitor.py:203 | `min(300 * 3^n, 3600)` always lies in [300, 3600] |
| `ThreadedMonitor.BackoffSchedule` | website-monitor.py:117-118 | one outage backs off 300, 900, 2700, then 3600 for every later failure |
| `ThreadedMonitor.BackoffNonDecreasing` | website-monitor.py:203 | more failures never shorten the backoff |
| `ThreadedMonitor.SendsMailIff` | website-monitor.py:203-205 | the gate (backoff < 3600 and pre-increment count < 4) opens exactly for counts 0, 1 and 2 |
| `ThreadedMonitor.FailuresMailOnlyEarly` | website-monitor.py:199-206 | k consecutive failures raise the count by k, leave the backoff of the last one, and send exactly the mails of the failures with fewer than three before them (template, status code, interval in minutes) |
| `ThreadedMonitor.HeadChunksUpToClose` | website-monitor.py:174-178 | the kept head is the non-empty chunks up to and including the first one that contains `</head>`, or all of them if none does |
| `ThreadedMonitor.ShortChunksNeverStop` | website-monitor.py:177-178 | chunks shorter than the tag never stop the reading, even if together they spell it |
| `ThreadedMonitor.NoneOccur` | website-monitor.py:182-185 | the pattern loop answers true iff none of the patterns occurs in the head, ignoring case |
| `ThreadedMonitor.HeadIsClean` | website-monitor.py:181-185 | the head is clean iff none of the five error phrases occurs in it, ignoring case |
| `ThreadedMonitor.CycleKeepsInv` | website-monitor.py:191-206 | every cycle keeps "down iff failures > 0" and "interval = backoff of the last failure, or 300", so the interval stays in [300, 3600] |
| `ThreadedMonitor.StatusRaisedFailsTwice` | website-monitor.py:137-163 | a raising status probe runs the timeout failure and then the status-code failure, so the count goes up by 2 |
| `ThreadedMonitor.BadStatusSkipsContent` | website-monitor.py:137-147 | a bad status code gives one status-code failure whatever the content probe would give; the content probe is never consulted |
| `ThreadedMonitor.UpAndCleanCycle` | website-monitor.py:138-143 | a good status and a clean head recover a down site silently and leave an up one unchanged except for the recorded code |
| `ThreadedMonitor.SoftErrorFails` | website-monitor.py:139-145 | a good status with an error phrase in the head is an html-error failure |
| `ThreadedMonitor.ContentRaisedResets` | website-monitor.py:186-188 | a raising content probe under a good status ends the cycle healthy (count 0, interval 300), after sending the timeout mail if the gate was open |
| `ThreadedMonitor.RecoveryRestartsBackoff` | website-monitor.py:191-196 | after a recovery the next failure starts again at exponent 0: count 1, interval 300, and a mail |
| `ThreadedMonitor.BadStatusOutage` | website-monitor.py:128-147 | cycles that keep answering a bad status code are, from a healthy start, exactly a run of status-code failures |
| `ThreadedMonitor.BadStatusOutageMails` | website-monitor.py:199-206 | from a healthy start, n bad-status cycles leave count n, the backoff of failure n, and min(n, 3) mails |
| `ThreadedMonitor.ContentRaisedMailsEveryCycle` | website-monitor.py:186-188 | from a healthy start, n cycles whose content probe raises send n timeout mails and leave the site healthy |
| `ThreadedMonitor.ServiceUnavailableHead` | website-monitor.py:181-185 | a head saying "Service Unavailable" is not clean |
| `ThreadedMonitor.ServiceUnavailableIsSoftError` | website-monitor.py:171-185 | a 200 answer whose head says "Service Unavailable" is an html-error failure |
| `ThreadedMonitor.SplitCloseTagScansOn` | website-monitor.py:174-183 | a `</head>` split over two chunks does not stop the reading, so text after it is scanned too |
| `ThreadedMonitor.WebsiteChecker.constructor` | website-monitor.py:114-122 | a new checker is up, with 0 failures, interval 300, status code 0 and no mails |
| `ThreadedMonitor.WebsiteChecker.SendEmail` | website-monitor.py:209-224 | a sent mail records its template, the current status code and the interval in whole minutes |
| `ThreadedMonitor.WebsiteChecker.HandleSuccess` | website-monitor.py:191-196 | down flag, count and interval are reset; status code and mails are unchanged |
| `ThreadedMonitor.WebsiteChecker.HandleFailure` | website-monitor.py:199-206 | the fields are updated in source order to the failure transition: down, backoff from the pre-increment count, gated mail, count + 1 |
| `ThreadedMonitor.WebsiteChecker.CheckStatusCode` | website-monitor.py:152-163 | a response records its code and reports up iff 200 <= code < 400; a raise runs the timeout failure and reports false |
| `ThreadedMonitor.WebsiteChecker.HtmlNoErrors` | website-monitor.py:166-188 | the chunk loop collects exactly the head chunks, the answer is whether the head is clean, and a raise runs the timeout failure and answers true |
| `ThreadedMonitor.WebsiteChecker.Cycle` | website-monitor.py:137-147 | one cycle updates the fields exactly as the cycle transition does |
| `ThreadedMonitor.WebsiteChecker.NextSleep` | website-monitor.py:129-135 | the sleep is the interval while down and the draw from [300, 600] while up, so it always lies in [300, 3600] |
| `ThreadedMonitor.WebsiteChecker.CheckStatus` | website-monitor.py:125-149 | the loop leaves the state reached by the cycles in order, keeps the invariant, and chooses before each cycle a sleep in [300, 3600] |
| `SingleLoopMonitor.Backoff` | websiteMonitor.py:70-73 | the interval never exceeds 3600, and for an initial interval in [0, 3600] it is at least the initial interval |
| `SingleLoopMonitor.MailsIffEarly` | websiteMonitor.py:65-75 | with the default initial interval 300 and any jitter in [0.8, 1.2], failure n mails iff n <= 3 |
| `SingleLoopMonitor.FailuresMailOnlyEarly` | websiteMonitor.py:65-75 | with the default interval, k consecutive failures raise the count by k, stay at or below 3600, and mail exactly for failures 1 to 3 of the outage |
| `SingleLoopMonitor.DownSleepSchedule` | websiteMonitor.py:26-27 | the sleep while down runs 120, 240, 480, 960, 1920, then 3600 from the sixth failure on |
| `SingleLoopMonitor.SleepBounds` | websiteMonitor.py:26-29 | the sleep before a probe lies in [120, 3600] and does not depend on `current_interval` |
| `SingleLoopMonitor.CheckKeepsInv` | websiteMonitor.py:41-75 | every check keeps "down iff failures > 0", "interval = initial while up" and "interval <= 3600 while down" |
| `SingleLoopMonitor.CheckReacts` | websiteMonitor.py:41-55 | up iff a code in [200, 400) came back; the code is recorded only when one came back; a failure is counted exactly once; up while down resets; up while up changes only the recorded code |
| `SingleLoopMonitor.WebsiteChecker.constructor` | websiteMonitor.py:14-21 | a new checker is up, with 0 failures, its initial interval as current interval, status code 0 and no mails |
| `SingleLoopMonitor.WebsiteChecker.SendEmail` | websiteMonitor.py:78-92 | a sent mail records the current status code and `int(interval) // 60` |
| `SingleLoopMonitor.WebsiteChecker.HandleSuccess` | websiteMonitor.py:58-62 | down flag, count and interval are reset; nothing else changes |
| `SingleLoopMonitor.WebsiteChecker.HandleFailure` | websiteMonitor.py:65-75 | the fields are updated in source order to the failure transition: down, count + 1, jittered capped backoff, mail iff below the ceiling |
| `SingleLoopMonitor.WebsiteChecker.CheckStatus` | websiteMonitor.py:23-55 | returns the sleep chosen from the state before the probe, and updates the fields and return value exactly as the check transition does |
| `SingleLoopMonitor.RunRound` | websiteMonitor.py:141-145 | one pass over distinct checkers runs one check on each, and no checker affects another |

## Left out

- HTTP probing (`requests.Session`, `head`, `get`, `iter_content`): the probe results are inputs. Chunks are modelled as text; the case where `iter_content` yields bytes (no declared encoding) is not modelled.
- SMTP, MIME assembly, reading the template files and `str.format`: a sent mail is a ghost log entry holding the template and the values filled into it.
- `send_email` raising is not modelled. In website-monitor.py the exception would skip the failure-count increment and reach the loop's `except` branch. In websiteMonitor.py the bare `except` would run `handle_failure` a second time. Both are I/O failure handling.
- `time.sleep`, the thread per URL, daemon threads, the 1-second stagger, the signal handlers and the `running` flag are concurrency and process lifecycle. The sleep durations are returned as values instead.
- ThreadedMonitor.WebsiteChecker.CheckStatus: runs one cycle per given round, a finite sequence standing for the passes made while `running` stays set. Its `except Exception` logging branch is never reached in the model, because nothing in it raises.
- SingleLoopMonitor.RunRound: models one pass of the `for` loop. The enclosing `while self.running` never ends in websiteMonitor.py.
- `randint` and `uniform` are parameters constrained to their ranges.
- Floating point: the jitter product is an exact real. The model therefore does not capture that for about 1000 or more consecutive failures `300 * 2**n * jitter` raises `OverflowError` in websiteMonitor.py.
- `load_websites`, `start_logging`, `load_dotenv`, `main`, the log messages, and the construction of the `monitors` dictionary in `MonitoringSystem.__init__` are file, environment and logging I/O.
- `re.IGNORECASE` folds Unicode case. The model folds ASCII letters only, which is exact for the five ASCII patterns unless the page holds non-ASCII characters whose case folds onto one of their letters.
