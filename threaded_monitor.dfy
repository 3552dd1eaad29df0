/** The per-URL health state machine of the threaded monitor (website-monitor.py):
    `WebsiteChecker` with its four fields, the check cycle of its thread, the
    exponential backoff (base 3, from 300 s up to 3600 s) and the alert gate
    that lets at most a few mails out per outage.

    The pure part (a `State` value and one function per transition) is the
    specification; the class `WebsiteChecker` below updates its fields step
    by step as the Python methods do and is proved to follow it. */
module ThreadedMonitor {
  import opened Text
  import opened Powers
  import opened Probes

  const InitialInterval: int := 300
  const MaxInterval: int := 3600
  const GrowthFactor: nat := 3
  /** Failures counted before this many are allowed to send a mail. */
  const MailCap: nat := 4
  /** How many failures of one outage end up mailing (the backoff saturates first). */
  const MailsPerOutage: nat := 3
  /** `randint(300, 600)`: the sleep before a check while the site is up. */
  const HealthyDrawMin: int := 300
  const HealthyDrawMax: int := 600
  const HeadClose: string := "</head>"
  const ErrorPatterns: seq<string> :=
    ["error", "not found", "unavailable", "nicht erreichbar", "nicht gefunden"]

  /** The three mail bodies, one per kind of failure. */
  datatype Template = StatusCodeMail | HtmlErrorMail | TimeoutMail

  function FileName(t: Template): string
  {
    match t
    case StatusCodeMail => "Email_message_status_code.html"
    case HtmlErrorMail => "Email_message_html_error.html"
    case TimeoutMail => "Email_message_timeout.html"
  }

  /** One sent alert: the template and the values interpolated into it
      (the URL never changes, so it is left out). */
  datatype Mail = Mail(template: Template, statusCode: int, minutes: int)

  /** The fields of one `WebsiteChecker`, plus the alerts it has sent. */
  datatype State = State(isDown: bool, failures: nat, interval: int, statusCode: int, mails: seq<Mail>)

  const Initial: State := State(false, 0, InitialInterval, 0, [])

  // ---------------------------------------------------------------------------
  // Backoff and the alert gate

  /** `min(initial_interval * 3 ** failures, max_interval)`. */
  function Backoff(failures: nat): (r: int)
    ensures InitialInterval <= r <= MaxInterval
  {
    PowAtLeastOne(GrowthFactor, failures);
    Min(InitialInterval * Pow(GrowthFactor, failures), MaxInterval)
  }

  /** The gate in `handle_failure`, on the count before the increment. */
  predicate SendsMail(failures: nat)
  {
    Backoff(failures) < MaxInterval && failures < MailCap
  }

  /** `handle_failure(t)`. */
  function AfterFailure(s: State, t: Template): State
  {
    var interval := Backoff(s.failures);
    var mail := Mail(t, s.statusCode, interval / 60);
    State(true, s.failures + 1, interval, s.statusCode,
          if SendsMail(s.failures) then s.mails + [mail] else s.mails)
  }

  /** `handle_success()`: silent recovery. */
  function AfterSuccess(s: State): State
  {
    s.(isDown := false, failures := 0, interval := InitialInterval)
  }

  /** The backoff of one outage runs 300, 900, 2700 and then stays at 3600. */
  lemma BackoffSchedule(n: nat)
    ensures Backoff(0) == 300 && Backoff(1) == 900 && Backoff(2) == 2700
    ensures n >= 3 ==> Backoff(n) == MaxInterval
  {
    assert Pow(3, 3) == 27;
    if n >= 3 {
      PowMonotone(3, 3, n);
    }
  }

  /** Each further failure of an outage waits at least as long as the one before. */
  lemma BackoffNonDecreasing(m: nat, n: nat)
    requires m <= n
    ensures Backoff(m) <= Backoff(n)
  {
    PowMonotone(GrowthFactor, m, n);
  }

  /** A failure sends a mail exactly when fewer than three failures precede it:
      the backoff saturates at the fourth, before the cap of four is reached. */
  lemma SendsMailIff(n: nat)
    ensures SendsMail(n) <==> n < 3
  {
    BackoffSchedule(n);
  }

  // ---------------------------------------------------------------------------
  // Outages: consecutive failures

  /** The state after failing with the templates `ts`, in order. */
  function FailAll(s: State, ts: seq<Template>): State
  {
    if ts == [] then s else AfterFailure(FailAll(s, ts[..|ts| - 1]), ts[|ts| - 1])
  }

  /** The mails that failures with templates `ts`, after `f` earlier ones and
      with status code `code` on record, are expected to send. */
  function OutageMails(f: nat, code: int, ts: seq<Template>): seq<Mail>
  {
    seq(SlotsLeft(f, MailsPerOutage, |ts|), i requires 0 <= i < SlotsLeft(f, MailsPerOutage, |ts|) =>
      Mail(ts[i], code, Backoff(f + i) / 60))
  }

  /** Consecutive failures count up one by one, the backoff follows the
      failure count, and only the failures with fewer than three before them
      send a mail: the front-loaded burst, then silence until recovery. */
  lemma {:induction false} FailuresMailOnlyEarly(s: State, ts: seq<Template>)
    ensures FailAll(s, ts).failures == s.failures + |ts|
    ensures FailAll(s, ts).statusCode == s.statusCode
    ensures ts != [] ==> FailAll(s, ts).isDown
    ensures ts != [] ==> FailAll(s, ts).interval == Backoff(s.failures + |ts| - 1)
    ensures FailAll(s, ts).mails == s.mails + OutageMails(s.failures, s.statusCode, ts)
  {
    if ts != [] {
      var n := |ts|;
      var init := ts[..n - 1];
      FailuresMailOnlyEarly(s, init);
      var before := FailAll(s, init);
      SendsMailIff(before.failures);
      var f := s.failures;
      if f + n - 1 < MailsPerOutage {
        assert OutageMails(f, s.statusCode, ts) ==
          OutageMails(f, s.statusCode, init) + [Mail(ts[n - 1], s.statusCode, Backoff(f + n - 1) / 60)];
      } else {
        assert OutageMails(f, s.statusCode, ts) == OutageMails(f, s.statusCode, init);
      }
    }
  }

  // ---------------------------------------------------------------------------
  // The head scan

  /** The chunks `html_no_errors` keeps: empty chunks are skipped, and reading
      stops after the first chunk that itself contains `</head>`. */
  function HeadChunks(chunks: seq<string>): seq<string>
  {
    if chunks == [] then []
    else if chunks[0] == "" then HeadChunks(chunks[1..])
    else if Contains(HeadClose, chunks[0]) then [chunks[0]]
    else [chunks[0]] + HeadChunks(chunks[1..])
  }

  /** The non-empty chunks of `chunks`, in order. */
  function NonEmpty(chunks: seq<string>): seq<string>
  {
    if chunks == [] then []
    else (if chunks[0] == "" then [] else [chunks[0]]) + NonEmpty(chunks[1..])
  }

  /** If chunk `n` is the first that contains `</head>`, the head is made of
      the non-empty chunks up to and including it; if none does, of all of them. */
  lemma {:induction false} HeadChunksUpToClose(chunks: seq<string>, n: nat)
    requires n <= |chunks|
    requires forall k :: 0 <= k < n ==> !Contains(HeadClose, chunks[k])
    requires n < |chunks| ==> Contains(HeadClose, chunks[n])
    ensures HeadChunks(chunks) == NonEmpty(chunks[..if n < |chunks| then n + 1 else n])
  {
    var m := if n < |chunks| then n + 1 else n;
    if chunks == [] {
    } else if n == 0 {
      assert chunks[0] != "";
      assert chunks[..1][1..] == [];
    } else {
      HeadChunksUpToClose(chunks[1..], n - 1);
      assert chunks[..m][1..] == chunks[1..][..m - 1];
    }
  }

  /** The literal `</head>` test looks at one chunk at a time: chunks shorter
      than the tag never stop the reading, even if together they spell it. */
  lemma ShortChunksNeverStop(chunks: seq<string>)
    requires forall k :: 0 <= k < |chunks| ==> |chunks[k]| < |HeadClose|
    ensures HeadChunks(chunks) == NonEmpty(chunks)
  {
    HeadChunksUpToClose(chunks, |chunks|);
    assert chunks[..|chunks|] == chunks;
  }

  /** The accumulated head text, `"".join(head_chunks)`. */
  function HeadText(chunks: seq<string>): string
  {
    Concat(HeadChunks(chunks))
  }

  /** No pattern of `patterns` occurs in `head`, ignoring ASCII case. */
  function NoneOccur(patterns: seq<string>, head: string): (clean: bool)
    ensures clean <==> forall k :: 0 <= k < |patterns| ==> !ContainsIgnoringCase(patterns[k], head)
  {
    patterns == [] || (!ContainsIgnoringCase(patterns[0], head) && NoneOccur(patterns[1..], head))
  }

  /** The pattern loop of `html_no_errors`: true when no error phrase appears. */
  function HeadIsClean(head: string): (clean: bool)
    ensures clean <==> forall p :: p in ErrorPatterns ==> !ContainsIgnoringCase(p, head)
  {
    NoneOccur(ErrorPatterns, head)
  }

  // ---------------------------------------------------------------------------
  // One check cycle

  /** `check_status_code()`: the new state and whether the site is up. */
  function StatusProbe(s: State, o: StatusOutcome): (State, bool)
  {
    match o
    case Responded(code) => (s.(statusCode := code), IsUp(code))
    case StatusRaised => (AfterFailure(s, TimeoutMail), false)
  }

  /** `html_no_errors()`: the new state and whether the head was clean. A
      raising content probe runs a failure transition and still answers true. */
  function ContentProbe(s: State, o: ContentOutcome): (State, bool)
  {
    match o
    case Streamed(chunks) => (s, HeadIsClean(HeadText(chunks)))
    case ContentRaised => (AfterFailure(s, TimeoutMail), true)
  }

  /** The body of the `try` block of `check_status`. */
  function AfterCycle(s: State, so: StatusOutcome, co: ContentOutcome): State
  {
    var (s1, up) := StatusProbe(s, so);
    if !up then AfterFailure(s1, StatusCodeMail)
    else
      var (s2, clean) := ContentProbe(s1, co);
      if !clean then AfterFailure(s2, HtmlErrorMail)
      else if s2.isDown then AfterSuccess(s2)
      else s2
  }

  /** The sleep at the top of the loop: the backoff while down, else the draw. */
  function SleepBefore(s: State, draw: int): int
  {
    if s.isDown then s.interval else draw
  }

  /** What one pass of the `while self.parent.running` loop consumes. */
  datatype Round = Round(draw: int, status: StatusOutcome, content: ContentOutcome)

  /** The state after running the cycles of `rounds` in order. */
  function Run(s: State, rounds: seq<Round>): State
  {
    if rounds == [] then s
    else
      var last := rounds[|rounds| - 1];
      AfterCycle(Run(s, rounds[..|rounds| - 1]), last.status, last.content)
  }

  /** The sleeps the loop chooses before each cycle of `rounds`. */
  function Sleeps(s: State, rounds: seq<Round>): seq<int>
  {
    if rounds == [] then []
    else
      var init := rounds[..|rounds| - 1];
      Sleeps(s, init) + [SleepBefore(Run(s, init), rounds[|rounds| - 1].draw)]
  }

  lemma RunStep(s: State, rounds: seq<Round>, i: nat)
    requires i < |rounds|
    ensures Run(s, rounds[..i + 1]) == AfterCycle(Run(s, rounds[..i]), rounds[i].status, rounds[i].content)
    ensures Sleeps(s, rounds[..i + 1]) == Sleeps(s, rounds[..i]) + [SleepBefore(Run(s, rounds[..i]), rounds[i].draw)]
  {
    assert rounds[..i + 1][..i] == rounds[..i];
  }

  /** The fields stay consistent: down exactly while failures are counted,
      and the interval is the backoff of the last failure (or the initial one). */
  ghost predicate Inv(s: State)
  {
    && (s.isDown <==> s.failures > 0)
    && s.interval == (if s.failures == 0 then InitialInterval else Backoff(s.failures - 1))
  }

  /** Every cycle keeps the invariant, which bounds the interval to [300, 3600]. */
  lemma CycleKeepsInv(s: State, so: StatusOutcome, co: ContentOutcome)
    requires Inv(s)
    ensures Inv(AfterCycle(s, so, co))
    ensures InitialInterval <= s.interval <= MaxInterval
  {
  }

  /** A raising status probe fails twice in one cycle: once with the timeout
      template inside the probe, once with the status-code template after it. */
  lemma StatusRaisedFailsTwice(s: State, co: ContentOutcome)
    ensures AfterCycle(s, StatusRaised, co) == FailAll(s, [TimeoutMail, StatusCodeMail])
    ensures AfterCycle(s, StatusRaised, co).failures == s.failures + 2
  {
    assert [TimeoutMail, StatusCodeMail][..1] == [TimeoutMail];
    assert [TimeoutMail][..0] == [];
    assert FailAll(s, [TimeoutMail]) == AfterFailure(s, TimeoutMail);
    assert FailAll(s, [TimeoutMail, StatusCodeMail])
      == AfterFailure(AfterFailure(s, TimeoutMail), StatusCodeMail);
  }

  /** A bad status code ends the cycle with one status-code failure; the
      content probe is never consulted. */
  lemma BadStatusSkipsContent(s: State, code: int, co: ContentOutcome)
    requires !IsUp(code)
    ensures AfterCycle(s, Responded(code), co) == AfterFailure(s.(statusCode := code), StatusCodeMail)
  {
  }

  /** A clean head under a good status recovers a down site and changes
      nothing but the recorded status code of an up one. */
  lemma UpAndCleanCycle(s: State, code: int, chunks: seq<string>)
    requires IsUp(code) && HeadIsClean(HeadText(chunks))
    ensures s.isDown ==>
      AfterCycle(s, Responded(code), Streamed(chunks)) == State(false, 0, InitialInterval, code, s.mails)
    ensures !s.isDown ==> AfterCycle(s, Responded(code), Streamed(chunks)) == s.(statusCode := code)
  {
  }

  /** An error phrase in the head under a good status is an html-error failure. */
  lemma SoftErrorFails(s: State, code: int, chunks: seq<string>)
    requires IsUp(code) && !HeadIsClean(HeadText(chunks))
    ensures AfterCycle(s, Responded(code), Streamed(chunks)) == AfterFailure(s.(statusCode := code), HtmlErrorMail)
  {
  }

  /** A raising content probe under a good status runs a timeout failure
      (mailing if the gate lets it) and then, because the site now looks
      down, a recovery: the cycle ends healthy. */
  lemma ContentRaisedResets(s: State, code: int)
    requires IsUp(code)
    ensures AfterCycle(s, Responded(code), ContentRaised)
      == State(false, 0, InitialInterval, code,
               s.mails + if SendsMail(s.failures)
                         then [Mail(TimeoutMail, code, Backoff(s.failures) / 60)] else [])
  {
  }

  /** A recovery restarts the backoff: the next failure waits 300 s again and mails. */
  lemma RecoveryRestartsBackoff(s: State, t: Template)
    ensures AfterFailure(AfterSuccess(s), t)
      == State(true, 1, InitialInterval, s.statusCode, s.mails + [Mail(t, s.statusCode, 5)])
  {
    BackoffSchedule(0);
  }

  /** A site whose status probe keeps answering a bad code, from a healthy
      start: one failure per cycle, the backoff of the last one, and mails
      from the first three cycles only. */
  lemma {:induction false} BadStatusOutage(s: State, code: int, rounds: seq<Round>)
    requires s.failures == 0 && !IsUp(code) && rounds != []
    requires forall k :: 0 <= k < |rounds| ==> rounds[k].status == Responded(code)
    ensures Run(s, rounds) == FailAll(s.(statusCode := code), seq(|rounds|, _ => StatusCodeMail))
  {
    if |rounds| > 1 {
      var n := |rounds|;
      BadStatusOutage(s, code, rounds[..n - 1]);
      var ts := seq(n, _ => StatusCodeMail);
      assert ts[..n - 1] == seq(n - 1, _ => StatusCodeMail);
      FailuresMailOnlyEarly(s.(statusCode := code), ts[..n - 1]);
      assert Run(s, rounds) == AfterFailure(Run(s, rounds[..n - 1]), StatusCodeMail);
    } else if |rounds| == 1 {
      assert rounds[..0] == [];
      assert seq(1, _ => StatusCodeMail)[..0] == [];
    }
  }

  /** So a sustained bad status from a healthy start mails three times at most. */
  lemma BadStatusOutageMails(s: State, code: int, rounds: seq<Round>)
    requires s.failures == 0 && !IsUp(code) && rounds != []
    requires forall k :: 0 <= k < |rounds| ==> rounds[k].status == Responded(code)
    ensures Run(s, rounds).failures == |rounds|
    ensures Run(s, rounds).interval == Backoff(|rounds| - 1)
    ensures |Run(s, rounds).mails| == |s.mails| + Min(|rounds|, 3)
  {
    BadStatusOutage(s, code, rounds);
    FailuresMailOnlyEarly(s.(statusCode := code), seq(|rounds|, _ => StatusCodeMail));
  }

  /** A content probe that keeps raising escapes the suppression: from a
      healthy start every such cycle sends a timeout mail and ends healthy. */
  lemma {:induction false} ContentRaisedMailsEveryCycle(s: State, code: int, rounds: seq<Round>)
    requires s.failures == 0 && IsUp(code) && rounds != []
    requires forall k :: 0 <= k < |rounds| ==>
      rounds[k].status == Responded(code) && rounds[k].content == ContentRaised
    ensures Run(s, rounds) == State(false, 0, InitialInterval, code,
                                    s.mails + seq(|rounds|, _ => Mail(TimeoutMail, code, 5)))
  {
    var n := |rounds|;
    BackoffSchedule(0);
    if n == 1 {
      assert rounds[..0] == [];
    } else {
      ContentRaisedMailsEveryCycle(s, code, rounds[..n - 1]);
      assert seq(n, _ => Mail(TimeoutMail, code, 5))
        == seq(n - 1, _ => Mail(TimeoutMail, code, 5)) + [Mail(TimeoutMail, code, 5)];
    }
  }

  /** A page whose head says "Service Unavailable" has an unclean head. */
  lemma ServiceUnavailableHead(chunk: string)
    requires chunk == "<title>Service " + "Unavailable" + "</title></head>"
    ensures HeadText([chunk]) == chunk
    ensures !HeadIsClean(chunk)
  {
    var chunks: seq<string> := [chunk];
    assert chunks[1..] == [];
    assert HeadChunks(chunks) == chunks;
    assert Concat(chunks) == chunk + Concat(chunks[1..]);
    var p := "unavailable";
    FoldSlice(chunk, 15, 26);
    assert chunk[15..26] == "Unavailable";
    assert Fold("Unavailable") == p;
    assert Fold(p) == p;
    assert OccursAt(Fold(p), Fold(chunk), 15);
    assert ContainsIgnoringCase(p, chunk);
    assert ErrorPatterns[2] == p;
  }

  /** The case from the documentation: a 200 answer whose head says
      "Service Unavailable" is a soft failure. */
  lemma ServiceUnavailableIsSoftError(s: State)
    ensures AfterCycle(s, Responded(200), Streamed(["<title>Service Unavailable</title></head>"]))
         == AfterFailure(s.(statusCode := 200), HtmlErrorMail)
  {
    var chunk := "<title>Service " + "Unavailable" + "</title></head>";
    assert chunk == "<title>Service Unavailable</title></head>";
    ServiceUnavailableHead(chunk);
    SoftErrorFails(s, 200, [chunk]);
  }

  /** A `</head>` split over two chunks does not stop the reading, so text
      after the head is scanned too. */
  lemma SplitCloseTagScansOn(s: State)
    ensures HeadText(["</he", "ad>", "Error"]) == "</head>Error"
    ensures !HeadIsClean("</head>Error")
  {
    ShortChunksNeverStop(["</he", "ad>", "Error"]);
    var p := "error";
    assert Fold(p) == p;
    FoldSlice("</head>Error", 7, 12);
    assert "</head>Error"[7..12] == "Error";
    assert Fold("Error") == p;
    assert OccursAt(Fold(p), Fold("</head>Error"), 7);
    assert ErrorPatterns[0] == p;
  }

  // ---------------------------------------------------------------------------
  // The checker object

  class WebsiteChecker {
    const url: string
    var currentInterval: int
    var consecutiveFailures: nat
    var isDown: bool
    var currentStatusCode: int
    /** The alerts handed to the mail sender, oldest first. */
    ghost var mails: seq<Mail>

    ghost function Model(): State
      reads this
    {
      State(isDown, consecutiveFailures, currentInterval, currentStatusCode, mails)
    }

    ghost predicate Valid()
      reads this
    {
      Inv(Model())
    }

    constructor (url: string)
      ensures this.url == url && Model() == Initial && Valid()
    {
      this.url := url;
      currentInterval := InitialInterval;
      consecutiveFailures := 0;
      isDown := false;
      currentStatusCode := 0;
      mails := [];
    }

    /** `send_email(email_text)`: the rendered mail is recorded, not sent. */
    method SendEmail(t: Template)
      modifies this`mails
      ensures mails == old(mails) + [Mail(t, currentStatusCode, currentInterval / 60)]
    {
      mails := mails + [Mail(t, currentStatusCode, currentInterval / 60)];
    }

    method HandleSuccess()
      modifies this
      ensures Model() == AfterSuccess(old(Model()))
    {
      isDown := false;
      consecutiveFailures := 0;
      currentInterval := InitialInterval;
    }

    method HandleFailure(t: Template)
      modifies this
      ensures Model() == AfterFailure(old(Model()), t)
    {
      isDown := true;
      currentInterval := Min(InitialInterval * Pow(GrowthFactor, consecutiveFailures), MaxInterval);
      if currentInterval < MaxInterval && consecutiveFailures < MailCap {
        SendEmail(t);
      }
      consecutiveFailures := consecutiveFailures + 1;
    }

    method CheckStatusCode(o: StatusOutcome) returns (up: bool)
      modifies this
      ensures (Model(), up) == StatusProbe(old(Model()), o)
    {
      match o
      case Responded(code) =>
        currentStatusCode := code;
        up := 200 <= currentStatusCode < 400;
      case StatusRaised =>
        HandleFailure(TimeoutMail);
        up := false;
    }

    method HtmlNoErrors(o: ContentOutcome) returns (clean: bool)
      modifies this
      ensures (Model(), clean) == ContentProbe(old(Model()), o)
    {
      match o
      case ContentRaised =>
        HandleFailure(TimeoutMail);
        clean := true;
      case Streamed(chunks) =>
        var headChunks: seq<string> := [];
        var i := 0;
        while i < |chunks|
          invariant 0 <= i <= |chunks|
          invariant HeadChunks(chunks) == headChunks + HeadChunks(chunks[i..])
        {
          var chunk := chunks[i];
          assert chunks[i..][1..] == chunks[i + 1..];
          if chunk != "" {
            headChunks := headChunks + [chunk];
            if Contains(HeadClose, chunk) {
              assert HeadChunks(chunks) == headChunks;
              assert HeadChunks(chunks[|chunks|..]) == [];
              break;
            }
          }
          i := i + 1;
        }
        assert HeadChunks(chunks) == headChunks by {
          if i == |chunks| { assert chunks[i..] == []; }
        }
        clean := HeadIsClean(Concat(headChunks));
    }

    /** The `try` block of one pass of the `check_status` loop. */
    method Cycle(so: StatusOutcome, co: ContentOutcome)
      modifies this
      ensures Model() == AfterCycle(old(Model()), so, co)
    {
      var up := CheckStatusCode(so);
      if up {
        var clean := HtmlNoErrors(co);
        if clean {
          if isDown {
            HandleSuccess();
          }
        } else {
          HandleFailure(HtmlErrorMail);
        }
      } else {
        HandleFailure(StatusCodeMail);
      }
    }

    /** The sleep chosen at the top of the loop. */
    method NextSleep(draw: int) returns (d: int)
      requires Valid() && HealthyDrawMin <= draw <= HealthyDrawMax
      ensures d == SleepBefore(Model(), draw)
      ensures InitialInterval <= d <= MaxInterval
    {
      if isDown {
        d := currentInterval;
      } else {
        d := draw;
      }
    }

    /** `check_status`: the loop runs one cycle per round until the rounds
        (the passes made while the shared `running` flag stays set) run out,
        and returns the sleeps it chose. */
    method CheckStatus(rounds: seq<Round>) returns (sleeps: seq<int>)
      requires Valid()
      requires forall k :: 0 <= k < |rounds| ==> HealthyDrawMin <= rounds[k].draw <= HealthyDrawMax
      modifies this
      ensures Valid() && Model() == Run(old(Model()), rounds)
      ensures |sleeps| == |rounds|
      ensures sleeps == Sleeps(old(Model()), rounds)
      ensures forall k :: 0 <= k < |rounds| ==> InitialInterval <= sleeps[k] <= MaxInterval
    {
      ghost var s0 := Model();
      sleeps := [];
      var i := 0;
      assert rounds[..0] == [];
      while i < |rounds|
        invariant 0 <= i <= |rounds|
        invariant Valid() && Model() == Run(s0, rounds[..i])
        invariant |sleeps| == i && sleeps == Sleeps(s0, rounds[..i])
        invariant forall k :: 0 <= k < i ==> InitialInterval <= sleeps[k] <= MaxInterval
      {
        var d := NextSleep(rounds[i].draw);
        sleeps := sleeps + [d];
        CycleKeepsInv(Model(), rounds[i].status, rounds[i].content);
        Cycle(rounds[i].status, rounds[i].content);
        RunStep(s0, rounds, i);
        i := i + 1;
      }
      assert rounds[..i] == rounds;
    }
  }
}
