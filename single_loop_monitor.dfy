/** The older, single-loop monitor (websiteMonitor.py): a `WebsiteChecker` per
    URL whose `check_status` sleeps, probes once and reacts, with a jittered
    exponential backoff (base 2, capped at 3600 s) and an alert gate on the
    backoff alone. `MonitoringSystem.run` calls every checker in turn.

    The random draws `randint(300, 600)` and `uniform(0.8, 1.2)` are
    parameters, and the jitter is an exact real number. */
module SingleLoopMonitor {
  import opened Powers
  import opened Probes

  const DefaultInitialInterval: int := 300
  const MaxInterval: int := 3600
  const GrowthFactor: nat := 2
  /** The base of the sleep taken while the site is down. */
  const DownSleepBase: int := 60
  const HealthyDrawMin: int := 300
  const HealthyDrawMax: int := 600
  const JitterMin: real := 0.8
  const JitterMax: real := 1.2
  /** The one mail body of this version. */
  const MailTemplate: string := "Email_message.txt"
  /** How many failures of one outage mail when the initial interval is the default. */
  const MailsPerOutage: nat := 3

  /** One sent alert: the values interpolated into the template. */
  datatype Mail = Mail(statusCode: int, minutes: int)

  /** The fields of one `WebsiteChecker` (its initial interval is a
      constructor argument), plus the alerts it has sent. */
  datatype State = State(initialInterval: int, isDown: bool, failures: nat, interval: real,
                         statusCode: int, mails: seq<Mail>)

  function Initial(initialInterval: int): State
  {
    State(initialInterval, false, 0, initialInterval as real, 0, [])
  }

  /** A value `uniform(0.8, 1.2)` can return. */
  predicate ValidJitter(j: real)
  {
    JitterMin <= j <= JitterMax
  }

  function RMin(a: real, b: real): real
  {
    if a <= b then a else b
  }

  /** Python's `int(x)`: truncation toward zero. */
  function Trunc(x: real): int
  {
    if x >= 0.0 then x.Floor else -((-x).Floor)
  }

  /** `min(initial_interval * 2 ** failures * jitter, max_interval)`, with the
      failure count already incremented. */
  function Backoff(initial: int, failures: nat, jitter: real): (r: real)
    ensures r <= MaxInterval as real
    ensures 0 <= initial <= MaxInterval && failures >= 1 && ValidJitter(jitter) ==> initial as real <= r
  {
    GrownAtLeastInitial(initial, failures, jitter);
    RMin((initial * Pow(GrowthFactor, failures)) as real * jitter, MaxInterval as real)
  }

  lemma GrownAtLeastInitial(initial: int, failures: nat, jitter: real)
    ensures 0 <= initial && failures >= 1 && ValidJitter(jitter) ==>
      initial as real <= (initial * Pow(GrowthFactor, failures)) as real * jitter
  {
    if 0 <= initial && failures >= 1 && ValidJitter(jitter) {
      PowMonotone(GrowthFactor, 1, failures);
      var a := (initial * Pow(GrowthFactor, failures)) as real;
      assert a >= 2.0 * initial as real by {
        assert initial * Pow(GrowthFactor, failures) >= initial * 2;
      }
      assert a * jitter >= a * 0.8;
    }
  }

  /** `handle_failure()`: count the failure first, then back off, then mail
      while the backoff is below the ceiling. */
  function AfterFailure(s: State, jitter: real): State
  {
    var n := s.failures + 1;
    var interval := Backoff(s.initialInterval, n, jitter);
    var mail := Mail(s.statusCode, Trunc(interval) / 60);
    s.(isDown := true, failures := n, interval := interval,
       mails := if interval < MaxInterval as real then s.mails + [mail] else s.mails)
  }

  /** `handle_success()`: silent recovery. */
  function AfterSuccess(s: State): State
  {
    s.(isDown := false, failures := 0, interval := s.initialInterval as real)
  }

  /** `min(60 * 2 ** failures, max_interval)`: the sleep while down. */
  function DownSleep(failures: nat): int
  {
    Min(DownSleepBase * Pow(GrowthFactor, failures), MaxInterval)
  }

  /** The sleep at the start of `check_status`, from the state before the probe. */
  function SleepBefore(s: State, draw: int): int
  {
    if s.isDown then DownSleep(s.failures) else draw
  }

  /** The probe and reaction of `check_status`: the new state and its return value. */
  function AfterCheck(s: State, o: StatusOutcome, jitter: real): (State, bool)
  {
    match o
    case Responded(code) =>
      var s1 := s.(statusCode := code);
      if IsUp(code) then (if s1.isDown then AfterSuccess(s1) else s1, true)
      else (AfterFailure(s1, jitter), false)
    case StatusRaised => (AfterFailure(s, jitter), false)
  }

  /** Down exactly while failures are counted; the initial interval while up;
      never above the ceiling while down. */
  ghost predicate Inv(s: State)
  {
    && (s.isDown <==> s.failures > 0)
    && (!s.isDown ==> s.interval == s.initialInterval as real)
    && (s.isDown ==> s.interval <= MaxInterval as real)
  }

  // ---------------------------------------------------------------------------
  // Properties

  /** With the default initial interval, a failure mails exactly when it is
      one of the first three of its outage, whatever the jitter: from the
      fourth on, 300 * 16 * 0.8 = 3840 already exceeds the ceiling. */
  lemma MailsIffEarly(n: nat, jitter: real)
    requires n >= 1 && ValidJitter(jitter)
    ensures Backoff(DefaultInitialInterval, n, jitter) < MaxInterval as real <==> n <= 3
  {
    var a := (DefaultInitialInterval * Pow(GrowthFactor, n)) as real;
    if n <= 3 {
      PowMonotone(GrowthFactor, n, 3);
      assert a <= 2400.0;
      assert a * jitter <= 2400.0 * jitter;
    } else {
      PowMonotone(GrowthFactor, 4, n);
      assert a >= 4800.0;
      assert a * jitter >= 4800.0 * jitter;
    }
  }

  /** The state after failing once per jitter of `js`, in order. */
  function FailAll(s: State, js: seq<real>): State
  {
    if js == [] then s else AfterFailure(FailAll(s, js[..|js| - 1]), js[|js| - 1])
  }

  /** The mails that failures with jitters `js`, after `f` earlier ones and
      with status code `code` on record, are expected to send. */
  function OutageMails(f: nat, code: int, js: seq<real>): seq<Mail>
  {
    seq(SlotsLeft(f, MailsPerOutage, |js|), i requires 0 <= i < SlotsLeft(f, MailsPerOutage, |js|) =>
      Mail(code, Trunc(Backoff(DefaultInitialInterval, f + i + 1, js[i])) / 60))
  }

  /** With the default initial interval, consecutive failures count up one
      by one, the backoff stays below the ceiling, and only the first three
      failures of an outage mail; there is no count cap in this version. */
  lemma {:induction false} FailuresMailOnlyEarly(s: State, js: seq<real>)
    requires s.initialInterval == DefaultInitialInterval
    requires forall k :: 0 <= k < |js| ==> ValidJitter(js[k])
    ensures FailAll(s, js).failures == s.failures + |js|
    ensures FailAll(s, js).statusCode == s.statusCode
    ensures FailAll(s, js).initialInterval == s.initialInterval
    ensures js != [] ==> FailAll(s, js).isDown && FailAll(s, js).interval <= MaxInterval as real
    ensures FailAll(s, js).mails == s.mails + OutageMails(s.failures, s.statusCode, js)
  {
    if js != [] {
      var n := |js|;
      var init := js[..n - 1];
      FailuresMailOnlyEarly(s, init);
      var f := s.failures;
      var before := FailAll(s, init);
      assert FailAll(s, js) == AfterFailure(before, js[n - 1]);
      var interval := Backoff(DefaultInitialInterval, f + n, js[n - 1]);
      MailsIffEarly(f + n, js[n - 1]);
      var mail := Mail(s.statusCode, Trunc(interval) / 60);
      if f + n - 1 < MailsPerOutage {
        assert AfterFailure(before, js[n - 1]).mails == before.mails + [mail];
        assert OutageMails(f, s.statusCode, js) == OutageMails(f, s.statusCode, init) + [mail];
      } else {
        assert AfterFailure(before, js[n - 1]).mails == before.mails;
        assert OutageMails(f, s.statusCode, js) == OutageMails(f, s.statusCode, init);
      }
    }
  }

  /** The sleep while down doubles from 120 s and reaches the ceiling at the
      sixth failure; it never looks at `current_interval`. */
  lemma DownSleepSchedule(n: nat)
    ensures DownSleep(1) == 120 && DownSleep(2) == 240 && DownSleep(3) == 480
    ensures DownSleep(4) == 960 && DownSleep(5) == 1920
    ensures n >= 6 ==> DownSleep(n) == MaxInterval
  {
    assert Pow(2, 5) == 32;
    assert Pow(2, 6) == 64;
    if n >= 6 {
      PowMonotone(2, 6, n);
    }
  }

  /** The sleep before a probe lies between 120 s and the ceiling, and does not
      depend on the backoff interval stored by the last failure. */
  lemma SleepBounds(s: State, draw: int, interval: real)
    requires Inv(s) && HealthyDrawMin <= draw <= HealthyDrawMax
    ensures 120 <= SleepBefore(s, draw) <= MaxInterval
    ensures SleepBefore(s.(interval := interval), draw) == SleepBefore(s, draw)
  {
    if s.isDown {
      PowMonotone(2, 1, s.failures);
    }
  }

  /** Every check keeps the invariant. */
  lemma CheckKeepsInv(s: State, o: StatusOutcome, jitter: real)
    requires Inv(s)
    ensures Inv(AfterCheck(s, o, jitter).0)
  {
  }

  /** The reaction to one probe: up means the status code is in [200, 400);
      a failure is counted exactly once; up while down resets the state; up
      while up changes nothing but the recorded status code. */
  lemma CheckReacts(s: State, o: StatusOutcome, jitter: real)
    ensures var (r, up) := AfterCheck(s, o, jitter);
      && (up <==> o.Responded? && IsUp(o.code))
      && (o.Responded? ==> r.statusCode == o.code)
      && (o.StatusRaised? ==> r.statusCode == s.statusCode)
      && (!up ==> r.isDown && r.failures == s.failures + 1)
      && (up && s.isDown ==> r.failures == 0 && !r.isDown && r.interval == s.initialInterval as real)
      && (up && !s.isDown ==> r == s.(statusCode := o.code))
      && r.initialInterval == s.initialInterval
  {
  }

  // ---------------------------------------------------------------------------
  // The checker object

  class WebsiteChecker {
    const url: string
    const initialInterval: int
    var currentInterval: real
    var consecutiveFailures: nat
    var isDown: bool
    var currentStatusCode: int
    /** The alerts handed to the mail sender, oldest first. */
    ghost var mails: seq<Mail>

    ghost function Model(): State
      reads this
    {
      State(initialInterval, isDown, consecutiveFailures, currentInterval, currentStatusCode, mails)
    }

    ghost predicate Valid()
      reads this
    {
      Inv(Model())
    }

    constructor (url: string, initialInterval: int)
      ensures this.url == url && Model() == Initial(initialInterval) && Valid()
    {
      this.url := url;
      this.initialInterval := initialInterval;
      currentInterval := initialInterval as real;
      consecutiveFailures := 0;
      isDown := false;
      currentStatusCode := 0;
      mails := [];
    }

    /** `send_email()`: the rendered mail is recorded, not sent. */
    method SendEmail()
      modifies this`mails
      ensures mails == old(mails) + [Mail(currentStatusCode, Trunc(currentInterval) / 60)]
    {
      mails := mails + [Mail(currentStatusCode, Trunc(currentInterval) / 60)];
    }

    method HandleSuccess()
      modifies this
      ensures Model() == AfterSuccess(old(Model()))
    {
      isDown := false;
      consecutiveFailures := 0;
      currentInterval := initialInterval as real;
    }

    method HandleFailure(jitter: real)
      requires ValidJitter(jitter)
      modifies this
      ensures Model() == AfterFailure(old(Model()), jitter)
    {
      ghost var before := Model();
      isDown := true;
      consecutiveFailures := consecutiveFailures + 1;
      currentInterval := Backoff(initialInterval, consecutiveFailures, jitter);
      if currentInterval < MaxInterval as real {
        SendEmail();
      }
      assert Model() == AfterFailure(before, jitter);
    }

    /** `check_status()`: sleep (the returned duration), probe, react. */
    method CheckStatus(draw: int, jitter: real, o: StatusOutcome) returns (slept: int, up: bool)
      requires HealthyDrawMin <= draw <= HealthyDrawMax && ValidJitter(jitter)
      modifies this
      ensures slept == SleepBefore(old(Model()), draw)
      ensures (Model(), up) == AfterCheck(old(Model()), o, jitter)
    {
      if isDown {
        slept := Min(DownSleepBase * Pow(GrowthFactor, consecutiveFailures), MaxInterval);
      } else {
        slept := draw;
      }
      match o
      case Responded(code) =>
        currentStatusCode := code;
        up := 200 <= currentStatusCode < 400;
        if up {
          if isDown {
            HandleSuccess();
          }
        } else {
          HandleFailure(jitter);
        }
      case StatusRaised =>
        HandleFailure(jitter);
        up := false;
    }
  }

  /** The random draws and the probe result one call of `check_status` uses. */
  datatype Probe = Probe(draw: int, jitter: real, status: StatusOutcome)

  /** One pass of the `for` loop in `MonitoringSystem.run`: every checker in
      turn runs one `check_status`, and the checkers do not affect each other. */
  method RunRound(monitors: seq<WebsiteChecker>, probes: seq<Probe>)
    requires |probes| == |monitors|
    requires forall i, j :: 0 <= i < j < |monitors| ==> monitors[i] != monitors[j]
    requires forall k :: 0 <= k < |probes| ==>
      HealthyDrawMin <= probes[k].draw <= HealthyDrawMax && ValidJitter(probes[k].jitter)
    modifies set m | m in monitors
    ensures forall k :: 0 <= k < |monitors| ==>
      monitors[k].Model() == AfterCheck(old(monitors[k].Model()), probes[k].status, probes[k].jitter).0
  {
    var i := 0;
    while i < |monitors|
      invariant 0 <= i <= |monitors|
      invariant forall k :: 0 <= k < i ==>
        monitors[k].Model() == AfterCheck(old(monitors[k].Model()), probes[k].status, probes[k].jitter).0
      invariant forall k :: i <= k < |monitors| ==> monitors[k].Model() == old(monitors[k].Model())
    {
      var _, _ := monitors[i].CheckStatus(probes[i].draw, probes[i].jitter, probes[i].status);
      i := i + 1;
    }
  }
}
