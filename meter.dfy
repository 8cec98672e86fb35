/** The per-sample metering step of the adapter (the `stateChange` handler):
    the reading is pushed into the device's window, the window is averaged,
    the running total is updated, and a two-state running/idle machine
    compares the average against the device's threshold. Finishing a run
    clears the window and appends a job to the device's job list.

    The device's states in the store (`<id>._running`, `<id>.status.*`,
    `<id>.jobs`, ...) are the fields of a `DeviceStates` object; the pure
    function `Step` says what one handler call does to them. */
module Meter {
  import opened Values
  import opened Smoothing
  import opened Library

  /** A configured device, as stored on the metered state under
      `common['meter-sockets']`. `active` stands for `active === true`. */
  datatype DeviceConfig = DeviceConfig(
    id: Option<int>,
    name: string,
    state: string,
    threshold: Option<real>,
    active: bool,
    alexa: Option<string>,
    telegram: Option<string>)

  /** The texts configured for the four notifications; only whether they are
      empty matters here. */
  datatype Templates = Templates(
    alexaStarted: string,
    alexaFinished: string,
    telegramStarted: string,
    telegramFinished: string)

  /** A notification handed to another adapter: an Echo device to speak on,
      or a Telegram message to one user (None: to everybody). */
  datatype Notice = Speak(echo: string) | Telegram(user: Option<string>)

  /** `status.total` as `parseInt` and `||` read it: no state at all, a value
      that is not a number ('' or NaN), or an amount in hundredths. */
  datatype Total = Absent | Blank | Amount(h: int)

  /** A completed run; `total` is in hundredths, times in seconds. */
  datatype Job = Job(
    total: int,
    runtime: int,
    started: int,
    startedDateTime: string,
    finished: int,
    finishedDateTime: string)

  /** The states the adapter keeps for one device. `running` is None when
      `_running` cannot be read; `metered` is the window kept on
      `status.average`; `started` is the stored start as `val || 0` reads it. */
  datatype Status = Status(
    running: Option<bool>,
    device: string,
    source: string,
    enabled: bool,
    threshold: Option<real>,
    metered: seq<int>,
    average: int,
    total: Total,
    started: int,
    startedDateTime: string,
    finished: int,
    finishedDateTime: string,
    jobs: seq<Job>)

  /** The states as `createDevice` leaves them: every node holds ''. */
  function Created(): Status {
    Status(Some(false), "", "", false, None, [], 0, Blank, 0, "", 0, "", [])
  }

  /** Milliseconds rounded to the nearest second. */
  function Seconds(ms: int): int {
    RoundHalfUp(ms, 1000)
  }

  /** The running total after a reading: a missing total restarts at 0,
      otherwise the whole units of the stored total plus the reading. */
  function AddSample(t: Total, h: int): Total {
    match t
    case Absent => Amount(0)
    case Blank => Blank
    case Amount(x) => Amount(100 * TruncUnits(x) + h)
  }

  /** `obj.val || 0` for the total a job records. */
  function JobTotal(t: Total): int {
    if t.Amount? then t.h else 0
  }

  /** The running total keeps the whole units of the previous total and adds
      the reading; a blank total stays blank, since `parseInt('')` is NaN. */
  lemma AddSampleValue(t: Total, h: int)
    ensures t.Amount? ==>
      (&& AddSample(t, h).Amount?
       && AddSample(t, h).h - h == 100 * TruncUnits(t.h)
       && (t.h >= 0 ==> t.h - 100 < AddSample(t, h).h - h <= t.h))
    ensures t == Blank ==> AddSample(t, h) == Blank
    ensures t == Absent ==> AddSample(t, h) == Amount(0)
  {
  }

  datatype Transition = Stay | Start | Finish

  /** `running === false && average > threshold` starts a run,
      `running === true && average <= threshold` finishes it; with no
      threshold neither comparison holds. */
  function Decide(running: bool, average: int, threshold: Option<real>): (t: Transition)
    ensures t == Start <==> !running && threshold.Some? && average as real > threshold.value
    ensures t == Finish <==> running && threshold.Some? && average as real <= threshold.value
  {
    if threshold.None? then Stay
    else if !running && average as real > threshold.value then Start
    else if running && average as real <= threshold.value then Finish
    else Stay
  }

  /** With a threshold, the running state after a decision is exactly
      "the average is above the threshold", whatever it was before. */
  lemma DecideFollowsAverage(running: bool, average: int, threshold: real)
    ensures var t := Decide(running, average, Some(threshold));
      (t == Start || (running && t != Finish)) <==> average as real > threshold
  {
  }

  /** The handler goes past its early returns: the device's configuration was
      read, the device is active, and `_running` could be read. */
  predicate Admitted(s: Status, cfg: Option<DeviceConfig>) {
    cfg.Some? && cfg.value.active && s.running.Some?
  }

  /** The writes every admitted reading makes, before the decision. */
  function Metered(s: Status, c: DeviceConfig, h: int): Status {
    var w := Slide(s.metered, h);
    s.(device := c.name, source := c.state, enabled := c.active, metered := w,
       threshold := if c.threshold.Some? then c.threshold else s.threshold,
       average := Average(w), total := AddSample(s.total, h))
  }

  /** The transition one reading causes. */
  function TransitionOf(s: Status, cfg: Option<DeviceConfig>, h: int): Transition {
    if !Admitted(s, cfg) then Stay
    else Decide(s.running.value, Average(Slide(s.metered, h)), cfg.value.threshold)
  }

  /** The writes of a start at `now` (milliseconds), rendered as `stamp`. */
  function Started(s: Status, now: int, stamp: string): Status {
    s.(running := Some(true), started := Seconds(now), startedDateTime := stamp,
       finished := 0, finishedDateTime := "")
  }

  /** The job recorded when a run finishes at `end` (milliseconds); the
      stamps render the stored start and the end. */
  function JobOf(s: Status, end: int, startStamp: string, endStamp: string): Job {
    Job(JobTotal(s.total), s.started - Seconds(end), s.started, startStamp, Seconds(end), endStamp)
  }

  /** The writes of a finish at `end`: the window is cleared and the job
      appended. */
  function Closed(s: Status, end: int, startStamp: string, endStamp: string): Status {
    s.(running := Some(false), finished := Seconds(end), finishedDateTime := endStamp,
       metered := [], jobs := s.jobs + [JobOf(s, end, startStamp, endStamp)])
  }

  /** One call of the handler with reading `h` at time `now`. */
  function Step(s: Status, cfg: Option<DeviceConfig>, h: int, now: int, localTime: int -> DateParts): Status {
    if !Admitted(s, cfg) then s
    else
      var m := Metered(s, cfg.value, h);
      match TransitionOf(s, cfg, h)
      case Start => Started(m, now, GetDateTime(Some(now), localTime))
      case Finish =>
        Closed(m, now, GetDateTime(Some(m.started * 1000), localTime), GetDateTime(Some(now), localTime))
      case Stay => m
  }

  /** A notification target is configured: defined and not empty. */
  predicate Configured(target: Option<string>) {
    target.Some? && target.value != ""
  }

  /** The notifications a transition sends. */
  function Notices(c: DeviceConfig, tpl: Templates, t: Transition): seq<Notice> {
    if t == Stay then []
    else
      var spoken := if t == Start then tpl.alexaStarted else tpl.alexaFinished;
      var texted := if t == Start then tpl.telegramStarted else tpl.telegramFinished;
      (if Configured(c.alexa) && spoken != "" then [Speak(c.alexa.value)] else [])
      + (if Configured(c.telegram) && texted != ""
         then [Telegram(if c.telegram.value != "ALL" then Some(c.telegram.value) else None)]
         else [])
  }

  /** The states of one device in the store. */
  class DeviceStates {
    var running: Option<bool>
    var device: string
    var source: string
    var enabled: bool
    var threshold: Option<real>
    var metered: seq<int>
    var average: int
    var total: Total
    var started: int
    var startedDateTime: string
    var finished: int
    var finishedDateTime: string
    var jobs: seq<Job>

    function Snapshot(): Status
      reads this
    {
      Status(running, device, source, enabled, threshold, metered, average, total,
             started, startedDateTime, finished, finishedDateTime, jobs)
    }

    /** The states `createDevice` creates. */
    constructor ()
      ensures Snapshot() == Created()
    {
      running, device, source, enabled, threshold := Some(false), "", "", false, None;
      metered, average, total := [], 0, Blank;
      started, startedDateTime, finished, finishedDateTime := 0, "", 0, "";
      jobs := [];
    }

    /** The display states written for every admitted reading. */
    method Display(c: DeviceConfig)
      modifies this
      ensures Snapshot() == old(Snapshot()).(device := c.name, source := c.state, enabled := c.active)
    {
      device, source, enabled := c.name, c.state, c.active;
    }

    /** The reading is pushed into the window, the oldest reading dropped
        beyond capacity, the threshold written when configured, and the new
        window averaged. */
    method Push(c: DeviceConfig, value: int) returns (avg: int)
      modifies this
      ensures Snapshot() == old(Snapshot()).(metered := Slide(old(metered), value),
        threshold := if c.threshold.Some? then c.threshold else old(threshold),
        average := Average(Slide(old(metered), value)))
      ensures avg == Average(Slide(old(metered), value))
    {
      var window := metered + [value];
      if |window| > Max {
        window := window[1..];
      }
      metered := window;
      if c.threshold.Some? {
        threshold := c.threshold;
      }
      avg := GetAverage(window);
      average := avg;
    }

    /** The running total is read back and the reading added to it. */
    method Accumulate(value: int)
      modifies this
      ensures Snapshot() == old(Snapshot()).(total := AddSample(old(total), value))
    {
      total := AddSample(total, value);
    }

    /** A run starts at `now`, rendered as `stamp`. */
    method Begin(now: int, stamp: string)
      modifies this
      ensures Snapshot() == Started(old(Snapshot()), now, stamp)
    {
      running, started, startedDateTime, finished, finishedDateTime := Some(true), Seconds(now), stamp, 0, "";
    }

    /** A run finishes at `endTime`: the window is cleared and the job is
        appended to the job list. `startStamp` and `endStamp` render the
        stored start and the end. */
    method Close(endTime: int, startStamp: string, endStamp: string)
      modifies this
      ensures Snapshot() == Closed(old(Snapshot()), endTime, startStamp, endStamp)
    {
      var job := JobOf(Snapshot(), endTime, startStamp, endStamp);
      running, finished, finishedDateTime, metered, jobs := Some(false), Seconds(endTime), endStamp, [], jobs + [job];
    }

    /** The `stateChange` handler for a new reading `val` of the metered state.
        `cfg` is None when the state's object cannot be read. */
    method StateChange(val: real, cfg: Option<DeviceConfig>, tpl: Templates, now: int, localTime: int -> DateParts)
      returns (notices: seq<Notice>)
      modifies this
      ensures Snapshot() == Step(old(Snapshot()), cfg, Sample(val), now, localTime)
      ensures notices == if Admitted(old(Snapshot()), cfg)
                         then Notices(cfg.value, tpl, TransitionOf(old(Snapshot()), cfg, Sample(val)))
                         else []
    {
      ghost var s0 := Snapshot();
      var value := Sample(val);
      notices := [];
      if cfg.None? {
        return;
      }
      var c := cfg.value;
      if !c.active {
        return;
      }
      if running.None? {
        return;
      }
      var isRunning := running.value;
      Display(c);
      var avg := Push(c, value);
      Accumulate(value);
      ghost var m := Snapshot();
      assert m == Metered(s0, c, value);

      if !isRunning && c.threshold.Some? && avg as real > c.threshold.value {
        assert TransitionOf(s0, cfg, value) == Start;
        Begin(now, GetDateTime(Some(now), localTime));
        notices := Notices(c, tpl, Start);
      } else if isRunning && c.threshold.Some? && avg as real <= c.threshold.value {
        assert TransitionOf(s0, cfg, value) == Finish;
        var endTime := now;
        notices := Notices(c, tpl, Finish);
        Close(endTime, GetDateTime(Some(started * 1000), localTime), GetDateTime(Some(endTime), localTime));
      } else {
        assert TransitionOf(s0, cfg, value) == Stay;
      }
    }
  }

  // ------------------------------------------------------- one reading

  /** A reading is ignored without any write when the configuration cannot
      be read, the device is not active, or `_running` cannot be read. */
  lemma StepIgnored(s: Status, cfg: Option<DeviceConfig>, h: int, now: int, localTime: int -> DateParts)
    requires cfg.None? || !cfg.value.active || s.running.None?
    ensures Step(s, cfg, h, now, localTime) == s
  {
  }

  /** Every admitted reading leaves the window within capacity ending in the
      reading (or empty after a finish), the average of the new window, and
      the running total updated from its whole units. */
  lemma StepMeters(s: Status, cfg: Option<DeviceConfig>, h: int, now: int, localTime: int -> DateParts)
    requires Admitted(s, cfg) && |s.metered| <= Max
    ensures var r := Step(s, cfg, h, now, localTime);
      && |r.metered| <= Max
      && (TransitionOf(s, cfg, h) == Finish <==> r.metered == [])
      && (r.metered != [] ==> r.metered[|r.metered| - 1] == h)
      && r.average == Average(Slide(s.metered, h))
      && r.total == AddSample(s.total, h)
  {
    SlideShape(s.metered, h);
  }

  /** With a threshold configured, after an admitted reading the device is
      running exactly when the new average is above the threshold. */
  lemma StepRunningFollowsAverage(s: Status, cfg: Option<DeviceConfig>, h: int, now: int, localTime: int -> DateParts)
    requires Admitted(s, cfg) && cfg.value.threshold.Some?
    ensures Step(s, cfg, h, now, localTime).running
      == Some(Average(Slide(s.metered, h)) as real > cfg.value.threshold.value)
  {
    DecideFollowsAverage(s.running.value, Average(Slide(s.metered, h)), cfg.value.threshold.value);
  }

  /** Starting sets the start time and clears the finish fields; the job
      list is untouched. */
  lemma StepStart(s: Status, cfg: Option<DeviceConfig>, h: int, now: int, localTime: int -> DateParts)
    requires TransitionOf(s, cfg, h) == Start
    ensures var r := Step(s, cfg, h, now, localTime);
      && s.running == Some(false)
      && r.running == Some(true) && r.started == Seconds(now)
      && r.startedDateTime == GetDateTime(Some(now), localTime)
      && r.finished == 0 && r.finishedDateTime == "" && r.jobs == s.jobs
  {
  }

  /** Finishing clears the window and appends exactly one job, after all
      earlier jobs; its runtime is the start minus the end, as written. */
  lemma StepFinish(s: Status, cfg: Option<DeviceConfig>, h: int, now: int, localTime: int -> DateParts)
    requires TransitionOf(s, cfg, h) == Finish
    ensures var r := Step(s, cfg, h, now, localTime);
      && s.running == Some(true)
      && r.running == Some(false) && r.metered == []
      && |r.jobs| == |s.jobs| + 1 && r.jobs[..|s.jobs|] == s.jobs
      && var job := r.jobs[|s.jobs|];
         && job.started == s.started && job.finished == Seconds(now) == r.finished
         && job.runtime == job.started - job.finished
         && job.total == JobTotal(AddSample(s.total, h))
         && job.startedDateTime == GetDateTime(Some(s.started * 1000), localTime)
         && job.finishedDateTime == GetDateTime(Some(now), localTime) == r.finishedDateTime
         && r.started == s.started
  {
    var r := Step(s, cfg, h, now, localTime);
    assert r.jobs[..|s.jobs|] == s.jobs;
  }

  /** A reading that neither starts nor finishes a run leaves the running
      state, the start and finish fields and the job list as they were. */
  lemma StepStay(s: Status, cfg: Option<DeviceConfig>, h: int, now: int, localTime: int -> DateParts)
    requires TransitionOf(s, cfg, h) == Stay
    ensures var r := Step(s, cfg, h, now, localTime);
      && r.running == s.running && r.started == s.started && r.startedDateTime == s.startedDateTime
      && r.finished == s.finished && r.finishedDateTime == s.finishedDateTime && r.jobs == s.jobs
  {
  }

  /** While running, readings above the threshold change neither the start
      time nor the job list, and do not notify. */
  lemma StepStaysRunning(s: Status, cfg: Option<DeviceConfig>, h: int, now: int, localTime: int -> DateParts, tpl: Templates)
    requires Admitted(s, cfg) && s.running == Some(true) && cfg.value.threshold.Some?
    requires Average(Slide(s.metered, h)) as real > cfg.value.threshold.value
    ensures var r := Step(s, cfg, h, now, localTime);
      && r.running == Some(true) && r.started == s.started
      && r.startedDateTime == s.startedDateTime && r.jobs == s.jobs
      && Notices(cfg.value, tpl, TransitionOf(s, cfg, h)) == []
  {
  }

  /** A finished job runs backwards: when the clock did not go back, its
      runtime is never positive. */
  lemma JobRuntimeNotPositive(s: Status, cfg: Option<DeviceConfig>, h: int, now: int, localTime: int -> DateParts)
    requires TransitionOf(s, cfg, h) == Finish
    requires s.started <= Seconds(now)
    ensures var r := Step(s, cfg, h, now, localTime);
      && |r.jobs| == |s.jobs| + 1
      && r.jobs[|s.jobs|].runtime == -(Seconds(now) - s.started)
      && r.jobs[|s.jobs|].runtime <= 0
  {
    StepFinish(s, cfg, h, now, localTime);
  }

  /** `Math.round(ms / 1000)` is the nearest second, halves rounded up. */
  lemma SecondsNearest(ms: int)
    ensures 1000 * Seconds(ms) - 500 <= ms < 1000 * Seconds(ms) + 500
  {
  }

  /** A transition notifies only configured targets whose text for that
      transition is not empty, and each such target, with at most two
      notices in all. An Alexa notice speaks to the device's own Echo; a
      Telegram message goes to everybody when the target is 'ALL' and
      otherwise to the named user. */
  lemma NoticesGuard(c: DeviceConfig, tpl: Templates, t: Transition)
    ensures t == Stay ==> Notices(c, tpl, t) == []
    ensures t == Start ==>
      (Speak(c.alexa.GetOr("")) in Notices(c, tpl, t) <==> Configured(c.alexa) && tpl.alexaStarted != "")
    ensures t == Finish ==>
      (Speak(c.alexa.GetOr("")) in Notices(c, tpl, t) <==> Configured(c.alexa) && tpl.alexaFinished != "")
    ensures t != Stay ==>
      ((exists n :: n in Notices(c, tpl, t) && n.Telegram?) <==>
       Configured(c.telegram) && (if t == Start then tpl.telegramStarted else tpl.telegramFinished) != "")
    ensures forall n :: n in Notices(c, tpl, t) && n.Telegram? ==>
      Configured(c.telegram) && (n.user.None? <==> c.telegram.value == "ALL")
      && (n.user.Some? ==> n.user.value == c.telegram.value)
    ensures forall n :: n in Notices(c, tpl, t) && n.Speak? ==>
      Configured(c.alexa) && n.echo == c.alexa.value
    ensures |Notices(c, tpl, t)| <= 2
  {
    if t != Stay {
      NoticesParts(c, tpl, t);
      SpeakGuard(c, tpl, t);
      TelegramGuard(c, tpl, t);
    }
  }

  /** The notices of a transition are the spoken one, then the texted one. */
  lemma NoticesParts(c: DeviceConfig, tpl: Templates, t: Transition)
    requires t != Stay
    ensures var spoken := if t == Start then tpl.alexaStarted else tpl.alexaFinished;
      var texted := if t == Start then tpl.telegramStarted else tpl.telegramFinished;
      var u := if c.telegram.Some? && c.telegram.value != "ALL" then Some(c.telegram.value) else None;
      Notices(c, tpl, t)
        == (if Configured(c.alexa) && spoken != "" then [Speak(c.alexa.value)] else [])
           + (if Configured(c.telegram) && texted != "" then [Telegram(u)] else [])
  {
  }

  lemma SpeakGuard(c: DeviceConfig, tpl: Templates, t: Transition)
    requires t != Stay
    ensures var spoken := if t == Start then tpl.alexaStarted else tpl.alexaFinished;
      Speak(c.alexa.GetOr("")) in Notices(c, tpl, t) <==> Configured(c.alexa) && spoken != ""
  {
    NoticesParts(c, tpl, t);
  }

  lemma TelegramGuard(c: DeviceConfig, tpl: Templates, t: Transition)
    requires t != Stay
    ensures var texted := if t == Start then tpl.telegramStarted else tpl.telegramFinished;
      (exists n :: n in Notices(c, tpl, t) && n.Telegram?) <==> Configured(c.telegram) && texted != ""
    ensures forall n :: n in Notices(c, tpl, t) && n.Telegram? ==>
      Configured(c.telegram) && (n.user.None? <==> c.telegram.value == "ALL")
      && (n.user.Some? ==> n.user.value == c.telegram.value)
  {
    NoticesParts(c, tpl, t);
    var texted := if t == Start then tpl.telegramStarted else tpl.telegramFinished;
    if Configured(c.telegram) && texted != "" {
      var n := Telegram(if c.telegram.value != "ALL" then Some(c.telegram.value) else None);
      assert n in Notices(c, tpl, t);
    }
  }

  // ------------------------------------------------------ many readings

  /** A reading and the time it arrived, in milliseconds. */
  datatype Reading = Reading(h: int, now: int)

  /** The handler applied to readings one after another. */
  function Run(s: Status, cfg: Option<DeviceConfig>, readings: seq<Reading>, localTime: int -> DateParts): Status
    decreases |readings|
  {
    if readings == [] then s
    else Run(Step(s, cfg, readings[0].h, readings[0].now, localTime), cfg, readings[1..], localTime)
  }

  /** The window never exceeds its capacity. */
  lemma {:induction false} RunKeepsWindowBound(s: Status, cfg: Option<DeviceConfig>, readings: seq<Reading>, localTime: int -> DateParts)
    requires |s.metered| <= Max
    ensures |Run(s, cfg, readings, localTime).metered| <= Max
    decreases |readings|
  {
    if readings != [] {
      var s' := Step(s, cfg, readings[0].h, readings[0].now, localTime);
      if Admitted(s, cfg) {
        StepMeters(s, cfg, readings[0].h, readings[0].now, localTime);
      }
      RunKeepsWindowBound(s', cfg, readings[1..], localTime);
    }
  }

  /** The job list only grows at its end, by at most one job per reading. */
  lemma {:induction false} RunKeepsJobs(s: Status, cfg: Option<DeviceConfig>, readings: seq<Reading>, localTime: int -> DateParts)
    ensures var jobs := Run(s, cfg, readings, localTime).jobs;
      |s.jobs| <= |jobs| <= |s.jobs| + |readings| && jobs[..|s.jobs|] == s.jobs
    decreases |readings|
  {
    if readings != [] {
      var s' := Step(s, cfg, readings[0].h, readings[0].now, localTime);
      assert |s.jobs| <= |s'.jobs| <= |s.jobs| + 1 && s'.jobs[..|s.jobs|] == s.jobs;
      RunKeepsJobs(s', cfg, readings[1..], localTime);
      var jobs := Run(s, cfg, readings, localTime).jobs;
      assert jobs[..|s'.jobs|][..|s.jobs|] == jobs[..|s.jobs|];
    }
  }

  /** A blank total (NaN, as `createDevice` leaves it) stays blank, so every
      job appended from then on records 0. */
  lemma {:induction false} RunBlankJobsZero(s: Status, cfg: Option<DeviceConfig>, readings: seq<Reading>, localTime: int -> DateParts)
    requires s.total == Blank
    ensures var r := Run(s, cfg, readings, localTime);
      && r.total == Blank
      && |s.jobs| <= |r.jobs|
      && forall k :: |s.jobs| <= k < |r.jobs| ==> r.jobs[k].total == 0
    decreases |readings|
  {
    if readings != [] {
      var s' := Step(s, cfg, readings[0].h, readings[0].now, localTime);
      assert s'.total == Blank;
      assert |s.jobs| <= |s'.jobs| && forall k :: |s.jobs| <= k < |s'.jobs| ==> s'.jobs[k].total == 0;
      RunBlankJobsZero(s', cfg, readings[1..], localTime);
      RunKeepsJobs(s', cfg, readings[1..], localTime);
      var r := Run(s, cfg, readings, localTime);
      forall k | |s.jobs| <= k < |s'.jobs|
        ensures r.jobs[k].total == 0
      {
        assert r.jobs[k] == r.jobs[..|s'.jobs|][k] == s'.jobs[k];
      }
    }
  }

  /** A device that is not active ignores every reading. */
  lemma {:induction false} RunInactive(s: Status, cfg: Option<DeviceConfig>, readings: seq<Reading>, localTime: int -> DateParts)
    requires cfg.Some? && !cfg.value.active
    ensures Run(s, cfg, readings, localTime) == s
    decreases |readings|
  {
    if readings != [] {
      RunInactive(s, cfg, readings[1..], localTime);
    }
  }

  /** The averages of the windows the scenario below produces: 5.5 rounds
      up to 6. */
  lemma ScenarioAverages()
    ensures Average([200]) == 2
    ensures Average([200, 900]) == 6
    ensures Average([200, 900, 100]) == 4
    ensures Average([100]) == 1
  {
    NonZeroKeepsNonZero([200]);
    NonZeroKeepsNonZero([200, 900]);
    NonZeroKeepsNonZero([200, 900, 100]);
    NonZeroKeepsNonZero([100]);
    assert [200, 900, 100][..2] == [200, 900];
    assert [200, 900][..1] == [200];
    assert TruncSum([200, 900]) == 11;
    assert TruncSum([200, 900, 100]) == 12;
  }

  /** The device of the scenario: threshold 5, no notification targets. */
  function Washer(): DeviceConfig {
    DeviceConfig(None, "Washer", "plug.0.power", Some(5.0), true, None, None)
  }

  /** The first reading, 2, leaves a new device idle. */
  lemma ScenarioIdle(s: Status, localTime: int -> DateParts)
    requires s.running == Some(false) && s.metered == [] && s.jobs == []
    ensures var r := Step(s, Some(Washer()), 200, 10000, localTime);
      r.running == Some(false) && r.metered == [200] && r.jobs == []
  {
    ScenarioAverages();
    assert Slide(s.metered, 200) == [200];
    assert TransitionOf(s, Some(Washer()), 200) == Stay;
  }

  /** The second reading, 9, raises the average to 6 and starts a run. */
  lemma ScenarioStart(s: Status, localTime: int -> DateParts)
    requires s.running == Some(false) && s.metered == [200] && s.jobs == []
    ensures var r := Step(s, Some(Washer()), 900, 20000, localTime);
      r.running == Some(true) && r.metered == [200, 900] && r.started == 20 && r.jobs == []
  {
    var cfg := Some(Washer());
    assert Slide(s.metered, 900) == [200, 900];
    assert Average([200, 900]) == 6 by { ScenarioAverages(); }
    assert Decide(false, 6, Some(5.0)) == Start;
    assert TransitionOf(s, cfg, 900) == Start;
    assert Seconds(20000) == 20;
  }

  /** The third reading, 1, lowers the average to 4 and finishes the run. */
  lemma ScenarioFinish(s: Status, localTime: int -> DateParts)
    requires s.running == Some(true) && s.metered == [200, 900] && s.started == 20 && s.jobs == []
    ensures var r := Step(s, Some(Washer()), 100, 30000, localTime);
      && r.running == Some(false) && r.metered == [] && |r.jobs| == 1
      && r.jobs[0].started == 20 && r.jobs[0].finished == 30 && r.jobs[0].runtime == -10
  {
    var cfg := Some(Washer());
    assert Slide(s.metered, 100) == [200, 900, 100];
    assert Average([200, 900, 100]) == 4 by { ScenarioAverages(); }
    assert Decide(true, 4, Some(5.0)) == Finish;
    assert TransitionOf(s, cfg, 100) == Finish;
    assert Seconds(30000) == 30;
  }

  /** The fourth reading, 1, starts a new window and keeps the device idle. */
  lemma ScenarioAfter(s: Status, localTime: int -> DateParts)
    requires s.running == Some(false) && s.metered == []
    ensures var r := Step(s, Some(Washer()), 100, 40000, localTime);
      r.running == Some(false) && r.metered == [100] && r.average == 1 && r.jobs == s.jobs
  {
    ScenarioAverages();
    assert Slide(s.metered, 100) == [100];
    assert TransitionOf(s, Some(Washer()), 100) == Stay;
  }

  /** Threshold 5 and readings 2, 9, 1, 1 (one each ten seconds) on a new
      device: the averages are 2, 6, 4 and 1, so the device starts at the
      second reading (5.5 rounds up to 6) and finishes at the third, with one
      job whose runtime is the start minus the end. */
  lemma Scenario(localTime: int -> DateParts)
    ensures var r := Run(Created(), Some(Washer()),
                         [Reading(200, 10000), Reading(900, 20000), Reading(100, 30000), Reading(100, 40000)],
                         localTime);
      && r.running == Some(false) && r.metered == [100] && r.average == 1
      && |r.jobs| == 1 && r.jobs[0].started == 20 && r.jobs[0].finished == 30
      && r.jobs[0].runtime == -10
  {
    var cfg := Some(Washer());
    var rs := [Reading(200, 10000), Reading(900, 20000), Reading(100, 30000), Reading(100, 40000)];
    var s0 := Created();
    var s1 := Step(s0, cfg, 200, 10000, localTime);
    ScenarioIdle(s0, localTime);
    var s2 := Step(s1, cfg, 900, 20000, localTime);
    ScenarioStart(s1, localTime);
    var s3 := Step(s2, cfg, 100, 30000, localTime);
    ScenarioFinish(s2, localTime);
    var s4 := Step(s3, cfg, 100, 40000, localTime);
    ScenarioAfter(s3, localTime);
    RunFour(s0, cfg, rs, localTime);
  }

  /** Four readings, one after another. */
  lemma RunFour(s: Status, cfg: Option<DeviceConfig>, rs: seq<Reading>, localTime: int -> DateParts)
    requires |rs| == 4
    ensures Run(s, cfg, rs, localTime)
      == Step(Step(Step(Step(s, cfg, rs[0].h, rs[0].now, localTime), cfg, rs[1].h, rs[1].now, localTime),
                   cfg, rs[2].h, rs[2].now, localTime), cfg, rs[3].h, rs[3].now, localTime)
  {
    var s1 := Step(s, cfg, rs[0].h, rs[0].now, localTime);
    var s2 := Step(s1, cfg, rs[1].h, rs[1].now, localTime);
    var s3 := Step(s2, cfg, rs[2].h, rs[2].now, localTime);
    var s4 := Step(s3, cfg, rs[3].h, rs[3].now, localTime);
    var r1, r2, r3 := rs[1..], rs[1..][1..], rs[1..][1..][1..];
    assert r1[0] == rs[1] && r2[0] == rs[2] && r3[0] == rs[3] && r3[1..] == [];
    assert Run(s3, cfg, r3, localTime) == s4;
    assert Run(s2, cfg, r2, localTime) == s4;
    assert Run(s1, cfg, r1, localTime) == s4;
  }
}
