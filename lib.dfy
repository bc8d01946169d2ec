/** The speaker/microphone library on top of the ALSA binding: hardware
    parameter negotiation (`set_settings`), the playback engine (`Speaker`:
    refill arithmetic, generator fill, write with underrun recovery) and the
    capture side (`Microphone`).

    Every driver call goes through an abstract `Driver` whose replies are an
    oracle. A panic (`unwrap` on an `Err`, `assert_eq!`, `panic!`) ends the
    operation with a `Fatal` outcome; nothing after it runs. The host's
    endianness is a parameter. Integer arithmetic is that of a 64-bit
    release build: `i64` subtraction wraps and `as usize` reinterprets. */
module AdiSpeaker {
  import opened Alsa
  import opened AlsaError
  import opened AlsaDriver

  const HZ_48K: nat := 48000

  /** The error code `recover` is told about: EPIPE, an underrun. */
  const UNDERRUN_CODE: int := 32

  type U16 = x: int | 0 <= x < 0x1_0000

  /** 2^64: one more than the largest `usize`. */
  const USIZE_LIMIT: int := 0x1_0000_0000_0000_0000

  datatype Endian = Little | Big

  /** `if stereo { 2 } else { 1 }`. */
  function Channels(stereo: bool): (n: nat)
    ensures n == 1 || n == 2
    ensures stereo <==> n == 2
  {
    if stereo then 2 else 1
  }

  /** The ALSA sample format codes: S16_LE is 2, S16_BE is 3. */
  function FormatCode(e: Endian): (f: nat)
    ensures f == 2 || f == 3
    ensures e == Little <==> f == 2
  {
    match e
    case Little => 2
    case Big => 3
  }

  // -------------------------------------------------------------------
  // Hardware parameter negotiation

  /** The calls `set_settings` makes, in order, and how each reply is
      treated: every call is unwrapped, the rate read back must equal
      48000, and the parameter object is freed last. */
  function SettingsPlan(stereo: bool, endian: Endian): Plan {
    Then(Must(HwAny),
    Then(Must(HwSetChannels(Channels(stereo))),
    Then(Must(HwSetRate(HZ_48K, Nearest)),
    Then(Expect(HwGetRate, HZ_48K),
    Then(Must(HwSetFormat(FormatCode(endian))),
    Then(Must(HwSetAccess(RWInterleaved)),
    Then(Must(HwApply),
    Then(Ignore(HwFree), Stop))))))))
  }

  /** The eight calls of a negotiation that goes through. */
  function SettingsCalls(stereo: bool, endian: Endian): seq<Call> {
    [HwAny, HwSetChannels(Channels(stereo)), HwSetRate(HZ_48K, Nearest), HwGetRate,
     HwSetFormat(FormatCode(endian)), HwSetAccess(RWInterleaved), HwApply, HwFree]
  }

  /** `set_settings(pcm, stereo)`. */
  method SetSettings(d: Driver, stereo: bool, endian: Endian) returns (o: Outcome)
    modifies d
    ensures var t := Exec(d.answer, Run(old(d.log), [], Completed), SettingsPlan(stereo, endian));
      d.log == t.log && o == t.outcome
  {
    ghost var ans, p := d.answer, SettingsPlan(stereo, endian);
    ghost var s := Run(d.log, [], Completed);
    var r := d.Request(HwAny);
    ExecThen(ans, s, p);
    s, p := Next(ans, s, p.step), p.rest;
    if r.Err? {
      ExecFatal(ans, s, p);
      return Fatal(Unwrap(r.error));
    }
    r := d.Request(HwSetChannels(if stereo then 2 else 1));
    ExecThen(ans, s, p);
    s, p := Next(ans, s, p.step), p.rest;
    if r.Err? {
      ExecFatal(ans, s, p);
      return Fatal(Unwrap(r.error));
    }
    r := d.Request(HwSetRate(HZ_48K, Nearest));
    ExecThen(ans, s, p);
    s, p := Next(ans, s, p.step), p.rest;
    if r.Err? {
      ExecFatal(ans, s, p);
      return Fatal(Unwrap(r.error));
    }
    r := d.Request(HwGetRate);
    ExecThen(ans, s, p);
    s, p := Next(ans, s, p.step), p.rest;
    if r.Err? {
      ExecFatal(ans, s, p);
      return Fatal(Unwrap(r.error));
    }
    if r.value != HZ_48K {
      ExecFatal(ans, s, p);
      return Fatal(AssertEq(r.value, HZ_48K));
    }
    var format := if endian == Little then 2 else 3;
    r := d.Request(HwSetFormat(format));
    ExecThen(ans, s, p);
    s, p := Next(ans, s, p.step), p.rest;
    if r.Err? {
      ExecFatal(ans, s, p);
      return Fatal(Unwrap(r.error));
    }
    r := d.Request(HwSetAccess(RWInterleaved));
    ExecThen(ans, s, p);
    s, p := Next(ans, s, p.step), p.rest;
    if r.Err? {
      ExecFatal(ans, s, p);
      return Fatal(Unwrap(r.error));
    }
    r := d.Request(HwApply);
    ExecThen(ans, s, p);
    s, p := Next(ans, s, p.step), p.rest;
    if r.Err? {
      ExecFatal(ans, s, p);
      return Fatal(Unwrap(r.error));
    }
    r := d.Request(HwFree);
    ExecThen(ans, s, p);
    o := Completed;
  }

  /** The plan's calls are the eight calls, one level at a time. */
  lemma SettingsPlanCalls(stereo: bool, endian: Endian)
    ensures Calls(SettingsPlan(stereo, endian)) == SettingsCalls(stereo, endian)
  {
    var p := SettingsPlan(stereo, endian);
    var p1 := p.rest; var p2 := p1.rest; var p3 := p2.rest; var p4 := p3.rest;
    var p5 := p4.rest; var p6 := p5.rest; var p7 := p6.rest;
    var cs := SettingsCalls(stereo, endian);
    assert Calls(p7) == cs[7..];
    assert Calls(p6) == cs[6..];
    assert Calls(p5) == cs[5..];
    assert Calls(p4) == cs[4..];
    assert Calls(p3) == cs[3..];
    assert Calls(p2) == cs[2..];
    assert Calls(p1) == cs[1..];
  }

  /** The steps of `SettingsPlan`, as a list. */
  function SettingsSteps(stereo: bool, endian: Endian): seq<Step> {
    [Must(HwAny), Must(HwSetChannels(Channels(stereo))), Must(HwSetRate(HZ_48K, Nearest)),
     Expect(HwGetRate, HZ_48K), Must(HwSetFormat(FormatCode(endian))), Must(HwSetAccess(RWInterleaved)),
     Must(HwApply), Ignore(HwFree)]
  }

  lemma SettingsPlanSteps(stereo: bool, endian: Endian)
    ensures Steps(SettingsPlan(stereo, endian)) == SettingsSteps(stereo, endian)
  {
    var p := SettingsPlan(stereo, endian);
    var p1 := p.rest; var p2 := p1.rest; var p3 := p2.rest; var p4 := p3.rest;
    var p5 := p4.rest; var p6 := p5.rest; var p7 := p6.rest;
    var ss := SettingsSteps(stereo, endian);
    assert Steps(p7) == ss[7..];
    assert Steps(p6) == ss[6..];
    assert Steps(p5) == ss[5..];
    assert Steps(p4) == ss[4..];
    assert Steps(p3) == ss[3..];
    assert Steps(p2) == ss[2..];
    assert Steps(p1) == ss[1..];
  }

  /** The free is the last of the eight calls and appears nowhere else. */
  lemma SettingsFreeLast(stereo: bool, endian: Endian)
    ensures HwFree !in SettingsCalls(stereo, endian)[..7]
  {
  }

  lemma SettingsFreeOnce(stereo: bool, endian: Endian)
    ensures multiset(SettingsCalls(stereo, endian))[HwFree] == 1
  {
    var cs := SettingsCalls(stereo, endian);
    SettingsFreeLast(stereo, endian);
    assert cs == cs[..7] + [HwFree];
  }

  /** A negotiation that goes through issues exactly the eight calls in
      order and frees the parameter object exactly once. */
  lemma SettingsCompletedLog(ans: Answer, h: seq<Call>, stereo: bool, endian: Endian)
    requires Exec(ans, Run(h, [], Completed), SettingsPlan(stereo, endian)).outcome.Completed?
    ensures var t := Exec(ans, Run(h, [], Completed), SettingsPlan(stereo, endian));
      && t.log == h + SettingsCalls(stereo, endian)
      && multiset(t.log[|h|..])[HwFree] == 1
  {
    var p := SettingsPlan(stereo, endian);
    var s := Run(h, [], Completed);
    ExecCompletedLog(ans, s, p);
    SettingsPlanCalls(stereo, endian);
    SettingsFreeOnce(stereo, endian);
    var t := Exec(ans, s, p);
    assert t.log[|h|..] == SettingsCalls(stereo, endian);
  }

  /** A negotiation that goes through received eight replies, and the rate
      it read back was 48000. */
  lemma SettingsRateChecked(ans: Answer, h: seq<Call>, stereo: bool, endian: Endian)
    requires Exec(ans, Run(h, [], Completed), SettingsPlan(stereo, endian)).outcome.Completed?
    ensures var t := Exec(ans, Run(h, [], Completed), SettingsPlan(stereo, endian));
      |t.replies| == 8 && t.replies[3] == Ok(HZ_48K)
  {
    var p := SettingsPlan(stereo, endian);
    var s := Run(h, [], Completed);
    ExecCompletedLog(ans, s, p);
    SettingsPlanSteps(stereo, endian);
    ExecStepPassed(ans, s, p, 3);
  }

  /** A negotiation that panics does so on one of its first seven steps:
      the free's reply is the only one not checked. */
  lemma SettingsFatalEarly(ans: Answer, h: seq<Call>, stereo: bool, endian: Endian)
    requires Exec(ans, Run(h, [], Completed), SettingsPlan(stereo, endian)).outcome.Fatal?
    ensures var t := Exec(ans, Run(h, [], Completed), SettingsPlan(stereo, endian));
      |h| < |t.log| < |h| + 8 && t.log == h + Calls(SettingsPlan(stereo, endian))[..|t.log| - |h|]
  {
    ExecFatalLog(ans, Run(h, [], Completed), SettingsPlan(stereo, endian));
    SettingsPlanSteps(stereo, endian);
  }

  /** A negotiation that panics stops before the parameter object is freed:
      its calls are a proper, non-empty prefix of the eight, none of them a
      free. */
  lemma SettingsFatal(ans: Answer, h: seq<Call>, stereo: bool, endian: Endian)
    requires Exec(ans, Run(h, [], Completed), SettingsPlan(stereo, endian)).outcome.Fatal?
    ensures var t := Exec(ans, Run(h, [], Completed), SettingsPlan(stereo, endian));
      && |h| < |t.log| < |h| + 8
      && t.log == h + SettingsCalls(stereo, endian)[..|t.log| - |h|]
      && HwFree !in t.log[|h|..]
  {
    SettingsFatalEarly(ans, h, stereo, endian);
    SettingsPlanCalls(stereo, endian);
    SettingsFreeLast(stereo, endian);
    var t := Exec(ans, Run(h, [], Completed), SettingsPlan(stereo, endian));
    PrefixAvoids(h, t.log, SettingsCalls(stereo, endian), |t.log| - |h|, 7, HwFree);
  }

  /** A log extended by a prefix of at most `n` of `cs` holds, after `h`,
      nothing outside `cs[..n]`. */
  lemma PrefixAvoids(h: seq<Call>, log: seq<Call>, cs: seq<Call>, k: nat, n: nat, x: Call)
    requires k <= n <= |cs| && log == h + cs[..k] && x !in cs[..n]
    ensures x !in log[|h|..]
  {
    assert log[|h|..] == cs[..k] == cs[..n][..k];
  }

  // -------------------------------------------------------------------
  // Refill arithmetic

  /** `x as usize` for an `i64`: a negative value is reinterpreted. */
  function AsUsize(x: I64): (u: nat)
    ensures u < USIZE_LIMIT
    ensures x >= 0 ==> u == x
    ensures x < 0 ==> u == x + USIZE_LIMIT
  {
    if x < 0 then x + USIZE_LIMIT else x
  }

  /** `left`'s value: the stored buffer size minus the frames the hardware
      reports as available, with `i64` wrap-around. */
  function Outstanding(size: Count, avail: I64): (l: I64)
    ensures Fits(Int64, size - avail) ==> l == size - avail
    ensures avail >= 0 ==> l == size - avail
  {
    Wrap(Int64, size - avail)
  }

  /** `update`'s refill count for a scratch buffer of `len` samples. */
  function RefillCount(len: nat, left: I64): (w: nat)
    ensures w <= len
    ensures 0 <= left < len ==> w == len - left && left + w == len
    ensures left >= len ==> w == 0
    ensures left < 0 && len <= USIZE_LIMIT / 2 ==> w == 0
  {
    var u := AsUsize(left);
    if u < len then len - u else 0
  }

  /** A driver that reports more space available than the stored buffer
      size yields a negative `left`, which wraps on the cast: nothing is
      refilled. */
  lemma OverfullRefillsNothing(len: nat, size: Count, avail: I64)
    requires size < avail && len <= USIZE_LIMIT / 2
    ensures Outstanding(size, avail) < 0
    ensures RefillCount(len, Outstanding(size, avail)) == 0
  {
  }

  // -------------------------------------------------------------------
  // Writing a buffer

  /** `unwrap_or_else(|_| 0)` / `unwrap_or(0)` on a count. */
  function CountOrZero(r: Result<Count>): (n: nat)
    ensures r.Ok? ==> n == r.value
    ensures r.Err? ==> n == 0
  {
    if r.Ok? then r.value else 0
  }

  /** What `push(buffer)` does from history `h`: write once; when fewer than
      `|buf|` were reported written (an error counts as 0), recover from
      an underrun and write the same buffer once more. */
  function PushRun(ans: Answer, h: seq<Call>, buf: seq<I16>): Run {
    var w1 := ans(h, Writei(buf));
    var h1 := h + [Writei(buf)];
    if CountOrZero(w1) == |buf| then Run(h1, [w1], Completed)
    else
      var rc := ans(h1, Recover(UNDERRUN_CODE, true));
      var h2 := h1 + [Recover(UNDERRUN_CODE, true)];
      if rc.Err? then Run(h2, [w1, rc], Fatal(RecoverFailed(rc.error)))
      else
        var w2 := ans(h2, Writei(buf));
        Run(h2 + [Writei(buf)], [w1, rc, w2],
          if CountOrZero(w2) == |buf| then Completed else Fatal(DoubleUnderrun))
  }

  /** A first write that is reported complete is the only call. */
  lemma PushFullWrite(ans: Answer, h: seq<Call>, buf: seq<I16>)
    requires CountOrZero(ans(h, Writei(buf))) == |buf|
    ensures PushRun(ans, h, buf).log == h + [Writei(buf)]
    ensures PushRun(ans, h, buf).outcome == Completed
  {
  }

  /** A short first write (an error included) is followed by exactly one
      `recover(32, true)`; if that fails the thread panics with its error,
      otherwise the identical buffer is written exactly once more and a
      second short write panics. */
  lemma PushShortWrite(ans: Answer, h: seq<Call>, buf: seq<I16>)
    requires CountOrZero(ans(h, Writei(buf))) != |buf|
    ensures var t := PushRun(ans, h, buf);
      var h2 := h + [Writei(buf), Recover(UNDERRUN_CODE, true)];
      var rc := ans(h2[..|h| + 1], Recover(UNDERRUN_CODE, true));
      && (rc.Err? ==> t.log == h2 && t.outcome == Fatal(RecoverFailed(rc.error)))
      && (rc.Ok? ==>
            && t.log == h2 + [Writei(buf)]
            && (t.outcome == Completed <==> CountOrZero(ans(h2, Writei(buf))) == |buf|)
            && (t.outcome.Fatal? ==> t.outcome.panic == DoubleUnderrun))
  {
    var h2 := h + [Writei(buf), Recover(UNDERRUN_CODE, true)];
    assert h2[..|h| + 1] == h + [Writei(buf)];
    assert h + [Writei(buf)] + [Recover(UNDERRUN_CODE, true)] == h2;
  }

  /** The calls `push` issues after `h`: one write when it is complete,
      otherwise write and recover, followed by the retry unless the
      recovery failed. */
  lemma PushLog(ans: Answer, h: seq<Call>, buf: seq<I16>)
    ensures var t := PushRun(ans, h, buf);
      var w, r := Writei(buf), Recover(UNDERRUN_CODE, true);
      && |h| <= |t.log| && t.log[..|h|] == h
      && (CountOrZero(ans(h, w)) == |buf| ==> t.log[|h|..] == [w])
      && (CountOrZero(ans(h, w)) != |buf| && ans(h + [w], r).Err? ==> t.log[|h|..] == [w, r])
      && (CountOrZero(ans(h, w)) != |buf| && ans(h + [w], r).Ok? ==> t.log[|h|..] == [w, r, w])
  {
  }

  /** Whatever the driver answers, `push` writes only the buffer it was
      given, at most twice, and recovers at most once, exactly when the
      first write was short. */
  lemma PushCallCounts(ans: Answer, h: seq<Call>, buf: seq<I16>)
    ensures var t := PushRun(ans, h, buf);
      var calls := t.log[|h|..];
      && t.log[..|h|] == h
      && (forall c :: c in calls ==> c == Writei(buf) || c == Recover(UNDERRUN_CODE, true))
      && 1 <= multiset(calls)[Writei(buf)] <= 2
      && (multiset(calls)[Recover(UNDERRUN_CODE, true)] == 1 <==> CountOrZero(ans(h, Writei(buf))) != |buf|)
      && multiset(calls)[Recover(UNDERRUN_CODE, true)] <= 1
  {
    var t := PushRun(ans, h, buf);
    var w, r := Writei(buf), Recover(UNDERRUN_CODE, true);
    PushLog(ans, h, buf);
    WriteRecoverCounts(t.log[|h|..], w, r);
  }

  /** Counting in the three call lists `push` can issue. */
  lemma WriteRecoverCounts(calls: seq<Call>, w: Call, r: Call)
    requires w.Writei? && r.Recover?
    requires calls == [w] || calls == [w, r] || calls == [w, r, w]
    ensures forall c :: c in calls ==> c == w || c == r
    ensures 1 <= multiset(calls)[w] <= 2
    ensures multiset(calls)[r] == 1 <==> calls != [w]
    ensures multiset(calls)[r] <= 1
  {
    if calls == [w] {
      assert multiset(calls) == multiset{w};
    } else if calls == [w, r] {
      assert multiset(calls) == multiset{w, r};
    } else {
      assert multiset(calls) == multiset{w, w, r};
    }
  }

  /** `push` completes exactly when the first write is complete, or the
      recovery succeeds and the retry is complete. */
  lemma PushCompletedIff(ans: Answer, h: seq<Call>, buf: seq<I16>)
    ensures var h1 := h + [Writei(buf)];
      var h2 := h1 + [Recover(UNDERRUN_CODE, true)];
      PushRun(ans, h, buf).outcome == Completed <==>
        || CountOrZero(ans(h, Writei(buf))) == |buf|
        || (ans(h1, Recover(UNDERRUN_CODE, true)).Ok? && CountOrZero(ans(h2, Writei(buf))) == |buf|)
  {
  }

  /** `push` compares the driver's count with the number of samples. On a
      stereo stream a driver that counts frames reports half of that for a
      complete write, so that two complete writes end in the double-underrun
      panic. */
  lemma PushStereoFrameCount(ans: Answer, h: seq<Call>, buf: seq<I16>)
    requires |buf| > 0 && |buf| % 2 == 0
    requires ans(h, Writei(buf)) == Ok(|buf| / 2)
    requires ans(h + [Writei(buf)], Recover(UNDERRUN_CODE, true)).Ok?
    requires ans(h + [Writei(buf)] + [Recover(UNDERRUN_CODE, true)], Writei(buf)) == Ok(|buf| / 2)
    ensures PushRun(ans, h, buf).outcome == Fatal(DoubleUnderrun)
    ensures multiset(PushRun(ans, h, buf).log[|h|..])[Writei(buf)] == 2
  {
    var w, r := Writei(buf), Recover(UNDERRUN_CODE, true);
    assert PushRun(ans, h, buf).log[|h|..] == [w, r, w];
    assert multiset([w, r, w]) == multiset{w, w, r};
  }

  // -------------------------------------------------------------------
  // The generator closure

  /** `&mut FnMut() -> i16`: its k-th call (from 0) yields `next(k)`. */
  class Generator {
    const next: nat -> I16
    var calls: nat

    constructor (next: nat -> I16)
      ensures this.next == next && calls == 0
    {
      this.next := next;
      calls := 0;
    }

    method Call() returns (x: I16)
      modifies this
      ensures calls == old(calls) + 1
      ensures x == next(old(calls))
    {
      x := next(calls);
      calls := calls + 1;
    }
  }

  // -------------------------------------------------------------------
  // Playback

  /** The block of `Speaker::new` that reads the configuration back:
      the current parameters, the buffer size and the period size (both
      kept), channels and rate (only printed, but unwrapped), then the free
      of the parameter object. */
  function SpeakerQueryPlan(): Plan {
    Then(Must(HwCurrent),
    Then(Must(HwGetBufferSize),
    Then(Must(HwGetPeriodSize),
    Then(Must(HwGetChannels),
    Then(Must(HwGetRate),
    Then(Ignore(HwFree), Stop))))))
  }

  /** The block of `Speaker::new` that builds the device: open the default
      device for playback, negotiate, read the configuration back. */
  function SpeakerConnectPlan(stereo: bool, endian: Endian): Plan {
    Append(Then(Must(Open("default", Playback)), Stop),
      Append(SettingsPlan(stereo, endian), SpeakerQueryPlan()))
  }

  /** Everything `Speaker::new(0, stereo)` issues: the device is built,
      then prepared (the result of `prepare` is discarded). */
  function SpeakerPlan(stereo: bool, endian: Endian): Plan {
    Append(SpeakerConnectPlan(stereo, endian), Then(Ignore(Prepare), Stop))
  }

  /** The calls of the configuration read-back of `Speaker::new`. */
  function SpeakerQueryCalls(): seq<Call> {
    [HwCurrent, HwGetBufferSize, HwGetPeriodSize, HwGetChannels, HwGetRate, HwFree]
  }

  lemma SpeakerQueryPlanCalls()
    ensures Calls(SpeakerQueryPlan()) == SpeakerQueryCalls()
  {
    var p := SpeakerQueryPlan();
    var cs := SpeakerQueryCalls();
    assert Calls(p.rest.rest.rest.rest.rest) == cs[5..];
    assert Calls(p.rest.rest.rest.rest) == cs[4..];
    assert Calls(p.rest.rest.rest) == cs[3..];
    assert Calls(p.rest.rest) == cs[2..];
    assert Calls(p.rest) == cs[1..];
  }

  /** The calls of a `Speaker::new(0, stereo)` that goes through, in order:
      the open, the eight negotiation calls, the configuration read-back
      with its own free, and the prepare. */
  function SpeakerCalls(stereo: bool, endian: Endian): seq<Call> {
    [Open("default", Playback)] + (SettingsCalls(stereo, endian) + SpeakerQueryCalls()) + [Prepare]
  }

  lemma SpeakerPlanCalls(stereo: bool, endian: Endian)
    ensures Calls(SpeakerPlan(stereo, endian)) == SpeakerCalls(stereo, endian)
  {
    var open := Then(Must(Open("default", Playback)), Stop);
    var prepare := Then(Ignore(Prepare), Stop);
    var settings, query := SettingsPlan(stereo, endian), SpeakerQueryPlan();
    AppendCalls(SpeakerConnectPlan(stereo, endian), prepare);
    AppendCalls(open, Append(settings, query));
    AppendCalls(settings, query);
    SettingsPlanCalls(stereo, endian);
    SpeakerQueryPlanCalls();
    assert Calls(open) == [Open("default", Playback)];
    assert Calls(prepare) == [Prepare];
  }

  /** A `Speaker::new(0, stereo)` that goes through issues exactly
      `SpeakerCalls`, one reply each. */
  lemma SpeakerCompletedLog(ans: Answer, h: seq<Call>, stereo: bool, endian: Endian)
    requires Exec(ans, Run(h, [], Completed), SpeakerPlan(stereo, endian)).outcome.Completed?
    ensures var t := Exec(ans, Run(h, [], Completed), SpeakerPlan(stereo, endian));
      t.log == h + SpeakerCalls(stereo, endian) && |t.replies| == 16
  {
    ExecCompletedLog(ans, Run(h, [], Completed), SpeakerPlan(stereo, endian));
    SpeakerPlanCalls(stereo, endian);
  }

  /** The buffer-size and period-size queries are calls 10 and 11. */
  lemma SpeakerCallsSizes(stereo: bool, endian: Endian)
    ensures |SpeakerCalls(stereo, endian)| == 16
    ensures SpeakerCalls(stereo, endian)[10] == HwGetBufferSize
    ensures SpeakerCalls(stereo, endian)[11] == HwGetPeriodSize
  {
    var q := SpeakerQueryCalls();
    var m := SettingsCalls(stereo, endian) + q;
    assert m[9] == q[1] && m[10] == q[2];
  }

  /** In a `Speaker::new` that goes through, reply 10 answers the buffer-size
      query and reply 11 the period-size query, each given exactly the calls
      issued before it. */
  lemma SpeakerSizeReplies(ans: Answer, h: seq<Call>, stereo: bool, endian: Endian)
    requires Exec(ans, Run(h, [], Completed), SpeakerPlan(stereo, endian)).outcome.Completed?
    ensures var t := Exec(ans, Run(h, [], Completed), SpeakerPlan(stereo, endian));
      var cs := SpeakerCalls(stereo, endian);
      && |t.replies| == |cs| == 16
      && cs[10] == HwGetBufferSize && cs[11] == HwGetPeriodSize
      && t.replies[10] == ans(h + cs[..10], HwGetBufferSize)
      && t.replies[11] == ans(h + cs[..11], HwGetPeriodSize)
  {
    var p := SpeakerPlan(stereo, endian);
    var s := Run(h, [], Completed);
    SpeakerPlanCalls(stereo, endian);
    SpeakerCallsSizes(stereo, endian);
    ExecCompletedReply(ans, s, p, 10);
    ExecCompletedReply(ans, s, p, 11);
  }

  class Speaker {
    const driver: Driver
    /** `speaker.0`: the negotiated buffer size, in frames. */
    const bufferSize: Count
    /** `speaker_buffer`: the scratch buffer of generated samples. */
    const buffer: array<I16>
    /** Cleared by `drop`. */
    var open: bool

    /** `Self { speaker, speaker_buffer }` with `vec![0i16; latency]`. */
    constructor Init(driver: Driver, bufferSize: Count, latency: nat)
      ensures this.driver == driver && this.bufferSize == bufferSize && open
      ensures fresh(buffer) && buffer.Length == latency
      ensures forall i :: 0 <= i < buffer.Length ==> buffer[i] == 0
    {
      this.driver := driver;
      this.bufferSize := bufferSize;
      buffer := new I16[latency](_ => 0);
      open := true;
    }

    /** `Speaker::new(speaker, stereo)`. Only device 0 exists; any other
        index gives `None` without touching the driver. Otherwise the run
        follows `SpeakerPlan`, and on success the speaker stores the buffer
        size the driver reported (reply 10) and a zero-filled scratch
        buffer of twice the reported period size (reply 11). */
    static method New(d: Driver, index: U16, stereo: bool, endian: Endian) returns (o: Outcome, s: Speaker?)
      modifies d
      ensures index != 0 ==> o == Completed && s == null && d.log == old(d.log)
      ensures index == 0 ==>
        var t := Exec(d.answer, Run(old(d.log), [], Completed), SpeakerPlan(stereo, endian));
        && d.log == t.log && o == t.outcome
        && (s != null <==> o.Completed?)
        && (s != null ==>
              && |t.replies| == 16
              && t.replies[10] == Ok(s.bufferSize)
              && s.buffer.Length % 2 == 0
              && t.replies[11] == Ok(s.buffer.Length / 2))
      ensures s != null ==>
        && fresh(s) && fresh(s.buffer) && s.driver == d && s.open
        && forall i :: 0 <= i < s.buffer.Length ==> s.buffer[i] == 0
    {
      if index != 0 {
        return Completed, null;
      }
      ghost var ans, h0 := d.answer, d.log;
      ghost var prepare := Then(Ignore(Prepare), Stop);
      ExecPhases(ans, h0, SpeakerConnectPlan(stereo, endian), prepare);
      var bs, latency;
      o, bs, latency := Connect(d, stereo, endian);
      if o.Fatal? {
        return o, null;
      }
      ghost var h1 := d.log;
      var _ := d.Request(Prepare);
      ExecThen(ans, Run(h1, [], Completed), prepare);
      s := new Speaker.Init(d, bs, latency);
      ghost var c := Exec(ans, Run(h0, [], Completed), SpeakerConnectPlan(stereo, endian)).replies;
      assert (c + [ans(h1, Prepare)])[10] == c[10] && (c + [ans(h1, Prepare)])[11] == c[11];
    }

    /** The block `let (speaker, speaker_buffer) = { .. }` of `Speaker::new`
        without the allocation: builds the device and yields the buffer
        size (reply 10) and twice the period size (reply 11). */
    static method Connect(d: Driver, stereo: bool, endian: Endian) returns (o: Outcome, bs: Count, latency: nat)
      modifies d
      ensures var t := Exec(d.answer, Run(old(d.log), [], Completed), SpeakerConnectPlan(stereo, endian));
        && d.log == t.log && o == t.outcome
        && (o.Completed? ==>
              && |t.replies| == 15
              && t.replies[10] == Ok(bs)
              && latency % 2 == 0
              && t.replies[11] == Ok(latency / 2))
    {
      ghost var ans, h0 := d.answer, d.log;
      ghost var open := Then(Must(Open("default", Playback)), Stop);
      ExecPhases(ans, h0, open, Append(SettingsPlan(stereo, endian), SpeakerQueryPlan()));
      var r := d.Request(Open("default", Playback));
      if r.Err? {
        return Fatal(Unwrap(r.error)), 0, 0;
      }
      ghost var h1 := d.log;
      o, bs, latency := Configure(d, stereo, endian);
      if o.Fatal? {
        return;
      }
      ghost var c := Exec(ans, Run(h1, [], Completed), Append(SettingsPlan(stereo, endian), SpeakerQueryPlan())).replies;
      assert ([ans(h0, Open("default", Playback))] + c)[10] == c[9];
      assert ([ans(h0, Open("default", Playback))] + c)[11] == c[10];
    }

    /** The device's hardware negotiation followed by the configuration
        read-back: the buffer size is reply 9 and the period size reply 10. */
    static method Configure(d: Driver, stereo: bool, endian: Endian) returns (o: Outcome, bs: Count, latency: nat)
      modifies d
      ensures var t := Exec(d.answer, Run(old(d.log), [], Completed), Append(SettingsPlan(stereo, endian), SpeakerQueryPlan()));
        && d.log == t.log && o == t.outcome
        && (o.Completed? ==>
              && |t.replies| == 14
              && t.replies[9] == Ok(bs)
              && latency % 2 == 0
              && t.replies[10] == Ok(latency / 2))
    {
      ghost var ans, h1 := d.answer, d.log;
      ExecPhases(ans, h1, SettingsPlan(stereo, endian), SpeakerQueryPlan());
      o := SetSettings(d, stereo, endian);
      if o.Fatal? {
        return o, 0, 0;
      }
      SettingsRateChecked(ans, h1, stereo, endian);
      ghost var h2 := d.log;
      o, bs, latency := ReadConfiguration(d);
      if o.Fatal? {
        return;
      }
      ghost var b := Exec(ans, Run(h1, [], Completed), SettingsPlan(stereo, endian)).replies;
      ghost var c := Exec(ans, Run(h2, [], Completed), SpeakerQueryPlan()).replies;
      assert (b + c)[9] == c[1] && (b + c)[10] == c[2];
    }

    /** The configuration block of `Speaker::new`: yields the buffer size
        and the scratch buffer's length, twice the period size (which, being
        below 2^63, does not overflow `usize`). */
    static method ReadConfiguration(d: Driver) returns (o: Outcome, bs: Count, latency: nat)
      modifies d
      ensures var t := Exec(d.answer, Run(old(d.log), [], Completed), SpeakerQueryPlan());
        && d.log == t.log && o == t.outcome
        && (o.Completed? ==>
              && |t.replies| == 6
              && t.replies[1] == Ok(bs)
              && latency % 2 == 0
              && t.replies[2] == Ok(latency / 2))
    {
      ghost var ans, p := d.answer, SpeakerQueryPlan();
      ghost var u := Run(d.log, [], Completed);
      var r := d.Request(HwCurrent);
      ExecThen(ans, u, p);
      u, p := Next(ans, u, p.step), p.rest;
      if r.Err? {
        ExecFatal(ans, u, p);
        return Fatal(Unwrap(r.error)), 0, 0;
      }
      var size := d.Request(HwGetBufferSize);
      ExecThen(ans, u, p);
      u, p := Next(ans, u, p.step), p.rest;
      if size.Err? {
        ExecFatal(ans, u, p);
        return Fatal(Unwrap(size.error)), 0, 0;
      }
      var period := d.Request(HwGetPeriodSize);
      ExecThen(ans, u, p);
      u, p := Next(ans, u, p.step), p.rest;
      if period.Err? {
        ExecFatal(ans, u, p);
        return Fatal(Unwrap(period.error)), 0, 0;
      }
      latency := period.value * 2;
      r := d.Request(HwGetChannels);
      ExecThen(ans, u, p);
      u, p := Next(ans, u, p.step), p.rest;
      if r.Err? {
        ExecFatal(ans, u, p);
        return Fatal(Unwrap(r.error)), 0, 0;
      }
      r := d.Request(HwGetRate);
      ExecThen(ans, u, p);
      u, p := Next(ans, u, p.step), p.rest;
      if r.Err? {
        ExecFatal(ans, u, p);
        return Fatal(Unwrap(r.error)), 0, 0;
      }
      r := d.Request(HwFree);
      ExecThen(ans, u, p);
      o, bs := Completed, size.value;
    }

    /** `left()`: the status query is unwrapped, then the stored buffer
        size minus the reported available space. */
    method Left() returns (o: Outcome, l: I64)
      modifies driver
      ensures var st := driver.answer(old(driver.log), Status);
        && (st.Err? ==> driver.log == old(driver.log) + [Status] && o == Fatal(Unwrap(st.error)))
        && (st.Ok? ==>
              && driver.log == old(driver.log) + [Status] + [GetAvail]
              && o == Completed
              && l == Outstanding(bufferSize, driver.avail(old(driver.log) + [Status])))
    {
      var st := driver.Request(Status);
      if st.Err? {
        return Fatal(Unwrap(st.error)), 0;
      }
      var avail := driver.Available();
      o, l := Completed, Wrap(Int64, bufferSize - avail);
    }

    /** `push(buffer)`. */
    method Push(buf: seq<I16>) returns (o: Outcome)
      modifies driver
      ensures var t := PushRun(driver.answer, old(driver.log), buf);
        driver.log == t.log && o == t.outcome
    {
      var w := driver.Request(Writei(buf));
      if CountOrZero(w) != |buf| {
        var rc := driver.Request(Recover(UNDERRUN_CODE, true));
        if rc.Err? {
          return Fatal(RecoverFailed(rc.error));
        }
        w := driver.Request(Writei(buf));
        if CountOrZero(w) != |buf| {
          return Fatal(DoubleUnderrun);
        }
      }
      o := Completed;
    }

    /** `update(generator)`: tops the scratch buffer up from the generator,
        in order, and pushes the refilled prefix. */
    method Update(gen: Generator) returns (o: Outcome)
      modifies driver, buffer, gen
      ensures var st := driver.answer(old(driver.log), Status);
        st.Err? ==>
          && driver.log == old(driver.log) + [Status] && o == Fatal(Unwrap(st.error))
          && buffer[..] == old(buffer[..]) && gen.calls == old(gen.calls)
      ensures var st := driver.answer(old(driver.log), Status);
        st.Ok? ==>
          var h := old(driver.log) + [Status] + [GetAvail];
          var w := RefillCount(buffer.Length, Outstanding(bufferSize, driver.avail(old(driver.log) + [Status])));
          && gen.calls == old(gen.calls) + w
          && (forall j :: 0 <= j < w ==> buffer[j] == gen.next(old(gen.calls) + j))
          && buffer[w..] == old(buffer[w..])
          && var t := PushRun(driver.answer, h, buffer[..w]);
             driver.log == t.log && o == t.outcome
    {
      var l;
      o, l := Left();
      if o.Fatal? {
        return;
      }
      var u := AsUsize(l);
      var write := if u < buffer.Length then buffer.Length - u else 0;
      ghost var log := driver.log;
      ghost var calls := gen.calls;
      for i := 0 to write
        invariant driver.log == log
        invariant gen.calls == calls + i
        invariant forall j :: 0 <= j < i ==> buffer[j] == gen.next(calls + j)
        invariant buffer[i..] == old(buffer[i..])
      {
        var x := gen.Call();
        buffer[i] := x;
      }
      o := Push(buffer[..write]);
    }

    /** `drop`: the device is closed once. */
    method Drop()
      requires open
      modifies this, driver
      ensures !open && driver.log == old(driver.log) + [Close]
    {
      var _ := driver.Request(Close);
      open := false;
    }
  }

  // -------------------------------------------------------------------
  // Capture

  /** The block of `Microphone::new` that reads the configuration back:
      the current parameters, channels and rate (only printed, but
      unwrapped), then the free of the parameter object. */
  function MicrophoneQueryPlan(): Plan {
    Then(Must(HwCurrent),
    Then(Must(HwGetChannels),
    Then(Must(HwGetRate),
    Then(Ignore(HwFree), Stop))))
  }

  /** Everything `Microphone::new(0, stereo)` issues: open the capture
      device, negotiate, read the configuration back, start (whose result
      is discarded). */
  function MicrophonePlan(stereo: bool, endian: Endian): Plan {
    Append(Then(Must(Open("plughw:0,0", Capture)), Stop),
      Append(SettingsPlan(stereo, endian), Append(MicrophoneQueryPlan(), Then(Ignore(Start), Stop))))
  }

  /** The calls of the configuration read-back of `Microphone::new`. */
  function MicrophoneQueryCalls(): seq<Call> {
    [HwCurrent, HwGetChannels, HwGetRate, HwFree]
  }

  lemma MicrophoneQueryPlanCalls()
    ensures Calls(MicrophoneQueryPlan()) == MicrophoneQueryCalls()
  {
    var p := MicrophoneQueryPlan();
    var cs := MicrophoneQueryCalls();
    assert Calls(p.rest.rest.rest) == cs[3..];
    assert Calls(p.rest.rest) == cs[2..];
    assert Calls(p.rest) == cs[1..];
  }

  /** The calls of a `Microphone::new(0, stereo)` that goes through, in
      order: the open, the eight negotiation calls, the configuration
      read-back with its own free, and the start. */
  function MicrophoneCalls(stereo: bool, endian: Endian): seq<Call> {
    [Open("plughw:0,0", Capture)] + (SettingsCalls(stereo, endian) + (MicrophoneQueryCalls() + [Start]))
  }

  lemma MicrophonePlanCalls(stereo: bool, endian: Endian)
    ensures Calls(MicrophonePlan(stereo, endian)) == MicrophoneCalls(stereo, endian)
  {
    var open := Then(Must(Open("plughw:0,0", Capture)), Stop);
    var start := Then(Ignore(Start), Stop);
    var settings, query := SettingsPlan(stereo, endian), MicrophoneQueryPlan();
    AppendCalls(open, Append(settings, Append(query, start)));
    AppendCalls(settings, Append(query, start));
    AppendCalls(query, start);
    SettingsPlanCalls(stereo, endian);
    MicrophoneQueryPlanCalls();
    assert Calls(open) == [Open("plughw:0,0", Capture)];
    assert Calls(start) == [Start];
  }

  /** A `Microphone::new(0, stereo)` that goes through issues exactly
      `MicrophoneCalls`, one reply each. */
  lemma MicrophoneCompletedLog(ans: Answer, h: seq<Call>, stereo: bool, endian: Endian)
    requires Exec(ans, Run(h, [], Completed), MicrophonePlan(stereo, endian)).outcome.Completed?
    ensures var t := Exec(ans, Run(h, [], Completed), MicrophonePlan(stereo, endian));
      t.log == h + MicrophoneCalls(stereo, endian) && |t.replies| == 14
  {
    ExecCompletedLog(ans, Run(h, [], Completed), MicrophonePlan(stereo, endian));
    MicrophonePlanCalls(stereo, endian);
  }

  class Microphone {
    const driver: Driver
    var open: bool

    constructor Init(driver: Driver)
      ensures this.driver == driver && open
    {
      this.driver := driver;
      open := true;
    }

    /** `Microphone::new(microphone, stereo)`: device 0 only; the run
        follows `MicrophonePlan` and yields a microphone exactly when it
        completes. */
    static method New(d: Driver, index: U16, stereo: bool, endian: Endian) returns (o: Outcome, m: Microphone?)
      modifies d
      ensures index != 0 ==> o == Completed && m == null && d.log == old(d.log)
      ensures index == 0 ==>
        var t := Exec(d.answer, Run(old(d.log), [], Completed), MicrophonePlan(stereo, endian));
        d.log == t.log && o == t.outcome && (m != null <==> o.Completed?)
      ensures m != null ==> fresh(m) && m.driver == d && m.open
    {
      if index != 0 {
        return Completed, null;
      }
      ghost var ans, h0 := d.answer, d.log;
      ghost var open := Then(Must(Open("plughw:0,0", Capture)), Stop);
      ghost var start := Then(Ignore(Start), Stop);
      ghost var query := Append(MicrophoneQueryPlan(), start);
      ghost var settings := Append(SettingsPlan(stereo, endian), query);
      ExecPhases(ans, h0, open, settings);
      var r := d.Request(Open("plughw:0,0", Capture));
      if r.Err? {
        return Fatal(Unwrap(r.error)), null;
      }
      ghost var h1 := d.log;
      ExecPhases(ans, h1, SettingsPlan(stereo, endian), query);
      o := SetSettings(d, stereo, endian);
      if o.Fatal? {
        return o, null;
      }
      ghost var h2 := d.log;
      ExecPhases(ans, h2, MicrophoneQueryPlan(), start);
      o := ShowConfiguration(d);
      if o.Fatal? {
        return o, null;
      }
      r := d.Request(Start);
      m := new Microphone.Init(d);
      o := Completed;
    }

    /** The configuration block of `Microphone::new`. */
    static method ShowConfiguration(d: Driver) returns (o: Outcome)
      modifies d
      ensures var t := Exec(d.answer, Run(old(d.log), [], Completed), MicrophoneQueryPlan());
        d.log == t.log && o == t.outcome
    {
      ghost var ans, p := d.answer, MicrophoneQueryPlan();
      ghost var u := Run(d.log, [], Completed);
      var r := d.Request(HwCurrent);
      ExecThen(ans, u, p);
      u, p := Next(ans, u, p.step), p.rest;
      if r.Err? {
        ExecFatal(ans, u, p);
        return Fatal(Unwrap(r.error));
      }
      r := d.Request(HwGetChannels);
      ExecThen(ans, u, p);
      u, p := Next(ans, u, p.step), p.rest;
      if r.Err? {
        ExecFatal(ans, u, p);
        return Fatal(Unwrap(r.error));
      }
      r := d.Request(HwGetRate);
      ExecThen(ans, u, p);
      u, p := Next(ans, u, p.step), p.rest;
      if r.Err? {
        ExecFatal(ans, u, p);
        return Fatal(Unwrap(r.error));
      }
      r := d.Request(HwFree);
      ExecThen(ans, u, p);
      o := Completed;
    }

    /** `update(buffer)`: one read of up to `capacity` frames; the count
        read, or 0 on any error, with no recovery. */
    method Update(capacity: nat) returns (n: nat)
      modifies driver
      ensures driver.log == old(driver.log) + [Readi(capacity)]
      ensures n == CountOrZero(driver.answer(old(driver.log), Readi(capacity)))
    {
      var r := driver.Request(Readi(capacity));
      n := CountOrZero(r);
    }

    /** `drop`: the device is closed once. */
    method Drop()
      requires open
      modifies this, driver
      ensures !open && driver.log == old(driver.log) + [Close]
    {
      var _ := driver.Request(Close);
      open := false;
    }
  }
}
