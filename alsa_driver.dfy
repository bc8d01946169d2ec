/** An abstract ALSA driver standing in for `alsa::Context` and `alsa::pcm`
    (whose bodies are not part of this model). The driver is an oracle: the
    reply to every call is a function of the calls issued before it, and
    every call is appended to a log, so that the order and number of calls a
    caller makes can be stated exactly.

    Steps and plans describe the straight-line call sequences of the
    library: a `Must` step is `.unwrap()`ed, an `Expect` step is
    `.unwrap()`ed and then compared by `assert_eq!`, an `Ignore` step's
    reply is discarded. `Exec` is the meaning of such a sequence: the
    calls are issued in order until the first one that panics. */
module AlsaDriver {
  import opened Alsa
  import opened AlsaError

  type I16 = x: int | -0x8000 <= x < 0x8000

  type I64 = x: int | -0x8000_0000_0000_0000 <= x < 0x8000_0000_0000_0000

  /** `alsa::pcm::Access`; the library only ever asks for interleaved
      read/write access. */
  datatype Access = RWInterleaved

  /** One call into the driver, with the arguments the caller passes. */
  datatype Call =
    | Open(device: string, direction: Direction)
    | HwAny
    | HwSetChannels(channels: nat)
    | HwSetRate(rate: nat, search: ValueOr)
    | HwGetRate
    | HwSetFormat(format: nat)
    | HwSetAccess(access: Access)
    | HwApply
    | HwFree
    | HwCurrent
    | HwGetBufferSize
    | HwGetPeriodSize
    | HwGetChannels
    | Prepare
    | Start
    | Status
    | GetAvail
    | Writei(samples: seq<I16>)
    | Recover(err: int, silent: bool)
    | Readi(len: nat)
    | Close

  /** Why the thread panicked. */
  datatype Panic =
    | Unwrap(error: Error)              // `.unwrap()` on an `Err`
    | AssertEq(left: int, right: int)   // a failed `assert_eq!(left, right)`
    | RecoverFailed(error: Error)       // `panic!("ERROR: {}", x)` after `recover`
    | DoubleUnderrun                    // `panic!("double buffer underrun!")`

  datatype Outcome = Completed | Fatal(panic: Panic)

  /** The reply of the driver to a call, given all calls issued before it. */
  type Answer = (seq<Call>, Call) -> Result<Count>

  /** How the caller treats the reply of one call. */
  datatype Step = Must(call: Call) | Expect(call: Call, want: int) | Ignore(call: Call)

  /** The panic a step raises on reply `r`, if any. */
  function Failure(s: Step, r: Result<Count>): (p: Option<Panic>)
    ensures s.Ignore? ==> p == None
    ensures !s.Ignore? && r.Err? ==> p == Some(Unwrap(r.error))
    ensures s.Must? && r.Ok? ==> p == None
    ensures s.Expect? && r.Ok? ==> (p == None <==> r.value == s.want)
  {
    match s
    case Ignore(_) => None
    case Must(_) => if r.Err? then Some(Unwrap(r.error)) else None
    case Expect(_, want) =>
      if r.Err? then Some(Unwrap(r.error))
      else if r.value != want then Some(AssertEq(r.value, want))
      else None
  }

  /** A straight-line sequence of steps. */
  datatype Plan = Stop | Then(step: Step, rest: Plan)

  /** The calls a plan would issue if every step went through. */
  function Calls(plan: Plan): seq<Call>
    decreases plan
  {
    match plan
    case Stop => []
    case Then(step, rest) => [step.call] + Calls(rest)
  }

  /** The plan's steps, in order. */
  function Steps(plan: Plan): (ss: seq<Step>)
    ensures |ss| == |Calls(plan)|
    ensures forall i :: 0 <= i < |ss| ==> ss[i].call == Calls(plan)[i]
    decreases plan
  {
    match plan
    case Stop => []
    case Then(step, rest) => [step] + Steps(rest)
  }

  /** `p` followed by `q`. */
  function Append(p: Plan, q: Plan): Plan
    decreases p
  {
    match p
    case Stop => q
    case Then(step, rest) => Then(step, Append(rest, q))
  }

  /** Appending plans appends their calls. */
  lemma {:induction false} AppendCalls(p: Plan, q: Plan)
    ensures Calls(Append(p, q)) == Calls(p) + Calls(q)
    decreases p
  {
    if p.Then? {
      AppendCalls(p.rest, q);
      assert [p.step.call] + (Calls(p.rest) + Calls(q)) == ([p.step.call] + Calls(p.rest)) + Calls(q);
    }
  }

  /** Appending plans appends their steps. */
  lemma {:induction false} AppendSteps(p: Plan, q: Plan)
    ensures Steps(Append(p, q)) == Steps(p) + Steps(q)
    decreases p
  {
    if p.Then? {
      AppendSteps(p.rest, q);
      assert [p.step] + (Steps(p.rest) + Steps(q)) == ([p.step] + Steps(p.rest)) + Steps(q);
    }
  }

  /** The state of a caller running a plan: the driver's log, the replies
      received so far, and whether the thread is still running. */
  datatype Run = Run(log: seq<Call>, replies: seq<Result<Count>>, outcome: Outcome)

  /** One step: issue the call and treat the reply. After a panic nothing
      runs any more. */
  function Next(ans: Answer, s: Run, step: Step): (u: Run)
    ensures s.outcome.Fatal? ==> u == s
    ensures s.outcome.Completed? ==>
      && u.log == s.log + [step.call]
      && u.replies == s.replies + [ans(s.log, step.call)]
      && (u.outcome.Completed? <==> Failure(step, ans(s.log, step.call)) == None)
      && (u.outcome.Fatal? ==> Failure(step, ans(s.log, step.call)) == Some(u.outcome.panic))
  {
    if s.outcome.Fatal? then s
    else
      var r := ans(s.log, step.call);
      var f := Failure(step, r);
      Run(s.log + [step.call], s.replies + [r], if f.Some? then Fatal(f.value) else Completed)
  }

  /** The meaning of a plan: its steps one after the other. */
  function Exec(ans: Answer, s: Run, plan: Plan): Run
    decreases plan
  {
    match plan
    case Stop => s
    case Then(step, rest) => Exec(ans, Next(ans, s, step), rest)
  }

  /** Unfolds `Exec` by one step, for callers that issue a plan's calls
      one at a time. */
  lemma ExecThen(ans: Answer, s: Run, plan: Plan)
    requires plan.Then?
    ensures Exec(ans, s, plan) == Exec(ans, Next(ans, s, plan.step), plan.rest)
  {
  }

  /** A panicked thread issues no further calls. */
  lemma {:induction false} ExecFatal(ans: Answer, s: Run, plan: Plan)
    requires s.outcome.Fatal?
    ensures Exec(ans, s, plan) == s
    decreases plan
  {
    if plan.Then? {
      ExecFatal(ans, s, plan.rest);
    }
  }

  /** Running `p` then `q` is running `p` and then `q` from where `p` left off. */
  lemma {:induction false} ExecAppend(ans: Answer, s: Run, p: Plan, q: Plan)
    ensures Exec(ans, s, Append(p, q)) == Exec(ans, Exec(ans, s, p), q)
    decreases p
  {
    if p.Then? {
      ExecAppend(ans, Next(ans, s, p.step), p.rest, q);
    }
  }

  /** The replies gathered before a plan starts do not influence it. */
  lemma {:induction false} ExecShift(ans: Answer, h: seq<Call>, pre: seq<Result<Count>>, plan: Plan)
    ensures var t := Exec(ans, Run(h, [], Completed), plan);
      Exec(ans, Run(h, pre, Completed), plan) == Run(t.log, pre + t.replies, t.outcome)
    decreases plan
  {
    if plan.Then? {
      var c := plan.step.call;
      var r := ans(h, c);
      var f := Failure(plan.step, r);
      if f.Some? {
        ExecFatal(ans, Next(ans, Run(h, pre, Completed), plan.step), plan.rest);
        ExecFatal(ans, Next(ans, Run(h, [], Completed), plan.step), plan.rest);
      } else {
        assert Next(ans, Run(h, [], Completed), plan.step) == Run(h + [c], [r], Completed);
        ExecShift(ans, h + [c], pre + [r], plan.rest);
        ExecShift(ans, h + [c], [r], plan.rest);
        var t := Exec(ans, Run(h + [c], [], Completed), plan.rest);
        assert (pre + [r]) + t.replies == pre + ([r] + t.replies);
      }
    } else {
      assert pre + [] == pre;
    }
  }

  /** From a running state, a plan issues a prefix of its calls, receiving
      one reply per call: all of them when it completes, at least one when
      it panics. */
  lemma {:induction false} ExecIssuesPrefix(ans: Answer, s: Run, plan: Plan)
    requires s.outcome.Completed?
    ensures var t := Exec(ans, s, plan);
      var k := |t.replies| - |s.replies|;
      && |s.replies| <= |t.replies| <= |s.replies| + |Calls(plan)|
      && t.replies[..|s.replies|] == s.replies
      && t.log == s.log + Calls(plan)[..k]
      && (t.outcome.Completed? ==> k == |Calls(plan)|)
      && (t.outcome.Fatal? ==> 0 < k)
    decreases plan
  {
    if plan.Then? {
      var u := Next(ans, s, plan.step);
      var t := Exec(ans, s, plan);
      if u.outcome.Fatal? {
        ExecFatal(ans, u, plan.rest);
        assert Calls(plan)[..1] == [plan.step.call];
      } else {
        ExecIssuesPrefix(ans, u, plan.rest);
        var k := |t.replies| - |u.replies|;
        assert Calls(plan)[..k + 1] == [plan.step.call] + Calls(plan.rest)[..k];
        assert t.replies[..|s.replies|] == t.replies[..|u.replies|][..|s.replies|];
      }
    } else {
      assert s.log + [] == s.log;
    }
  }

  /** Once the first step went through, the rest of the run keeps the log
      it started from and the first reply in place. */
  lemma ExecFirstStep(ans: Answer, s: Run, plan: Plan)
    requires s.outcome.Completed? && plan.Then?
    requires Next(ans, s, plan.step).outcome.Completed?
    ensures var t := Exec(ans, s, plan);
      && |s.log| < |t.log| && t.log[..|s.log|] == s.log
      && |s.replies| < |t.replies| && t.replies[|s.replies|] == ans(s.log, plan.step.call)
  {
    var u := Next(ans, s, plan.step);
    ExecIssuesPrefix(ans, u, plan.rest);
    var t := Exec(ans, s, plan);
    assert t == Exec(ans, u, plan.rest);
    assert t.log[..|s.log|] == u.log[..|s.log|];
    assert t.replies[..|u.replies|][|s.replies|] == t.replies[|s.replies|];
  }

  /** Each reply is the driver's answer to the plan's call at that point of
      the log. */
  lemma {:induction false} ExecReplyAt(ans: Answer, s: Run, plan: Plan, i: nat)
    requires s.outcome.Completed?
    requires |s.replies| + i < |Exec(ans, s, plan).replies|
    ensures var t := Exec(ans, s, plan);
      && i < |Steps(plan)|
      && |s.log| + i < |t.log|
      && t.replies[|s.replies| + i] == ans(t.log[..|s.log| + i], Steps(plan)[i].call)
    decreases plan
  {
    assert plan.Then?;
    var u := Next(ans, s, plan.step);
    var t := Exec(ans, s, plan);
    assert t == Exec(ans, u, plan.rest);
    if u.outcome.Fatal? {
      ExecFatal(ans, u, plan.rest);
      assert i == 0 && Steps(plan)[0] == plan.step;
      assert t.log[..|s.log|] == s.log;
    } else if i == 0 {
      ExecFirstStep(ans, s, plan);
      assert Steps(plan)[0] == plan.step;
    } else {
      ExecReplyAt(ans, u, plan.rest, i - 1);
      var c := Steps(plan.rest)[i - 1].call;
      assert Steps(plan)[i] == Steps(plan.rest)[i - 1];
      assert |u.log| + (i - 1) == |s.log| + i;
      assert |u.replies| + (i - 1) == |s.replies| + i;
      assert t.replies[|s.replies| + i] == ans(t.log[..|s.log| + i], c);
    }
  }

  /** A run with a reply beyond the first, or one that went through, got past
      its first step. */
  lemma ExecFirstPassed(ans: Answer, s: Run, plan: Plan, i: nat)
    requires s.outcome.Completed?
    requires |s.replies| + i < |Exec(ans, s, plan).replies|
    requires |s.replies| + i < |Exec(ans, s, plan).replies| - 1 || Exec(ans, s, plan).outcome.Completed?
    ensures plan.Then? && Next(ans, s, plan.step).outcome.Completed?
  {
    assert plan.Then?;
    var u := Next(ans, s, plan.step);
    if u.outcome.Fatal? {
      ExecFatal(ans, u, plan.rest);
      assert false;
    }
  }

  /** Every step of a run except a panicking last one went through. */
  lemma {:induction false} ExecStepPassed(ans: Answer, s: Run, plan: Plan, i: nat)
    requires s.outcome.Completed?
    requires |s.replies| + i < |Exec(ans, s, plan).replies|
    requires |s.replies| + i < |Exec(ans, s, plan).replies| - 1 || Exec(ans, s, plan).outcome.Completed?
    ensures i < |Steps(plan)|
    ensures Failure(Steps(plan)[i], Exec(ans, s, plan).replies[|s.replies| + i]) == None
    decreases plan
  {
    ExecFirstPassed(ans, s, plan, i);
    var u := Next(ans, s, plan.step);
    var t := Exec(ans, s, plan);
    assert t == Exec(ans, u, plan.rest);
    if i == 0 {
      ExecFirstStep(ans, s, plan);
      assert Steps(plan)[0] == plan.step;
    } else {
      ExecStepPassed(ans, u, plan.rest, i - 1);
      assert Steps(plan)[i] == Steps(plan.rest)[i - 1];
      assert |u.replies| + (i - 1) == |s.replies| + i;
    }
  }

  /** A panic is raised by the last step issued, on the last reply. */
  lemma {:induction false} ExecLastStepPanics(ans: Answer, s: Run, plan: Plan)
    requires s.outcome.Completed? && Exec(ans, s, plan).outcome.Fatal?
    ensures var t := Exec(ans, s, plan);
      var k := |t.replies| - |s.replies|;
      && 0 < k <= |Steps(plan)|
      && Failure(Steps(plan)[k - 1], t.replies[|t.replies| - 1]) == Some(t.outcome.panic)
    decreases plan
  {
    assert plan.Then?;
    var u := Next(ans, s, plan.step);
    var t := Exec(ans, s, plan);
    assert t == Exec(ans, u, plan.rest);
    if u.outcome.Fatal? {
      ExecFatal(ans, u, plan.rest);
      assert Steps(plan)[0] == plan.step;
    } else {
      ExecLastStepPanics(ans, u, plan.rest);
      var k := |t.replies| - |u.replies|;
      assert Steps(plan)[k] == Steps(plan.rest)[k - 1];
    }
  }

  /** A plan run from a running state completes exactly when every one of
      its steps went through. */
  lemma ExecCompletedIff(ans: Answer, s: Run, plan: Plan)
    requires s.outcome.Completed?
    ensures var t := Exec(ans, s, plan);
      t.outcome.Completed? <==>
        && |t.replies| == |s.replies| + |Steps(plan)|
        && forall i :: 0 <= i < |Steps(plan)| ==> Failure(Steps(plan)[i], t.replies[|s.replies| + i]) == None
  {
    var t := Exec(ans, s, plan);
    ExecIssuesPrefix(ans, s, plan);
    if t.outcome.Completed? {
      forall i | 0 <= i < |Steps(plan)|
        ensures Failure(Steps(plan)[i], t.replies[|s.replies| + i]) == None
      {
        ExecStepPassed(ans, s, plan, i);
      }
    } else {
      ExecLastStepPanics(ans, s, plan);
    }
  }

  /** Running `a` then `b` from a fresh state: `a`'s run, and unless that
      panicked, `b`'s own run from `a`'s log, with the replies of both. */
  lemma ExecPhases(ans: Answer, h: seq<Call>, a: Plan, b: Plan)
    ensures var ta := Exec(ans, Run(h, [], Completed), a);
      var tb := Exec(ans, Run(ta.log, [], Completed), b);
      Exec(ans, Run(h, [], Completed), Append(a, b)) ==
        if ta.outcome.Fatal? then ta else Run(tb.log, ta.replies + tb.replies, tb.outcome)
  {
    var ta := Exec(ans, Run(h, [], Completed), a);
    ExecAppend(ans, Run(h, [], Completed), a, b);
    if ta.outcome.Fatal? {
      ExecFatal(ans, ta, b);
    } else {
      ExecShift(ans, ta.log, ta.replies, b);
    }
  }

  /** A completed run from a running state issued all of the plan's
      calls and received one reply for each. */
  lemma ExecCompletedLog(ans: Answer, s: Run, plan: Plan)
    requires s.outcome.Completed? && Exec(ans, s, plan).outcome.Completed?
    ensures Exec(ans, s, plan).log == s.log + Calls(plan)
    ensures |Exec(ans, s, plan).replies| == |s.replies| + |Calls(plan)|
  {
    ExecIssuesPrefix(ans, s, plan);
    assert Calls(plan)[..|Calls(plan)|] == Calls(plan);
  }

  /** In a completed run, reply `i` answers the plan's call `i` given the
      starting log and the plan's calls before it. */
  lemma ExecCompletedReply(ans: Answer, s: Run, plan: Plan, i: nat)
    requires s.outcome.Completed? && Exec(ans, s, plan).outcome.Completed?
    requires i < |Calls(plan)|
    ensures |Exec(ans, s, plan).replies| == |s.replies| + |Calls(plan)|
    ensures Exec(ans, s, plan).replies[|s.replies| + i] == ans(s.log + Calls(plan)[..i], Calls(plan)[i])
  {
    var t := Exec(ans, s, plan);
    ExecCompletedLog(ans, s, plan);
    ExecReplyAt(ans, s, plan, i);
    assert t.log[..|s.log| + i] == s.log + Calls(plan)[..i];
  }

  /** A run that panicked issued a non-empty prefix of the plan's calls,
      the last of them on a step whose reply is checked. */
  lemma ExecFatalLog(ans: Answer, s: Run, plan: Plan)
    requires s.outcome.Completed? && Exec(ans, s, plan).outcome.Fatal?
    ensures var t := Exec(ans, s, plan);
      var k := |t.log| - |s.log|;
      && 0 < k <= |Steps(plan)|
      && k == |t.replies| - |s.replies|
      && t.log == s.log + Calls(plan)[..k]
      && !Steps(plan)[k - 1].Ignore?
  {
    ExecIssuesPrefix(ans, s, plan);
    ExecLastStepPanics(ans, s, plan);
  }

  /** The driver: an oracle plus the log of calls made so far. */
  class Driver {
    const answer: Answer
    const avail: seq<Call> -> I64
    var log: seq<Call>

    constructor (answer: Answer, avail: seq<Call> -> I64)
      ensures this.answer == answer && this.avail == avail && log == []
    {
      this.answer := answer;
      this.avail := avail;
      log := [];
    }

    /** Issue a fallible call. */
    method Request(c: Call) returns (r: Result<Count>)
      modifies this
      ensures log == old(log) + [c]
      ensures r == answer(old(log), c)
    {
      r := answer(log, c);
      log := log + [c];
    }

    /** `Status::get_avail`: an infallible read of the frames the hardware
        reports as available. */
    method Available() returns (a: I64)
      modifies this
      ensures log == old(log) + [GetAvail]
      ensures a == avail(old(log))
    {
      a := avail(log);
      log := log + [GetAvail];
    }
  }
}
