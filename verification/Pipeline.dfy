/**
 A run of the pipeline: handlers report to the flow control of their context,
 a panic is turned into a retry, and the context is closed at the end. Here a
 handler is what it calls on flow control; that the bodies of the handlers call
 nothing else is part of their contracts.
 */
module Pipelines {

  // ---- Flow control ----

  /** FlowStatus, with `err` for the presence of an error. */
  datatype Status = Status(retry: bool, stop: bool, err: bool, delay: nat)

  const RUNNING := Status(false, false, false, 0)

  datatype Call = RetryNow(failed: bool) | RetryLater(failed: bool, delay: nat) | Fail | Stop

  function Effect(st: Status, c: Call): Status
  {
    match c
    case RetryNow(failed) => Status(true, true, failed, 0)
    case RetryLater(failed, delay) => Status(true, failed, failed, delay)
    case Fail => st.(err := true)
    case Stop => st.(stop := true)
  }

  function Performed(st: Status, calls: seq<Call>): Status
    decreases |calls|
  {
    if calls == [] then st else Performed(Effect(st, calls[0]), calls[1..])
  }

  lemma {:induction false} PerformedConcat(st: Status, a: seq<Call>, b: seq<Call>)
    ensures Performed(st, a + b) == Performed(Performed(st, a), b)
    decreases |a|
  {
    if a == [] {
      assert a + b == b;
    } else {
      assert (a + b)[0] == a[0] && (a + b)[1..] == a[1..] + b;
      PerformedConcat(Effect(st, a[0]), a[1..], b);
    }
  }

  lemma PerformedMore(st: Status, calls: seq<Call>, c: Call)
    ensures Performed(st, calls + [c]) == Effect(Performed(st, calls), c)
  {
    PerformedConcat(st, calls, [c]);
    assert [c][1..] == [];
  }

  /** The flow control of a context. The trace is what was called on it. */
  class FlowCtrl {
    var retry: bool
    var stop: bool
    var err: bool
    var delay: nat
    ghost var trace: seq<Call>

    constructor ()
      ensures Valid() && trace == []
    {
      retry, stop, err, delay, trace := false, false, false, 0, [];
    }

    function FlowStatus(): Status
      reads this
    {
      Status(retry, stop, err, delay)
    }

    ghost predicate Valid()
      reads this
    {
      FlowStatus() == Performed(RUNNING, trace)
    }

    method RetryProcessing(failed: bool)
      requires Valid()
      modifies this
      ensures Valid() && trace == old(trace) + [RetryNow(failed)]
      ensures FlowStatus() == Effect(old(FlowStatus()), RetryNow(failed))
    {
      PerformedMore(RUNNING, trace, RetryNow(failed));
      retry, stop, err, delay := true, true, failed, 0;
      trace := trace + [RetryNow(failed)];
    }

    method RetryProcessingWithDelay(failed: bool, delay: nat)
      requires Valid()
      modifies this
      ensures Valid() && trace == old(trace) + [RetryLater(failed, delay)]
      ensures FlowStatus() == Effect(old(FlowStatus()), RetryLater(failed, delay))
    {
      PerformedMore(RUNNING, trace, RetryLater(failed, delay));
      retry, stop, err := true, failed, failed;
      this.delay := delay;
      trace := trace + [RetryLater(failed, delay)];
    }

    method Error()
      requires Valid()
      modifies this
      ensures Valid() && trace == old(trace) + [Fail] && FlowStatus() == Effect(old(FlowStatus()), Fail)
    {
      PerformedMore(RUNNING, trace, Fail);
      err := true;
      trace := trace + [Fail];
    }

    method StopProcessing()
      requires Valid()
      modifies this
      ensures Valid() && trace == old(trace) + [Stop] && FlowStatus() == Effect(old(FlowStatus()), Stop)
    {
      PerformedMore(RUNNING, trace, Stop);
      stop := true;
      trace := trace + [Stop];
    }
  }

  // ---- Handlers ----

  datatype Handler =
    | Unbind | PreFlight | ProvisionedService | DirectSecretReference | BindingDefinitions | BindingItems
    | OwnedResources | Mapping | Naming | PreFlightCheck | InjectSecretRef | BindingsAsEnv | BindingsAsFiles
    | PostFlightCheck

  const DEFAULT_FLOW := [
    Unbind, PreFlight, ProvisionedService, DirectSecretReference, BindingDefinitions, BindingItems, OwnedResources,
    Mapping, Naming, PreFlightCheck, InjectSecretRef, BindingsAsEnv, BindingsAsFiles, PostFlightCheck]

  const SPEC_FLOW := [
    Unbind, PreFlight, ProvisionedService, DirectSecretReference, BindingDefinitions, BindingItems, PreFlightCheck,
    BindingsAsEnv, BindingsAsFiles, PostFlightCheck]

  /** What is fixed for a run: is unbinding requested, and does the binding
      select workloads by label? */
  datatype Situation = Situation(unbind: bool, selector: bool)

  /** Any number of recorded errors, each with a stop. */
  predicate Errors(calls: seq<Call>)
    decreases |calls|
  {
    calls == [] || (|calls| >= 2 && calls[0] == Fail && calls[1] == Stop && Errors(calls[2..]))
  }

  /** The calls between two traces are recorded errors. */
  ghost predicate MoreErrors(before: seq<Call>, after: seq<Call>)
  {
    before <= after && Errors(after[|before|..])
  }

  lemma MoreAndMore(a: seq<Call>, b: seq<Call>, c: seq<Call>)
    requires MoreErrors(a, b) && MoreErrors(b, c)
    ensures MoreErrors(a, c)
  {
    ErrorsConcat(b[|a|..], c[|b|..]);
    assert c[|a|..] == b[|a|..] + c[|b|..];
  }

  lemma NoMore(a: seq<Call>)
    ensures MoreErrors(a, a) && MoreErrors(a, a + [Fail] + [Stop])
  {
    assert a[|a|..] == [];
    var calls := (a + [Fail] + [Stop])[|a|..];
    assert calls == [Fail, Stop] && calls[2..] == [];
  }

  /** A retry after recorded errors, or none, gives up the handler. */
  lemma GivenUp(a: seq<Call>, b: seq<Call>)
    requires MoreErrors(a, b)
    ensures ErrorsThenRetry(b[|a|..]) && ErrorsThenRetry((b + [RetryNow(true)])[|a|..])
  {
    var calls := (b + [RetryNow(true)])[|a|..];
    assert calls[..|calls| - 1] == b[|a|..];
  }

  /** The same, and perhaps a retry that gives up the handler. */
  predicate ErrorsThenRetry(calls: seq<Call>)
  {
    Errors(calls) || (calls != [] && calls[|calls| - 1] == RetryNow(true) && Errors(calls[..|calls| - 1]))
  }

  lemma {:induction false} ErrorsConcat(a: seq<Call>, b: seq<Call>)
    requires Errors(a) && Errors(b)
    ensures Errors(a + b)
    decreases |a|
  {
    if a == [] {
      assert a + b == b;
    } else {
      assert (a + b)[2..] == a[2..] + b;
      ErrorsConcat(a[2..], b);
    }
  }

  /** The calls that a handler makes when it returns. */
  predicate Issues(h: Handler, s: Situation, calls: seq<Call>)
  {
    match h
    case Unbind =>
      if s.unbind then calls == [Stop] || calls == [Stop, Fail] || calls == [RetryNow(false)] else calls == []
    case PreFlight => calls == [] || calls == [RetryNow(true)]
    case ProvisionedService => calls == [] || calls == [RetryNow(true)]
    case DirectSecretReference => calls == [] || calls == [RetryNow(true)]
    case BindingDefinitions => ErrorsThenRetry(calls)
    case BindingItems => ErrorsThenRetry(calls)
    case OwnedResources => ErrorsThenRetry(calls)
    case Mapping => calls == [] || calls == [Stop, Fail]
    case Naming => calls == [] || calls == [Fail, Stop]
    case PreFlightCheck => calls == [] || calls == [RetryNow(true)] || calls == [Stop] || calls == [Fail, Stop]
    case InjectSecretRef => calls == [] || calls == [Stop, Fail]
    case BindingsAsEnv => calls == [] || calls == [Stop, Fail]
    case BindingsAsFiles => calls == [] || calls == [Stop, Fail]
    case PostFlightCheck =>
      if s.selector then |calls| == 1 && calls[0].RetryLater? && !calls[0].failed else calls == []
  }

  /** A handler returns, or it panics anywhere on the way. */
  datatype Conduct = Conduct(calls: seq<Call>, panics: bool)

  ghost predicate Possible(h: Handler, s: Situation, c: Conduct)
  {
    if c.panics then exists calls :: Issues(h, s, calls) && c.calls <= calls else Issues(h, s, c.calls)
  }

  function Handled(st: Status, c: Conduct): Status
  {
    var st' := Performed(st, c.calls);
    if c.panics then Effect(st', RetryNow(true)) else st'
  }

  /** The status after the first `k` handlers. */
  function StatusAfter(cs: seq<Conduct>, k: nat): Status
    requires k <= |cs|
  {
    if k == 0 then RUNNING else Handled(StatusAfter(cs, k - 1), cs[k - 1])
  }

  /** What a handler called on the flow control between two traces. */
  ghost predicate Reports(h: Handler, s: Situation, before: seq<Call>, after: seq<Call>, panics: bool)
  {
    before <= after && Possible(h, s, Conduct(after[|before|..], panics))
  }

  lemma {:induction false} ErrorsStop(st: Status, calls: seq<Call>)
    requires Errors(calls) && (st.err ==> st.stop)
    ensures calls != [] ==> Performed(st, calls) == st.(err := true, stop := true)
    ensures calls == [] ==> Performed(st, calls) == st
    decreases |calls|
  {
    if calls != [] {
      assert calls[1..][1..] == calls[2..];
      var st' := Effect(Effect(st, Fail), Stop);
      assert Performed(st, calls) == Performed(st', calls[2..]);
      ErrorsStop(st', calls[2..]);
    }
  }

  lemma RetryStops(st: Status, calls: seq<Call>)
    requires ErrorsThenRetry(calls) && (st.err ==> st.stop)
    ensures calls != [] ==> Performed(st, calls).err && Performed(st, calls).stop
    ensures calls == [] ==> Performed(st, calls) == st
  {
    if Errors(calls) {
      ErrorsStop(st, calls);
    } else {
      var rest := calls[..|calls| - 1];
      assert calls == rest + [RetryNow(true)];
      PerformedMore(st, rest, RetryNow(true));
    }
  }

  lemma ShortRuns(st: Status, a: Call, b: Call)
    ensures Performed(st, [a]) == Effect(st, a)
    ensures Performed(st, [a, b]) == Effect(Effect(st, a), b)
  {
    assert [a][1..] == [] && [a, b][1..] == [b] && [b][1..] == [];
    assert Performed(Effect(st, a), [b]) == Effect(Effect(st, a), b);
  }

  /** No handler leaves an error behind without stopping the run. When a run
      goes on after a handler, the handler left no trace, except for a
      scheduled repetition. */
  lemma ErrorStops(h: Handler, s: Situation, c: Conduct, st: Status)
    requires Possible(h, s, c) && !st.err && !st.stop
    ensures var st' := Handled(st, c);
      && (st'.err ==> st'.stop)
      && (!st'.stop ==> !st'.err && ((h == PostFlightCheck && s.selector && st'.retry) || st' == st))
      && (st'.stop && !st'.err ==> h == Unbind || h == PreFlightCheck)
      && (st'.stop && !st'.err && st'.retry && !st.retry ==> h == Unbind)
      && (h == Unbind ==> (st'.stop <==> s.unbind || c.panics))
  {
    if !c.panics {
      ShortRuns(st, Stop, Fail);
      ShortRuns(st, Fail, Stop);
      ShortRuns(st, RetryNow(true), Stop);
      ShortRuns(st, RetryNow(false), Stop);
      if ErrorsThenRetry(c.calls) { RetryStops(st, c.calls); }
      if h == PostFlightCheck && s.selector {
        ShortRuns(st, c.calls[0], Stop);
        assert c.calls == [c.calls[0]];
      }
    }
  }

  // ---- Process ----

  /** How the context was obtained, and how closing it ends. */
  datatype Acquisition = Obtained | NotObtained | GetPanics
  datatype Closing = Closed | CloseFails | ClosePanics

  ghost predicate Conducted(handlers: seq<Handler>, s: Situation, cs: seq<Conduct>)
  {
    |cs| == |handlers| && forall i :: 0 <= i < |cs| ==> Possible(handlers[i], s, cs[i])
  }

  /** The handlers that run are a prefix that ends with the first stop. */
  predicate RunsTo(cs: seq<Conduct>, ran: nat)
  {
    && ran <= |cs|
    && (forall k :: 0 <= k < ran ==> !StatusAfter(cs, k).stop)
    && (ran < |cs| ==> StatusAfter(cs, ran).stop)
  }

  /** invokeHandler: the calls of a handler in turn, and a retry with an error
      if it panics. */
  method InvokeConduct(flow: FlowCtrl, c: Conduct)
    requires flow.Valid()
    modifies flow
    ensures flow.Valid() && flow.FlowStatus() == Handled(old(flow.FlowStatus()), c)
  {
    ghost var before := flow.trace;
    var i := 0;
    assert before + c.calls[..0] == before;
    while i < |c.calls|
      invariant 0 <= i <= |c.calls| && flow.Valid() && flow.trace == before + c.calls[..i]
    {
      assert before + c.calls[..i] + [c.calls[i]] == before + c.calls[..i + 1];
      match c.calls[i] {
        case RetryNow(failed) => flow.RetryProcessing(failed);
        case RetryLater(failed, delay) => flow.RetryProcessingWithDelay(failed, delay);
        case Fail => flow.Error();
        case Stop => flow.StopProcessing();
      }
      i := i + 1;
    }
    assert c.calls[..i] == c.calls;
    PerformedConcat(RUNNING, before, c.calls);
    PerformedMore(RUNNING, flow.trace, RetryNow(true));
    if c.panics { flow.RetryProcessing(true); }
  }

  /** Process. The handlers that ran form a prefix up to the first stop, the
      context is closed exactly once if it was obtained, and the result is the
      status after the last handler, or a retry with an error. */
  method ProcessHandlers(get: Acquisition, cs: seq<Conduct>, close: Closing)
    returns (retry: bool, delay: nat, err: bool, ran: nat, closes: nat)
    ensures if get.Obtained? then RunsTo(cs, ran) else ran == 0
    ensures closes == if get.Obtained? then 1 else 0
    ensures get.NotObtained? ==> !retry && err
    ensures get.GetPanics? || (get.Obtained? && !close.Closed?) ==> retry && err && delay == 0
    ensures get.Obtained? && close.Closed? ==>
      var st := StatusAfter(cs, ran); retry == st.retry && delay == st.delay && err == st.err
  {
    retry, delay, err, ran, closes := false, 0, false, 0, 0;
    match get {
      case GetPanics => return true, 0, true, 0, 0;
      case NotObtained => return false, 0, true, 0, 0;
      case Obtained =>
    }
    var flow := new FlowCtrl();
    var status := RUNNING;
    while ran < |cs|
      invariant 0 <= ran <= |cs| && flow.Valid()
      invariant status == flow.FlowStatus() == StatusAfter(cs, ran)
      invariant forall k :: 0 <= k <= ran ==> !StatusAfter(cs, k).stop
    {
      InvokeConduct(flow, cs[ran]);
      ran := ran + 1;
      status := flow.FlowStatus();
      if status.stop { break; }
    }
    closes := closes + 1;
    match close {
      case Closed => return status.retry, status.delay, status.err, ran, closes;
      case CloseFails => return true, 0, true, ran, closes;
      case ClosePanics => return true, 0, true, ran, closes;
    }
  }

  /** After every handler of a run an error implies a stop; only the last
      handler can have reported anything. */
  lemma {:induction false} RunStatus(handlers: seq<Handler>, s: Situation, cs: seq<Conduct>, ran: nat, k: nat)
    requires Conducted(handlers, s, cs) && RunsTo(cs, ran) && k <= ran
    requires forall i :: 0 <= i < |handlers| - 1 ==> handlers[i] != PostFlightCheck
    ensures StatusAfter(cs, k).err ==> StatusAfter(cs, k).stop
    ensures k < ran ==> StatusAfter(cs, k) == RUNNING
    decreases k
  {
    if k > 0 {
      RunStatus(handlers, s, cs, ran, k - 1);
      ErrorStops(handlers[k - 1], s, cs[k - 1], StatusAfter(cs, k - 1));
    }
  }

  /** Unbind comes first, and PostFlightCheck last and only there. */
  predicate Framed(handlers: seq<Handler>)
  {
    && |handlers| > 1 && handlers[0] == Unbind && handlers[|handlers| - 1] == PostFlightCheck
    && forall i :: 0 <= i < |handlers| - 1 ==> handlers[i] != PostFlightCheck
  }

  lemma FlowsFramed()
    ensures Framed(DEFAULT_FLOW) && Framed(SPEC_FLOW)
  {
  }

  /** How a run can end that begins with Unbind and ends with PostFlightCheck. */
  lemma FramedEnds(handlers: seq<Handler>, s: Situation, cs: seq<Conduct>, ran: nat)
    requires Framed(handlers) && Conducted(handlers, s, cs) && RunsTo(cs, ran)
    ensures ran > 0
    ensures var st, last := StatusAfter(cs, ran), handlers[ran - 1];
      && (st.err ==> st.stop)
      && (!st.stop ==> ran == |handlers| && !st.err && (st.retry <==> s.selector))
      && (st.retry && !st.err ==> (last == Unbind && s.unbind) || (last == PostFlightCheck && s.selector))
      && (st.stop && !st.err ==> last == Unbind || last == PreFlightCheck)
      && (s.unbind ==> ran == 1)
      && (!s.unbind && (forall i :: 0 <= i < ran ==> !cs[i].panics) ==> ran > 1)
  {
    hide Possible;
    var n := |handlers|;
    assert ran > 0;
    RunStatus(handlers, s, cs, ran, ran - 1);
    ErrorStops(handlers[ran - 1], s, cs[ran - 1], RUNNING);
    ErrorStops(Unbind, s, cs[0], RUNNING);
    assert StatusAfter(cs, 0) == RUNNING && StatusAfter(cs, 1) == Handled(RUNNING, cs[0]);
    if ran == n && !StatusAfter(cs, ran).stop { LastHandler(s, cs[n - 1]); }
  }

  /** How a run of either flow can end. An error, and likewise a stop, is the
      work of the last handler that ran. Without an error a retry comes from
      Unbind or from PostFlightCheck for a label selector, and if unbinding is
      requested no other handler than Unbind runs. */
  lemma RunEnds(handlers: seq<Handler>, s: Situation, cs: seq<Conduct>, ran: nat)
    requires handlers == DEFAULT_FLOW || handlers == SPEC_FLOW
    requires Conducted(handlers, s, cs) && RunsTo(cs, ran)
    ensures ran > 0
    ensures var st, last := StatusAfter(cs, ran), handlers[ran - 1];
      && (st.err ==> st.stop)
      && (!st.stop ==> ran == |handlers| && !st.err && (st.retry <==> s.selector))
      && (st.retry && !st.err ==> (last == Unbind && s.unbind) || (last == PostFlightCheck && s.selector))
      && (st.stop && !st.err ==> last == Unbind || last == PreFlightCheck)
      && (s.unbind ==> ran == 1)
      && (!s.unbind && (forall i :: 0 <= i < ran ==> !cs[i].panics) ==> ran > 1)
  {
    hide Possible, Handled, Conducted, RunsTo, Framed, StatusAfter;
    FlowsFramed();
    FramedEnds(handlers, s, cs, ran);
  }

  lemma LastHandler(s: Situation, c: Conduct)
    requires Possible(PostFlightCheck, s, c) && !Handled(RUNNING, c).stop
    ensures Handled(RUNNING, c).retry <==> s.selector
  {
    if !c.panics && s.selector {
      ShortRuns(RUNNING, c.calls[0], Stop);
      assert c.calls == [c.calls[0]];
    }
  }
}
