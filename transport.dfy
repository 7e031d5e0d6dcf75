/**
 * The low-level register-access capability of a debug probe (`DAPAccess`),
 * modelled as an object that records every register access it is asked for
 * in a trace and takes each answer from an oracle, the target's behaviour.
 * The default block operations repeat the single-register operations.
 */
module Transport {
  import opened Common
  import opened Ports

  /** The ARM-specific errors of this layer. */
  datatype DapError = SwdProtocol | NoAcknowledge | FaultResponse | WaitResponse | TargetPowerUpFailed

  /** The failures a single register access on the wire can report. */
  type WireError = e: DapError | !e.TargetPowerUpFailed? witness SwdProtocol

  /** One register access issued to the transport. */
  datatype Access = Read(port: PortType, addr: u16) | Write(port: PortType, addr: u16, value: u32)

  /** The target's answer to an access, given every access issued before it.
      For a write only success or failure matters. */
  type Responder = (seq<Access>, Access) -> Result<u32, WireError>

  /** The trace after a script, the value of every access that succeeded, and
      the failure that stopped the script, if any. */
  datatype RunOutcome = RunOutcome(trace: seq<Access>, replies: seq<u32>, failure: Option<WireError>)

  /** The number of accesses of a script that reached the wire. */
  function Issued(o: RunOutcome): nat {
    |o.replies| + if o.failure.Some? then 1 else 0
  }

  /**
   * Issues `script` in order after the history `t` and stops at the first
   * failure: the failing access is on the wire, nothing after it is.
   */
  function Run(respond: Responder, t: seq<Access>, script: seq<Access>): (o: RunOutcome)
    ensures |o.replies| <= |script|
    ensures o.failure.None? <==> |o.replies| == |script|
    ensures o.trace == t + script[..Issued(o)]
    decreases |script|
  {
    if script == [] then RunOutcome(t, [], None)
    else
      match respond(t, script[0])
      case Err(e) => RunOutcome(t + [script[0]], [], Some(e))
      case Ok(v) =>
        var rest := Run(respond, t + [script[0]], script[1..]);
        assert t + [script[0]] + script[1..][..Issued(rest)] == t + script[..Issued(rest) + 1];
        RunOutcome(rest.trace, [v] + rest.replies, rest.failure)
  }

  /** One step of a non-empty script. */
  lemma RunStep(respond: Responder, t: seq<Access>, script: seq<Access>)
    requires script != []
    ensures respond(t, script[0]).Err? ==>
      Run(respond, t, script) == RunOutcome(t + [script[0]], [], Some(respond(t, script[0]).error))
    ensures respond(t, script[0]).Ok? ==>
      Run(respond, t, script) == Prefixed([respond(t, script[0]).value], Run(respond, t + [script[0]], script[1..]))
  {
  }

  /** A script of one access. */
  lemma RunSingle(respond: Responder, t: seq<Access>, a: Access)
    ensures respond(t, a).Err? ==> Run(respond, t, [a]) == RunOutcome(t + [a], [], Some(respond(t, a).error))
    ensures respond(t, a).Ok? ==> Run(respond, t, [a]) == RunOutcome(t + [a], [respond(t, a).value], None)
  {
    RunStep(respond, t, [a]);
    assert [a][1..] == [];
  }

  /** Replies `vs` put in front of the replies of `o`. */
  function Prefixed(vs: seq<u32>, o: RunOutcome): RunOutcome {
    RunOutcome(o.trace, vs + o.replies, o.failure)
  }

  /** The outcome of running `s2` once `first` has finished: nothing more is
      issued after a failure. */
  function Then(respond: Responder, first: RunOutcome, s2: seq<Access>): RunOutcome {
    if first.failure.Some? then first
    else Prefixed(first.replies, Run(respond, first.trace, s2))
  }

  /** One answered step of a script in progress: its reply joins the replies
      gathered so far. */
  lemma StepAnswered(respond: Responder, t0: seq<Access>, script: seq<Access>, done: seq<u32>, before: seq<Access>, i: nat)
    requires i < |script|
    requires Run(respond, t0, script) == Prefixed(done, Run(respond, before, script[i..]))
    requires respond(before, script[i]).Ok?
    ensures Run(respond, t0, script)
         == Prefixed(done + [respond(before, script[i]).value], Run(respond, before + [script[i]], script[i + 1..]))
  {
    assert script[i..][0] == script[i] && script[i..][1..] == script[i + 1..];
    RunStep(respond, before, script[i..]);
  }

  /** One failing step of a script in progress ends it. */
  lemma StepFails(respond: Responder, t0: seq<Access>, script: seq<Access>, done: seq<u32>, before: seq<Access>, i: nat)
    requires i < |script|
    requires Run(respond, t0, script) == Prefixed(done, Run(respond, before, script[i..]))
    requires respond(before, script[i]).Err?
    ensures Run(respond, t0, script) == RunOutcome(before + [script[i]], done, Some(respond(before, script[i]).error))
  {
    assert script[i..][0] == script[i];
    RunStep(respond, before, script[i..]);
  }

  /** Every access of `t1` after the history `t0` got a successful answer. */
  ghost predicate AllAnswered(respond: Responder, t0: seq<Access>, t1: seq<Access>) {
    && |t0| <= |t1| && t1[..|t0|] == t0
    && forall j :: |t0| <= j < |t1| ==> respond(t1[..j], t1[j]).Ok?
  }

  /** Each reply is the oracle's answer to the access at its position, given
      exactly the accesses before it. */
  lemma {:induction false} RunAnswered(respond: Responder, t: seq<Access>, script: seq<Access>, j: nat)
    requires j < |Run(respond, t, script).replies|
    ensures respond(t + script[..j], script[j]) == Ok(Run(respond, t, script).replies[j])
    decreases |script|
  {
    if j == 0 {
      assert t + script[..j] == t;
    } else {
      RunAnswered(respond, t + [script[0]], script[1..], j - 1);
      assert t + [script[0]] + script[1..][..j - 1] == t + script[..j];
    }
  }

  /** A failure is the oracle's answer to the first access that did not
      succeed. */
  lemma {:induction false} RunFailed(respond: Responder, t: seq<Access>, script: seq<Access>)
    requires Run(respond, t, script).failure.Some?
    ensures var o := Run(respond, t, script);
      respond(t + script[..|o.replies|], script[|o.replies|]) == Err(o.failure.value)
    decreases |script|
  {
    if respond(t, script[0]).Err? {
      assert t + script[..0] == t;
    } else {
      RunFailed(respond, t + [script[0]], script[1..]);
      var k := |Run(respond, t + [script[0]], script[1..]).replies|;
      assert t + [script[0]] + script[1..][..k] == t + script[..k + 1];
    }
  }

  /** A script ran to completion exactly when every access it issued was
      answered successfully. */
  lemma RunAllAnswered(respond: Responder, t: seq<Access>, script: seq<Access>)
    ensures Run(respond, t, script).failure.None? <==> AllAnswered(respond, t, Run(respond, t, script).trace)
  {
    var o := Run(respond, t, script);
    var k := |o.replies|;
    assert o.trace[..|t|] == t;
    if o.failure.None? {
      forall j | |t| <= j < |o.trace| ensures respond(o.trace[..j], o.trace[j]).Ok? {
        RunAnswered(respond, t, script, j - |t|);
        assert o.trace[..j] == t + script[..j - |t|];
      }
    } else {
      RunFailed(respond, t, script);
      assert o.trace[..|t| + k] == t + script[..k];
      assert o.trace[|t| + k] == script[k];
    }
  }

  /** Running two scripts one after the other is running their
      concatenation. */
  lemma {:induction false} RunAppend(respond: Responder, t: seq<Access>, s1: seq<Access>, s2: seq<Access>)
    ensures Run(respond, t, s1 + s2) == Then(respond, Run(respond, t, s1), s2)
    decreases |s1|
  {
    if s1 == [] {
      assert s1 + s2 == s2;
    } else {
      assert (s1 + s2)[0] == s1[0];
      assert (s1 + s2)[1..] == s1[1..] + s2;
      RunStep(respond, t, s1);
      RunStep(respond, t, s1 + s2);
      if respond(t, s1[0]).Ok? {
        var v := respond(t, s1[0]).value;
        var t1 := t + [s1[0]];
        RunAppend(respond, t1, s1[1..], s2);
        var first := Run(respond, t1, s1[1..]);
        if first.failure.None? {
          assert [v] + (first.replies + Run(respond, first.trace, s2).replies)
              == ([v] + first.replies) + Run(respond, first.trace, s2).replies;
        }
      }
    }
  }

  /** `n` copies of one access. */
  function Repeat(a: Access, n: nat): (s: seq<Access>)
    ensures |s| == n
    ensures forall i :: 0 <= i < n ==> s[i] == a
  {
    if n == 0 then [] else [a] + Repeat(a, n - 1)
  }

  /** One write of each value, in order, to the same register. */
  function WriteScript(port: PortType, addr: u16, values: seq<u32>): (s: seq<Access>)
    ensures |s| == |values|
    ensures forall i :: 0 <= i < |values| ==> s[i] == Write(port, addr, values[i])
  {
    if values == [] then [] else [Write(port, addr, values[0])] + WriteScript(port, addr, values[1..])
  }

  /** The unit result of a script. */
  function UnitOf(failure: Option<WireError>): Result<(), WireError> {
    match failure
    case None => Ok(())
    case Some(e) => Err(e)
  }

  /** A debug probe: whether it offers the ARM register-access interface, the
      target it is wired to, and the accesses issued to it so far. */
  class Probe {
    const hasDap: bool
    const respond: Responder
    var trace: seq<Access>

    constructor (hasDap: bool, respond: Responder)
      ensures this.hasDap == hasDap && this.respond == respond && trace == []
    {
      this.hasDap := hasDap;
      this.respond := respond;
      trace := [];
    }

    /** `DAPAccess::read_register`. */
    method ReadRegister(port: PortType, addr: u16) returns (r: Result<u32, WireError>)
      requires hasDap
      modifies this
      ensures trace == old(trace) + [Read(port, addr)]
      ensures r == respond(old(trace), Read(port, addr))
    {
      r := respond(trace, Read(port, addr));
      trace := trace + [Read(port, addr)];
    }

    /** `DAPAccess::write_register`. */
    method WriteRegister(port: PortType, addr: u16, value: u32) returns (r: Result<(), WireError>)
      requires hasDap
      modifies this
      ensures trace == old(trace) + [Write(port, addr, value)]
      ensures r == UnitOf(if respond(old(trace), Write(port, addr, value)).Err?
                          then Some(respond(old(trace), Write(port, addr, value)).error) else None)
    {
      var answer := respond(trace, Write(port, addr, value));
      trace := trace + [Write(port, addr, value)];
      r := if answer.Err? then Err(answer.error) else Ok(());
    }

    /**
     * The default `DAPAccess::read_block`: `values.Length` reads of the same
     * register, stored in order; the first failure stops the loop, leaving
     * the elements from the failing one on as they were.
     */
    method ReadBlock(port: PortType, addr: u16, values: array<u32>) returns (r: Result<(), WireError>)
      requires hasDap
      modifies this, values
      ensures var o := Run(respond, old(trace), Repeat(Read(port, addr), values.Length));
        && trace == o.trace
        && values[..] == o.replies + old(values[..])[|o.replies|..]
        && r == UnitOf(o.failure)
    {
      ghost var script := Repeat(Read(port, addr), values.Length);
      ghost var t0 := trace;
      ghost var initial := values[..];
      var i := 0;
      while i < values.Length
        invariant 0 <= i <= values.Length
        invariant values[i..] == initial[i..]
        invariant Run(respond, t0, script) == Prefixed(values[..i], Run(respond, trace, script[i..]))
      {
        ghost var done := values[..i];
        ghost var before := trace;
        var v := ReadRegister(port, addr);
        if v.Err? {
          StepFails(respond, t0, script, done, before, i);
          assert values[..] == done + initial[i..];
          return Err(v.error);
        }
        StepAnswered(respond, t0, script, done, before, i);
        values[i] := v.value;
        assert values[..i + 1] == done + [v.value];
        assert values[i + 1..] == initial[i + 1..];
        i := i + 1;
      }
      assert values[..] == values[..i];
      return Ok(());
    }

    /**
     * The default `DAPAccess::write_block`: one write of each value, in
     * order, to the same register; the first failure stops the loop.
     */
    method WriteBlock(port: PortType, addr: u16, values: seq<u32>) returns (r: Result<(), WireError>)
      requires hasDap
      modifies this
      ensures var o := Run(respond, old(trace), WriteScript(port, addr, values));
        trace == o.trace && r == UnitOf(o.failure)
    {
      ghost var script := WriteScript(port, addr, values);
      ghost var t0 := trace;
      ghost var done: seq<u32> := [];
      var i := 0;
      while i < |values|
        invariant 0 <= i <= |values|
        invariant Run(respond, t0, script) == Prefixed(done, Run(respond, trace, script[i..]))
      {
        ghost var before := trace;
        var w := WriteRegister(port, addr, values[i]);
        if w.Err? {
          StepFails(respond, t0, script, done, before, i);
          return Err(w.error);
        }
        StepAnswered(respond, t0, script, done, before, i);
        done := done + [respond(before, script[i]).value];
        i := i + 1;
      }
      return Ok(());
    }
  }
}
