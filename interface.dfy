/**
 * The ADIv5 register layer over a probe's transport
 * (`InnerArmCommunicationInterface` and the shared `ArmCommunicationInterface`
 * handle): DP register access, the debug power-up handshake, and AP register
 * access behind a cache of the AP number and AP bank last put into SELECT.
 */
module Interface {
  import opened Common
  import opened Ports
  import opened Registers
  import opened Transport

  /** The probe errors this layer reports: no ARM register interface on the
      probe, or an ARM-specific error. */
  datatype DebugProbeError = InterfaceNotAvailable | Dap(error: DapError)

  function UnitResult(failure: Option<WireError>): Result<(), DebugProbeError> {
    match failure
    case None => Ok(())
    case Some(e) => Err(Dap(e))
  }

  /** The Access Port of a byte-sized AP number. */
  function ApPort(port: u8): PortType {
    AccessPort(port as u16)
  }

  function DpRead(address: u8): Access {
    Read(DebugPort, address as u16)
  }

  function DpWrite(address: u8, value: u32): Access {
    Write(DebugPort, address as u16, value)
  }

  predicate IsSelectWrite(a: Access) {
    a.Write? && a.port == DebugPort && a.addr == SelectAddress as u16
  }

  // ---------------------------------------------------------------------
  // Selection cache
  // ---------------------------------------------------------------------

  /** What the interface observes: every access issued so far and the cached
      AP number and AP bank. */
  datatype Wire = Wire(trace: seq<Access>, apSel: u8, apBankSel: u8)

  /**
   * The accesses `select_ap_and_ap_bank(port, apBank)` issues from the cache
   * (apSel, apBankSel): one SELECT write on the Debug Port, carrying both the
   * AP number and the AP bank, exactly when either differs from the cache;
   * nothing otherwise.
   */
  function SelectScript(apSel: u8, apBankSel: u8, port: u8, apBank: u8): (s: seq<Access>)
    ensures |s| <= 1
    ensures |s| == 1 <==> apSel != port || apBankSel != apBank
    ensures forall a | a in s ::
      && IsSelectWrite(a)
      && SelectApSel(a.value) == port
      && SelectApBankSel(a.value) == apBank % 0x10
      && SelectDpBankSel(a.value) == 0
  {
    SelectFields(port, apBank);
    if apSel != port || apBankSel != apBank then [DpWrite(SelectAddress, SelectValue(port, apBank))] else []
  }

  /** The replies, failure and new wire state of one AP operation. */
  datatype ApOutcome = ApOutcome(wire: Wire, replies: seq<u32>, failure: Option<WireError>)

  /**
   * One AP operation on `port` in bank `apBank`: the selection step, then
   * `body`. The cache takes the new pair before the SELECT write is issued,
   * so it changes even when that write fails; a failed selection write keeps
   * `body` off the wire.
   */
  function ApAccess(respond: Responder, w: Wire, port: u8, apBank: u8, body: seq<Access>): (o: ApOutcome)
    ensures o.failure.None? ==> |o.replies| == |body|
  {
    var sel := Run(respond, w.trace, SelectScript(w.apSel, w.apBankSel, port, apBank));
    if sel.failure.Some? then ApOutcome(Wire(sel.trace, port, apBank), [], sel.failure)
    else
      var o := Run(respond, sel.trace, body);
      ApOutcome(Wire(o.trace, port, apBank), o.replies, o.failure)
  }

  /** `read_ap_register`: the selection step, then one read. */
  function ApRead(respond: Responder, w: Wire, port: u8, reg: ApRegister): (Result<u32, DebugProbeError>, Wire) {
    var o := ApAccess(respond, w, port, reg.bank, [Read(ApPort(port), reg.address as u16)]);
    (match o.failure case Some(e) => Err(Dap(e)) case None => Ok(o.replies[0]), o.wire)
  }

  /** `write_ap_register`: the selection step, then one write. */
  function ApWrite(respond: Responder, w: Wire, port: u8, reg: ApRegister, value: u32): (Result<(), DebugProbeError>, Wire) {
    var o := ApAccess(respond, w, port, reg.bank, [Write(ApPort(port), reg.address as u16, value)]);
    (UnitResult(o.failure), o.wire)
  }

  /** Every access of `body` goes to an Access Port. */
  predicate OnAccessPorts(body: seq<Access>) {
    forall a | a in body :: a.port.AccessPort?
  }

  /**
   * The whole AP operation is the selection script followed by the body, run
   * as one script; the cache ends at (port, apBank) whatever the oracle
   * answers.
   */
  lemma ApAccessIsOneScript(respond: Responder, w: Wire, port: u8, apBank: u8, body: seq<Access>)
    ensures var o := ApAccess(respond, w, port, apBank, body);
      var whole := Run(respond, w.trace, SelectScript(w.apSel, w.apBankSel, port, apBank) + body);
      && o.wire.trace == whole.trace
      && o.failure == whole.failure
      && o.wire.apSel == port && o.wire.apBankSel == apBank
  {
    RunAppend(respond, w.trace, SelectScript(w.apSel, w.apBankSel, port, apBank), body);
  }

  /**
   * Routing of a single AP read: the accesses it adds are the selection
   * script and then exactly one read at (AccessPort(port), address), which is
   * never the Debug Port; the read is left off the wire exactly when the
   * SELECT write failed, and a value returned is the oracle's answer to it.
   */
  lemma ApReadRouting(respond: Responder, w: Wire, port: u8, reg: ApRegister)
    ensures var (r, w') := ApRead(respond, w, port, reg);
      var sel := SelectScript(w.apSel, w.apBankSel, port, reg.bank);
      var read := Read(ApPort(port), reg.address as u16);
      && ToU16(read.port) != DebugPortSentinel
      && (w'.trace == w.trace + sel + [read] || w'.trace == w.trace + sel)
      && (w'.trace == w.trace + sel <==> sel != [] && respond(w.trace, sel[0]).Err?)
      && (r.Ok? ==> w'.trace == w.trace + sel + [read] && respond(w.trace + sel, read) == Ok(r.value))
      && w'.apSel == port && w'.apBankSel == reg.bank
  {
    var sel := SelectScript(w.apSel, w.apBankSel, port, reg.bank);
    var read := Read(ApPort(port), reg.address as u16);
    var s := Run(respond, w.trace, sel);
    if sel != [] {
      RunStep(respond, w.trace, sel);
      assert sel[1..] == [];
    }
    if s.failure.None? {
      assert s.trace == w.trace + sel;
      RunStep(respond, s.trace, [read]);
      assert |w.trace + sel + [read]| != |w.trace + sel|;
    }
  }

  /** A transport answer, with its failure as a probe error. */
  function DapResult(answer: Result<u32, WireError>): Result<u32, DebugProbeError> {
    match answer
    case Ok(v) => Ok(v)
    case Err(e) => Err(Dap(e))
  }

  /** A read on the pair the cache already holds issues no SELECT write: the
      read alone goes on the wire and its answer is the result. */
  lemma ApReadCached(respond: Responder, w: Wire, port: u8, reg: ApRegister)
    requires w.apSel == port && w.apBankSel == reg.bank
    ensures var read := Read(ApPort(port), reg.address as u16);
      ApRead(respond, w, port, reg) == (DapResult(respond(w.trace, read)), Wire(w.trace + [read], port, reg.bank))
  {
    var read := Read(ApPort(port), reg.address as u16);
    assert SelectScript(w.apSel, w.apBankSel, port, reg.bank) == [];
    RunSingle(respond, w.trace, read);
  }

  /** How many SELECT writes a trace holds. */
  function SelectWrites(t: seq<Access>): nat {
    if t == [] then 0 else SelectWrites(t[..|t| - 1]) + if IsSelectWrite(t[|t| - 1]) then 1 else 0
  }

  lemma {:induction false} SelectWritesAppend(a: seq<Access>, b: seq<Access>)
    ensures SelectWrites(a + b) == SelectWrites(a) + SelectWrites(b)
    decreases |b|
  {
    if b == [] {
      assert a + b == a;
    } else {
      assert (a + b)[..|a + b| - 1] == a + b[..|b| - 1];
      SelectWritesAppend(a, b[..|b| - 1]);
    }
  }

  lemma {:induction false} NoSelectWritesOnAccessPorts(body: seq<Access>)
    requires OnAccessPorts(body)
    ensures SelectWrites(body) == 0
    decreases |body|
  {
    if body != [] {
      assert body[|body| - 1] in body;
      NoSelectWritesOnAccessPorts(body[..|body| - 1]);
    }
  }

  /** An AP operation whose body stays on the Access Ports adds one SELECT
      write to the trace when the pair changes and none otherwise, whether or
      not anything fails. */
  lemma ApAccessSelectWrites(respond: Responder, w: Wire, port: u8, apBank: u8, body: seq<Access>)
    requires OnAccessPorts(body)
    ensures SelectWrites(ApAccess(respond, w, port, apBank, body).wire.trace)
         == SelectWrites(w.trace) + if w.apSel != port || w.apBankSel != apBank then 1 else 0
  {
    var sel := SelectScript(w.apSel, w.apBankSel, port, apBank);
    var whole := sel + body;
    ApAccessIsOneScript(respond, w, port, apBank, body);
    var o := Run(respond, w.trace, whole);
    var k := Issued(o);
    if k <= |sel| {
      assert sel != [] ==> k == 1 by {
        if sel != [] && k == 0 {
          RunStep(respond, w.trace, whole);
          assert false;
        }
      }
      assert whole[..k] == sel[..k];
      assert sel == [] ==> k == 0;
    } else {
      assert whole[..k] == sel + body[..k - |sel|];
      assert OnAccessPorts(body[..k - |sel|]) by {
        forall a | a in body[..k - |sel|] ensures a.port.AccessPort? {
          assert a in body;
        }
      }
      NoSelectWritesOnAccessPorts(body[..k - |sel|]);
      SelectWritesAppend(sel, body[..k - |sel|]);
    }
    SelectWritesAppend(w.trace, whole[..k]);
    assert sel != [] ==> sel == [sel[0]];
  }

  /** A request for one AP operation. */
  datatype ApRequest = ApRequest(port: u8, apBank: u8, body: seq<Access>)

  /** The wire state after a series of AP operations, each issued whatever
      became of the ones before it. */
  function ApSeries(respond: Responder, w: Wire, reqs: seq<ApRequest>): Wire
    decreases |reqs|
  {
    if reqs == [] then w
    else ApSeries(respond, ApAccess(respond, w, reqs[0].port, reqs[0].apBank, reqs[0].body).wire, reqs[1..])
  }

  /** How often the requested pair differs from the one before it, starting
      from the cache (apSel, apBankSel). */
  function PairChanges(apSel: u8, apBankSel: u8, reqs: seq<ApRequest>): nat
    decreases |reqs|
  {
    if reqs == [] then 0
    else (if apSel != reqs[0].port || apBankSel != reqs[0].apBank then 1 else 0)
         + PairChanges(reqs[0].port, reqs[0].apBank, reqs[1..])
  }

  /** The SELECT writes a series of AP operations issues are exactly the
      changes of the requested pair: the cache depends only on the requests,
      never on the oracle. */
  lemma {:induction false} SeriesSelectWrites(respond: Responder, w: Wire, reqs: seq<ApRequest>)
    requires forall i :: 0 <= i < |reqs| ==> OnAccessPorts(reqs[i].body)
    ensures SelectWrites(ApSeries(respond, w, reqs).trace) == SelectWrites(w.trace) + PairChanges(w.apSel, w.apBankSel, reqs)
    ensures reqs != [] ==> ApSeries(respond, w, reqs).apSel == reqs[|reqs| - 1].port
    ensures reqs != [] ==> ApSeries(respond, w, reqs).apBankSel == reqs[|reqs| - 1].apBank
    decreases |reqs|
  {
    if reqs != [] {
      var o := ApAccess(respond, w, reqs[0].port, reqs[0].apBank, reqs[0].body);
      ApAccessSelectWrites(respond, w, reqs[0].port, reqs[0].apBank, reqs[0].body);
      ApAccessIsOneScript(respond, w, reqs[0].port, reqs[0].apBank, reqs[0].body);
      SeriesSelectWrites(respond, o.wire, reqs[1..]);
      assert ApSeries(respond, w, reqs) == ApSeries(respond, o.wire, reqs[1..]);
      assert PairChanges(w.apSel, w.apBankSel, reqs)
          == (if w.apSel != reqs[0].port || w.apBankSel != reqs[0].apBank then 1 else 0)
             + PairChanges(o.wire.apSel, o.wire.apBankSel, reqs[1..]);
      if |reqs| > 1 {
        assert reqs[1..][|reqs[1..]| - 1] == reqs[|reqs| - 1];
      }
    }
  }

  /** N operations on one (port, bank) pair change it at most once: once if
      the cache held another pair, never if it already held this one. */
  lemma {:induction false} SameTargetChangesAtMostOnce(apSel: u8, apBankSel: u8, port: u8, apBank: u8, reqs: seq<ApRequest>)
    requires forall i :: 0 <= i < |reqs| ==> reqs[i].port == port && reqs[i].apBank == apBank
    ensures PairChanges(apSel, apBankSel, reqs) == if reqs == [] || (apSel == port && apBankSel == apBank) then 0 else 1
    decreases |reqs|
  {
    if reqs != [] {
      SameTargetChangesAtMostOnce(port, apBank, port, apBank, reqs[1..]);
    }
  }

  /** Visiting AP 3 bank 1, then bank 2, then bank 1 again changes the
      selection three times: a revisit re-writes SELECT. */
  lemma RevisitReselects(apSel: u8, apBankSel: u8, b1: seq<Access>, b2: seq<Access>, b3: seq<Access>)
    requires apSel != 3 || apBankSel != 1
    ensures PairChanges(apSel, apBankSel, [ApRequest(3, 1, b1), ApRequest(3, 2, b2), ApRequest(3, 1, b3)]) == 3
  {
    var reqs := [ApRequest(3, 1, b1), ApRequest(3, 2, b2), ApRequest(3, 1, b3)];
    assert reqs[1..][1..][1..] == [];
    assert PairChanges(3, 2, reqs[1..][1..]) == 1;
    assert PairChanges(3, 1, reqs[1..]) == 2;
  }

  /** The value of the last SELECT write in a trace. */
  function LastSelect(t: seq<Access>): Option<u32> {
    if t == [] then None
    else if IsSelectWrite(t[|t| - 1]) then Some(t[|t| - 1].value)
    else LastSelect(t[..|t| - 1])
  }

  /** The cache agrees with the last SELECT value issued. */
  ghost predicate Coherent(w: Wire) {
    LastSelect(w.trace) == Some(SelectValue(w.apSel, w.apBankSel))
  }

  lemma {:induction false} LastSelectAppend(a: seq<Access>, b: seq<Access>)
    requires SelectWrites(b) == 0
    ensures LastSelect(a + b) == LastSelect(a)
    decreases |b|
  {
    if b == [] {
      assert a + b == a;
    } else {
      assert (a + b)[..|a + b| - 1] == a + b[..|b| - 1];
      LastSelectAppend(a, b[..|b| - 1]);
    }
  }

  /** An AP operation keeps the cache coherent with the last SELECT value it
      issued (the SELECT write is issued even when it then fails). */
  lemma ApAccessCoherent(respond: Responder, w: Wire, port: u8, apBank: u8, body: seq<Access>)
    requires Coherent(w) && OnAccessPorts(body)
    ensures Coherent(ApAccess(respond, w, port, apBank, body).wire)
  {
    var sel := SelectScript(w.apSel, w.apBankSel, port, apBank);
    var s := Run(respond, w.trace, sel);
    var o := ApAccess(respond, w, port, apBank, body);
    if sel != [] {
      RunStep(respond, w.trace, sel);
      assert s.trace == w.trace + [sel[0]];
    } else {
      assert s.trace == w.trace;
    }
    assert LastSelect(s.trace) == Some(SelectValue(port, apBank));
    if s.failure.None? {
      var b := Run(respond, s.trace, body);
      var part := body[..Issued(b)];
      assert OnAccessPorts(part) by {
        forall a | a in part ensures a.port.AccessPort? {
          assert a in body;
        }
      }
      NoSelectWritesOnAccessPorts(part);
      LastSelectAppend(s.trace, part);
    }
  }

  /** A DP access other than a SELECT write keeps the cache coherent. */
  lemma DpAccessCoherent(respond: Responder, w: Wire, a: Access)
    requires Coherent(w) && !IsSelectWrite(a)
    ensures Coherent(Wire(Run(respond, w.trace, [a]).trace, w.apSel, w.apBankSel))
  {
    var o := Run(respond, w.trace, [a]);
    RunStep(respond, w.trace, [a]);
    assert o.trace == w.trace + [a];
    assert o.trace[..|o.trace| - 1] == w.trace;
  }

  // ---------------------------------------------------------------------
  // Debug power-up
  // ---------------------------------------------------------------------

  /** The five accesses of `enter_debug_mode`, in order: read DPIDR, clear the
      sticky flags in ABORT, write SELECT = 0 (DP bank 0), request both power
      domains in CTRL/STAT, read CTRL/STAT back. */
  const PowerUpScript: seq<Access> := [
    DpRead(DpidrAddress),
    DpWrite(AbortAddress, ClearStickyErrors),
    DpWrite(SelectAddress, 0),
    DpWrite(CtrlStatAddress, PowerUpRequest),
    DpRead(CtrlStatAddress)
  ]

  /** `enter_debug_mode`'s result: the first transport failure, else
      `TargetPowerUpFailed` unless both acknowledge bits of the readback are
      set. */
  function PowerUpVerdict(o: RunOutcome): Result<(), DebugProbeError>
    requires o.failure.None? ==> |o.replies| == |PowerUpScript|
  {
    match o.failure
    case Some(e) => Err(Dap(e))
    case None => if PowerUpAcked(o.replies[4]) then Ok(()) else Err(Dap(TargetPowerUpFailed))
  }

  /**
   * The power-up fails with `TargetPowerUpFailed` exactly when all five
   * accesses succeeded and the CTRL/STAT readback lacks an acknowledge bit;
   * it succeeds exactly when they succeeded and both bits are set.
   */
  lemma PowerUpAckCheck(respond: Responder, t: seq<Access>)
    ensures var o := Run(respond, t, PowerUpScript);
      var readback := respond(t + PowerUpScript[..4], PowerUpScript[4]);
      && (PowerUpVerdict(o) == Err(Dap(TargetPowerUpFailed)) <==> o.failure.None? && readback.Ok? && !PowerUpAcked(readback.value))
      && (PowerUpVerdict(o).Ok? <==> o.failure.None? && readback.Ok? && PowerUpAcked(readback.value))
      && (o.failure.None? ==> readback.Ok?)
  {
    var o := Run(respond, t, PowerUpScript);
    if o.failure.None? {
      RunAnswered(respond, t, PowerUpScript, 4);
    }
  }

  /** A transport failure at step k of the power-up is returned unchanged:
      steps 1..k are on the wire in order and the later ones are not. */
  lemma PowerUpFailureTrace(respond: Responder, t: seq<Access>)
    requires Run(respond, t, PowerUpScript).failure.Some?
    ensures var o := Run(respond, t, PowerUpScript);
      var k := |o.replies|;
      && k < |PowerUpScript|
      && o.trace == t + PowerUpScript[..k + 1]
      && respond(t + PowerUpScript[..k], PowerUpScript[k]) == Err(o.failure.value)
      && PowerUpVerdict(o) == Err(Dap(o.failure.value))
  {
    RunFailed(respond, t, PowerUpScript);
  }

  /** On success all five accesses are on the wire and the last SELECT value
      is the selection of AP 0, bank 0, so the (0, 0) cache is coherent. */
  lemma PowerUpSuccessTrace(respond: Responder, t: seq<Access>)
    requires PowerUpVerdict(Run(respond, t, PowerUpScript)).Ok?
    ensures Run(respond, t, PowerUpScript).trace == t + PowerUpScript
    ensures Coherent(Wire(Run(respond, t, PowerUpScript).trace, 0, 0))
  {
    var o := Run(respond, t, PowerUpScript);
    assert Issued(o) == |PowerUpScript|;
    assert PowerUpScript[..Issued(o)] == PowerUpScript;
    var s := t + PowerUpScript;
    assert o.trace == s;
    var s4 := t + PowerUpScript[..4];
    var s3 := t + PowerUpScript[..3];
    assert s[..|s| - 1] == s4 && s[|s| - 1] == PowerUpScript[4];
    assert s4[..|s4| - 1] == s3 && s4[|s4| - 1] == PowerUpScript[3];
    assert s3[|s3| - 1] == PowerUpScript[2];
    assert LastSelect(s3) == Some(0);
    assert LastSelect(s4) == Some(0);
    assert LastSelect(s) == Some(0);
    SelectZero();
    assert Coherent(Wire(s, 0, 0));
  }

  // ---------------------------------------------------------------------
  // The interface object
  // ---------------------------------------------------------------------

  /** `InnerArmCommunicationInterface`: the probe it drives and the cached AP
      number and AP bank. */
  class ArmInterface {
    const probe: Probe
    var currentApSel: u8
    var currentApBankSel: u8

    /** Construction checked that the probe has a DAP interface. */
    ghost predicate Valid() {
      probe.hasDap
    }

    ghost function State(): Wire
      reads this, probe
    {
      Wire(probe.trace, currentApSel, currentApBankSel)
    }

    constructor (probe: Probe)
      ensures this.probe == probe && currentApSel == 0 && currentApBankSel == 0
    {
      this.probe := probe;
      currentApSel := 0;
      currentApBankSel := 0;
    }

    /**
     * `InnerArmCommunicationInterface::new`: without a DAP interface it fails
     * with `InterfaceNotAvailable` and issues nothing; otherwise it starts
     * with the cache at (0, 0) and runs the power-up handshake, whose result
     * decides its own.
     */
    static method New(probe: Probe) returns (r: Result<ArmInterface, DebugProbeError>)
      modifies probe
      ensures !probe.hasDap ==> r == Err(InterfaceNotAvailable) && probe.trace == old(probe.trace)
      ensures probe.hasDap ==>
        var o := Run(probe.respond, old(probe.trace), PowerUpScript);
        && probe.trace == o.trace
        && (r.Ok? <==> PowerUpVerdict(o).Ok?)
        && (r.Err? ==> r.error == PowerUpVerdict(o).error)
      ensures r.Ok? ==> && fresh(r.value) && r.value.probe == probe && r.value.Valid()
                        && r.value.currentApSel == 0 && r.value.currentApBankSel == 0
    {
      if !probe.hasDap {
        return Err(InterfaceNotAvailable);
      }
      var s := new ArmInterface(probe);
      var up := s.EnterDebugMode();
      if up.Err? {
        return Err(up.error);
      }
      return Ok(s);
    }

    /** `read_dp_register`: one read on the Debug Port. */
    method ReadDpRegister(address: u8) returns (r: Result<u32, DebugProbeError>)
      requires Valid()
      modifies probe
      ensures probe.trace == old(probe.trace) + [DpRead(address)]
      ensures var answer := probe.respond(old(probe.trace), DpRead(address));
        r == if answer.Ok? then Ok(answer.value) else Err(Dap(answer.error))
    {
      var v := probe.ReadRegister(DebugPort, address as u16);
      if v.Err? {
        return Err(Dap(v.error));
      }
      return Ok(v.value);
    }

    /** `write_dp_register`: one write on the Debug Port. */
    method WriteDpRegister(address: u8, value: u32) returns (r: Result<(), DebugProbeError>)
      requires Valid()
      modifies probe
      ensures probe.trace == old(probe.trace) + [DpWrite(address, value)]
      ensures var answer := probe.respond(old(probe.trace), DpWrite(address, value));
        r == if answer.Ok? then Ok(()) else Err(Dap(answer.error))
    {
      var w := probe.WriteRegister(DebugPort, address as u16, value);
      if w.Err? {
        return Err(Dap(w.error));
      }
      return Ok(());
    }

    /** `enter_debug_mode`: the five power-up accesses in order, stopping at
        the first failure, then the acknowledge check. */
    method EnterDebugMode() returns (r: Result<(), DebugProbeError>)
      requires Valid()
      modifies probe
      ensures var o := Run(probe.respond, old(probe.trace), PowerUpScript);
        probe.trace == o.trace && r == PowerUpVerdict(o)
    {
      ghost var respond := probe.respond;
      ghost var t0 := probe.trace;
      ghost var s := PowerUpScript;
      assert s[0..] == s;
      ghost var done: seq<u32> := [];
      ghost var before := t0;
      var dpId := ReadDpRegister(DpidrAddress);
      if dpId.Err? {
        StepFails(respond, t0, s, done, before, 0);
        return Err(dpId.error);
      }
      StepAnswered(respond, t0, s, done, before, 0);
      done, before := done + [dpId.value], probe.trace;
      var abort := WriteDpRegister(AbortAddress, ClearStickyErrors);
      if abort.Err? {
        StepFails(respond, t0, s, done, before, 1);
        return Err(abort.error);
      }
      StepAnswered(respond, t0, s, done, before, 1);
      done, before := done + [respond(before, s[1]).value], probe.trace;
      var select := WriteDpRegister(SelectAddress, 0);
      if select.Err? {
        StepFails(respond, t0, s, done, before, 2);
        return Err(select.error);
      }
      StepAnswered(respond, t0, s, done, before, 2);
      done, before := done + [respond(before, s[2]).value], probe.trace;
      var ctrl := WriteDpRegister(CtrlStatAddress, PowerUpRequest);
      if ctrl.Err? {
        StepFails(respond, t0, s, done, before, 3);
        return Err(ctrl.error);
      }
      StepAnswered(respond, t0, s, done, before, 3);
      done, before := done + [respond(before, s[3]).value], probe.trace;
      var readback := ReadDpRegister(CtrlStatAddress);
      if readback.Err? {
        StepFails(respond, t0, s, done, before, 4);
        return Err(readback.error);
      }
      StepAnswered(respond, t0, s, done, before, 4);
      assert s[5..] == [];
      assert Run(respond, t0, s).replies == done + [readback.value];
      if !PowerUpAcked(readback.value) {
        return Err(Dap(TargetPowerUpFailed));
      }
      return Ok(());
    }

    /**
     * `select_ap_and_ap_bank`: the cache takes (port, apBank) first; then,
     * if either half changed, one SELECT write carrying both is issued, and
     * its failure is returned.
     */
    method SelectApAndApBank(port: u8, apBank: u8) returns (r: Result<(), DebugProbeError>)
      requires Valid()
      modifies this, probe
      ensures currentApSel == port && currentApBankSel == apBank
      ensures var o := Run(probe.respond, old(probe.trace), SelectScript(old(currentApSel), old(currentApBankSel), port, apBank));
        probe.trace == o.trace && r == UnitResult(o.failure)
    {
      ghost var script := SelectScript(currentApSel, currentApBankSel, port, apBank);
      var cacheChanged := false;
      if currentApSel != port {
        currentApSel := port;
        cacheChanged := true;
      }
      if currentApBankSel != apBank {
        currentApBankSel := apBank;
        cacheChanged := true;
      }
      if cacheChanged {
        RunStep(probe.respond, probe.trace, script);
        var w := probe.WriteRegister(DebugPort, SelectAddress as u16, SelectValue(currentApSel, currentApBankSel));
        if w.Err? {
          return Err(Dap(w.error));
        }
      }
      return Ok(());
    }

    /** `read_ap_register`. */
    method ReadApRegister(port: u8, reg: ApRegister) returns (r: Result<u32, DebugProbeError>)
      requires Valid()
      modifies this, probe
      ensures (r, State()) == ApRead(probe.respond, old(State()), port, reg)
    {
      var sel := SelectApAndApBank(port, reg.bank);
      if sel.Err? {
        return Err(sel.error);
      }
      RunStep(probe.respond, probe.trace, [Read(ApPort(port), reg.address as u16)]);
      var v := probe.ReadRegister(AccessPort(currentApSel as u16), reg.address as u16);
      if v.Err? {
        return Err(Dap(v.error));
      }
      return Ok(v.value);
    }

    /** `write_ap_register`. */
    method WriteApRegister(port: u8, reg: ApRegister, value: u32) returns (r: Result<(), DebugProbeError>)
      requires Valid()
      modifies this, probe
      ensures (r, State()) == ApWrite(probe.respond, old(State()), port, reg, value)
    {
      var sel := SelectApAndApBank(port, reg.bank);
      if sel.Err? {
        return Err(sel.error);
      }
      RunStep(probe.respond, probe.trace, [Write(ApPort(port), reg.address as u16, value)]);
      var w := probe.WriteRegister(AccessPort(currentApSel as u16), reg.address as u16, value);
      if w.Err? {
        return Err(Dap(w.error));
      }
      return Ok(());
    }

    /** `read_ap_register_repeated`: the selection step, then a block read of
        `values.Length` words from the same register into `values`. */
    method ReadApRegisterRepeated(port: u8, reg: ApRegister, values: array<u32>) returns (r: Result<(), DebugProbeError>)
      requires Valid()
      modifies this, probe, values
      ensures var o := ApAccess(probe.respond, old(State()), port, reg.bank,
                                Repeat(Read(ApPort(port), reg.address as u16), values.Length));
        && State() == o.wire
        && values[..] == o.replies + old(values[..])[|o.replies|..]
        && r == UnitResult(o.failure)
    {
      var sel := SelectApAndApBank(port, reg.bank);
      if sel.Err? {
        return Err(sel.error);
      }
      var b := probe.ReadBlock(AccessPort(currentApSel as u16), reg.address as u16, values);
      if b.Err? {
        return Err(Dap(b.error));
      }
      return Ok(());
    }

    /** `write_ap_register_repeated`: the selection step, then a block write
        of `values` to the same register. */
    method WriteApRegisterRepeated(port: u8, reg: ApRegister, values: seq<u32>) returns (r: Result<(), DebugProbeError>)
      requires Valid()
      modifies this, probe
      ensures var o := ApAccess(probe.respond, old(State()), port, reg.bank,
                                WriteScript(ApPort(port), reg.address as u16, values));
        State() == o.wire && r == UnitResult(o.failure)
    {
      var sel := SelectApAndApBank(port, reg.bank);
      if sel.Err? {
        return Err(sel.error);
      }
      var b := probe.WriteBlock(AccessPort(currentApSel as u16), reg.address as u16, values);
      if b.Err? {
        return Err(Dap(b.error));
      }
      return Ok(());
    }
  }

  // ---------------------------------------------------------------------
  // The shared session handle
  // ---------------------------------------------------------------------

  /** What `close` gives back: the probe, or the handle itself. */
  datatype Reclaim = Reclaimed(probe: Probe) | StillShared(handle: Session)

  /** `ArmCommunicationInterface`: one interface state shared by `owners`
      handles. */
  class Session {
    const inner: ArmInterface
    var owners: nat

    constructor (inner: ArmInterface)
      ensures this.inner == inner && owners == 1
    {
      this.inner := inner;
      owners := 1;
    }

    /** `ArmCommunicationInterface::new`: the interface's construction, shared
        by a single handle. */
    static method New(probe: Probe) returns (r: Result<Session, DebugProbeError>)
      modifies probe
      ensures !probe.hasDap ==> r == Err(InterfaceNotAvailable) && probe.trace == old(probe.trace)
      ensures probe.hasDap ==>
        var o := Run(probe.respond, old(probe.trace), PowerUpScript);
        && probe.trace == o.trace
        && (r.Ok? <==> PowerUpVerdict(o).Ok?)
        && (r.Err? ==> r.error == PowerUpVerdict(o).error)
      ensures r.Ok? ==> && fresh(r.value) && fresh(r.value.inner) && r.value.owners == 1
                        && r.value.inner.probe == probe && r.value.inner.Valid()
                        && r.value.inner.currentApSel == 0 && r.value.inner.currentApBankSel == 0
    {
      var i := ArmInterface.New(probe);
      if i.Err? {
        return Err(i.error);
      }
      var s := new Session(i.value);
      return Ok(s);
    }

    /** Cloning a handle: one more owner of the same state. */
    method Share()
      requires owners >= 1
      modifies this
      ensures owners == old(owners) + 1
    {
      owners := owners + 1;
    }

    /** Dropping a handle. */
    method Release()
      requires owners >= 1
      modifies this
      ensures owners == old(owners) - 1
    {
      owners := owners - 1;
    }

    /**
     * `close`: the sole owner gets the probe back and the state is gone;
     * while other handles are live the same handle is returned and nothing
     * changes.
     */
    method Close() returns (r: Reclaim)
      requires owners >= 1
      modifies this
      ensures old(owners) == 1 ==> r == Reclaimed(inner.probe) && owners == 0
      ensures old(owners) > 1 ==> r == StillShared(this) && owners == old(owners)
      ensures unchanged(inner, inner.probe)
    {
      if owners == 1 {
        owners := 0;
        return Reclaimed(inner.probe);
      }
      return StillShared(this);
    }
  }

  /** Reclaim with two live handles fails twice, leaving the handle as it
      was; after one is dropped it succeeds once and yields the original
      probe. */
  method ReclaimScenario(s: Session) returns (first: Reclaim, second: Reclaim, third: Reclaim)
    requires s.owners == 2
    modifies s
    ensures first == StillShared(s) && second == StillShared(s)
    ensures third == Reclaimed(s.inner.probe) && s.owners == 0
  {
    first := s.Close();
    second := s.Close();
    s.Release();
    third := s.Close();
  }
}
