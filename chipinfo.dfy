/**
 * Chip identification (`ArmChipInfo::read_from_rom_table`) and its display
 * form: scan the Access Ports, and for each Memory Access Port locate the ROM
 * table from BASE (and BASE2), hand it to the component decoder, and report
 * the JEP106 manufacturer and part number of the first class 0x1 ROM table
 * that carries a manufacturer code.
 */
module ChipInfo {
  import opened Common
  import opened Ports
  import opened Registers
  import opened Transport
  import opened Interface

  /** A JEP106 manufacturer code: continuation code and identity code. */
  datatype Jep106Code = Jep106Code(cc: u8, id: u8)

  datatype ArmChipInfo = ArmChipInfo(manufacturer: Jep106Code, part: u16)

  /** What the component decoder made of the ROM table: a class 0x1 ROM table
      with the JEP106 code and part number of its peripheral ID, or any other
      component. */
  datatype Component = Class1RomTable(jep106: Option<Jep106Code>, part: u16) | OtherComponent

  datatype DecodeError = DecodeError(code: nat)

  /** The component decoder, given the Memory Access Port and the ROM table
      base address. */
  type Decoder = (u8, u64) -> Result<Component, DecodeError>

  /** The errors identification reports: a register access failure, or a
      decoder failure. */
  datatype IdentifyError = ProbeFailure(error: DebugProbeError) | DecodeFailure(cause: DecodeError)

  /** The IDR, BASE and BASE2 reads on Access Port `n`. */
  function IdrRead(n: u8): Access {
    Read(ApPort(n), Idr.address as u16)
  }

  function BaseRead(n: u8): Access {
    Read(ApPort(n), Base.address as u16)
  }

  function Base2Read(n: u8): Access {
    Read(ApPort(n), Base2.address as u16)
  }

  /** What one port contributes to the scan. */
  datatype PortVerdict = Found(info: ArmChipInfo) | Skipped | Failed(error: IdentifyError)

  /** The decoder's verdict on the ROM table at `base`. */
  function Identify(decode: Decoder, port: u8, base: u64): PortVerdict {
    match decode(port, base)
    case Err(d) => Failed(DecodeFailure(d))
    case Ok(Class1RomTable(Some(jep106), part)) => Found(ArmChipInfo(jep106, part))
    case Ok(_) => Skipped
  }

  /**
   * One iteration of the scan: read IDR; a port that is not a MEM-AP is
   * skipped without touching BASE; a MEM-AP goes on to the ROM table.
   */
  function ProbePort(respond: Responder, decode: Decoder, w: Wire, port: u8): (PortVerdict, Wire) {
    var (idr, w1) := ApRead(respond, w, port, Idr);
    if idr.Err? then (Failed(ProbeFailure(idr.error)), w1)
    else if IdrClass(idr.value) != MemApClass then (Skipped, w1)
    else ProbeMemAp(respond, decode, w1, port)
  }

  /** The MEM-AP part of an iteration: read BASE, and BASE2 when BASE is in
      the ADIv5 format, and decode the ROM table at the resulting address. */
  function ProbeMemAp(respond: Responder, decode: Decoder, w: Wire, port: u8): (PortVerdict, Wire) {
    var (base, w1) := ApRead(respond, w, port, Base);
    if base.Err? then (Failed(ProbeFailure(base.error)), w1)
    else if BaseFormat(base.value) == Legacy then
      (Identify(decode, port, BaseAddress(BaseAddrField(base.value), None)), w1)
    else
      var (base2, w2) := ApRead(respond, w1, port, Base2);
      if base2.Err? then (Failed(ProbeFailure(base2.error)), w2)
      else (Identify(decode, port, BaseAddress(BaseAddrField(base.value), Some(base2.value))), w2)
  }

  /** The scan's result when a port's verdict ends it. */
  function VerdictResult(verdict: PortVerdict): Result<Option<ArmChipInfo>, IdentifyError> {
    match verdict
    case Found(info) => Ok(Some(info))
    case Failed(e) => Err(e)
    case Skipped => Ok(None)
  }

  /** The body of one iteration, as a value: the verdict for a port and the
      wire state after it. */
  type PortStep = (Wire, u8) -> (PortVerdict, Wire)

  /** The loop of the scan over any iteration body: the first identified
      chip or the first error ends it; running out of ports means no chip
      was identified. */
  function ScanWith(step: PortStep, w: Wire, ports: seq<u8>): (Result<Option<ArmChipInfo>, IdentifyError>, Wire)
    decreases |ports|
  {
    if ports == [] then (Ok(None), w)
    else
      var (verdict, w1) := step(w, ports[0]);
      match verdict
      case Found(info) => (Ok(Some(info)), w1)
      case Failed(e) => (Err(e), w1)
      case Skipped => ScanWith(step, w1, ports[1..])
  }

  /** The iteration body of `read_from_rom_table`. */
  function Prober(respond: Responder, decode: Decoder): PortStep {
    (w: Wire, port: u8) => ProbePort(respond, decode, w, port)
  }

  /** The scan over `ports` with that body. */
  function Scan(respond: Responder, decode: Decoder, w: Wire, ports: seq<u8>): (Result<Option<ArmChipInfo>, IdentifyError>, Wire) {
    ScanWith(Prober(respond, decode), w, ports)
  }

  /** `ArmChipInfo::read_from_rom_table` over the shared session, given the
      valid Access Ports in enumeration order. */
  method ReadFromRomTable(session: Session, ports: seq<u8>, decode: Decoder) returns (r: Result<Option<ArmChipInfo>, IdentifyError>)
    requires session.inner.Valid()
    modifies session.inner, session.inner.probe
    ensures (r, session.inner.State()) == Scan(session.inner.probe.respond, decode, old(session.inner.State()), ports)
  {
    var inner := session.inner;
    ghost var respond := inner.probe.respond;
    ghost var w0 := inner.State();
    var i := 0;
    while i < |ports|
      invariant 0 <= i <= |ports|
      invariant Scan(respond, decode, w0, ports) == Scan(respond, decode, inner.State(), ports[i..])
    {
      assert ports[i..][0] == ports[i] && ports[i..][1..] == ports[i + 1..];
      var verdict := ProbeAccessPort(inner, ports[i], decode);
      match verdict {
        case Found(info) =>
          return Ok(Some(info));
        case Failed(e) =>
          return Err(e);
        case Skipped =>
      }
      i := i + 1;
    }
    return Ok(None);
  }

  /** The body of the scan for one port. */
  method ProbeAccessPort(inner: ArmInterface, port: u8, decode: Decoder) returns (verdict: PortVerdict)
    requires inner.Valid()
    modifies inner, inner.probe
    ensures (verdict, inner.State()) == ProbePort(inner.probe.respond, decode, old(inner.State()), port)
  {
    var idr := inner.ReadApRegister(port, Idr);
    if idr.Err? {
      return Failed(ProbeFailure(idr.error));
    }
    if IdrClass(idr.value) != MemApClass {
      return Skipped;
    }
    var base := inner.ReadApRegister(port, Base);
    if base.Err? {
      return Failed(ProbeFailure(base.error));
    }
    var high: Option<u32> := None;
    if BaseFormat(base.value) == ADIv5 {
      var base2 := inner.ReadApRegister(port, Base2);
      if base2.Err? {
        return Failed(ProbeFailure(base2.error));
      }
      high := Some(base2.value);
    }
    var component := decode(port, BaseAddress(BaseAddrField(base.value), high));
    match component {
      case Err(d) =>
        return Failed(DecodeFailure(d));
      case Ok(Class1RomTable(Some(jep106), part)) =>
        return Found(ArmChipInfo(jep106, part));
      case Ok(_) =>
        return Skipped;
    }
  }

  // ---------------------------------------------------------------------
  // Properties of the scan
  // ---------------------------------------------------------------------

  /** A port whose IDR class is not MEM-AP is skipped after the selection
      step and the IDR read: BASE is never read. */
  lemma NonMemApSkipped(respond: Responder, decode: Decoder, w: Wire, port: u8)
    requires ApRead(respond, w, port, Idr).0.Ok?
    requires IdrClass(ApRead(respond, w, port, Idr).0.value) != MemApClass
    ensures ProbePort(respond, decode, w, port).0 == Skipped
    ensures ProbePort(respond, decode, w, port).1.trace
         == w.trace + SelectScript(w.apSel, w.apBankSel, port, Idr.bank) + [Read(ApPort(port), Idr.address as u16)]
  {
    ApReadRouting(respond, w, port, Idr);
  }

  /** Probing one port issues at most one SELECT write, and none when the
      cache already holds (port, 0xF): IDR, BASE and BASE2 share a bank. */
  lemma ProbePortSelectsOnce(respond: Responder, decode: Decoder, w: Wire, port: u8)
    ensures SelectWrites(ProbePort(respond, decode, w, port).1.trace)
         == SelectWrites(w.trace) + if w.apSel != port || w.apBankSel != 0xF then 1 else 0
  {
    IdentificationBank();
    var (idr, w1) := ApRead(respond, w, port, Idr);
    ReadSelectWrites(respond, w, port, Idr);
    if idr.Ok? && IdrClass(idr.value) == MemApClass {
      MemApSelectsNothing(respond, decode, w1, port);
    }
  }

  /** With the cache at (port, 0xF), reading BASE and BASE2 issues no SELECT
      write. */
  lemma MemApSelectsNothing(respond: Responder, decode: Decoder, w: Wire, port: u8)
    requires w.apSel == port && w.apBankSel == 0xF
    ensures SelectWrites(ProbeMemAp(respond, decode, w, port).1.trace) == SelectWrites(w.trace)
  {
    IdentificationBank();
    var (base, w1) := ApRead(respond, w, port, Base);
    ReadSelectWrites(respond, w, port, Base);
    if base.Ok? && BaseFormat(base.value) == ADIv5 {
      ReadSelectWrites(respond, w1, port, Base2);
    }
  }

  lemma ReadSelectWrites(respond: Responder, w: Wire, port: u8, reg: ApRegister)
    ensures SelectWrites(ApRead(respond, w, port, reg).1.trace)
         == SelectWrites(w.trace) + if w.apSel != port || w.apBankSel != reg.bank then 1 else 0
    ensures ApRead(respond, w, port, reg).1.apSel == port && ApRead(respond, w, port, reg).1.apBankSel == reg.bank
  {
    var body := [Read(ApPort(port), reg.address as u16)];
    assert OnAccessPorts(body);
    ApAccessSelectWrites(respond, w, port, reg.bank, body);
  }

  /** Once a prefix of the ports has decided the outcome (a chip or an
      error), the ports after it are never looked at. */
  lemma {:induction false} ScanDecided(step: PortStep, w: Wire, ports: seq<u8>, more: seq<u8>)
    requires ScanWith(step, w, ports).0 != Ok(None)
    ensures ScanWith(step, w, ports + more) == ScanWith(step, w, ports)
    decreases |ports|
  {
    assert (ports + more)[0] == ports[0] && (ports + more)[1..] == ports[1..] + more;
    var (verdict, w1) := step(w, ports[0]);
    if verdict.Skipped? {
      ScanDecided(step, w1, ports[1..], more);
    }
  }

  /** A prefix that identified nothing hands its wire state on to the rest of
      the scan. */
  lemma {:induction false} ScanContinues(step: PortStep, w: Wire, ports: seq<u8>, more: seq<u8>)
    requires ScanWith(step, w, ports).0 == Ok(None)
    ensures ScanWith(step, w, ports + more) == ScanWith(step, ScanWith(step, w, ports).1, more)
    decreases |ports|
  {
    if ports == [] {
      assert ports + more == more;
    } else {
      assert (ports + more)[0] == ports[0] && (ports + more)[1..] == ports[1..] + more;
      var (verdict, w1) := step(w, ports[0]);
      ScanContinues(step, w1, ports[1..], more);
    }
  }

  /** A verdict that is a chip or a decoder error is what the decoder said
      about the port at a base address made of a BASE value and, exactly in
      the ADIv5 format, a BASE2 value. */
  ghost predicate Backed(decode: Decoder, port: u8, v: PortVerdict) {
    (v.Found? || (v.Failed? && v.error.DecodeFailure?)) ==>
      exists b: u32, h: Option<u32> :: (h.Some? <==> BaseFormat(b) == ADIv5) &&
        Identify(decode, port, BaseAddress(BaseAddrField(b), h)) == v
  }

  /** Every verdict of an iteration is backed by the decoder. */
  lemma ProbePortDecoded(respond: Responder, decode: Decoder, w: Wire, port: u8)
    ensures Backed(decode, port, ProbePort(respond, decode, w, port).0)
  {
    var v := ProbePort(respond, decode, w, port).0;
    var (idr, w1) := ApRead(respond, w, port, Idr);
    if idr.Ok? && IdrClass(idr.value) == MemApClass {
      var (base, w2) := ApRead(respond, w1, port, Base);
      if base.Ok? {
        var b := base.value;
        if BaseFormat(b) == Legacy {
          var h: Option<u32> := None;
          assert (h.Some? <==> BaseFormat(b) == ADIv5) && Identify(decode, port, BaseAddress(BaseAddrField(b), h)) == v;
        } else {
          var (base2, w3) := ApRead(respond, w2, port, Base2);
          if base2.Ok? {
            var h: Option<u32> := Some(base2.value);
            assert (h.Some? <==> BaseFormat(b) == ADIv5) && Identify(decode, port, BaseAddress(BaseAddrField(b), h)) == v;
          }
        }
      }
    }
  }

  /**
   * The MEM-AP path of one iteration in terms of the target's answers: after
   * the selection step and the IDR read, BASE is read with no further
   * selection; BASE2 is read exactly when the BASE answer is in the ADIv5
   * format; the decoder is asked about the base address those answers make.
   */
  lemma MemApProbed(respond: Responder, decode: Decoder, w: Wire, port: u8)
    requires ApRead(respond, w, port, Idr).0.Ok?
    requires IdrClass(ApRead(respond, w, port, Idr).0.value) == MemApClass
    ensures var t1 := w.trace + SelectScript(w.apSel, w.apBankSel, port, Idr.bank) + [IdrRead(port)];
      var b := respond(t1, BaseRead(port));
      var t2 := t1 + [BaseRead(port)];
      var h := respond(t2, Base2Read(port));
      var t3 := t2 + [Base2Read(port)];
      ProbePort(respond, decode, w, port)
        == if b.Err? then (Failed(ProbeFailure(Dap(b.error))), Wire(t2, port, 0xF))
           else if BaseFormat(b.value) == Legacy then
             (Identify(decode, port, BaseAddress(BaseAddrField(b.value), None)), Wire(t2, port, 0xF))
           else if h.Err? then (Failed(ProbeFailure(Dap(h.error))), Wire(t3, port, 0xF))
           else (Identify(decode, port, BaseAddress(BaseAddrField(b.value), Some(h.value))), Wire(t3, port, 0xF))
  {
    IdentificationBank();
    ApReadRouting(respond, w, port, Idr);
    var w1 := ApRead(respond, w, port, Idr).1;
    ApReadCached(respond, w1, port, Base);
    var w2 := ApRead(respond, w1, port, Base).1;
    ApReadCached(respond, w2, port, Base2);
  }

  /** An identified chip is the manufacturer code and part number of a class
      0x1 ROM table the decoder found behind one of the ports, at the base
      address made of a BASE value and (exactly in the ADIv5 format) a BASE2
      value; a decoder error is surfaced as it was reported. */
  lemma ScanReportsDecoder(respond: Responder, decode: Decoder, w: Wire, ports: seq<u8>)
    ensures var r := Scan(respond, decode, w, ports).0;
      && (r.Ok? && r.value.Some? ==>
            exists i, b: u32, h: Option<u32> :: 0 <= i < |ports| && (h.Some? <==> BaseFormat(b) == ADIv5) &&
              decode(ports[i], BaseAddress(BaseAddrField(b), h))
                == Ok(Class1RomTable(Some(r.value.value.manufacturer), r.value.value.part)))
      && (r.Err? && r.error.DecodeFailure? ==>
            exists i, b: u32, h: Option<u32> :: 0 <= i < |ports| && (h.Some? <==> BaseFormat(b) == ADIv5) &&
              decode(ports[i], BaseAddress(BaseAddrField(b), h)) == Err(r.error.cause))
  {
    var step := Prober(respond, decode);
    forall v: Wire, port: u8 ensures Backed(decode, port, step(v, port).0) {
      ProbePortDecoded(respond, decode, v, port);
    }
    ScanBacked(step, decode, w, ports);
  }

  /** The same for any iteration body whose verdicts are backed by the
      decoder. */
  lemma ScanBacked(step: PortStep, decode: Decoder, w: Wire, ports: seq<u8>)
    requires forall v: Wire, port: u8 :: Backed(decode, port, step(v, port).0)
    ensures var r := ScanWith(step, w, ports).0;
      && (r.Ok? && r.value.Some? ==>
            exists i, b: u32, h: Option<u32> :: 0 <= i < |ports| && (h.Some? <==> BaseFormat(b) == ADIv5) &&
              decode(ports[i], BaseAddress(BaseAddrField(b), h))
                == Ok(Class1RomTable(Some(r.value.value.manufacturer), r.value.value.part)))
      && (r.Err? && r.error.DecodeFailure? ==>
            exists i, b: u32, h: Option<u32> :: 0 <= i < |ports| && (h.Some? <==> BaseFormat(b) == ADIv5) &&
              decode(ports[i], BaseAddress(BaseAddrField(b), h)) == Err(r.error.cause))
  {
    var r := ScanWith(step, w, ports).0;
    if (r.Ok? && r.value.Some?) || (r.Err? && r.error.DecodeFailure?) {
      ScanDecidedAt(step, w, ports);
      var i :| 0 <= i < |ports| && DecidedAt(step, w, ports, i);
      var before := ScanWith(step, w, ports[..i]).1;
      var v := step(before, ports[i]).0;
      assert r == VerdictResult(v);
      assert Backed(decode, ports[i], v);
      var b: u32, h: Option<u32> :| (h.Some? <==> BaseFormat(b) == ADIv5) &&
        Identify(decode, ports[i], BaseAddress(BaseAddrField(b), h)) == v;
      if v.Found? {
        assert decode(ports[i], BaseAddress(BaseAddrField(b), h)) == Ok(Class1RomTable(Some(v.info.manufacturer), v.info.part));
      }
    }
  }

  /** A scan that yields a chip or an error was decided by one port: every
      port before it was skipped, and its verdict and wire state are the
      scan's. */
  lemma {:induction false} ScanDecidedAt(step: PortStep, w: Wire, ports: seq<u8>)
    requires ScanWith(step, w, ports).0 != Ok(None)
    ensures exists i :: 0 <= i < |ports| && DecidedAt(step, w, ports, i)
    decreases |ports|
  {
    assert ports[..0] == [];
    var p := step(w, ports[0]);
    if p.0.Skipped? {
      var rest := ports[1..];
      assert ScanWith(step, w, ports) == ScanWith(step, p.1, rest);
      ScanDecidedAt(step, p.1, rest);
      var i :| 0 <= i < |rest| && DecidedAt(step, p.1, rest, i);
      var prefix := ports[..i + 1];
      assert prefix[0] == ports[0] && prefix[1..] == rest[..i];
      assert ScanWith(step, w, prefix) == ScanWith(step, p.1, rest[..i]);
      assert rest[i] == ports[i + 1];
      assert DecidedAt(step, w, ports, i + 1);
    } else {
      assert DecidedAt(step, w, ports, 0);
    }
  }

  /** Port `i` decides the scan: the ports before it yield nothing, and it
      does not skip. */
  ghost predicate DecidedAt(step: PortStep, w: Wire, ports: seq<u8>, i: nat)
    requires i < |ports|
  {
    var before := ScanWith(step, w, ports[..i]);
    var p := step(before.1, ports[i]);
    && before.0 == Ok(None)
    && !p.0.Skipped?
    && ScanWith(step, w, ports) == (VerdictResult(p.0), p.1)
  }

  /** The verdict of the first port that is not skipped decides the scan,
      whatever the ports after it: a register or decoder failure is returned
      as the error, never turned into "no chip". */
  lemma ScanFirstDecisive(step: PortStep, w: Wire, skipped: seq<u8>, port: u8, more: seq<u8>)
    requires ScanWith(step, w, skipped).0 == Ok(None)
    requires !step(ScanWith(step, w, skipped).1, port).0.Skipped?
    ensures var (verdict, w') := step(ScanWith(step, w, skipped).1, port);
      ScanWith(step, w, skipped + [port] + more) == (VerdictResult(verdict), w')
  {
    assert skipped + [port] + more == skipped + ([port] + more);
    ScanContinues(step, w, skipped, [port] + more);
    assert ([port] + more)[0] == port;
  }

  /** Every access an AP read adds to the trace was answered exactly when it
      succeeded; when it failed, the error is the oracle's answer to its last
      access. */
  lemma ApReadAnswered(respond: Responder, w: Wire, port: u8, reg: ApRegister)
    ensures var v := ApRead(respond, w, port, reg);
      && (v.0.Ok? <==> AllAnswered(respond, w.trace, v.1.trace))
      && (v.0.Err? ==> LastAccessFailed(respond, w.trace, v.1.trace, v.0.error))
  {
    var body := [Read(ApPort(port), reg.address as u16)];
    var script := SelectScript(w.apSel, w.apBankSel, port, reg.bank) + body;
    ApAccessIsOneScript(respond, w, port, reg.bank, body);
    RunAllAnswered(respond, w.trace, script);
    var o := Run(respond, w.trace, script);
    if o.failure.Some? {
      RunFailed(respond, w.trace, script);
      var k := |o.replies|;
      assert o.trace == w.trace + script[..k] + [script[k]];
    }
  }

  /** The trace grew past `t0`, and `error` is the oracle's answer to its
      last access. */
  ghost predicate LastAccessFailed(respond: Responder, t0: seq<Access>, t1: seq<Access>, error: DebugProbeError) {
    && error.Dap? && |t0| < |t1|
    && respond(t1[..|t1| - 1], t1[|t1| - 1]) == Err(error.error)
  }

  lemma AllAnsweredTransitive(respond: Responder, a: seq<Access>, b: seq<Access>, c: seq<Access>)
    requires AllAnswered(respond, a, b) && AllAnswered(respond, b, c)
    ensures AllAnswered(respond, a, c)
  {
    forall j | |a| <= j < |c| ensures respond(c[..j], c[j]).Ok? {
      if j < |b| {
        assert c[..j] == b[..j] && c[j] == b[j];
      }
    }
  }

  /** What a port's verdict says about the wire: a register failure is the
      oracle's answer to the last access; any other verdict means every
      access was answered. */
  lemma ProbePortAnswered(respond: Responder, decode: Decoder, w: Wire, port: u8)
    ensures var v := ProbePort(respond, decode, w, port);
      && (!(v.0.Failed? && v.0.error.ProbeFailure?) ==> AllAnswered(respond, w.trace, v.1.trace))
      && (v.0.Failed? && v.0.error.ProbeFailure? ==> LastAccessFailed(respond, w.trace, v.1.trace, v.0.error.error))
  {
    var (idr, w1) := ApRead(respond, w, port, Idr);
    ApReadAnswered(respond, w, port, Idr);
    if idr.Ok? && IdrClass(idr.value) == MemApClass {
      MemApAnswered(respond, decode, w1, port);
      var v := ProbeMemAp(respond, decode, w1, port);
      if !(v.0.Failed? && v.0.error.ProbeFailure?) {
        AllAnsweredTransitive(respond, w.trace, w1.trace, v.1.trace);
      }
    }
  }

  lemma MemApAnswered(respond: Responder, decode: Decoder, w: Wire, port: u8)
    ensures var v := ProbeMemAp(respond, decode, w, port);
      && (!(v.0.Failed? && v.0.error.ProbeFailure?) ==> AllAnswered(respond, w.trace, v.1.trace))
      && (v.0.Failed? && v.0.error.ProbeFailure? ==> LastAccessFailed(respond, w.trace, v.1.trace, v.0.error.error))
  {
    var (base, w1) := ApRead(respond, w, port, Base);
    ApReadAnswered(respond, w, port, Base);
    if base.Ok? && BaseFormat(base.value) == ADIv5 {
      var (base2, w2) := ApRead(respond, w1, port, Base2);
      ApReadAnswered(respond, w1, port, Base2);
      if base2.Ok? {
        AllAnsweredTransitive(respond, w.trace, w1.trace, w2.trace);
      }
    }
  }

  /** The same for the whole scan: a chip, "no chip" or a decoder error means
      every register access was answered; a probe error is the oracle's
      answer to the last access that was issued, and is always a wire-level
      error (never a missing interface or a power-up failure). */
  lemma {:induction false} ScanAnswered(respond: Responder, decode: Decoder, w: Wire, ports: seq<u8>)
    ensures var v := Scan(respond, decode, w, ports);
      && (!(v.0.Err? && v.0.error.ProbeFailure?) ==> AllAnswered(respond, w.trace, v.1.trace))
      && (v.0.Err? && v.0.error.ProbeFailure? ==>
            LastAccessFailed(respond, w.trace, v.1.trace, v.0.error.error) && !v.0.error.error.error.TargetPowerUpFailed?)
    decreases |ports|
  {
    if ports != [] {
      var p := ProbePort(respond, decode, w, ports[0]);
      ProbePortAnswered(respond, decode, w, ports[0]);
      if p.0.Skipped? {
        ScanAnswered(respond, decode, p.1, ports[1..]);
        var v := Scan(respond, decode, p.1, ports[1..]);
        assert Scan(respond, decode, w, ports) == v;
        if !(v.0.Err? && v.0.error.ProbeFailure?) {
          AllAnsweredTransitive(respond, w.trace, p.1.trace, v.1.trace);
        }
      }
    }
  }

  /** A device all of whose Access Ports answer IDR with a class other than
      MEM-AP (and that accepts every SELECT write) yields no chip: every port
      is skipped. */
  lemma {:induction false} NoMemApNoChip(respond: Responder, decode: Decoder, w: Wire, ports: seq<u8>)
    requires forall h: seq<Access>, v: u32 :: respond(h, DpWrite(SelectAddress, v)).Ok?
    requires forall h: seq<Access>, n: u8 ::
      respond(h, IdrRead(n)).Ok? && IdrClass(respond(h, IdrRead(n)).value) != MemApClass
    ensures Scan(respond, decode, w, ports).0 == Ok(None)
    decreases |ports|
  {
    if ports != [] {
      var port := ports[0];
      var (idr, w1) := ApRead(respond, w, port, Idr);
      var sel := SelectScript(w.apSel, w.apBankSel, port, Idr.bank);
      var read := IdrRead(port);
      ApReadRouting(respond, w, port, Idr);
      ApReadAnswered(respond, w, port, Idr);
      if sel != [] {
        assert sel[0] in sel;
        assert sel[0] == DpWrite(SelectAddress, sel[0].value);
      }
      assert w1.trace == w.trace + sel + [read];
      NonMemApSkipped(respond, decode, w, port);
      NoMemApNoChip(respond, decode, w1, ports[1..]);
    }
  }
}
