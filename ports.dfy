/**
 * Port addressing: a register access goes either to the single Debug Port or
 * to one of the numbered Access Ports, and travels as a 16-bit wire value in
 * which 0xFFFF stands for the Debug Port.
 */
module Ports {
  import opened Common

  /** The wire value reserved for the Debug Port. */
  const DebugPortSentinel: u16 := 0xFFFF

  datatype PortType = DebugPort | AccessPort(number: u16)

  /** A port whose encoding cannot be confused with the Debug Port's. */
  predicate Encodable(p: PortType) {
    p.AccessPort? ==> p.number != DebugPortSentinel
  }

  /** `impl From<u16> for PortType`. */
  function FromU16(value: u16): (p: PortType)
    ensures Encodable(p) && ToU16(p) == value
  {
    if value == DebugPortSentinel then DebugPort else AccessPort(value)
  }

  /** `impl From<PortType> for u16`. */
  function ToU16(port: PortType): u16 {
    match port
    case DebugPort => DebugPortSentinel
    case AccessPort(n) => n
  }

  /** Decoding is total: the sentinel gives the Debug Port, every other value
      the Access Port of that number, and encoding undoes it. */
  lemma DecodeTotal(v: u16)
    ensures FromU16(v) == DebugPort <==> v == DebugPortSentinel
    ensures v != DebugPortSentinel ==> FromU16(v) == AccessPort(v)
    ensures Encodable(FromU16(v))
    ensures ToU16(FromU16(v)) == v
  {
  }

  /** Encoding is injective on encodable ports and decoding undoes it. */
  lemma EncodeRoundTrip(p: PortType, q: PortType)
    requires Encodable(p) && Encodable(q)
    ensures FromU16(ToU16(p)) == p
    ensures ToU16(p) == ToU16(q) <==> p == q
    ensures ToU16(DebugPort) == DebugPortSentinel
  {
  }

  /** The Rust type also admits `AccessPort(0xFFFF)`, whose encoding is the
      Debug Port's: the mapping is inverse only on encodable ports. */
  lemma SentinelCollision()
    ensures ToU16(AccessPort(DebugPortSentinel)) == ToU16(DebugPort)
    ensures FromU16(ToU16(AccessPort(DebugPortSentinel))) == DebugPort
  {
  }

  /** An Access Port numbered by a byte is always encodable. */
  lemma BytePortEncodable(n: u8)
    ensures Encodable(AccessPort(n as u16))
    ensures ToU16(AccessPort(n as u16)) < DebugPortSentinel
    ensures FromU16(ToU16(AccessPort(n as u16))) == AccessPort(n as u16)
  {
  }
}
