# ADIv5 register layer of probe-rs, modelled in Dafny

This project models the ARM communication interface of probe-rs
(`probe-rs/src/architecture/arm/communication_interface.rs`). This is the layer
between a debug probe's raw register transport and the ARM Debug Interface
(ADIv5) concepts above it. It covers:

- the port encoding `PortType` ⇄ `u16`, where `0xFFFF` stands for the Debug Port;
- the default block operations of `DAPAccess`: repeated single-register reads
  and writes that stop at the first failure;
- `InnerArmCommunicationInterface`:
  - construction and the five-step debug power-up handshake;
  - DP register access;
  - AP register access through a cache of the AP number and AP bank last
    written to SELECT;
- the shared `ArmCommunicationInterface` handle, modelled as an owner count,
  and `close`, which gets the probe back;
- chip identification: `ArmChipInfo::read_from_rom_table`, and the `Display`
  form of its result.

The modules follow the layers:

| file | module | contents |
|---|---|---|
| `common.dfy` | `Common` | machine integer subset types; `Option`; `Result` |
| `ports.dfy` | `Ports` | `PortType` and its two conversions |
| `registers.dfy` | `Registers` | ADIv5 register addresses and bit fields (DP ABORT, CTRL/STAT, SELECT; AP IDR, BASE, BASE2); the ROM table base address arithmetic |
| `transport.dfy` | `Transport` | the probe: trace and oracle; `Run`; `ReadBlock`/`WriteBlock` |
| `interface.dfy` | `Interface` | the selection cache, the AP/DP access functions and their properties, power-up, the `ArmInterface` class, the `Session` handle |
| `chipinfo.dfy` | `ChipInfo` | the ROM-table scan, as a function and as a method, and its properties |
| `display.dfy` | `ChipDisplay` | the display string and its hex fields |

### How the target is modelled

A probe (`Transport.Probe`) records in `trace` every register access it is
asked for. It takes each answer from `respond`, an oracle that sees the whole
history before the access. Every property about the wire is therefore a
statement about the trace and about what the oracle answered.

The spec function `Transport.Run(respond, t, script)` issues a script of
accesses in order and stops at the first failure. Each stateful operation is
proved equal to one of these spec functions:

- the block loops are `Run` over a script of repeated accesses;
- the power-up handshake is `Run` over `Interface.PowerUpScript`;
- AP access is `Interface.ApAccess`: the selection script, then the access.

`WireError`, the failures one access can report, is narrowed to four
`DapError` values and excludes `TargetPowerUpFailed`. So that error can only
come from the acknowledge check (see "Left out").

The interface's observable state is `Interface.Wire`: the trace and the cached
pair (AP number, AP bank). `Interface.Coherent` says that the cached pair
agrees with the last SELECT value issued on the wire.

### Where the model follows the code as written

- The unknown-manufacturer placeholder formats `cc` and `id` with `{:2x}`.
  Values below 0x10 are therefore padded with a space (`cc= 4`), not a zero.
  `ChipDisplay.DisplayExample` shows this.
- DP register access writes no DP bank selection before the access. Only
  `enter_debug_mode` writes SELECT = 0.
- The scan does not stop at the first MEM-AP. A MEM-AP whose ROM table is not
  a class 0x1 table with a JEP106 code is skipped, and the next port is
  probed.
- `AccessPort(0xFFFF)` encodes to the Debug Port sentinel, so it does not
  survive the round trip. `Ports.SentinelCollision` shows this. Every port
  number the interface builds comes from a byte, so it never reaches the
  sentinel (`Ports.BytePortEncodable`).
- The cache takes the new pair before the SELECT write is issued. A failed
  SELECT write therefore leaves the cache holding a pair the target may not
  have accepted. `Interface.Coherent` counts attempted writes, which is what the
  cache tracks.

The AP register offsets and the bit layouts of ABORT, CTRL/STAT, SELECT, IDR
and BASE follow the ADIv5 architecture: IDR 0xFC, BASE 0xF8 and BASE2 0xF0,
all in bank 0xF. The `ap` and `dp` modules that define them are not part of
this model.

## Model

| member | source | states |
|---|---|---|
| Ports.FromU16 | probe-rs/src/architecture/arm/communication_interface.rs:45-53 | decoding gives an encodable port whose encoding is the value decoded |
| Ports.ToU16 | probe-rs/src/architecture/arm/communication_interface.rs:55-62 | the Debug Port encodes to 0xFFFF and an Access Port to its number; the inverse of `FromU16` on encodable ports (`Ports.EncodeRoundTrip`) |
| Ports.DecodeTotal | probe-rs/src/architecture/arm/communication_interface.rs:45-53 | every 16-bit value decodes: 0xFFFF to the Debug Port, anything else to that Access Port |
| Ports.EncodeRoundTrip | probe-rs/src/architecture/arm/communication_interface.rs:45-62 | for ports other than AccessPort(0xFFFF), decoding the encoding gives the port back, and the encoding is injective |
| Ports.SentinelCollision | probe-rs/src/architecture/arm/communication_interface.rs:45-62 | AccessPort(0xFFFF) encodes to the sentinel and decodes as the Debug Port |
| Ports.BytePortEncodable | probe-rs/src/architecture/arm/communication_interface.rs:45-62 | an Access Port numbered by a byte round-trips and is never the Debug Port |
| Registers.ClearStickyErrorsBits | probe-rs/src/architecture/arm/communication_interface.rs:180-185 | the ABORT value is 0x1E: it sets exactly ORUNERRCLR, WDERRCLR, STKERRCLR and STKCMPCLR, and not DAPABORT |
| Registers.PowerUpRequestBits | probe-rs/src/architecture/arm/communication_interface.rs:193-197 | the CTRL/STAT request sets both power-up request bits and neither acknowledge bit |
| Registers.PowerUpAcked | probe-rs/src/architecture/arm/communication_interface.rs:202 | a CTRL/STAT readback acknowledges power-up exactly when both CSYSPWRUPACK and CDBGPWRUPACK are set |
| Registers.SelectZero | probe-rs/src/architecture/arm/communication_interface.rs:187-191 | SELECT = 0 selects DP bank 0, and it equals the selection of AP 0, bank 0, whose APSEL and APBANKSEL fields are 0 |
| Registers.SelectValue | probe-rs/src/architecture/arm/communication_interface.rs:223-233 | `Select(0)` with APSEL and APBANKSEL set; its fields are read back by `Registers.SelectFields` |
| Registers.SelectFields | probe-rs/src/architecture/arm/communication_interface.rs:223-233 | the SELECT value built from (AP number, AP bank) holds the AP number in APSEL, the low four bits of the bank in APBANKSEL, and DP bank 0 |
| Registers.SelectValueInjective | probe-rs/src/architecture/arm/communication_interface.rs:223-233 | distinct (AP number, bank below 16) pairs give distinct SELECT values |
| Registers.IdrClass | probe-rs/src/architecture/arm/communication_interface.rs:503 | `idr.CLASS`: bits [16:13] of the IDR value, compared with the MEM-AP class 0x8 |
| Registers.BaseFormat | probe-rs/src/architecture/arm/communication_interface.rs:510 | `base_register.Format`: bit 1 of BASE, set for the ADIv5 format and clear for the legacy one |
| Registers.BaseAddrField | probe-rs/src/architecture/arm/communication_interface.rs:518 | `base_register.BASEADDR`: bits [31:12] of BASE |
| Registers.IdentificationBank | probe-rs/src/architecture/arm/communication_interface.rs:497-513 | IDR, BASE and BASE2 lie in the same AP bank, 0xF |
| Registers.BaseAddress | probe-rs/src/architecture/arm/communication_interface.rs:508-518 | BASE2 shifted into the high word (ADIv5 format only), ORed with BASEADDR shifted by 12 in 32-bit arithmetic; its layout is stated by `Registers.BaseAddressLayout` |
| Registers.BaseAddressLayout | probe-rs/src/architecture/arm/communication_interface.rs:508-518 | the ROM table base is 4 KiB aligned; its low word is BASEADDR shifted by 12 and truncated to 32 bits; its high word is BASE2 in the ADIv5 format and zero in the legacy format |
| Registers.LegacyBaseIsMaskedRegister | probe-rs/src/architecture/arm/communication_interface.rs:508-518 | in the legacy format the base is the BASE register with its low 12 bits cleared |
| Registers.LegacyBaseExample | probe-rs/src/architecture/arm/communication_interface.rs:508-518 | BASEADDR 0xE00FF gives base address 0xE00FF000 |
| Transport.Run | probe-rs/src/architecture/arm/communication_interface.rs:84-86 | a script stops at the first failure: the trace gains exactly the accesses up to and including the failing one; there is no failure exactly when every access replied |
| Transport.RunAnswered | probe-rs/src/architecture/arm/communication_interface.rs:84-86 | each reply is the oracle's answer to its access, given exactly the accesses before it |
| Transport.RunFailed | probe-rs/src/architecture/arm/communication_interface.rs:84-86 | a reported failure is the oracle's answer to the first access that did not receive a reply |
| Transport.RunAllAnswered | probe-rs/src/architecture/arm/communication_interface.rs:109-111 | a script completes if and only if every access it put on the wire was answered successfully |
| Transport.RunAppend | probe-rs/src/architecture/arm/communication_interface.rs:316-326 | running two scripts in sequence, with nothing after a failure, is running their concatenation |
| Transport.Probe.ReadRegister | probe-rs/src/architecture/arm/communication_interface.rs:72 | one read is appended to the trace, and its result is the oracle's answer |
| Transport.Probe.WriteRegister | probe-rs/src/architecture/arm/communication_interface.rs:92-97 | one write is appended to the trace, and only its success or failure is returned |
| Transport.Probe.ReadBlock | probe-rs/src/architecture/arm/communication_interface.rs:78-89 | the block read is `Run` of values.Length reads of one register: the slots before the failure hold the replies in order, the rest keep their old contents, and the first error is returned |
| Transport.Probe.WriteBlock | probe-rs/src/architecture/arm/communication_interface.rs:103-114 | the block write is `Run` of one write per value, in order, to one register; the first error is returned and nothing after it is issued |
| Interface.SelectScript | probe-rs/src/architecture/arm/communication_interface.rs:210-248 | at most one access; exactly one when the AP number or the AP bank differs from the cache; that access is a SELECT write on the Debug Port carrying both |
| Interface.ApAccess | probe-rs/src/architecture/arm/communication_interface.rs:310-331 | an AP operation that does not fail yields one reply per access of its body |
| Interface.ApRead | probe-rs/src/architecture/arm/communication_interface.rs:310-331 | an AP read: the selection step, then one read at AccessPort(port); its properties are the `Interface.ApReadRouting`, `Interface.ApReadCached` and `Interface.ApAccessSelectWrites` rows |
| Interface.ApWrite | probe-rs/src/architecture/arm/communication_interface.rs:250-276 | an AP write: the selection step, then one write at AccessPort(port) |
| Interface.ApAccessIsOneScript | probe-rs/src/architecture/arm/communication_interface.rs:310-331 | the selection step and the access behave as one script, and the cache ends at the requested pair whatever the target answers, even after a failed selection |
| Interface.ApReadRouting | probe-rs/src/architecture/arm/communication_interface.rs:310-331 | an AP read adds the selection script and then exactly one read at AccessPort(port), never the Debug Port; the read is missing exactly when the SELECT write failed; a returned value is the oracle's answer to that read |
| Interface.DapResult | probe-rs/src/architecture/arm/communication_interface.rs:33-37 | a transport answer with its `DapError` lifted to a probe error, as the `From<DapError> for DebugProbeError` conversion that `?` applies |
| Interface.ApReadCached | probe-rs/src/architecture/arm/communication_interface.rs:210-222 | when the cache already holds (port, bank), the read issues no SELECT write: exactly the one read, whose answer is returned, and the cache is unchanged |
| Interface.ApAccessSelectWrites | probe-rs/src/architecture/arm/communication_interface.rs:210-248 | an AP operation adds exactly one SELECT write when the pair changes and none otherwise, whether or not anything fails |
| Interface.SeriesSelectWrites | probe-rs/src/architecture/arm/communication_interface.rs:210-248 | over any series of AP operations, the SELECT writes equal the number of changes of the requested pair, whatever the oracle answers |
| Interface.SameTargetChangesAtMostOnce | probe-rs/src/architecture/arm/communication_interface.rs:210-248 | N operations on one pair cause at most one SELECT write: one if the cache held another pair, none otherwise |
| Interface.RevisitReselects | probe-rs/src/architecture/arm/communication_interface.rs:210-248 | the cache holds one pair: AP 3 bank 1, then bank 2, then bank 1 again cause three SELECT writes |
| Interface.ApAccessCoherent | probe-rs/src/architecture/arm/communication_interface.rs:210-248 | an AP operation keeps the cache in agreement with the last SELECT value written |
| Interface.DpAccessCoherent | probe-rs/src/architecture/arm/communication_interface.rs:384-411 | a DP access other than a SELECT write keeps that agreement |
| Interface.PowerUpScript | probe-rs/src/architecture/arm/communication_interface.rs:174-198 | the five accesses of power-up, in order: DPIDR read, ABORT = 0x1E, SELECT = 0, CTRL/STAT power-up request, CTRL/STAT readback |
| Interface.PowerUpVerdict | probe-rs/src/architecture/arm/communication_interface.rs:174-205 | the first transport failure is returned as it is; otherwise `TargetPowerUpFailed` unless the readback acknowledges both power domains |
| Interface.PowerUpAckCheck | probe-rs/src/architecture/arm/communication_interface.rs:199-205 | power-up fails with TargetPowerUpFailed if and only if all five accesses succeeded and the CTRL/STAT readback lacks CSYSPWRUPACK or CDBGPWRUPACK; it succeeds if and only if both are set |
| Interface.PowerUpFailureTrace | probe-rs/src/architecture/arm/communication_interface.rs:169-208 | a transport failure at step k is returned unchanged; steps 1 to k are on the wire in order and the later ones are not |
| Interface.PowerUpSuccessTrace | probe-rs/src/architecture/arm/communication_interface.rs:169-208 | on success all five accesses were issued, and the (0, 0) cache agrees with the last SELECT value |
| Interface.ArmInterface.New | probe-rs/src/architecture/arm/communication_interface.rs:151-167 | without a DAP interface: InterfaceNotAvailable, and nothing is issued; otherwise: power-up, returning its verdict, with a fresh interface whose cache is (0, 0) |
| Interface.ArmInterface.ReadDpRegister | probe-rs/src/architecture/arm/communication_interface.rs:387-398 | one Debug Port read of the register's address; its answer is returned |
| Interface.ArmInterface.WriteDpRegister | probe-rs/src/architecture/arm/communication_interface.rs:400-410 | one Debug Port write of the value; its failure is returned |
| Interface.ArmInterface.EnterDebugMode | probe-rs/src/architecture/arm/communication_interface.rs:169-208 | issues the five power-up accesses in order: DPIDR read, ABORT clear, SELECT = 0, the power-up request, the CTRL/STAT readback; stops at the first failure, then checks the acknowledge bits |
| Interface.ArmInterface.SelectApAndApBank | probe-rs/src/architecture/arm/communication_interface.rs:210-248 | the cache takes the requested pair; the SELECT script from the old cache is issued, and its failure is returned |
| Interface.ArmInterface.ReadApRegister | probe-rs/src/architecture/arm/communication_interface.rs:310-331 | result and new state are those of the spec function `ApRead`, whose routing and cache properties are proved above |
| Interface.ArmInterface.WriteApRegister | probe-rs/src/architecture/arm/communication_interface.rs:250-276 | result and new state are those of `ApWrite`: the selection step, then one write to AccessPort(port) |
| Interface.ArmInterface.ReadApRegisterRepeated | probe-rs/src/architecture/arm/communication_interface.rs:334-363 | the selection step, then a block read into the array; no read once the selection failed; slots after the first failure are unchanged |
| Interface.ArmInterface.WriteApRegisterRepeated | probe-rs/src/architecture/arm/communication_interface.rs:279-308 | the selection step, then a block write of the values in order, stopping at the first failure |
| Interface.Session.New | probe-rs/src/architecture/arm/communication_interface.rs:123-127 | the interface's construction, shared by exactly one handle |
| Interface.Session.Share | probe-rs/src/architecture/arm/communication_interface.rs:117-120 | cloning a handle adds one owner of the same state |
| Interface.Session.Release | probe-rs/src/architecture/arm/communication_interface.rs:117-120 | dropping a handle removes one owner |
| Interface.Session.Close | probe-rs/src/architecture/arm/communication_interface.rs:133-140 | the sole owner gets the original probe back; with other owners the same handle is returned and nothing changes |
| Interface.ReclaimScenario | probe-rs/src/architecture/arm/communication_interface.rs:133-140 | with two handles, close fails twice without change; after one is dropped it succeeds and yields the original probe |
| ChipInfo.ReadFromRomTable | probe-rs/src/architecture/arm/communication_interface.rs:493-559 | result and new state are those of the spec function `Scan` over the given ports, whose properties are proved below |
| ChipInfo.ProbeAccessPort | probe-rs/src/architecture/arm/communication_interface.rs:497-547 | one iteration equals `ProbePort`: IDR, then for a MEM-AP BASE, BASE2 in the ADIv5 format, then the decoder's verdict |
| ChipInfo.ProbePort | probe-rs/src/architecture/arm/communication_interface.rs:497-548 | one iteration: IDR read; a failure ends the scan with that error; a class other than MEM-AP skips the port; a MEM-AP continues with `ProbeMemAp` |
| ChipInfo.ProbeMemAp | probe-rs/src/architecture/arm/communication_interface.rs:503-547 | BASE read, BASE2 read exactly in the ADIv5 format, a register failure as the verdict, otherwise the decoder's verdict at the computed base address |
| ChipInfo.Identify | probe-rs/src/architecture/arm/communication_interface.rs:525-547 | a decoder error is a `DecodeFailure`; a class 0x1 ROM table with a JEP106 code is the chip; anything else is skipped |
| ChipInfo.NonMemApSkipped | probe-rs/src/architecture/arm/communication_interface.rs:497-503 | a port whose IDR class is not MEM-AP is skipped after the selection step and the IDR read; BASE is never read |
| ChipInfo.MemApProbed | probe-rs/src/architecture/arm/communication_interface.rs:503-518 | the MEM-AP path in terms of the oracle: BASE is read right after IDR with no new selection, BASE2 exactly when the BASE answer is in the ADIv5 format, and the verdict and trace follow from those answers |
| ChipInfo.ProbePortDecoded | probe-rs/src/architecture/arm/communication_interface.rs:503-547 | a chip or decoder error from one port is what the decoder said at the base address made of some BASE value and, exactly in the ADIv5 format, a BASE2 value |
| ChipInfo.ProbePortSelectsOnce | probe-rs/src/architecture/arm/communication_interface.rs:497-513 | the port's IDR, BASE and BASE2 reads issue at most one SELECT write, and none when the cache already holds (port, 0xF); the decoder's own memory accesses are not counted (see the `ChipInfo.ReadFromRomTable` lines under "Left out") |
| ChipInfo.VerdictResult | probe-rs/src/architecture/arm/communication_interface.rs:541-558 | a chip becomes `Ok(Some(..))`, a failure the scan's error (the `?` early returns), a skip `Ok(None)` |
| ChipInfo.ScanWith | probe-rs/src/architecture/arm/communication_interface.rs:496-558 | the loop of the scan over any iteration body: the first chip or error ends it; no ports left gives Ok(None) |
| ChipInfo.Scan | probe-rs/src/architecture/arm/communication_interface.rs:496-558 | the scan with `ProbePort` as its body; `ChipInfo.ReadFromRomTable` is proved equal to it |
| ChipInfo.ScanDecided | probe-rs/src/architecture/arm/communication_interface.rs:526-545 | once a prefix of the ports yields a chip or an error, the later ports are never probed |
| ChipInfo.ScanContinues | probe-rs/src/architecture/arm/communication_interface.rs:496-549 | a prefix that yields nothing hands its wire state on to the rest of the scan |
| ChipInfo.ScanFirstDecisive | probe-rs/src/architecture/arm/communication_interface.rs:496-549 | after any number of skipped ports, the first chip or error is the scan's result; an error is never turned into "no chip" |
| ChipInfo.ScanDecidedAt | probe-rs/src/architecture/arm/communication_interface.rs:496-549 | a scan that yields a chip or an error was decided by one port: all ports before it were skipped and its verdict and wire state are the scan's |
| ChipInfo.ScanReportsDecoder | probe-rs/src/architecture/arm/communication_interface.rs:524-545 | an identified chip is the JEP106 code and part number of a class 0x1 ROM table the decoder found behind one of the ports, at the base address made of a BASE value and (exactly in the ADIv5 format) a BASE2 value; a decoder error is returned as the decoder reported it. The BASE and BASE2 values here are existential; that they are the target's answers at the deciding port follows from `ChipInfo.ScanDecidedAt` together with `ChipInfo.MemApProbed` |
| ChipInfo.ScanBacked | probe-rs/src/architecture/arm/communication_interface.rs:524-547 | the same for any iteration body whose every verdict is backed by the decoder |
| ChipInfo.ApReadAnswered | probe-rs/src/architecture/arm/communication_interface.rs:310-331 | an AP read succeeds if and only if every access it issued was answered; its error is the oracle's answer to its last access |
| ChipInfo.ProbePortAnswered | probe-rs/src/architecture/arm/communication_interface.rs:497-513 | a register failure while probing a port is the oracle's answer to the last access; any other verdict means every access was answered |
| ChipInfo.ScanAnswered | probe-rs/src/architecture/arm/communication_interface.rs:496-558 | a chip, "no chip" or a decoder error means every register access was answered; a probe error is a wire error, never TargetPowerUpFailed or a missing interface, and is the oracle's answer to the last access |
| ChipInfo.NoMemApNoChip | probe-rs/src/architecture/arm/communication_interface.rs:496-558 | exhausting the ports gives Ok(None): on a device whose ports all report a non-MEM-AP class, every port is skipped |
| ChipDisplay.LowerHex4 | probe-rs/src/architecture/arm/communication_interface.rs:571 | `{:04x}`: four lower-case hex digits, most significant first; read back by `ChipDisplay.LowerHex4RoundTrip` |
| ChipDisplay.PadHex2 | probe-rs/src/architecture/arm/communication_interface.rs:566-569 | `{:2x}`: two characters, a space then one digit below 0x10; read back by `ChipDisplay.PadHex2RoundTrip` |
| ChipDisplay.Manufacturer | probe-rs/src/architecture/arm/communication_interface.rs:564-570 | the vendor name when the code is known, the `<unknown manufacturer (cc=.., id=..)>` placeholder otherwise |
| ChipDisplay.Display | probe-rs/src/architecture/arm/communication_interface.rs:562-573 | the manufacturer text, " 0x", then the part in four digits; its layout is `ChipDisplay.DisplayLayout` |
| ChipDisplay.LowerHex4RoundTrip | probe-rs/src/architecture/arm/communication_interface.rs:571 | `{:04x}` of the part is four lower-case hex digits that read back as the part |
| ChipDisplay.PadHex2RoundTrip | probe-rs/src/architecture/arm/communication_interface.rs:566-569 | `{:2x}` is two characters, starting with a space exactly when the value is below 0x10, that read back as the value |
| ChipDisplay.DisplayLayout | probe-rs/src/architecture/arm/communication_interface.rs:562-573 | the display is the manufacturer text, " 0x", then four digits; both the text and the part can be recovered from it |
| ChipDisplay.DisplayDeterminesPart | probe-rs/src/architecture/arm/communication_interface.rs:562-573 | chips that display alike have the same part number |
| ChipDisplay.UnknownManufacturerLayout | probe-rs/src/architecture/arm/communication_interface.rs:564-569 | an unknown code gives the 37-character placeholder, whose cc and id fields read back as the code |
| ChipDisplay.UnknownManufacturerInjective | probe-rs/src/architecture/arm/communication_interface.rs:564-569 | distinct unknown codes give distinct placeholders |
| ChipDisplay.DisplayExample | probe-rs/src/architecture/arm/communication_interface.rs:562-573 | cc 0x04, id 0x3B, part 0x0123: "<unknown manufacturer (cc= 4, id=3b)> 0x0123" |

## Left out

- Logging (`log::debug!`, `log::error!`) has no effect on the modelled state, so it is not modelled.
- DPIDR decoding into `DebugPortId` during power-up only feeds a log line. The value read is discarded.
- The `From`/`into` conversions of the typed register wrappers (`R::from(u32)`, `register.into()`) are not modelled. Registers are raw `u32` values at the AP address and bank of an `ApRegister`, and their fields are extracted by named functions (`Registers.IdrClass`, `Registers.BaseFormat`, `Registers.BaseAddrField`, `Registers.PowerUpAcked`).
- The forwarding impls of `ArmCommunicationInterface` (`Rc<RefCell<…>>` borrows, lines 366-485) are not modelled. The scan calls the shared `ArmInterface` directly.
  - Borrow panics are not modelled.
  - Concurrency does not arise, because the source is single-threaded.
- `probe_for_chip_info` only wraps the scan's result. `dedicated_memory_interface` belongs to the probe. Neither is modelled.
- The probe's internals (`Probe`, `DebugProbe`, `get_interface_dap_mut`) are reduced to a trace, an oracle and a fixed `hasDap` flag.
  - `new` checks the flag.
  - The later `InterfaceNotAvailable` checks in DP and AP access cannot fail while the flag stays fixed, so the model omits them (`ArmInterface.Valid`).
- `valid_access_ports` is replaced by a parameter: the sequence of AP numbers it yields, in order. Its own register traffic is not part of the trace.
- `CSComponent::try_parse`, `Memory::new` and `ADIMemoryInterface` are replaced by a `Decoder` oracle on (port, base address). An error from it is wrapped as `DecodeFailure`, which stands in for `ProbeRsError::architecture_specific`; the boxed error's contents are not modelled.
- `JEP106Code::get` is replaced by a `VendorNames` parameter, a partial function from code to name. The JEP106 table itself is not modelled.
- ChipInfo.ReadFromRomTable: does not model the IDR reads that `valid_access_ports` makes through the same interface before the scan, or the selection cache they leave behind (the last enumerated port and bank 0xF). The scan starts from the interface state at entry.
- ChipInfo.ReadFromRomTable: does not model the memory accesses the decoder makes through the interface, or their effect on the selection cache. It does not model the temporary extra owner from `interface.clone()` during decoding. Both are hidden inside the decoder.
- Interface.Coherent: counts the last SELECT write attempted, not the last one the target accepted. After a failed SELECT write the cache and the target may disagree, as they do in the source.
- Interface.ApAccess: its own contract states only the reply count. Routing, selection and coherence are proved about it in separate lemmas.
- Interface.PowerUpAckCheck: its "only if" half rests on a narrowing. The source's `read_register`/`write_register` may fail with any `DebugProbeError`, including `TargetPowerUpFailed`. The model's transport failures (`Transport.WireError`) are four `DapError` values, so `TargetPowerUpFailed` can only come from the acknowledge check.
- ChipInfo.ScanAnswered: its "never TargetPowerUpFailed" part rests on the same narrowing of transport failures to `Transport.WireError`.
