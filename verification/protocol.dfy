/** Shared vocabulary of the Opta Analog configuration cache: bytes, the optional
    slot contents, the slot layout derived from the channel counts, and the protocol
    codes that say where the role and sub-type bytes of a "begin" message live.

    The channel counts and protocol codes are build-time constants of the firmware
    whose values are defined outside the cache; here they are parameters, so every
    property below holds for every choice of them. */
module Protocol {

  /** An unsigned 8-bit value (`uint8_t`). */
  newtype Byte = b: int | 0 <= b < 0x100

  /** A configuration message, as the bytes the controller sent. */
  type Message = seq<Byte>

  datatype Option<+T> = None | Some(value: T)

  /** Messages shorter than this are never classified: the role and sub-type bytes
      are only read from messages of at least this many bytes. */
  const MinCfgSize: nat := 5

  /** Longest message a slot can hold: the length argument of a store is a `uint8_t`. */
  const MaxMsgSize: nat := 0xFF

  /** The four regions of the slot index space. */
  datatype Region =
    | Primary(ch: nat)        // last "begin" message of analog channel ch
    | Pwm(pwm: nat)           // last message of PWM channel pwm
    | RtdUpdateTime           // the single RTD update-time message
    | Secondary(ch: nat)      // last "additional ADC" message of analog channel ch

  /** Channel counts of the expansion board. */
  datatype Layout = Layout(anChannels: nat, pwmChannels: nat) {

    /** Number of slots: one per analog channel, one per PWM channel, one for the
        RTD update time and one more per analog channel for the additional ADC. */
    function MsgNum(): nat {
      anChannels + pwmChannels + 1 + anChannels
    }

    /** Slot of the RTD update-time message. */
    function RtdUtimePos(): nat {
      anChannels + pwmChannels
    }

    /** Distance from the primary slot of a channel to its additional-ADC slot. */
    function AddAdcOffset(): nat {
      anChannels + pwmChannels + 1
    }

    /** True if the region names a slot that exists on this board. */
    predicate InRange(r: Region) {
      match r
      case Primary(ch) => ch < anChannels
      case Pwm(k) => k < pwmChannels
      case RtdUpdateTime => true
      case Secondary(ch) => ch < anChannels
    }

    /** The slot index a region occupies. */
    function SlotOf(r: Region): (i: nat)
      requires InRange(r)
      ensures i < MsgNum()
    {
      match r
      case Primary(ch) => ch
      case Pwm(k) => anChannels + k
      case RtdUpdateTime => RtdUtimePos()
      case Secondary(ch) => ch + AddAdcOffset()
    }

    /** The region a slot index belongs to. */
    function RegionOf(i: nat): (r: Region)
      requires i < MsgNum()
      ensures InRange(r)
    {
      if i < anChannels then Primary(i)
      else if i < RtdUtimePos() then Pwm(i - anChannels)
      else if i == RtdUtimePos() then RtdUpdateTime
      else Secondary(i - AddAdcOffset())
    }
  }

  /** Where the role and sub-type bytes sit in a message and which values they take. */
  datatype Codes = Codes(
    argPos: nat,            // offset of the role ("argument") byte
    adcTypePos: nat,        // offset of the ADC sub-type byte
    dacTypePos: nat,        // offset of the DAC sub-type byte
    argAdc: Byte,
    argDac: Byte,
    argDigitalInput: Byte,
    argRtd: Byte,
    argHighImpedance: Byte,
    voltageAdc: Byte,
    currentAdc: Byte,
    voltageDac: Byte,
    currentDac: Byte)
  {
    /** The offsets lie inside every classifiable message. The cache only checks the
        length against MinCfgSize before reading them, so it relies on this. */
    predicate Valid() {
      argPos < MinCfgSize && adcTypePos < MinCfgSize && dacTypePos < MinCfgSize
    }

    /** The roles are pairwise different, and so are the sub-types of each role. */
    predicate Distinct() {
      && argAdc != argDac && argAdc != argDigitalInput && argAdc != argRtd && argAdc != argHighImpedance
      && argDac != argDigitalInput && argDac != argRtd && argDac != argHighImpedance
      && argDigitalInput != argRtd && argDigitalInput != argHighImpedance
      && argRtd != argHighImpedance
      && voltageAdc != currentAdc
      && voltageDac != currentDac
    }
  }

  /** What a stored message configures a channel as. */
  datatype ChannelKind =
    | Unconfigured          // nothing stored, or too short to classify
    | VoltageAdc | CurrentAdc | OtherAdc
    | VoltageDac | CurrentDac | OtherDac
    | DigitalInput
    | Rtd
    | HighImpedance
    | OtherRole

  /** Reference decoding of one slot into the kind of channel it configures. */
  function KindOf(p: Codes, slot: Option<Message>): ChannelKind
    requires p.Valid()
  {
    match slot
    case None => Unconfigured
    case Some(m) =>
      if |m| < MinCfgSize then Unconfigured
      else
        var role := m[p.argPos];
        if role == p.argAdc then
          if m[p.adcTypePos] == p.voltageAdc then VoltageAdc
          else if m[p.adcTypePos] == p.currentAdc then CurrentAdc
          else OtherAdc
        else if role == p.argDac then
          if m[p.dacTypePos] == p.voltageDac then VoltageDac
          else if m[p.dacTypePos] == p.currentDac then CurrentDac
          else OtherDac
        else if role == p.argDigitalInput then DigitalInput
        else if role == p.argRtd then Rtd
        else if role == p.argHighImpedance then HighImpedance
        else OtherRole
  }

  /** The slot layout macros split the index space into four disjoint regions that
      cover it: every index has exactly one region and every region one index. */
  lemma RegionRoundTrip(l: Layout, i: nat, r: Region)
    requires i < l.MsgNum()
    requires l.InRange(r)
    ensures l.SlotOf(l.RegionOf(i)) == i
    ensures l.RegionOf(l.SlotOf(r)) == r
  {
  }
}
