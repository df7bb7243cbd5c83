/** The Opta Analog channel configuration cache (`OaChannelCfg`): the last "begin"
    message sent to each slot of an analog expansion, kept so that the controller
    can replay it after the expansion reboots.

    A slot is either empty or holds the bytes of one message. Ownership of the
    buffers is implicit in the value model: every cache value owns its contents. */
module ChannelCfg {
  import opened Protocol

  datatype Cache = Cache(layout: Layout, slots: seq<Option<Message>>)

  /** Every slot of the board exists, and a stored message is never empty and never
      longer than a `uint8_t` length can say. */
  ghost predicate Valid(c: Cache) {
    && |c.slots| == c.layout.MsgNum()
    && forall i :: 0 <= i < |c.slots| ==> StoredSizeOk(c.slots[i])
  }

  predicate StoredSizeOk(slot: Option<Message>) {
    slot.Some? ==> 0 < |slot.value| <= MaxMsgSize
  }

  /** Nothing has been stored in any slot. */
  ghost predicate IsEmpty(c: Cache) {
    forall i :: 0 <= i < |c.slots| ==> c.slots[i] == None
  }

  /** Index of the additional-ADC slot of analog channel ch. */
  function SecondarySlot(l: Layout, ch: nat): nat
    requires ch < l.anChannels
  {
    l.SlotOf(Secondary(ch))
  }

  /** The default constructor: every slot starts empty. */
  method New(layout: Layout) returns (c: Cache)
    ensures Valid(c) && c.layout == layout
    ensures IsEmpty(c)
  {
    var slots: seq<Option<Message>> := [];
    var i := 0;
    while i < layout.MsgNum()
      invariant i <= layout.MsgNum()
      invariant |slots| == i
      invariant forall j :: 0 <= j < i ==> slots[j] == None
    {
      slots := slots + [None];
      i := i + 1;
    }
    c := Cache(layout, slots);
  }

  /** The slot holds a message long enough for its role byte to be read. */
  predicate IsCfg(c: Cache, i: nat)
    requires i < |c.slots|
  {
    c.slots[i].Some? && |c.slots[i].value| >= MinCfgSize
  }

  /** Slot i is classifiable, has role `role` and holds `subtype` at `typePos`. */
  predicate HasRoleAndType(c: Cache, i: nat, argPos: nat, role: Byte, typePos: nat, subtype: Byte)
    requires i < |c.slots|
    requires argPos < MinCfgSize && typePos < MinCfgSize
  {
    IsCfg(c, i) && c.slots[i].value[argPos] == role && c.slots[i].value[typePos] == subtype
  }

  /** Slot i is classifiable and has role `role`. */
  predicate HasRole(c: Cache, i: nat, argPos: nat, role: Byte)
    requires i < |c.slots|
    requires argPos < MinCfgSize
  {
    IsCfg(c, i) && c.slots[i].value[argPos] == role
  }

  /** Analog channel ch measures voltage with its ADC, by its primary message or,
      failing that, by its additional-ADC message. */
  predicate IsVoltageAdcCh(p: Codes, c: Cache, ch: nat)
    requires p.Valid() && Valid(c)
    requires ch < c.layout.anChannels
  {
    || HasRoleAndType(c, ch, p.argPos, p.argAdc, p.adcTypePos, p.voltageAdc)
    || HasRoleAndType(c, SecondarySlot(c.layout, ch), p.argPos, p.argAdc, p.adcTypePos, p.voltageAdc)
  }

  /** Analog channel ch measures current with its ADC, by its primary message or,
      failing that, by its additional-ADC message. */
  predicate IsCurrentAdcCh(p: Codes, c: Cache, ch: nat)
    requires p.Valid() && Valid(c)
    requires ch < c.layout.anChannels
  {
    || HasRoleAndType(c, ch, p.argPos, p.argAdc, p.adcTypePos, p.currentAdc)
    || HasRoleAndType(c, SecondarySlot(c.layout, ch), p.argPos, p.argAdc, p.adcTypePos, p.currentAdc)
  }

  /** Channel ch drives a voltage with its DAC (primary message only). */
  predicate IsVoltageDacCh(p: Codes, c: Cache, ch: nat)
    requires p.Valid() && Valid(c)
    requires ch < |c.slots|
  {
    HasRoleAndType(c, ch, p.argPos, p.argDac, p.dacTypePos, p.voltageDac)
  }

  /** Channel ch drives a current with its DAC (primary message only). */
  predicate IsCurrentDacCh(p: Codes, c: Cache, ch: nat)
    requires p.Valid() && Valid(c)
    requires ch < |c.slots|
  {
    HasRoleAndType(c, ch, p.argPos, p.argDac, p.dacTypePos, p.currentDac)
  }

  /** Channel ch is a digital input (primary message only). */
  predicate IsDigitalInputCh(p: Codes, c: Cache, ch: nat)
    requires p.Valid() && Valid(c)
    requires ch < |c.slots|
  {
    HasRole(c, ch, p.argPos, p.argDigitalInput)
  }

  /** Channel ch is an RTD input (primary message only). */
  predicate IsRtdCh(p: Codes, c: Cache, ch: nat)
    requires p.Valid() && Valid(c)
    requires ch < |c.slots|
  {
    HasRole(c, ch, p.argPos, p.argRtd)
  }

  /** Channel ch is high impedance: it has no classifiable message, or its message
      says so explicitly. */
  predicate IsHighImpedanceCh(p: Codes, c: Cache, ch: nat)
    requires p.Valid() && Valid(c)
    requires ch < |c.slots|
  {
    !IsCfg(c, ch) || HasRole(c, ch, p.argPos, p.argHighImpedance)
  }

  /** Stores the first s bytes of src in slot ch, replacing whatever the slot held.
      An index past the last slot or a zero length leaves the cache as it was. */
  function Backup(c: Cache, src: seq<Byte>, ch: nat, s: Byte): (r: Cache)
    requires Valid(c)
    requires s as nat <= |src|
    ensures Valid(r) && r.layout == c.layout
    ensures ch < |c.slots| && s > 0 ==> r.slots[ch] == Some(src[..s])
    ensures forall i :: 0 <= i < |c.slots| && i != ch ==> r.slots[i] == c.slots[i]
    ensures ch >= |c.slots| || s == 0 ==> r == c
  {
    if ch < |c.slots| && s > 0 then
      Cache(c.layout, c.slots[ch := Some(src[..s])])
    else
      c
  }

  /** Slot ch exists and holds a message. */
  predicate Occupied(c: Cache, ch: nat) {
    ch < |c.slots| && c.slots[ch].Some?
  }

  /** dst can take the message stored in slot ch, if there is one. */
  predicate HasRoom(c: Cache, dst: seq<Byte>, ch: nat) {
    Occupied(c, ch) ==> |c.slots[ch].value| <= |dst|
  }

  /** Result of a restore: how many bytes were written, and the destination buffer
      afterwards. */
  datatype Readback = Readback(count: nat, buffer: seq<Byte>)

  /** Copies the message stored in slot ch to the front of dst and returns its
      length; an empty slot or an index past the last slot returns 0 and leaves dst
      as it was. The caller provides room for the stored message. */
  function Restore(c: Cache, dst: seq<Byte>, ch: nat): (r: Readback)
    requires Valid(c)
    requires HasRoom(c, dst, ch)
    ensures |r.buffer| == |dst| && r.count <= |dst| && r.count <= MaxMsgSize
    ensures !Occupied(c, ch) ==> r.count == 0
    ensures Occupied(c, ch) ==> r.count == |c.slots[ch].value|
    ensures r.count <= |r.buffer| && r.buffer[r.count..] == dst[r.count..]
    ensures Occupied(c, ch) ==> |c.slots[ch].value| <= |r.buffer| && r.buffer[..|c.slots[ch].value|] == c.slots[ch].value
  {
    if Occupied(c, ch) then
      var m := c.slots[ch].value;
      Readback(|m|, m + dst[|m|..])
    else
      Readback(0, dst)
  }

  /** Drops the additional-ADC message of analog channel ch, but only when it is
      classifiable; a shorter message stays where it is. */
  function ResetAdditionalAdcCh(c: Cache, ch: nat): (r: Cache)
    requires Valid(c)
    requires ch < c.layout.anChannels
    ensures Valid(r) && r.layout == c.layout
    ensures var j := SecondarySlot(c.layout, ch);
            (r.slots[j] == None <==> c.slots[j] == None || IsCfg(c, j))
            && (r.slots[j] != None ==> r.slots[j] == c.slots[j])
    ensures forall i :: 0 <= i < |c.slots| && i != SecondarySlot(c.layout, ch) ==> r.slots[i] == c.slots[i]
  {
    var j := SecondarySlot(c.layout, ch);
    if IsCfg(c, j) then Cache(c.layout, c.slots[j := None]) else c
  }

  /** The copy constructor: an independent cache with the same contents, built by
      storing every occupied slot of c into a fresh cache in slot order. */
  method Copy(c: Cache) returns (d: Cache)
    requires Valid(c)
    ensures d == c
  {
    d := New(c.layout);
    var i := 0;
    while i < |c.slots|
      invariant i <= |c.slots|
      invariant Valid(d) && d.layout == c.layout
      invariant forall j :: 0 <= j < i ==> d.slots[j] == c.slots[j]
      invariant forall j :: i <= j < |d.slots| ==> d.slots[j] == None
    {
      if c.slots[i].Some? {
        var m := c.slots[i].value;
        assert m[..|m|] == m;
        d := Backup(d, m, i, |m| as Byte);
      } else {
        // Already empty in the fresh cache; kept because the constructor resets
        // every unoccupied slot explicitly.
        d := Cache(d.layout, d.slots[i := None]);
      }
      i := i + 1;
    }
  }
}
