/** Properties of the channel configuration cache that relate several operations:
    the store/restore round trip, what a store leaves alone, the fresh cache, and
    how the classification predicates agree with the reference decoding KindOf. */
module CacheProperties {
  import opened Protocol
  import opened ChannelCfg

  /** A fresh cache restores nothing: every index returns 0 and leaves dst alone. */
  lemma FreshCacheRestoresNothing(c: Cache, dst: seq<Byte>, ch: nat)
    requires Valid(c) && IsEmpty(c)
    ensures Restore(c, dst, ch) == Readback(0, dst)
  {
  }

  /** On a fresh cache every channel is high impedance and has no other role. */
  lemma FreshCacheIsHighImpedance(p: Codes, c: Cache, ch: nat)
    requires p.Valid() && Valid(c) && IsEmpty(c)
    requires ch < |c.slots|
    ensures IsHighImpedanceCh(p, c, ch)
    ensures !IsVoltageDacCh(p, c, ch) && !IsCurrentDacCh(p, c, ch)
    ensures !IsDigitalInputCh(p, c, ch) && !IsRtdCh(p, c, ch)
    ensures ch < c.layout.anChannels ==> !IsVoltageAdcCh(p, c, ch) && !IsCurrentAdcCh(p, c, ch)
  {
  }

  /** Storing s bytes and restoring the same slot writes back exactly those bytes,
      returns their number and leaves the rest of dst as it was. */
  lemma BackupRestoreRoundTrip(c: Cache, src: seq<Byte>, ch: nat, s: Byte, dst: seq<Byte>)
    requires Valid(c)
    requires ch < |c.slots|
    requires 0 < s as nat <= |src| && s as nat <= |dst|
    ensures Restore(Backup(c, src, ch, s), dst, ch) == Readback(s as nat, src[..s] + dst[s..])
  {
  }

  /** What a restore returns after a store depends only on the bytes stored, never
      on what the slot held before: the old message is replaced, not mixed in. */
  lemma BackupReplacesWholly(c1: Cache, c2: Cache, src: seq<Byte>, ch: nat, s: Byte, dst: seq<Byte>)
    requires Valid(c1) && Valid(c2) && c1.layout == c2.layout
    requires ch < |c1.slots|
    requires 0 < s as nat <= |src| && s as nat <= |dst|
    ensures Restore(Backup(c1, src, ch, s), dst, ch) == Restore(Backup(c2, src, ch, s), dst, ch)
  {
    BackupRestoreRoundTrip(c1, src, ch, s, dst);
    BackupRestoreRoundTrip(c2, src, ch, s, dst);
  }

  /** Two accepted stores to the same slot: only the second survives. */
  lemma LastBackupWins(c: Cache, a: seq<Byte>, sa: Byte, b: seq<Byte>, sb: Byte, ch: nat)
    requires Valid(c)
    requires sa as nat <= |a| && 0 < sb as nat <= |b|
    ensures Backup(Backup(c, a, ch, sa), b, ch, sb) == Backup(c, b, ch, sb)
  {
  }

  /** A store never changes what any other slot restores. */
  lemma BackupKeepsOtherRestores(c: Cache, src: seq<Byte>, ch: nat, s: Byte, dst: seq<Byte>, j: nat)
    requires Valid(c)
    requires s as nat <= |src|
    requires j != ch
    requires j < |c.slots| && c.slots[j].Some? ==> |c.slots[j].value| <= |dst|
    ensures Restore(Backup(c, src, ch, s), dst, j) == Restore(c, dst, j)
  {
  }

  /** Stores to different slots do not interfere: their order does not matter. */
  lemma BackupsOnDistinctSlotsCommute(c: Cache, a: seq<Byte>, i: nat, sa: Byte, b: seq<Byte>, j: nat, sb: Byte)
    requires Valid(c)
    requires sa as nat <= |a| && sb as nat <= |b|
    requires i != j
    ensures Backup(Backup(c, a, i, sa), b, j, sb) == Backup(Backup(c, b, j, sb), a, i, sa)
  {
  }

  /** A message of 1 to 4 bytes is kept and restored verbatim, yet classifies as
      nothing but high impedance. */
  lemma ShortMessageNotClassifiable(p: Codes, c: Cache, ch: nat, dst: seq<Byte>)
    requires p.Valid() && Valid(c)
    requires ch < |c.slots| && c.slots[ch].Some? && |c.slots[ch].value| < MinCfgSize
    requires |c.slots[ch].value| <= |dst|
    ensures IsHighImpedanceCh(p, c, ch)
    ensures !IsVoltageDacCh(p, c, ch) && !IsCurrentDacCh(p, c, ch)
    ensures !IsDigitalInputCh(p, c, ch) && !IsRtdCh(p, c, ch)
    ensures KindOf(p, c.slots[ch]) == Unconfigured
    ensures var r := Restore(c, dst, ch);
            0 < r.count < MinCfgSize && r.buffer[..r.count] == c.slots[ch].value
  {
  }

  /** The primary-only predicates agree with the reference decoding of the primary
      slot; high impedance covers both an unconfigured slot and an explicit one. */
  lemma PrimaryClassificationMatchesKind(p: Codes, c: Cache, ch: nat)
    requires p.Valid() && p.Distinct() && Valid(c)
    requires ch < |c.slots|
    ensures IsVoltageDacCh(p, c, ch) <==> KindOf(p, c.slots[ch]) == VoltageDac
    ensures IsCurrentDacCh(p, c, ch) <==> KindOf(p, c.slots[ch]) == CurrentDac
    ensures IsDigitalInputCh(p, c, ch) <==> KindOf(p, c.slots[ch]) == DigitalInput
    ensures IsRtdCh(p, c, ch) <==> KindOf(p, c.slots[ch]) == Rtd
    ensures IsHighImpedanceCh(p, c, ch) <==>
              KindOf(p, c.slots[ch]) == Unconfigured || KindOf(p, c.slots[ch]) == HighImpedance
  {
  }

  /** The ADC predicates agree with the reference decoding of the primary slot or,
      as a fallback, the additional-ADC slot of the same channel. */
  lemma AdcClassificationMatchesKind(p: Codes, c: Cache, ch: nat)
    requires p.Valid() && p.Distinct() && Valid(c)
    requires ch < c.layout.anChannels
    ensures var secondary := c.slots[SecondarySlot(c.layout, ch)];
            IsVoltageAdcCh(p, c, ch) <==>
              KindOf(p, c.slots[ch]) == VoltageAdc || KindOf(p, secondary) == VoltageAdc
    ensures var secondary := c.slots[SecondarySlot(c.layout, ch)];
            IsCurrentAdcCh(p, c, ch) <==>
              KindOf(p, c.slots[ch]) == CurrentAdc || KindOf(p, secondary) == CurrentAdc
  {
  }

  /** A classifiable slot has exactly one kind, so the primary-only predicates
      exclude one another. */
  lemma PrimaryRolesExclusive(p: Codes, c: Cache, ch: nat)
    requires p.Valid() && p.Distinct() && Valid(c)
    requires ch < |c.slots|
    ensures var roles := [IsVoltageDacCh(p, c, ch), IsCurrentDacCh(p, c, ch),
                          IsDigitalInputCh(p, c, ch), IsRtdCh(p, c, ch), IsHighImpedanceCh(p, c, ch)];
            forall a, b :: 0 <= a < b < |roles| ==> !(roles[a] && roles[b])
  {
    PrimaryClassificationMatchesKind(p, c, ch);
  }

  /** The DAC, digital-input, RTD and high-impedance predicates read only the
      primary slot: two caches that agree there agree on all of them, whatever
      their additional-ADC slots hold. */
  lemma PrimaryOnlyPredicatesIgnoreOtherSlots(p: Codes, c: Cache, d: Cache, ch: nat)
    requires p.Valid() && Valid(c) && Valid(d)
    requires ch < |c.slots| && ch < |d.slots|
    requires c.slots[ch] == d.slots[ch]
    ensures IsVoltageDacCh(p, c, ch) == IsVoltageDacCh(p, d, ch)
    ensures IsCurrentDacCh(p, c, ch) == IsCurrentDacCh(p, d, ch)
    ensures IsDigitalInputCh(p, c, ch) == IsDigitalInputCh(p, d, ch)
    ensures IsRtdCh(p, c, ch) == IsRtdCh(p, d, ch)
    ensures IsHighImpedanceCh(p, c, ch) == IsHighImpedanceCh(p, d, ch)
  {
  }

  /** Storing into the additional-ADC slot of a channel leaves its primary-only
      classification as it was. */
  lemma SecondaryBackupKeepsPrimaryRoles(p: Codes, c: Cache, src: seq<Byte>, s: Byte, ch: nat)
    requires p.Valid() && Valid(c)
    requires ch < c.layout.anChannels
    requires s as nat <= |src|
    ensures var d := Backup(c, src, SecondarySlot(c.layout, ch), s);
            && IsVoltageDacCh(p, d, ch) == IsVoltageDacCh(p, c, ch)
            && IsCurrentDacCh(p, d, ch) == IsCurrentDacCh(p, c, ch)
            && IsDigitalInputCh(p, d, ch) == IsDigitalInputCh(p, c, ch)
            && IsRtdCh(p, d, ch) == IsRtdCh(p, c, ch)
            && IsHighImpedanceCh(p, d, ch) == IsHighImpedanceCh(p, c, ch)
  {
    var d := Backup(c, src, SecondarySlot(c.layout, ch), s);
    PrimaryOnlyPredicatesIgnoreOtherSlots(p, c, d, ch);
  }

  /** With no primary message, a voltage ADC message in the additional-ADC slot
      makes the channel a voltage ADC and not a current ADC. */
  lemma SecondaryVoltageAdcFallback(p: Codes, c: Cache, ch: nat)
    requires p.Valid() && p.Distinct() && Valid(c)
    requires ch < c.layout.anChannels
    requires c.slots[ch] == None
    requires KindOf(p, c.slots[SecondarySlot(c.layout, ch)]) == VoltageAdc
    ensures IsVoltageAdcCh(p, c, ch)
    ensures !IsCurrentAdcCh(p, c, ch)
  {
    AdcClassificationMatchesKind(p, c, ch);
  }

  /** After the additional-ADC message of a channel is reset, its ADC predicates
      follow the primary slot alone. */
  lemma ResetLeavesPrimaryAdcOnly(p: Codes, c: Cache, ch: nat)
    requires p.Valid() && Valid(c)
    requires ch < c.layout.anChannels
    ensures var r := ResetAdditionalAdcCh(c, ch);
            && (IsVoltageAdcCh(p, r, ch) <==>
                  HasRoleAndType(c, ch, p.argPos, p.argAdc, p.adcTypePos, p.voltageAdc))
            && (IsCurrentAdcCh(p, r, ch) <==>
                  HasRoleAndType(c, ch, p.argPos, p.argAdc, p.adcTypePos, p.currentAdc))
  {
  }

  /** Resetting the additional-ADC message twice is the same as once. */
  lemma ResetIdempotent(c: Cache, ch: nat)
    requires Valid(c)
    requires ch < c.layout.anChannels
    ensures ResetAdditionalAdcCh(ResetAdditionalAdcCh(c, ch), ch) == ResetAdditionalAdcCh(c, ch)
  {
  }

  /** One call of `backup`: the first s bytes of src for slot ch. */
  datatype Store = Store(src: seq<Byte>, ch: nat, s: Byte)

  /** Every store passes at least s readable bytes. */
  predicate StoresReadable(ops: seq<Store>) {
    forall k :: 0 <= k < |ops| ==> ops[k].s as nat <= |ops[k].src|
  }

  /** Applies the stores in order. */
  function BackupAll(c: Cache, ops: seq<Store>): (r: Cache)
    requires Valid(c) && StoresReadable(ops)
    ensures Valid(r) && r.layout == c.layout
    decreases |ops|
  {
    if ops == [] then c
    else BackupAll(Backup(c, ops[0].src, ops[0].ch, ops[0].s), ops[1..])
  }

  /** Reference: the message of the last store to slot i that the cache accepts
      (slot in range, positive length), if there is one. */
  function LastAccepted(ops: seq<Store>, i: nat, slotCount: nat): Option<Message>
    requires StoresReadable(ops)
    decreases |ops|
  {
    if ops == [] then None
    else
      match LastAccepted(ops[1..], i, slotCount)
      case Some(m) => Some(m)
      case None =>
        if ops[0].ch == i && i < slotCount && ops[0].s > 0 then Some(ops[0].src[..ops[0].s]) else None
  }

  /** After any sequence of stores, each slot holds the last message accepted for
      it, or what it held before when no store to it was accepted: the cache keeps
      no history and never mixes messages. */
  lemma {:induction false} BackupAllKeepsLastAccepted(c: Cache, ops: seq<Store>, i: nat)
    requires Valid(c) && StoresReadable(ops)
    requires i < |c.slots|
    ensures BackupAll(c, ops).slots[i] ==
              match LastAccepted(ops, i, |c.slots|)
              case Some(m) => Some(m)
              case None => c.slots[i]
    decreases |ops|
  {
    if ops != [] {
      var c' := Backup(c, ops[0].src, ops[0].ch, ops[0].s);
      BackupAllKeepsLastAccepted(c', ops[1..], i);
    }
  }
}
