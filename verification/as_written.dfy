/** Two behaviours of `OaChannelCfg` as the C++ code is written, where it departs
    from what the rest of the model assumes:

    - the stored length is kept in an `int8_t`, so a message of 128 to 255 bytes
      records a negative length: restore then either reports the slot as empty
      (255 bytes record -1, the "absent" marker) or copies a negative length,
      which is undefined behaviour, and the copy constructor drops such a slot;
    - the copy constructor stores each occupied slot through the same allocation
      routine as a normal store, which first inspects the slot's pointer, but in an
      object of automatic or dynamic storage duration that pointer has not been
      initialised yet.

    The members here work on the object as the class lays it out: one `int8_t`
    length and one pointer per slot. The model in ChannelCfg uses the corrected
    behaviour (nat lengths, a copy that starts from an empty cache). */
module AsWritten {
  import opened Protocol

  /** Either the value a C++ statement sequence produces, or undefined behaviour. */
  datatype Outcome<+T> = Defined(value: T) | Undefined

  /** State of one `uint8_t *` slot pointer. */
  datatype Pointer = Null | Owned(bytes: Message) | Indeterminate

  /** One slot as the class stores it: the `int8_t` length and the buffer pointer. */
  datatype Slot = Slot(size: int, cfg: Pointer)

  /** An empty slot as the default constructor leaves it. */
  const EmptySlot := Slot(-1, Null)

  /** Every pointer of the object has a value, as after the default constructor and
      every public operation. */
  predicate Determinate(slots: seq<Slot>) {
    forall i :: 0 <= i < |slots| ==> !slots[i].cfg.Indeterminate?
  }

  /** Conversion of a `uint8_t` to `int8_t` (two's complement, as C++20 defines it). */
  function ToInt8(s: Byte): (r: int)
    ensures -128 <= r < 128
    ensures (r - s as int) % 0x100 == 0
  {
    if s < 0x80 then s as int else s as int - 0x100
  }

  /** `allocate(i, s)`: outside the guard (index in range, positive length) nothing
      happens and the result is false. Inside it a non-null old buffer is released
      and its length reset to -1, then `storage`, the s bytes that `new` returns, is
      installed and the result is true. Testing an indeterminate pointer against
      null is undefined. */
  function AllocateAsWritten(slots: seq<Slot>, i: nat, s: Byte, storage: Message): (r: Outcome<(bool, seq<Slot>)>)
    requires |storage| == s as nat
    ensures !(i < |slots| && s > 0) ==> r == Defined((false, slots))
    ensures i < |slots| && s > 0 ==> (r.Undefined? <==> slots[i].cfg.Indeterminate?)
    ensures r.Defined? ==> (r.value.0 <==> i < |slots| && s > 0)
    ensures r.Defined? ==> |r.value.1| == |slots|
    ensures r.Defined? ==> forall j :: 0 <= j < |slots| && j != i ==> r.value.1[j] == slots[j]
    ensures r.Defined? && r.value.0 ==>
              && r.value.1[i].cfg == Owned(storage)
              && r.value.1[i].size == (if slots[i].cfg.Owned? then -1 else slots[i].size)
  {
    if i < |slots| && s > 0 then
      match slots[i].cfg
      case Indeterminate => Undefined
      case Owned(_) => Defined((true, slots[i := Slot(-1, Owned(storage))]))
      case Null => Defined((true, slots[i := Slot(slots[i].size, Owned(storage))]))
    else
      Defined((false, slots))
  }

  /** `backup(src, ch, s)`: allocate, then copy s bytes and record s in an `int8_t`.
      The new buffer's initial contents do not matter, since `memcpy` overwrites all
      s of them; the model hands allocate the copied bytes directly. */
  function BackupAsWritten(slots: seq<Slot>, src: seq<Byte>, ch: nat, s: Byte): (r: Outcome<seq<Slot>>)
    requires s as nat <= |src|
    ensures !(ch < |slots| && s > 0) ==> r == Defined(slots)
    ensures ch < |slots| && s > 0 ==> (r.Undefined? <==> slots[ch].cfg.Indeterminate?)
    ensures r.Defined? ==> |r.value| == |slots|
    ensures r.Defined? ==> forall j :: 0 <= j < |slots| && j != ch ==> r.value[j] == slots[j]
    ensures r.Defined? && ch < |slots| && s > 0 ==> r.value[ch] == Slot(ToInt8(s), Owned(src[..s]))
  {
    match AllocateAsWritten(slots, ch, s, src[..s])
    case Undefined => Undefined
    case Defined((ok, after)) =>
      if ok then Defined(after[ch := Slot(ToInt8(s), Owned(src[..s]))]) else Defined(after)
  }

  /** The slot's recorded length can be copied out: a length of 0 or more belongs to
      a buffer of at least that many bytes that dst has room for. */
  predicate Readable(slots: seq<Slot>, dst: seq<Byte>, ch: nat) {
    ch < |slots| && slots[ch].size >= 0 ==>
      slots[ch].cfg.Owned? && slots[ch].size <= |slots[ch].cfg.bytes| && slots[ch].size <= |dst|
  }

  /** `restore(dst, ch)`: a recorded length other than -1 is copied out and returned;
      a negative one reaches `memcpy` as a huge `size_t`. An index past the last slot
      returns 0. */
  function RestoreAsWritten(slots: seq<Slot>, dst: seq<Byte>, ch: nat): (r: Outcome<(int, seq<Byte>)>)
    requires Readable(slots, dst, ch)
    ensures ch >= |slots| ==> r == Defined((0, dst))
    ensures ch < |slots| && slots[ch].size == -1 ==> r == Defined((0, dst))
    ensures r.Undefined? <==> ch < |slots| && slots[ch].size < -1
    ensures r.Defined? ==> |r.value.1| == |dst|
    ensures ch < |slots| && slots[ch].size >= 0 ==>
              && r.Defined? && r.value.0 == slots[ch].size
              && r.value.1[..slots[ch].size] == slots[ch].cfg.bytes[..slots[ch].size]
              && r.value.1[slots[ch].size..] == dst[slots[ch].size..]
  {
    if ch < |slots| && slots[ch].size != -1 then
      var n := slots[ch].size;
      if n < 0 then Undefined
      else Defined((n, slots[ch].cfg.bytes[..n] + dst[n..]))
    else Defined((0, dst))
  }

  /** `is_cfg(i)` on a determinate object. */
  predicate IsCfgAsWritten(slots: seq<Slot>, i: nat)
    requires i < |slots|
  {
    slots[i].cfg.Owned? && slots[i].size >= MinCfgSize
  }

  /** Up to 127 bytes the code as written round-trips like the corrected model,
      whatever the slot held before (including a long message whose length wrapped
      to -1), as long as the object's pointers are determinate. */
  lemma ShortMessageRoundTripAsWritten(slots: seq<Slot>, src: seq<Byte>, ch: nat, s: Byte, dst: seq<Byte>)
    requires Determinate(slots)
    requires ch < |slots|
    requires 0 < s < 0x80
    requires s as nat <= |src| && s as nat <= |dst|
    ensures BackupAsWritten(slots, src, ch, s).Defined?
    ensures RestoreAsWritten(BackupAsWritten(slots, src, ch, s).value, dst, ch)
              == Defined((s as int, src[..s] + dst[s..]))
  {
    var after := BackupAsWritten(slots, src, ch, s).value;
    assert after[ch] == Slot(s as int, Owned(src[..s]));
    assert src[..s][..s] == src[..s];
  }

  /** From 128 bytes on, the round trip breaks: a 255-byte message is reported as
      absent, and a 128 to 254-byte message makes restore undefined. Either way such
      a message is also never classifiable, although it is longer than 5 bytes. */
  lemma LongMessageRoundTripFails(slots: seq<Slot>, src: seq<Byte>, ch: nat, s: Byte, dst: seq<Byte>)
    requires Determinate(slots)
    requires ch < |slots|
    requires 0x80 <= s
    requires s as nat <= |src| && s as nat <= |dst|
    ensures BackupAsWritten(slots, src, ch, s).Defined?
    ensures var after := BackupAsWritten(slots, src, ch, s).value;
            && !IsCfgAsWritten(after, ch)
            && (s == 0xFF ==> RestoreAsWritten(after, dst, ch) == Defined((0, dst)))
            && (s < 0xFF ==> RestoreAsWritten(after, dst, ch).Undefined?)
  {
  }

  /** The copy constructor copies a source slot when its length is positive and its
      pointer non-null. */
  predicate Copied(slot: Slot) {
    slot.size > 0 && slot.cfg.Owned?
  }

  /** The copy constructor's test reads the source pointer only after the length
      test succeeds, so a positive length in front of an indeterminate pointer is
      undefined. */
  predicate ReadsIndeterminate(slot: Slot) {
    slot.size > 0 && slot.cfg.Indeterminate?
  }

  /** What the copy constructor leaves in the target for one source slot, when it is
      defined. */
  function CopyOf(slot: Slot): Slot
    requires Copied(slot) ==> slot.size <= |slot.cfg.bytes|
  {
    if Copied(slot) then Slot(slot.size, Owned(slot.cfg.bytes[..slot.size])) else EmptySlot
  }

  /** A source object as the other members leave it: `int8_t` lengths, and a copied
      slot's buffer holds at least its length. */
  predicate SourceOk(src: seq<Slot>) {
    forall i :: 0 <= i < |src| ==>
      && -0x80 <= src[i].size < 0x80
      && (Copied(src[i]) ==> src[i].size <= |src[i].cfg.bytes|)
  }

  /** The copy constructor's loop from slot k on: a slot with positive length and a
      non-null pointer goes through `backup`, and so through `allocate` on the
      target's own pointer; every other target slot is set to empty. The target's
      slots start as whatever the object under construction holds. Either pointer
      read is undefined when the pointer is indeterminate. */
  function CopyCtorAsWritten(target: seq<Slot>, src: seq<Slot>, k: nat): (r: Outcome<seq<Slot>>)
    requires |target| == |src| && k <= |src|
    requires SourceOk(src)
    ensures r.Undefined? <==>
              exists i :: k <= i < |src| && (ReadsIndeterminate(src[i]) || (Copied(src[i]) && target[i].cfg.Indeterminate?))
    ensures r.Defined? ==>
              && |r.value| == |src|
              && (forall i :: 0 <= i < k ==> r.value[i] == target[i])
              && (forall i :: k <= i < |src| ==> r.value[i] == CopyOf(src[i]))
    decreases |src| - k
  {
    if k == |src| then Defined(target)
    else if ReadsIndeterminate(src[k]) then Undefined
    else if Copied(src[k]) then
      var n := src[k].size;
      assert 0 < n < 0x80 && ToInt8(n as Byte) == n;
      match BackupAsWritten(target, src[k].cfg.bytes, k, n as Byte)
      case Undefined => Undefined
      case Defined(next) => CopyCtorAsWritten(next, src, k + 1)
    else
      CopyCtorAsWritten(target[k := EmptySlot], src, k + 1)
  }

  /** In an object of automatic or dynamic storage duration the slot pointers start
      indeterminate, so copying any source that holds a message of 1 to 127 bytes is
      undefined. */
  lemma CopyCtorAsWrittenIsUndefined(target: seq<Slot>, src: seq<Slot>, i: nat)
    requires |target| == |src| && SourceOk(src)
    requires forall j :: 0 <= j < |target| ==> target[j].cfg.Indeterminate?
    requires i < |src| && src[i].cfg.Owned? && 0 < src[i].size < 0x80
    ensures CopyCtorAsWritten(target, src, 0).Undefined?
  {
  }

  /** Where the copy is defined (a source whose pointers are all determinate, copied
      into a zero-initialised object, whose pointers are all null), a message of 128 to 255 bytes, stored with its wrapped
      negative length, is not copied: the target slot is empty. */
  lemma CopyCtorAsWrittenDropsLongMessage(target: seq<Slot>, src: seq<Slot>, i: nat, s: Byte)
    requires |target| == |src| && SourceOk(src) && Determinate(src)
    requires forall j :: 0 <= j < |target| ==> target[j].cfg.Null?
    requires i < |src| && 0x80 <= s && src[i].cfg.Owned? && src[i].size == ToInt8(s)
    ensures CopyCtorAsWritten(target, src, 0).Defined?
    ensures CopyCtorAsWritten(target, src, 0).value[i] == EmptySlot
  {
  }
}
