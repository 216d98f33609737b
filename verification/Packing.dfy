/** The user_data word of a ring entry, and the ioctl encoding of an io command. */
module Packing {
  // `tag | (op << 16) | (tgt_data << 24)` is computed in 32 bits and then widened.
  function BuildUserData(tag: bv32, op: bv32, tgtData: bv32, target: bool): bv64 {
    Widen(tag | (op << 16) | (tgtData << 24), target)
  }

  function Widen(low: bv32, target: bool): bv64 { (low as bv64) | (if target then 1 << 63 else 0) }

  function UserTag(d: bv64): bv64 { d & 0xffff }

  function UserOp(d: bv64): bv64 { (d >> 16) & 0xff }

  function IsTargetIo(d: bv64): bool { d & (1 << 63) != 0 }

  // The assertion at the head of build_user_data.
  predicate Packable(tag: bv32, op: bv32, tgtData: bv32) {
    tag >> 16 == 0 && op >> 8 == 0 && tgtData >> 16 == 0
  }

  // Before widening.
  lemma LowWord(tag: bv32, op: bv32, tgtData: bv32)
    requires Packable(tag, op, tgtData)
    ensures var low := tag | (op << 16) | (tgtData << 24);
            low & 0xffff == tag && (low >> 16) & 0xff == op && low >> 24 == tgtData & 0xff
  {
  }

  // Widening adds zero bits; the target bit is above them.
  lemma Widened(low: bv32, target: bool)
    ensures var d := Widen(low, target);
            && UserTag(d) == (low & 0xffff) as bv64 && UserOp(d) == ((low >> 16) & 0xff) as bv64
            && (d >> 24) & 0xffff == (low >> 24) as bv64 && IsTargetIo(d) == target
  {
  }

  /** Tag, opcode and target bit survive, whatever the target data. */
  lemma RoundTrip(tag: bv32, op: bv32, tgtData: bv32, target: bool)
    requires Packable(tag, op, tgtData)
    ensures var d := BuildUserData(tag, op, tgtData, target);
            UserTag(d) == tag as bv64 && UserOp(d) == op as bv64 && IsTargetIo(d) == target
  {
    var low := tag | (op << 16) | (tgtData << 24);
    LowWord(tag, op, tgtData);
    Widened(low, target);
  }

  lemma LowByte(x: bv32)
    ensures (x & 0xff) as bv64 == x as bv64 <==> x >> 8 == 0
  {
  }

  /** The target data itself survives exactly when it fits 8 bits, because its shift is done in 32. */
  lemma TargetDataFits(tag: bv32, op: bv32, tgtData: bv32, target: bool)
    requires Packable(tag, op, tgtData)
    ensures (BuildUserData(tag, op, tgtData, target) >> 24) & 0xffff == tgtData as bv64 <==> tgtData >> 8 == 0
  {
    LowWord(tag, op, tgtData);
    Widened(tag | (op << 16) | (tgtData << 24), target);
    LowByte(tgtData);
  }

  // _IOWR('u', nr, struct ublksrv_io_cmd): direction 3, size 16, type 'u'.
  function Iowr(nr: bv32): bv32 { (3 << 30) | (16 << 16) | (0x75 << 8) | nr }

  function IocNr(op: bv32): bv32 { op & 0xff }

  // The opcode word stored in the entry, with or without ioctl encoding.
  function CmdOpWord(op: bv32, ioctl: bool): bv32 { if ioctl then Iowr(IocNr(op)) else op }

  /** Encoding the opcode does not change the number packed into user_data. */
  lemma IoctlKeepsNumber(op: bv32, ioctl: bool)
    requires op >> 8 == 0
    ensures IocNr(CmdOpWord(op, ioctl)) == op
    ensures IocNr(CmdOpWord(op, ioctl)) >> 8 == 0
    ensures CmdOpWord(op, true) != op
  {
  }

  /** The three io commands with ioctl encoding. */
  lemma IoctlNumbers()
    ensures CmdOpWord(0x20, true) == 0xC010_7520 && CmdOpWord(0x21, true) == 0xC010_7521 && CmdOpWord(0x22, true) == 0xC010_7522
    ensures forall op :: CmdOpWord(op, false) == op
  {
  }
}
