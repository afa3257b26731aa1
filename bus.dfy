/**
 * The communication bus the driver talks through, modelled as an abstract
 * file of sixteen byte-wide device registers. A command byte selects a
 * register by its low four bits; sixteen-bit values are little-endian, low
 * byte at the addressed register and high byte at the next one. Every write
 * is also appended to a log, so that the order of transfers can be stated.
 */
module Bus {

  /** Index in the register file of the register a command byte addresses. */
  function Reg(cmd: bv8): (r: nat)
    ensures r < 16
    ensures r as bv8 == cmd & 0x0F
  {
    (cmd & 0x0F) as nat
  }

  function LowByte(v: bv16): bv8 {
    (v & 0xFF) as bv8
  }

  function HighByte(v: bv16): bv8 {
    (v >> 8) as bv8
  }

  /** The little-endian sixteen-bit value with the given low and high bytes. */
  function Word(lo: bv8, hi: bv8): (w: bv16)
    ensures LowByte(w) == lo && HighByte(w) == hi
  {
    ((hi as bv16) << 8) | (lo as bv16)
  }

  /** Advancing a command byte by one register moves the index on by one, modulo sixteen. */
  lemma RegNext(cmd: bv8)
    ensures Reg(cmd + 1) == (Reg(cmd) + 1) % 16
  {
  }

  /** Advancing a command byte by two registers moves the index on by two, modulo sixteen. */
  lemma RegSkip(cmd: bv8)
    ensures Reg(cmd + 2) == (Reg(cmd) + 2) % 16
  {
  }

  /** Starting two registers further on shifts every later index by two, modulo sixteen. */
  lemma StepTwo(base: nat, count: nat)
    ensures forall i :: 1 <= i < count ==>
      ((base + 2) % 16 + 2 * (i - 1)) % 16 == (base + 2 * i) % 16
      && ((base + 2) % 16 + 2 * (i - 1) + 1) % 16 == (base + 2 * i + 1) % 16
  {
    forall i | 1 <= i < count
      ensures ((base + 2) % 16 + 2 * (i - 1)) % 16 == (base + 2 * i) % 16
      ensures ((base + 2) % 16 + 2 * (i - 1) + 1) % 16 == (base + 2 * i + 1) % 16
    {
      var q := (base + 2) / 16;
      assert (base + 2) % 16 == base + 2 - 16 * q;
      ModShift(base + 2 * i, q);
      ModShift(base + 2 * i + 1, q);
    }
  }

  lemma ModShift(x: int, q: int)
    ensures (x - 16 * q) % 16 == x % 16
  {
  }

  /** The sixteen-bit value stored at the register cmd addresses and the next one. */
  function WordAt(file: seq<bv8>, cmd: bv8): (w: bv16)
    requires |file| == 16
    ensures LowByte(w) == file[Reg(cmd)]
    ensures HighByte(w) == file[(Reg(cmd) + 1) % 16]
  {
    RegNext(cmd);
    Word(file[Reg(cmd)], file[Reg(cmd + 1)])
  }

  /**
   * count consecutive sixteen-bit values: the i-th one has its low byte at
   * register index Reg(cmd) + 2i and its high byte at the next, modulo sixteen.
   */
  function Words(file: seq<bv8>, cmd: bv8, count: nat): (ws: seq<bv16>)
    requires |file| == 16
    ensures |ws| == count
    ensures forall i :: 0 <= i < count ==>
      ws[i] == Word(file[(Reg(cmd) + 2 * i) % 16], file[(Reg(cmd) + 2 * i + 1) % 16])
    decreases count
  {
    if count == 0 then []
    else
      var rest := Words(file, cmd + 2, count - 1);
      RegSkip(cmd);
      StepTwo(Reg(cmd), count);
      [WordAt(file, cmd)] + rest
  }

  /** Splitting a value into bytes and joining them again gives it back. */
  lemma WordRoundTrip(v: bv16)
    ensures Word(LowByte(v), HighByte(v)) == v
  {
  }

  /** One transfer sent to the device. */
  datatype Transfer =
    | CommandByte(value: bv8)
    | RegisterWrite(cmd: bv8, value: bv8)
    | WordWrite(cmd: bv8, word: bv16)

  class RegisterBus {
    const address: bv8
    const speed: bv16
    const regs: array<bv8>
    var sent: seq<Transfer>

    ghost predicate Valid() {
      regs.Length == 16
    }

    constructor (address: bv8, speed: bv16)
      ensures Valid() && fresh(regs)
      ensures this.address == address && this.speed == speed
      ensures sent == []
    {
      this.address := address;
      this.speed := speed;
      regs := new bv8[16];
      sent := [];
    }

    method WriteByte(value: bv8)
      requires Valid()
      modifies this
      ensures sent == old(sent) + [CommandByte(value)]
    {
      sent := sent + [CommandByte(value)];
    }

    method ReadRegister(cmd: bv8) returns (value: bv8)
      requires Valid()
      ensures value == regs[Reg(cmd)]
    {
      value := regs[cmd & 0x0F];
    }

    method WriteRegister(cmd: bv8, value: bv8)
      requires Valid()
      modifies this, regs
      ensures regs[..] == old(regs[..])[Reg(cmd) := value]
      ensures sent == old(sent) + [RegisterWrite(cmd, value)]
    {
      regs[cmd & 0x0F] := value;
      sent := sent + [RegisterWrite(cmd, value)];
    }

    method ReadUShort(cmd: bv8) returns (value: bv16)
      requires Valid()
      ensures value == WordAt(regs[..], cmd)
    {
      value := Word(regs[cmd & 0x0F], regs[(cmd + 1) & 0x0F]);
    }

    method ReadUShorts(cmd: bv8, count: nat) returns (values: seq<bv16>)
      requires Valid()
      ensures |values| == count
      ensures forall i :: 0 <= i < count ==>
        values[i] == Word(regs[(Reg(cmd) + 2 * i) % 16], regs[(Reg(cmd) + 2 * i + 1) % 16])
    {
      values := Words(regs[..], cmd, count);
    }

    method WriteUShort(cmd: bv8, value: bv16)
      requires Valid()
      modifies this, regs
      ensures regs[..] == old(regs[..])[Reg(cmd) := LowByte(value)][Reg(cmd + 1) := HighByte(value)]
      ensures sent == old(sent) + [WordWrite(cmd, value)]
    {
      regs[cmd & 0x0F] := LowByte(value);
      regs[(cmd + 1) & 0x0F] := HighByte(value);
      sent := sent + [WordWrite(cmd, value)];
    }
  }
}
