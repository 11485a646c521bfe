/** The instruction set: the live instructions `lri` and `add`, their
    16-bit encoding (`genbits`), decoding a word into its fields, and the
    range check `lri` performs when it is constructed. */
module Isa {
  import opened Wrappers
  import opened Text
  import Diagnostics

  /** Place values of the word's fields: the opcode starts at bit
      OP_SHIFT = 12, slot 1 at SLOT1_SHIFT = 8, slot 2 at SLOT2_SHIFT = 4,
      so `x << SHIFT` is x times these. */
  const OpUnit: nat := 0x1000
  const Slot1Unit: nat := 0x100
  const Slot2Unit: nat := 0x10

  /** The `code` of each live instruction class. */
  const LriCode: nat := 1
  const AddCode: nat := 4

  /** Register indices r0..r15. */
  type Reg = r: nat | r < 16

  /** An immediate that fits the 8 bits `lri` gives it. */
  type Imm8 = i: nat | i < 0x100

  /** What the output array (`array("H")`) can hold. */
  type Word = w: nat | w < 0x1_0000

  /** The source file and line that constructed an instruction. */
  datatype Pos = Pos(file: string, line: int)

  datatype Op =
    | Lri(dest: Reg, imm: Imm8)                  // load immediate into dest
    | Add(src1: Reg, src2: Reg, dest: Reg)       // dest := src1 + src2

  /** An instruction in the program: its operation and where it was written. */
  datatype Instr = Instr(op: Op, pos: Pos)

  /** The four 4-bit fields of a word, from the top. */
  datatype Nibbles = Nibbles(code: nat, slot1: nat, slot2: nat, low: nat)

  /** Splits a word into its opcode, slot 1, slot 2 and low nibble; the
      nibbles put back in place give the word again. */
  function Decode(w: Word): (n: Nibbles)
    ensures n.code < 16 && n.slot1 < 16 && n.slot2 < 16 && n.low < 16
    ensures n.code * OpUnit + n.slot1 * Slot1Unit + n.slot2 * Slot2Unit + n.low == w
  {
    var low, above := w % 16, w / 16;
    var slot2, top := above % 16, above / 16;
    Nibbles(top / 16, top % 16, slot2, low)
  }

  /** `genbits`. The source combines the shifted fields with `|`; every
      field of a well-formed instruction lies below the next field's
      position, so the fields occupy disjoint bits and `|` adds them. */
  function Encode(op: Op): (w: Word)
    ensures op.Lri? ==>
      w / OpUnit == LriCode && w / Slot2Unit % 0x100 == op.imm && w % Slot2Unit == op.dest
    ensures op.Add? ==> Decode(w) == Nibbles(AddCode, op.src1, op.src2, op.dest)
  {
    match op
    case Lri(dest, imm) =>
      var w := LriCode * OpUnit + imm * Slot2Unit + dest;
      assert w / Slot2Unit == LriCode * 0x100 + imm && w % Slot2Unit == dest;
      w
    case Add(src1, src2, dest) =>
      var w := AddCode * OpUnit + src1 * Slot1Unit + src2 * Slot2Unit + dest;
      assert w % 16 == dest && w / 16 == (AddCode * 16 + src1) * 16 + src2;
      w
  }

  /** Reads a word back as an instruction, if its opcode is a live one. */
  function Disassemble(w: Word): (r: Option<Op>)
    ensures r.Some? ==> Encode(r.value) == w
  {
    var n := Decode(w);
    if n.code == LriCode then Some(Lri(n.low, n.slot1 * 16 + n.slot2))
    else if n.code == AddCode then Some(Add(n.slot1, n.slot2, n.low))
    else None
  }

  /** Every instruction's word reads back as that instruction. */
  lemma DisassembleEncode(op: Op)
    ensures Disassemble(Encode(op)) == Some(op)
  {
    var w := Encode(op);
    var n := Decode(w);
    match op
    case Lri(dest, imm) =>
      assert n.code == LriCode && n.low == dest;
      assert n.slot1 * 16 + n.slot2 == imm;
    case Add(src1, src2, dest) =>
  }

  /** Distinct instructions encode to distinct words. */
  lemma EncodeInjective(a: Op, b: Op)
    requires Encode(a) == Encode(b)
    ensures a == b
  {
    DisassembleEncode(a);
    DisassembleEncode(b);
  }

  /** The text of the warning for an immediate too wide for 8 bits. */
  function TooBig(imm: nat): (msg: string)
    ensures |msg| > 2 + |TooBigTail| && msg[..2] == "0x"
    ensures ParseHex(msg[2..|msg| - |TooBigTail|]) == Some(imm)
    ensures msg[|msg| - |TooBigTail|..] == TooBigTail
  {
    HexRoundTrip(imm);
    var msg := "0x" + Hex(imm) + TooBigTail;
    assert msg[2..|msg| - |TooBigTail|] == Hex(imm);
    msg
  }

  const TooBigTail := " too big, will truncate"

  /** An instruction under construction and the warnings its range check printed. */
  datatype Built = Built(op: Op, warnings: seq<string>)

  /** `lri(dest, imm)` with the range check its comment and the address
      check of the memory instructions describe: an immediate of 8 bits or
      more draws one warning naming it in hexadecimal and is then cut to its
      low 8 bits (`imm & 0xFF`, which is `imm % 0x100` for imm >= 0). */
  function BuildLri(pos: Pos, dest: nat, imm: nat): (b: Built)
    requires dest < 16
    ensures b.op == Lri(dest, imm % 0x100)
    ensures imm < 0x100 ==> b.op.imm == imm && b.warnings == []
    ensures imm >= 0x100 ==> b.warnings == [Diagnostics.WarningLine(pos.file, pos.line, TooBig(imm))]
  {
    var warnings := if imm >= 0x100 then [Diagnostics.WarningLine(pos.file, pos.line, TooBig(imm))] else [];
    Built(Lri(dest, imm % 0x100), warnings)
  }

  /** How constructing an instruction ends in the code as written: built,
      or an exception that the driver reports before exiting with status 1. */
  datatype Outcome =
    | Constructed(op: Op, warnings: seq<string>)
    | Raised(warnings: seq<string>, exception: string)

  /** The exception `addr &= ...` raises inside `lri`, where no `addr` is bound. */
  const UnboundAddr := "local variable 'addr' referenced before assignment"

  /** `lri(dest, imm)` as written: the overflow branch prints the warning and
      then masks `addr` instead of `imm`, which raises; the instruction is
      never completed. In range it agrees with BuildLri. */
  function LriAsWritten(pos: Pos, dest: nat, imm: nat): (o: Outcome)
    requires dest < 16
    ensures o.Constructed? <==> imm < 0x100
    ensures o.warnings == BuildLri(pos, dest, imm).warnings
    ensures o.Constructed? ==> o.op == BuildLri(pos, dest, imm).op
  {
    if imm >= 0x100 then
      Raised([Diagnostics.WarningLine(pos.file, pos.line, TooBig(imm))], UnboundAddr)
    else
      Constructed(Lri(dest, imm), [])
  }

  /** The smallest immediate that shows the difference: `lri(r0, 0x100)`
      warns and fails as written, while the intended check encodes 0x1000
      (the immediate field cut to zero). */
  lemma LriOverflowCounterexample()
    ensures LriAsWritten(Pos("prog", 1), 0, 0x100).Raised?
    ensures BuildLri(Pos("prog", 1), 0, 0x100).op == Lri(0, 0)
    ensures Encode(BuildLri(Pos("prog", 1), 0, 0x100).op) == 0x1000
  {
  }
}
