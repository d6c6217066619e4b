/** Classification of RV32IMAC instructions: which class an instruction is in, which registers
    it reads and writes, and which address it accesses. */
module Decode {
  type word = bv32

  const OP_LOAD: word := 0x03
  const OP_STORE: word := 0x23
  const OP_BRANCH: word := 0x63
  const OP_JAL: word := 0x6F
  const OP_JALR: word := 0x67
  const OP_OP: word := 0x33
  const OP_OPIMM: word := 0x13
  const OP_SYSTEM: word := 0x73
  const OP_AMO: word := 0x2F
  const OP_LUI: word := 0x37
  const OP_AUIPC: word := 0x17

  function Quadrant(i: word): word { i & 3 }
  predicate IsCompressed(i: word) { Quadrant(i) != 3 }
  function InsnLen(i: word): nat { if IsCompressed(i) then 2 else 4 }
  function Opcode(i: word): word { i & 0x7F }

  // Fields of compressed instructions.
  function CFunct3(i: word): word { (i >> 13) & 7 }
  function CRs1c(i: word): word { 8 + ((i >> 7) & 7) }
  function CRs2c(i: word): word { 8 + ((i >> 2) & 7) }
  function CRd(i: word): word { (i >> 7) & 0x1F }
  function CRs2(i: word): word { (i >> 2) & 0x1F }

  // A compressed instruction of this quadrant and funct3.
  predicate Is(i: word, q: word, f3: word) { Quadrant(i) == q && CFunct3(i) == f3 }

  predicate IsLoad(i: word) {
    if !IsCompressed(i) then Opcode(i) == OP_LOAD else Is(i, 0, 2) || Is(i, 2, 2)
  }

  predicate IsStore(i: word) {
    if !IsCompressed(i) then Opcode(i) == OP_STORE else Is(i, 0, 6) || Is(i, 2, 6)
  }

  predicate IsAmo(i: word) { !IsCompressed(i) && Opcode(i) == OP_AMO }

  predicate IsBranch(i: word) {
    if !IsCompressed(i) then Opcode(i) == OP_BRANCH else Is(i, 1, 6) || Is(i, 1, 7)
  }

  predicate IsJump(i: word) {
    if !IsCompressed(i) then Opcode(i) == OP_JAL || Opcode(i) == OP_JALR
    else Is(i, 1, 1) || Is(i, 1, 5) || (Is(i, 2, 4) && CRs2(i) == 0 && CRd(i) != 0)
  }

  predicate IsSystem(i: word) { !IsCompressed(i) && Opcode(i) == OP_SYSTEM }

  predicate IsMulDiv(i: word) { !IsCompressed(i) && Opcode(i) == OP_OP && (i >> 25) & 0x7F == 1 }
  predicate IsDiv(i: word) { IsMulDiv(i) && (i >> 12) & 7 >= 4 }
  predicate IsMul(i: word) { IsMulDiv(i) && (i >> 12) & 7 < 4 }

  // The destination register, 0 if there is none.
  function DestReg(i: word): word {
    if !IsCompressed(i) then
      var op := Opcode(i);
      if op == OP_LOAD || op == OP_OP || op == OP_OPIMM || op == OP_JAL || op == OP_JALR || op == OP_AMO
         || op == OP_LUI || op == OP_AUIPC
         || op == OP_SYSTEM then (i >> 7) & 0x1F else 0
    else if Is(i, 0, 2) then CRs2c(i)
    else if Is(i, 2, 2) then CRd(i)
    else if Is(i, 1, 0) || Is(i, 1, 2) || Is(i, 1, 3) then CRd(i)
    else if Is(i, 1, 4) then CRs1c(i)
    else if Is(i, 2, 0) || Is(i, 2, 4) then CRd(i)
    else 0
  }

  // The source registers, 0 in empty places.
  function SrcRegs(i: word): (word, word) {
    if !IsCompressed(i) then
      var (op, f3, rs1, rs2) := (Opcode(i), (i >> 12) & 7, (i >> 15) & 0x1F, (i >> 20) & 0x1F);
      if op == OP_OP || op == OP_STORE || op == OP_BRANCH || op == OP_AMO then (rs1, rs2)
      else if op == OP_OPIMM || op == OP_LOAD || op == OP_JALR then (rs1, 0)
      else if op == OP_SYSTEM && 1 <= f3 <= 3 then (rs1, 0)
      else (0, 0)
    else if Is(i, 0, 0) then (2, 0)
    else if Is(i, 0, 2) then (CRs1c(i), 0)
    else if Is(i, 0, 6) then (CRs1c(i), CRs2c(i))
    else if Is(i, 1, 0) then (CRd(i), 0)
    else if Is(i, 1, 3) then (if CRd(i) == 2 then 2 else 0, 0)
    else if Is(i, 1, 4) then (CRs1c(i), if (i >> 10) & 3 == 3 then CRs2c(i) else 0)
    else if Is(i, 1, 6) || Is(i, 1, 7) then (CRs1c(i), 0)
    else if Is(i, 2, 0) then (CRd(i), 0)
    else if Is(i, 2, 2) then (2, 0)
    else if Is(i, 2, 4) then
      if CRs2(i) != 0 then (CRs2(i), if (i >> 12) & 1 == 1 && CRd(i) != 0 then CRd(i) else 0)
      else (CRd(i), 0)
    else if Is(i, 2, 6) then (2, CRs2(i))
    else (0, 0)
  }

  predicate UsesReg(i: word, r: word) { r != 0 && (SrcRegs(i).0 == r || SrcRegs(i).1 == r) }

  datatype MemRef = MemRef(valid: bool, base: word, offset: int)

  // The two's complement value of the low n bits.
  function Signed12(x: word): int { if x & 0x800 != 0 then (x & 0xFFF) as int - 0x1000 else (x & 0xFFF) as int }

  // Base register and offset of a memory access.
  function MemRefOf(i: word): MemRef {
    if !IsCompressed(i) then
      if Opcode(i) == OP_LOAD || Opcode(i) == OP_JALR then
        MemRef(Opcode(i) == OP_LOAD, (i >> 15) & 0x1F, Signed12(i >> 20))
      else if Opcode(i) == OP_STORE then MemRef(true, (i >> 15) & 0x1F, Signed12(((i >> 25) << 5) | ((i >> 7) & 0x1F)))
      else if Opcode(i) == OP_AMO then MemRef(true, (i >> 15) & 0x1F, 0)
      else MemRef(false, 0, 0)
    else if Is(i, 0, 2) || Is(i, 0, 6) then
      MemRef(true, CRs1c(i), ((((i >> 6) & 1) << 2) | (((i >> 10) & 7) << 3) | (((i >> 5) & 1) << 6)) as int)
    else if Is(i, 2, 2) then
      MemRef(true, 2, ((((i >> 4) & 7) << 2) | (((i >> 12) & 1) << 5) | (((i >> 2) & 3) << 6)) as int)
    else if Is(i, 2, 6) then
      MemRef(true, 2, ((((i >> 9) & 0xF) << 2) | (((i >> 7) & 3) << 6)) as int)
    else MemRef(false, 0, 0)
  }

  // What the cost table distinguishes.
  predicate IsMem(i: word) { IsLoad(i) || IsStore(i) || IsAmo(i) }

  /** No instruction is in two classes of the cost table. */
  lemma ClassesApart(i: word)
    ensures !(IsLoad(i) && IsStore(i)) && !(IsAmo(i) && (IsLoad(i) || IsStore(i)))
    ensures IsMem(i) ==> !IsBranch(i) && !IsJump(i) && !IsMulDiv(i) && !IsSystem(i)
    ensures IsBranch(i) ==> !IsJump(i) && !IsMulDiv(i) && !IsSystem(i)
    ensures IsJump(i) ==> !IsMulDiv(i) && !IsSystem(i)
    ensures !(IsMulDiv(i) && IsSystem(i)) && (IsMulDiv(i) <==> IsDiv(i) || IsMul(i)) && !(IsDiv(i) && IsMul(i))
  {
    hide CRs2, CRd, CFunct3;
  }

  /** An address can be formed for exactly the loads, stores and atomics, from a register that
      the instruction reads. */
  lemma MemRefExact(i: word)
    ensures MemRefOf(i).valid <==> IsMem(i)
    ensures MemRefOf(i).valid ==> SrcRegs(i).0 == MemRefOf(i).base
  {
    hide CFunct3;
  }
}
