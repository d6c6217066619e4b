/** The cycle timing model: an accumulator with previous-instruction state, against the cost of
    the whole trace. */
module Timing {
  import opened Config
  import opened Decode
  import opened Cache

  type u32 = x: nat | x < 0x1_0000_0000
  type u64 = x: nat | x < 0x1_0000_0000_0000_0000

  // Sums in 32 and 64 bits.
  function Low32(n: nat): u32 { n % TWO_32 }
  function Low64(n: nat): u64 { n % TWO_64 }

  lemma LowSums(a: nat, b: nat)
    ensures Low32(Low32(a) + b) == Low32(a + b) && Low64(Low64(a) + b) == Low64(a + b)
  {}

  // insn_ctx_t
  datatype Ctx = Ctx(insn: word, pc: u64, nextPc: u64, hasMemAddr: bool, memAddr: u64)

  datatype Event = Insn(c: Ctx) | Trap

  // timing_params_t
  datatype Params = Params(
    base: u32, loadUse: u32, brTaken: u32, jump: u32, mulDivUse: u32, mul: u32, div: u32, amo: u32, system: u32,
    tcm: u32, sram: u32, clint: u32, periph: u32, dramHit: u32, dramMiss: u32, memFlat: u32, trap: u32)

  const DEFAULTS := Params(1, 1, 1, 1, 0, 5, 33, 2, 2, 0, 2, 19, 19, 0, 27, 1, 4)

  const CLINT_BASE: nat := 0x02000000
  const CLINT_END: nat := 0x02FFFFFF
  const SRAM_BASE: nat := 0x08000000
  const SRAM_END: nat := 0x0FFFFFFF
  const PERIPH_BASE: nat := 0x10000000
  const PERIPH_END: nat := 0x1FFFFFFF
  const DRAM_BASE: nat := 0x80000000

  /* ----- what a trace costs ----- */

  // The event accesses DRAM at a known address.
  predicate ToDram(e: Event) { e.Insn? && IsMem(e.c.insn) && e.c.hasMemAddr && e.c.memAddr >= DRAM_BASE }

  // The DRAM lines that a trace accesses.
  function DramLines(tr: seq<Event>): (lines: seq<nat>)
    ensures |lines| <= |tr|
  {
    if tr == [] then []
    else
      var (pre, e) := (tr[..|tr| - 1], tr[|tr| - 1]);
      DramLines(pre) + if ToDram(e) then [e.c.memAddr / LINE_SIZE] else []
  }

  // The instruction just before event e, if there is one with no trap between.
  predicate After(pre: seq<Event>) { pre != [] && pre[|pre| - 1].Insn? }
  function Before(pre: seq<Event>): word
    requires After(pre)
  {
    pre[|pre| - 1].c.insn
  }

  // What the statistics count.
  datatype Stat = Insns | LoadUses | Takens | Misses | Traps

  /* Whether event e, after the events pre, is counted. */
  ghost predicate Happens(k: Stat, pre: seq<Event>, e: Event) {
    match k
    case Insns => e.Insn?
    case LoadUses => e.Insn? && After(pre) && IsLoad(Before(pre)) && UsesReg(e.c.insn, DestReg(Before(pre)))
    case Takens => e.Insn? && IsTaken(e.c)
    case Misses => ToDram(e) && !Reused(DramLines(pre), e.c.memAddr / LINE_SIZE)
    case Traps => e.Trap?
  }

  // The latency of the region an address lies in; for DRAM, that of a hit.
  function RegionPen(p: Params, addr: nat): nat {
    if addr >= DRAM_BASE then p.dramHit
    else if CLINT_BASE <= addr <= CLINT_END then p.clint
    else if SRAM_BASE <= addr <= SRAM_END then p.sram
    else if PERIPH_BASE <= addr <= PERIPH_END then p.periph
    else p.tcm
  }

  predicate IsTaken(c: Ctx) { IsBranch(c.insn) && c.nextPc != (c.pc + InsnLen(c.insn)) % TWO_64 }

  // The latency or penalty of the instruction's class, but for a miss and a taken branch.
  function ClassPen(p: Params, c: Ctx, miss: bool): nat {
    var i := c.insn;
    if IsMem(i) then
      (if !c.hasMemAddr then p.memFlat else if miss then 0 else RegionPen(p, c.memAddr))
        + (if IsAmo(i) then p.amo else 0)
    else if IsJump(i) then p.jump
    else if IsDiv(i) then p.div
    else if IsMul(i) then p.mul
    else if IsSystem(i) then p.system
    else 0
  }

  // What an event costs besides the penalties that the statistics count.
  ghost function Rest(p: Params, pre: seq<Event>, e: Event): nat {
    match e
    case Trap => 0
    case Insn(c) =>
      var i := c.insn;
      (if After(pre) && IsMulDiv(Before(pre)) && UsesReg(i, DestReg(Before(pre))) then p.mulDivUse else 0) +
      ClassPen(p, c, Happens(Misses, pre, e))
  }

  function Penalty(p: Params, k: Stat): nat {
    match k
    case Insns => p.base
    case LoadUses => p.loadUse
    case Takens => p.brTaken
    case Misses => p.dramMiss
    case Traps => p.trap
  }

  ghost function Charge(p: Params, k: Stat, pre: seq<Event>, e: Event): nat {
    if Happens(k, pre, e) then Penalty(p, k) else 0
  }

  /* The cost of one event. */
  ghost function Cost(p: Params, pre: seq<Event>, e: Event): nat {
    Charge(p, Insns, pre, e) + Charge(p, LoadUses, pre, e) + Charge(p, Takens, pre, e) + Charge(p, Misses, pre, e)
    + Charge(p, Traps, pre, e) + Rest(p, pre, e)
  }

  // The cost of a trace, each instruction's being a 32-bit sum.
  ghost function Total(p: Params, tr: seq<Event>): nat {
    if tr == [] then 0 else Total(p, tr[..|tr| - 1]) + Low32(Cost(p, tr[..|tr| - 1], tr[|tr| - 1]))
  }

  ghost function Count(k: Stat, tr: seq<Event>): (n: nat)
    ensures n <= |tr|
  {
    if tr == [] then 0 else Count(k, tr[..|tr| - 1]) + (if Happens(k, tr[..|tr| - 1], tr[|tr| - 1]) then 1 else 0)
  }

  ghost function RestTotal(p: Params, tr: seq<Event>): nat {
    if tr == [] then 0 else RestTotal(p, tr[..|tr| - 1]) + Rest(p, tr[..|tr| - 1], tr[|tr| - 1])
  }

  // No instruction of the trace costs more than 32 bits can hold.
  ghost predicate CostsFit(p: Params, tr: seq<Event>) {
    forall n :: 0 <= n < |tr| ==> Cost(p, tr[..n], tr[n]) < TWO_32
  }

  /** The cost of a trace is each counted event's penalty, as often as the statistic counts it,
      and the rest. */
  lemma {:induction false} Decomposition(p: Params, tr: seq<Event>)
    requires CostsFit(p, tr)
    ensures Total(p, tr) == p.base * Count(Insns, tr) + p.loadUse * Count(LoadUses, tr) + p.brTaken * Count(Takens, tr)
                            + p.dramMiss * Count(Misses, tr) + p.trap * Count(Traps, tr) + RestTotal(p, tr)
  {
    hide Happens, Rest;
    if tr != [] {
      var pre, e := tr[..|tr| - 1], tr[|tr| - 1];
      forall n | 0 <= n < |pre| ensures Cost(p, pre[..n], pre[n]) < TWO_32 {
        assert pre[..n] == tr[..n];
      }
      Decomposition(p, pre);
      Times(p.base, Count(Insns, pre), Happens(Insns, pre, e));
      Times(p.loadUse, Count(LoadUses, pre), Happens(LoadUses, pre, e));
      Times(p.brTaken, Count(Takens, pre), Happens(Takens, pre, e));
      Times(p.dramMiss, Count(Misses, pre), Happens(Misses, pre, e));
      Times(p.trap, Count(Traps, pre), Happens(Traps, pre, e));
      assert Cost(p, tr[..|tr| - 1], tr[|tr| - 1]) < TWO_32;
    }
  }

  lemma Times(a: nat, n: nat, b: bool)
    ensures a * (n + if b then 1 else 0) == a * n + if b then a else 0
  {}

  /** With the calibrated parameters the costs always fit. */
  lemma DefaultsFit(tr: seq<Event>)
    ensures CostsFit(DEFAULTS, tr)
  {
    hide Happens, IsMem, IsJump, IsDiv, IsMul, IsSystem, IsAmo, IsMulDiv, UsesReg;
    forall n | 0 <= n < |tr| ensures Cost(DEFAULTS, tr[..n], tr[n]) < TWO_32 {}
  }

  /* ----- the model ----- */

  /** timing_model_t in its phase 2 */
  class TimingModel {
    const p: Params
    const dcache: DataCache
    var total: u64
    var prevValid: bool
    var prevLoad: bool
    var prevMulDiv: bool
    var prevRd: word
    var nInsn: u64
    var nLoadUse: u64
    var nBrTaken: u64
    var nDmiss: u64
    var nTrap: u64
    ghost var trace: seq<Event>   // accounted for since the last reset

    // The previous-instruction state is that of the trace.
    ghost predicate PrevOk()
      reads this
    {
      && prevValid == After(trace)
      && (prevValid ==> prevLoad == IsLoad(Before(trace)) && prevMulDiv == IsMulDiv(Before(trace))
                        && prevRd == DestReg(Before(trace)))
    }

    ghost predicate StatsOk()
      reads this
    {
      && nInsn == Low64(Count(Insns, trace)) && nLoadUse == Low64(Count(LoadUses, trace))
      && nBrTaken == Low64(Count(Takens, trace)) && nDmiss == Low64(Count(Misses, trace))
      && nTrap == Low64(Count(Traps, trace))
    }

    ghost predicate CacheOk()
      reads this, dcache, dcache.tag, dcache.age, dcache.valid
    {
      dcache.Valid() && dcache.history == DramLines(trace)
    }

    /* The accumulated cycles, the statistics, the cache and the previous-instruction state are
       all functions of the trace. */
    ghost predicate Valid()
      reads this, dcache, dcache.tag, dcache.age, dcache.valid
    {
      CacheOk() && PrevOk() && StatsOk() && total == Low64(Total(p, trace))
    }

    constructor (params: Params)
      ensures Valid() && trace == [] && p == params && fresh(dcache) && fresh(dcache.tag) && fresh(dcache.age)
      ensures fresh(dcache.valid)
    {
      p := params;
      dcache := new DataCache();
      total, prevValid, prevLoad, prevMulDiv, prevRd := 0, false, false, false, 0;
      nInsn, nLoadUse, nBrTaken, nDmiss, nTrap, trace := 0, 0, 0, 0, 0, [];
    }
  
    /** mem_cost: by region; for DRAM, by whether the line is reused. */
    method MemCost(addr: u64) returns (pen: u32)
      requires dcache.Valid() && |dcache.history| + 1 < TWO_32
      modifies this`nDmiss, dcache, dcache.tag, dcache.age, dcache.valid
      ensures dcache.Valid()
      ensures dcache.history == old(dcache.history) + if addr >= DRAM_BASE then [addr / LINE_SIZE] else []
      ensures var miss := addr >= DRAM_BASE && !Reused(old(dcache.history), addr / LINE_SIZE);
              && pen == (if miss then p.dramMiss else RegionPen(p, addr))
              && nDmiss == if miss then Low64(old(nDmiss) + 1) else old(nDmiss)
    {
      hide Reused;
      if addr >= DRAM_BASE {
        var hit := dcache.Access(addr);
        if hit {
          return p.dramHit;
        }
        nDmiss := Low64(nDmiss + 1);
        return p.dramMiss;
      }
      if CLINT_BASE <= addr <= CLINT_END {
        return p.clint;
      }
      if SRAM_BASE <= addr <= SRAM_END {
        return p.sram;
      }
      if PERIPH_BASE <= addr <= PERIPH_END {
        return p.periph;
      }
      return p.tcm;
    }

    // The cycles before the class of the instruction is looked at, and their unbounded sum.
    method Stalls(insn: word) returns (cyc: u32, ghost full: nat)
      requires PrevOk()
      modifies this`nLoadUse
      ensures cyc == Low32(full)
      ensures var stalled := After(trace) && IsLoad(Before(trace)) && UsesReg(insn, DestReg(Before(trace)));
              && full == p.base + (if stalled then p.loadUse else 0)
                         + (if After(trace) && IsMulDiv(Before(trace))
                            && UsesReg(insn, DestReg(Before(trace))) then p.mulDivUse else 0)
              && nLoadUse == if stalled then Low64(old(nLoadUse) + 1) else old(nLoadUse)
    {
      cyc, full := p.base, p.base;
      assert cyc == Low32(full);
      hide IsLoad, IsMulDiv, UsesReg, DestReg, Low32, Low64;
      if prevValid && prevLoad && UsesReg(insn, prevRd) {
        LowSums(full, p.loadUse);
        cyc, full := Low32(cyc + p.loadUse), full + p.loadUse;
        nLoadUse := Low64(nLoadUse + 1);
      }
      if prevValid && prevMulDiv && UsesReg(insn, prevRd) {
        LowSums(full, p.mulDivUse);
        cyc, full := Low32(cyc + p.mulDivUse), full + p.mulDivUse;
      }
    }

    // The penalty by class of instruction, also that of a taken branch; unbounded and in 32 bits.
    method ByClass(c: Ctx, start: u32, ghost full0: nat) returns (cyc: u32, ghost full: nat)
      requires dcache.Valid() && |dcache.history| + 1 < TWO_32 && start == Low32(full0)
      modifies this`nBrTaken, this`nDmiss, dcache, dcache.tag, dcache.age, dcache.valid
      ensures dcache.Valid() && cyc == Low32(full)
      ensures dcache.history == old(dcache.history) + if ToDram(Insn(c)) then [c.memAddr / LINE_SIZE] else []
      ensures var (miss, taken) := (ToDram(Insn(c)) && !Reused(old(dcache.history), c.memAddr / LINE_SIZE), IsTaken(c));
              && nDmiss == (if miss then Low64(old(nDmiss) + 1) else old(nDmiss))
              && nBrTaken == (if taken then Low64(old(nBrTaken) + 1) else old(nBrTaken))
              && full == full0 + (if taken then p.brTaken else 0) + (if miss then p.dramMiss else 0)
                 + ClassPen(p, c, miss)
    {
      hide IsLoad, IsStore, IsAmo, IsBranch, IsJump, IsDiv, IsMul, IsMulDiv, IsSystem, InsnLen, Reused, RegionPen,
           Low32, Low64, DataCache.Valid;
      ClassesApart(c.insn);
      cyc, full := start, full0;
      var pen: u32 := 0;
      if IsLoad(c.insn) || IsStore(c.insn) || IsAmo(c.insn) {
        pen := p.memFlat;
        if c.hasMemAddr {
          pen := MemCost(c.memAddr);
        }
        LowSums(full, pen);
        cyc, full := Low32(cyc + pen), full + pen;
        pen := if IsAmo(c.insn) then p.amo else 0;
      } else if IsBranch(c.insn) {
        if c.nextPc != (c.pc + InsnLen(c.insn)) % TWO_64 {
          pen := p.brTaken;
          nBrTaken := Low64(nBrTaken + 1);
        }
      } else if IsJump(c.insn) {
        pen := p.jump;
      } else if IsDiv(c.insn) {
        pen := p.div;
      } else if IsMul(c.insn) {
        pen := p.mul;
      } else if IsSystem(c.insn) {
        pen := p.system;
      }
      LowSums(full, pen);
      cyc, full := Low32(cyc + pen), full + pen;
    }

    /** cost: the event's cost after the trace so far, in 32 bits. */
    method CostOf(c: Ctx) returns (cyc: u32)
      requires CacheOk() && PrevOk() && |DramLines(trace)| + 1 < TWO_32
      modifies this`nLoadUse, this`nBrTaken, this`nDmiss, dcache, dcache.tag, dcache.age, dcache.valid
      ensures dcache.Valid() && dcache.history == DramLines(trace) + if ToDram(Insn(c)) then [c.memAddr / LINE_SIZE]
              else []
      ensures cyc == Low32(Cost(p, trace, Insn(c)))
      ensures nLoadUse == if Happens(LoadUses, trace, Insn(c)) then Low64(old(nLoadUse) + 1) else old(nLoadUse)
      ensures nBrTaken == if Happens(Takens, trace, Insn(c)) then Low64(old(nBrTaken) + 1) else old(nBrTaken)
      ensures nDmiss == if Happens(Misses, trace, Insn(c)) then Low64(old(nDmiss) + 1) else old(nDmiss)
    {
      hide IsLoad, IsStore, IsAmo, IsBranch, IsJump, IsDiv, IsMul, IsMulDiv, IsSystem, InsnLen, UsesReg, DestReg,
           Reused, RegionPen, ToDram, DramLines, After, Before, Low32, Low64, DataCache.Valid, ClassPen, IsTaken;
      ghost var full: nat;
      cyc, full := Stalls(c.insn);
      cyc, full := ByClass(c, cyc, full);
    }

    /** account: one more instruction in the trace. */
    method Account(c: Ctx) returns (cyc: u32)
      requires Valid() && |DramLines(trace)| + 1 < TWO_32
      modifies this, dcache, dcache.tag, dcache.age, dcache.valid
      ensures Valid() && trace == old(trace) + [Insn(c)]
      ensures cyc == Low32(Cost(p, old(trace), Insn(c)))
    {
      hide Cost, Happens, IsLoad, IsMulDiv, DestReg, ToDram, Reused, Low32, Low64, DataCache.Valid, Total, Count,
           DramLines, After, Before;
      cyc := CostOf(c);
      Note(c, cyc);
    }

    // The accumulation and the refreshed previous-instruction state.
    method Note(c: Ctx, cyc: u32)
      requires cyc == Low32(Cost(p, trace, Insn(c))) && total == Low64(Total(p, trace))
      requires nInsn == Low64(Count(Insns, trace)) && nTrap == Low64(Count(Traps, trace))
      requires nLoadUse == if Happens(LoadUses, trace, Insn(c)) then Low64(Low64(Count(LoadUses, trace)) + 1)
               else Low64(Count(LoadUses, trace))
      requires nBrTaken == if Happens(Takens, trace, Insn(c)) then Low64(Low64(Count(Takens, trace)) + 1)
               else Low64(Count(Takens, trace))
      requires nDmiss == if Happens(Misses, trace, Insn(c)) then Low64(Low64(Count(Misses, trace)) + 1)
               else Low64(Count(Misses, trace))
      modifies this`total, this`nInsn, this`prevValid, this`prevLoad, this`prevMulDiv, this`prevRd, this`trace
      ensures trace == old(trace) + [Insn(c)] && total == Low64(Total(p, trace)) && StatsOk() && PrevOk()
      ensures DramLines(trace) == DramLines(old(trace)) + if ToDram(Insn(c)) then [c.memAddr / LINE_SIZE] else []
    {
      hide Cost, Happens, IsLoad, IsMulDiv, DestReg, ToDram, Reused, Low32, Low64, Total, Count, DramLines, After,
           Before;
      LowSums(Total(p, trace), cyc);
      total := Low64(total + cyc);
      LowSums(Count(Insns, trace), 1);
      nInsn := Low64(nInsn + 1);
      prevValid := true;
      prevLoad := IsLoad(c.insn);
      prevMulDiv := IsMulDiv(c.insn);
      prevRd := DestReg(c.insn);
      LowSums(Count(LoadUses, trace), 1);
      LowSums(Count(Takens, trace), 1);
      LowSums(Count(Misses, trace), 1);
      Extended(p, trace, Insn(c));
      InsnHappens(trace, c);
      trace := trace + [Insn(c)];
    }

    static lemma InsnHappens(pre: seq<Event>, c: Ctx)
      ensures Happens(Insns, pre, Insn(c)) && !Happens(Traps, pre, Insn(c))
    {}

    // What one more event makes of the functions of the trace.
    static lemma Extended(p: Params, tr: seq<Event>, e: Event)
      ensures var tr' := tr + [e];
              && Total(p, tr') == Total(p, tr) + Low32(Cost(p, tr, e))
              && (forall k :: Count(k, tr') == Count(k, tr) + if Happens(k, tr, e) then 1 else 0)
              && DramLines(tr') == DramLines(tr) + (if ToDram(e) then [e.c.memAddr / LINE_SIZE] else [])
              && (After(tr') <==> e.Insn?) && (e.Insn? ==> Before(tr') == e.c.insn)
    {
      hide Cost, Happens, ToDram;
      assert (tr + [e])[..|tr|] == tr;
    }

    /** account_trap: a trap costs its penalty and breaks the link to the previous instruction. */
    method AccountTrap()
      requires Valid()
      modifies this`total, this`nTrap, this`prevValid, this`trace
      ensures Valid() && trace == old(trace) + [Trap]
    {
      hide Cost, Happens, ToDram, DataCache.Valid, Reused, Low64, Total, Count, DramLines, After, Before;
      TrapCosts(p, trace);
      LowSums(Total(p, trace), p.trap);
      LowSums(Count(Traps, trace), 1);
      total := Low64(total + p.trap);
      nTrap := Low64(nTrap + 1);
      prevValid := false;
      Extended(p, trace, Trap);
      trace := trace + [Trap];
    }

    lemma CacheShaped()
      requires dcache.Valid()
      ensures dcache.Shaped()
    {}

    static lemma TrapCosts(p: Params, pre: seq<Event>)
      ensures Low32(Cost(p, pre, Trap)) == p.trap && !ToDram(Trap)
      ensures forall k: Stat :: Happens(k, pre, Trap) <==> k == Traps
    {}

    /** reset: as if nothing had been accounted for. */
    method Reset()
      requires Valid()
      modifies this, dcache, dcache.valid
      ensures Valid() && trace == []
    {
      hide DataCache.Valid, RowOk, Total, Count, DramLines, After, Before, Happens, Low64;
      CacheShaped();
      NothingYet(p);
      dcache.Reset();
      total, prevValid, prevLoad, prevMulDiv, prevRd := 0, false, false, false, 0;
      nInsn, nLoadUse, nBrTaken, nDmiss, nTrap := 0, 0, 0, 0, 0;
      trace := [];
    }

    static lemma NothingYet(p: Params)
      ensures Low64(Total(p, [])) == 0 && DramLines([]) == [] && !After([])
      ensures forall k :: Low64(Count(k, [])) == 0
    {}
  }
}
