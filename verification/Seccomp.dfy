/** The seccomp allowlist compiler of internal/sandbox/seccomp_linux.go, and a
    small interpreter for the classic BPF instructions it emits.

    Instruction meaning follows the section "BPF engine and instruction set" of
    the Linux kernel's Documentation/networking/filter.rst; return actions follow
    seccomp(2).
 */
module Seccomp {

  type uint8 = x: int | 0 <= x < 0x100
  type uint16 = x: int | 0 <= x < 0x1_0000
  type uint32 = x: int | 0 <= x < 0x1_0000_0000

  // The compiler's constants; an opcode is the union of disjoint bits, hence a sum. The
  // interpreter below has its numbers from the kernel's own headers.

  const RET_KILL: uint32 := 0x0000_0000
  const RET_ALLOW: uint32 := 0x7fff_0000
  const RET_ERRNO: uint32 := 0x0005_0000
  const EPERM: uint32 := 1

  const BPF_LD: uint16 := 0x00
  const BPF_JMP: uint16 := 0x05
  const BPF_RET: uint16 := 0x06
  const BPF_ABS: uint16 := 0x20
  const BPF_JEQ: uint16 := 0x10
  const BPF_K: uint16 := 0x00

  const DATA_ARCH: uint32 := 4
  const DATA_SYSCALL_NR: uint32 := 0

  /** struct sock_filter */
  datatype Instruction = Instruction(code: uint16, jt: uint8, jf: uint8, k: uint32)

  /** The two words of struct seccomp_data that a compiled filter reads. */
  datatype SyscallData = SyscallData(nr: uint32, arch: uint32)

  datatype Outcome = Return(action: uint32) | Fault

  function Stmt(code: uint16, k: uint32): Instruction {
    Instruction(code, 0, 0, k)
  }

  function Jump(code: uint16, k: uint32, jt: uint8, jf: uint8): Instruction {
    Instruction(code, jt, jf, k)
  }

  /** Go's conversion uint8(x) of a non-negative int. */
  function ToUint8(x: nat): uint8 {
    x % 0x100
  }

  /** Go's conversion uint16(x) of a non-negative int. */
  function ToUint16(x: nat): uint16 {
    x % 0x1_0000
  }

  // ---- Interpreter ------------------------------------------------------

  /** Runs `prog` from `pc` with accumulator `acc`: code 0x20 loads the word of seccomp_data
      at offset k (nr at 0, arch at 4), 0x15 compares with k, 0x06 returns k. Running past the end, an
      unknown opcode or a load of another word is a Fault. */
  function Run(prog: seq<Instruction>, pc: nat, acc: uint32, data: SyscallData): Outcome
    decreases |prog| - pc
  {
    if pc >= |prog| then Fault
    else
      var insn := prog[pc];
      if insn.code == 0x20 && insn.k == 0 then Run(prog, pc + 1, data.nr, data)
      else if insn.code == 0x20 && insn.k == 4 then Run(prog, pc + 1, data.arch, data)
      else if insn.code == 0x15 then Run(prog, pc + 1 + (if acc == insn.k then insn.jt else insn.jf), acc, data)
      else if insn.code == 0x06 then Return(insn.k)
      else Fault
  }

  /** What the kernel checks before it installs a classic filter: 1 to
      BPF_MAXINSNS instructions, known opcodes, jumps that stay inside, and a
      final RET. */
  predicate KernelAccepts(prog: seq<Instruction>) {
    && 1 <= |prog| <= 4096
    && (forall pc | 0 <= pc < |prog| :: prog[pc].code in {0x20, 0x15, 0x06})
    && (forall pc | 0 <= pc < |prog| :: JumpsInside(prog, pc))
    && prog[|prog| - 1].code == 0x06
  }

  predicate JumpsInside(prog: seq<Instruction>, pc: nat)
    requires pc < |prog|
  {
    prog[pc].code == 0x15 ==> pc + 1 + prog[pc].jt < |prog| && pc + 1 + prog[pc].jf < |prog|
  }

  // ---- Compiler ---------------------------------------------------------

  function Header(arch: uint32): seq<Instruction> {
    [Stmt(BPF_LD + BPF_ABS + BPF_K, DATA_ARCH), Jump(BPF_JMP + BPF_JEQ + BPF_K, arch, 1, 0),
     Stmt(BPF_RET + BPF_K, RET_KILL), Stmt(BPF_LD + BPF_ABS + BPF_K, DATA_SYSCALL_NR)]
  }

  function Trailer(): seq<Instruction> {
    [Stmt(BPF_RET + BPF_K, RET_ERRNO + EPERM), Stmt(BPF_RET + BPF_K, RET_ALLOW)]
  }

  /** The check of entry i: its jump distance n - i is cut to eight bits. */
  function Check(allowed: seq<uint32>, i: nat): Instruction
    requires i < |allowed|
  {
    Jump(BPF_JMP + BPF_JEQ + BPF_K, allowed[i], ToUint8(|allowed| - i), 0)
  }

  function Compile(arch: uint32, allowed: seq<uint32>): seq<Instruction> {
    Header(arch) + seq(|allowed|, i requires 0 <= i < |allowed| => Check(allowed, i)) + Trailer()
  }

  method BuildSeccompFilter(arch: uint32, allowed: seq<uint32>) returns (filter: seq<Instruction>)
    ensures filter == Compile(arch, allowed)
  {
    var n := |allowed|;
    var allowIdx := 4 + n + 1;

    filter := [];
    filter := filter + [Stmt(BPF_LD + BPF_ABS + BPF_K, DATA_ARCH)];
    filter := filter + [Jump(BPF_JMP + BPF_JEQ + BPF_K, arch, 1, 0)];
    filter := filter + [Stmt(BPF_RET + BPF_K, RET_KILL)];
    filter := filter + [Stmt(BPF_LD + BPF_ABS + BPF_K, DATA_SYSCALL_NR)];

    for i := 0 to n
      invariant |filter| == 4 + i
      invariant filter[..4] == Header(arch)
      invariant forall j | 0 <= j < i :: filter[4 + j] == Check(allowed, j)
    {
      if i == n - 1 {
        filter := filter + [Jump(BPF_JMP + BPF_JEQ + BPF_K, allowed[i], 1, 0)];
      } else {
        var jt := ToUint8(allowIdx - |filter| - 1);
        filter := filter + [Jump(BPF_JMP + BPF_JEQ + BPF_K, allowed[i], jt, 0)];
      }
    }

    filter := filter + [Stmt(BPF_RET + BPF_K, RET_ERRNO + EPERM)];
    filter := filter + [Stmt(BPF_RET + BPF_K, RET_ALLOW)];
    assert filter == Compile(arch, allowed);
  }

  // ---- Meaning of every compiled filter ---------------------------------

  /** The entries a match can still reach ALLOW from: the last min(n, 255). */
  function Effective(allowed: seq<uint32>): seq<uint32> {
    if |allowed| <= 255 then allowed else allowed[|allowed| - 255..]
  }

  /** The part of the effective entries at or after position i. */
  function EffectiveFrom(allowed: seq<uint32>, i: nat): seq<uint32>
    requires i <= |allowed|
  {
    if |allowed| - i <= 255 then allowed[i..] else allowed[|allowed| - 255..]
  }

  /** SECCOMP_RET_ALLOW, or SECCOMP_RET_ERRNO with EPERM in its low half. */
  function Verdict(allow: bool): Outcome {
    Return(if allow then 0x7fff_0000 else 0x0005_0001)
  }

  ghost predicate HoldsChecks(prog: seq<Instruction>, allowed: seq<uint32>) {
    && |prog| == |allowed| + 6
    && (forall i | 0 <= i < |allowed| :: prog[4 + i] == Check(allowed, i))
    && prog[|allowed| + 4] == Stmt(BPF_RET + BPF_K, RET_ERRNO + EPERM)
    && prog[|allowed| + 5] == Stmt(BPF_RET + BPF_K, RET_ALLOW)
  }

  lemma RunTrailer(prog: seq<Instruction>, allowed: seq<uint32>, data: SyscallData)
    requires HoldsChecks(prog, allowed)
    ensures Run(prog, |allowed| + 4, data.nr, data) == Verdict(false)
    ensures Run(prog, |allowed| + 5, data.nr, data) == Verdict(true)
  {
  }

  lemma RunCheck(prog: seq<Instruction>, allowed: seq<uint32>, data: SyscallData, i: nat)
    requires i < |allowed| && HoldsChecks(prog, allowed)
    ensures data.nr != allowed[i] ==> Run(prog, 4 + i, data.nr, data) == Run(prog, 5 + i, data.nr, data)
    ensures data.nr == allowed[i] ==>
              Run(prog, 4 + i, data.nr, data) == Run(prog, 5 + i + ToUint8(|allowed| - i), data.nr, data)
  {
    assert prog[4 + i] == Check(allowed, i);
  }

  /** Passing on to the next check leaves what a number other than this one can match. */
  lemma EffectivePast(allowed: seq<uint32>, i: nat, nr: uint32)
    requires i < |allowed| && (nr != allowed[i] || |allowed| - i > 255)
    ensures nr in EffectiveFrom(allowed, i) <==> nr in EffectiveFrom(allowed, i + 1)
  {
    if |allowed| - i <= 255 { assert allowed[i..] == [allowed[i]] + allowed[i + 1..]; }
  }

  /** A wrapped jump lands on a check that has at least 254 checks behind it, so
      it never skips an effective entry. */
  lemma EffectiveAfterJump(allowed: seq<uint32>, i: nat)
    requires i < |allowed| && |allowed| - i > 255
    ensures
      var next := i + 1 + ToUint8(|allowed| - i);
      next <= |allowed| && EffectiveFrom(allowed, next) == EffectiveFrom(allowed, i)
  {
  }

  /** A true jump goes to ALLOW, past the end of the checks, for an effective entry. */
  lemma EffectiveHit(allowed: seq<uint32>, i: nat)
    requires i < |allowed| && |allowed| - i <= 255
    ensures i + 1 + ToUint8(|allowed| - i) == |allowed| + 1
    ensures allowed[i] in EffectiveFrom(allowed, i)
  {
    assert allowed[i..][0] == allowed[i];
  }

  lemma EffectiveEnd(allowed: seq<uint32>)
    ensures EffectiveFrom(allowed, |allowed|) == []
  {
  }

  /** The scan from check i on. */
  lemma {:induction false} ScanFrom(prog: seq<Instruction>, allowed: seq<uint32>, data: SyscallData, i: nat)
    requires i <= |allowed| && HoldsChecks(prog, allowed)
    ensures Run(prog, 4 + i, data.nr, data) == Verdict(data.nr in EffectiveFrom(allowed, i))
    decreases |allowed| - i
  {
    hide Run, Verdict, HoldsChecks, EffectiveFrom, ToUint8;
    var n := |allowed|;
    RunTrailer(prog, allowed, data);
    if i == n {
      EffectiveEnd(allowed);
    } else {
      RunCheck(prog, allowed, data, i);
      if data.nr != allowed[i] {
        EffectivePast(allowed, i, data.nr);
        ScanFrom(prog, allowed, data, i + 1);
      } else if n - i > 255 {
        EffectiveAfterJump(allowed, i);
        ScanFrom(prog, allowed, data, i + 1 + ToUint8(n - i));
      } else {
        EffectiveHit(allowed, i);
      }
    }
  }

  /** Every compiled filter, of any length: KILL on a foreign architecture,
      otherwise ALLOW exactly for the numbers among the last min(n, 255)
      entries and EPERM for all others. It never faults. */
  lemma CompiledMeaning(arch: uint32, allowed: seq<uint32>, data: SyscallData, acc: uint32)
    ensures Run(Compile(arch, allowed), 0, acc, data) ==
            if data.arch != arch then Return(0x0000_0000) else Verdict(data.nr in Effective(allowed))
  {
    var prog := Compile(arch, allowed);
    assert prog[0] == Header(arch)[0] && prog[1] == Header(arch)[1];
    assert prog[2] == Header(arch)[2] && prog[3] == Header(arch)[3];
    if data.arch == arch {
      assert Run(prog, 0, acc, data) == Run(prog, 1, data.arch, data) == Run(prog, 3, data.arch, data);
      assert Run(prog, 3, data.arch, data) == Run(prog, 4, data.nr, data);
      ScanFrom(prog, allowed, data, 0);
    } else {
      assert Run(prog, 0, acc, data) == Run(prog, 1, data.arch, data) == Run(prog, 2, data.arch, data);
    }
  }

  ghost predicate ImplementsAllowlist(arch: uint32, allowed: seq<uint32>) {
    forall nr: uint32 ::
      Run(Compile(arch, allowed), 0, 0, SyscallData(nr, arch)) == Verdict(nr in allowed)
  }

  /** The filter is the intended allowlist exactly when no number stands only
      before the last 255 entries; the wrap can only deny. */
  lemma ImplementsAllowlistIff(arch: uint32, allowed: seq<uint32>)
    ensures ImplementsAllowlist(arch, allowed) <==> forall nr | nr in allowed :: nr in Effective(allowed)
    ensures |allowed| <= 255 ==> ImplementsAllowlist(arch, allowed)
    ensures forall nr: uint32 | nr !in allowed ::
              Run(Compile(arch, allowed), 0, 0, SyscallData(nr, arch)) == Return(0x0005_0001)
  {
    forall nr: uint32
      ensures Run(Compile(arch, allowed), 0, 0, SyscallData(nr, arch)) == Verdict(nr in Effective(allowed))
    {
      CompiledMeaning(arch, allowed, SyscallData(nr, arch), 0);
    }
    assert forall nr | nr in Effective(allowed) :: nr in allowed;
    if ImplementsAllowlist(arch, allowed) {
      forall nr | nr in allowed
        ensures nr in Effective(allowed)
      {
        assert Run(Compile(arch, allowed), 0, 0, SyscallData(nr, arch)) == Verdict(true);
      }
    }
  }

  /** The smallest list on which the wrap is visible: its first of 256 entries is denied. */
  lemma WrapDeniesFirstOf256(arch: uint32)
    ensures var allowed := seq(256, i => i);
            0 in allowed && Run(Compile(arch, allowed), 0, 0, SyscallData(0, arch)) == Return(0x0005_0001)
  {
    var allowed: seq<uint32> := seq(256, i => i);
    assert allowed[0] == 0;
    CompiledMeaning(arch, allowed, SyscallData(0, arch), 0);
    assert forall j | 0 <= j < 255 :: Effective(allowed)[j] == j + 1;
  }

  // ---- What is installed ------------------------------------------------

  /** applySeccompFilter passes uint16(len(filter)); the kernel sees that prefix. */
  function Installed(filter: seq<Instruction>): seq<Instruction> {
    filter[..ToUint16(|filter|)]
  }

  /** The kernel accepts what is passed to it exactly for lists of at most 4090
      entries, and then the whole filter is installed. A longer list is refused
      whole, also where its length wraps in sixteen bits. */
  lemma InstalledIff(arch: uint32, allowed: seq<uint32>)
    ensures KernelAccepts(Installed(Compile(arch, allowed))) <==> |allowed| <= 4090
    ensures |allowed| <= 4090 ==> Installed(Compile(arch, allowed)) == Compile(arch, allowed)
  {
    var prog, n := Compile(arch, allowed), |allowed|;
    var inst := Installed(prog);
    assert |prog| == n + 6;
    if n <= 4090 {
      assert inst == prog;
      forall pc | 0 <= pc < |prog|
        ensures prog[pc].code in {0x20, 0x15, 0x06} && JumpsInside(prog, pc)
      {
        if 4 <= pc < 4 + n { assert prog[pc] == Check(allowed, pc - 4); }
      }
    } else if 4 < |inst| <= 4096 {
      assert inst[|inst| - 1] == Check(allowed, |inst| - 5);
    } else if |inst| == 3 {
      assert !JumpsInside(inst, 1);
    }
  }
}
