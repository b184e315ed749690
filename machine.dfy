/** The LS-8 machine of ls8/cpu.py as a value: its state, the ALU, one cycle
    of the run loop and a whole run. The class in module Cpu is proved to
    behave as these functions say. */
module Ls8 {
  import opened Builtins

  /** The opcodes of the CPU's command table. */
  const HLT := 0x01  // 0b00000001
  const LDI := 0x82  // 0b10000010
  const PRN := 0x47  // 0b01000111
  const MUL := 0xA2  // 0b10100010

  const RamSize := 256
  const RegisterCount := 8

  /** RAM cells and registers hold unbounded integers, as Python's do. */
  datatype Machine = Machine(ram: seq<int>, registers: seq<int>, pc: nat, halted: bool)

  /** A CPU as the constructor leaves it. */
  function Initial(): Machine {
    Machine(seq(RamSize, _ => 0), seq(RegisterCount, _ => 0), 0, false)
  }

  /** Why a cycle, or an ALU call, stops the run abnormally. */
  datatype Fault =
    | RamIndex(address: int)                    // IndexError on the RAM list
    | RegisterIndex(index: int)                 // IndexError on the register list
    | UnsupportedOperation                      // the ALU's own exception
    | UnknownInstruction(opcode: int, at: nat)    // the dispatcher's last branch

  /** ram_write(address, value) as written: the value is stored at the
      program counter, whatever the address. */
  function WriteRam(ram: seq<int>, pc: nat, address: int, value: int): (r: Option<seq<int>>)
    ensures r.Some? <==> pc < |ram|
    ensures r.Some? ==> |r.value| == |ram| && r.value[pc] == value
    ensures r.Some? ==> forall i | 0 <= i < |ram| && i != pc :: r.value[i] == ram[i]
  {
    if pc < |ram| then Some(ram[pc := value]) else None
  }

  /** On a fresh CPU (pc = 0), writing 7 to address 5 leaves address 5 at 0
      and puts the 7 in cell 0 instead. */
  lemma RamWriteMissesAddress()
    ensures WriteRam(Initial().ram, 0, 5, 7).Some?
    ensures WriteRam(Initial().ram, 0, 5, 7).value[5] == 0
    ensures WriteRam(Initial().ram, 0, 5, 7).value[0] == 7
  {
  }

  /** ram_write as evidently intended: the value goes to the address given
      (with Python's list indexing). */
  function WriteRamAt(ram: seq<int>, address: int, value: int): Option<seq<int>> {
    match Slot(address, |ram|)
    case None => None
    case Some(k) => Some(ram[k := value])
  }

  /** After the intended write, reading the same address gives the value
      written, and every other cell is as it was. */
  lemma WriteRamAtThenRead(ram: seq<int>, address: int, value: int)
    requires 0 <= address < |ram|
    ensures WriteRamAt(ram, address, value).Some?
    ensures var r := WriteRamAt(ram, address, value).value;
      |r| == |ram| && r[address] == value &&
      forall i | 0 <= i < |ram| && i != address :: r[i] == ram[i]
  {
  }

  /** registers[a] += registers[b] or registers[a] *= registers[b]: an
      IndexError if either index is out of range (a is looked up first). */
  function Combine(registers: seq<int>, a: int, b: int, multiply: bool): (r: Result<seq<int>, Fault>)
    ensures r.Ok? ==> |r.value| == |registers|
    ensures r.Ok? <==> Slot(a, |registers|).Some? && Slot(b, |registers|).Some?
  {
    match Slot(a, |registers|)
    case None => Err(RegisterIndex(a))
    case Some(i) =>
      match Slot(b, |registers|)
      case None => Err(RegisterIndex(b))
      case Some(j) =>
        Ok(registers[i := if multiply then registers[i] * registers[j] else registers[i] + registers[j]])
  }

  datatype AluResult = AluResult(registers: seq<int>, fault: Option<Fault>)

  /** alu(op, reg_a, reg_b) as written: `if ADD ...` then `if MUL ... else
      raise`, so ADD updates the register and raises all the same. */
  function Alu(op: string, registers: seq<int>, a: int, b: int): (r: AluResult)
    ensures |r.registers| == |registers|
    ensures r.fault.None? <==> op == "MUL" && Slot(a, |registers|).Some? && Slot(b, |registers|).Some?
    ensures op != "ADD" && r.fault.Some? ==> r.registers == registers
  {
    var added := if op == "ADD" then Combine(registers, a, b, false) else Ok(registers);
    match added
    case Err(f) => AluResult(registers, Some(f))
    case Ok(sum) =>
      if op == "MUL" then
        match Combine(sum, a, b, true)
        case Err(f) => AluResult(sum, Some(f))
        case Ok(product) => AluResult(product, None)
      else AluResult(sum, Some(UnsupportedOperation))
  }

  /** MUL multiplies register a by register b, without wrap-around, and
      leaves every other register alone. */
  lemma AluMul(registers: seq<int>, a: nat, b: nat)
    requires a < |registers| && b < |registers|
    ensures Alu("MUL", registers, a, b).fault.None?
    ensures Alu("MUL", registers, a, b).registers[a] == registers[a] * registers[b]
    ensures forall i | 0 <= i < |registers| && i != a :: Alu("MUL", registers, a, b).registers[i] == registers[i]
  {
  }

  /** ADD as written: register a already holds the sum when the ALU raises
      "Unsupported ALU operation". */
  lemma AluAddRaises(registers: seq<int>, a: nat, b: nat)
    requires a < |registers| && b < |registers|
    ensures Alu("ADD", registers, a, b).fault == Some(UnsupportedOperation)
    ensures Alu("ADD", registers, a, b).registers[a] == registers[a] + registers[b]
    ensures forall i | 0 <= i < |registers| && i != a :: Alu("ADD", registers, a, b).registers[i] == registers[i]
  {
  }

  /** The ALU as evidently intended: an if/elif/else chain, so that ADD
      returns normally. */
  function AluIntended(op: string, registers: seq<int>, a: int, b: int): AluResult {
    if op == "ADD" || op == "MUL" then
      match Combine(registers, a, b, op == "MUL")
      case Err(f) => AluResult(registers, Some(f))
      case Ok(r) => AluResult(r, None)
    else AluResult(registers, Some(UnsupportedOperation))
  }

  /** The intended ALU adds without raising, and agrees with the code as
      written on every other operation, MUL (the only one the run loop
      issues) included. */
  lemma AluIntendedAdd(registers: seq<int>, a: nat, b: nat, op: string)
    requires a < |registers| && b < |registers|
    ensures AluIntended("ADD", registers, a, b).fault.None?
    ensures AluIntended("ADD", registers, a, b).registers == registers[a := registers[a] + registers[b]]
    ensures op != "ADD" ==> AluIntended(op, registers, a, b) == Alu(op, registers, a, b)
  {
  }

  /** What one pass of the run loop did: the new state, what PRN printed,
      and the exception that ended it, if any. */
  datatype Cycle = Cycle(next: Machine, printed: seq<int>, fault: Option<Fault>)

  /** One pass of the run loop: read ram[pc+1] and ram[pc+2], then the
      opcode ram[pc], and dispatch on it. */
  function Step(m: Machine): (c: Cycle)
    ensures c.next.ram == m.ram && |c.next.registers| == |m.registers|
    ensures c.fault.Some? ==> c.next == m && c.printed == []
    ensures c.fault.None? ==> m.pc + 2 < |m.ram| && |c.printed| <= 1
    ensures c.fault.None? ==>
      (c.next.halted && c.next.pc == m.pc) ||
      (c.next.halted == m.halted && m.pc + 2 <= c.next.pc <= m.pc + 3)
  {
    match Slot(m.pc + 1, |m.ram|)
    case None => Cycle(m, [], Some(RamIndex(m.pc + 1)))
    case Some(i) =>
      match Slot(m.pc + 2, |m.ram|)
      case None => Cycle(m, [], Some(RamIndex(m.pc + 2)))
      case Some(j) =>
        Dispatch(m, m.ram[i], m.ram[j])
  }

  /** The body of the run loop once the two operands a = ram[pc+1] and
      b = ram[pc+2] have been read: the if/elif chain on the opcode. */
  function Dispatch(m: Machine, a: int, b: int): (c: Cycle)
    requires m.pc < |m.ram|
    ensures c.next.ram == m.ram && |c.next.registers| == |m.registers|
    ensures c.fault.Some? ==> c.next == m && c.printed == []
    ensures c.fault.None? ==> |c.printed| <= 1
    ensures c.fault.None? ==>
      (c.next.halted && c.next.pc == m.pc) ||
      (c.next.halted == m.halted && m.pc + 2 <= c.next.pc <= m.pc + 3)
  {
    var ir := m.ram[m.pc];
    if ir == HLT then
      Cycle(m.(halted := true), [], None)
    else if ir == LDI then
      match Slot(a, |m.registers|)
      case None => Cycle(m, [], Some(RegisterIndex(a)))
      case Some(k) => Cycle(m.(registers := m.registers[k := b], pc := m.pc + 3), [], None)
    else if ir == PRN then
      match Slot(a, |m.registers|)
      case None => Cycle(m, [], Some(RegisterIndex(a)))
      case Some(k) => Cycle(m.(pc := m.pc + 2), [m.registers[k]], None)
    else if ir == MUL then
      var r := Alu("MUL", m.registers, a, b);
      if r.fault.Some? then Cycle(m, [], r.fault)
      else Cycle(m.(registers := r.registers, pc := m.pc + 3), [], None)
    else
      Cycle(m, [], Some(UnknownInstruction(ir, m.pc)))
  }

  /** With both operands in range, a cycle is the dispatch on the opcode. */
  lemma StepDispatch(m: Machine)
    requires m.pc + 2 < |m.ram|
    ensures Step(m) == Dispatch(m, m.ram[m.pc + 1], m.ram[m.pc + 2])
  {
  }

  datatype Stop = Halted | Faulted(fault: Fault)

  /** The end of a run: the final state, everything PRN printed, and how it
      stopped. */
  datatype RunResult = RunResult(final: Machine, output: seq<int>, stop: Stop)

  /** run(): cycles until the halted flag is set or a cycle raises. It
      terminates because every cycle that neither halts nor raises moves pc
      forward, and a cycle with pc + 2 past the end of RAM raises. The run
      never writes RAM, and it ends halted exactly when it stops at HLT. */
  function Execute(m: Machine): (r: RunResult)
    ensures r.final.ram == m.ram && |r.final.registers| == |m.registers|
    ensures r.stop.Halted? <==> r.final.halted
    ensures r.final.pc >= m.pc
    decreases |m.ram| - m.pc, if m.halted then 0 else 1
  {
    if m.halted then RunResult(m, [], Halted)
    else
      var c := Step(m);
      if c.fault.Some? then RunResult(c.next, c.printed, Faulted(c.fault.value))
      else Prepend(c.printed, Execute(c.next))
  }

  /** A run preceded by cycles that printed `printed`. */
  function Prepend(printed: seq<int>, r: RunResult): RunResult {
    RunResult(r.final, printed + r.output, r.stop)
  }

  /** A run is its first cycle followed by the run from the state it leaves. */
  lemma ExecuteCycle(m: Machine)
    requires !m.halted && Step(m).fault.None?
    ensures Execute(m) == Prepend(Step(m).printed, Execute(Step(m).next))
  {
  }

  /** LDI a, v stores v in register a and moves pc by 3; no other register,
      no RAM cell and not the halted flag changes, and nothing is printed. */
  lemma StepLdi(m: Machine, a: nat)
    requires m.pc + 2 < |m.ram| && m.ram[m.pc] == LDI
    requires m.ram[m.pc + 1] == a && a < |m.registers|
    ensures Step(m) == Cycle(m.(registers := m.registers[a := m.ram[m.pc + 2]], pc := m.pc + 3), [], None)
  {
  }

  /** MUL a, b multiplies register a by register b without wrap-around and
      moves pc by 3; nothing else changes. */
  lemma StepMul(m: Machine, a: nat, b: nat)
    requires m.pc + 2 < |m.ram| && m.ram[m.pc] == MUL
    requires m.ram[m.pc + 1] == a && m.ram[m.pc + 2] == b
    requires a < |m.registers| && b < |m.registers|
    ensures Step(m) == Cycle(m.(registers := m.registers[a := m.registers[a] * m.registers[b]], pc := m.pc + 3), [], None)
  {
  }

  /** PRN a prints register a and moves pc by 2; registers and RAM stay. */
  lemma StepPrn(m: Machine, a: nat)
    requires m.pc + 2 < |m.ram| && m.ram[m.pc] == PRN
    requires m.ram[m.pc + 1] == a && a < |m.registers|
    ensures Step(m) == Cycle(m.(pc := m.pc + 2), [m.registers[a]], None)
  {
  }

  /** HLT sets the halted flag and leaves pc where it is, which ends the
      run. */
  lemma StepHlt(m: Machine)
    requires m.pc + 2 < |m.ram| && m.ram[m.pc] == HLT
    ensures Step(m) == Cycle(m.(halted := true), [], None)
    ensures !m.halted ==> Execute(m) == RunResult(m.(halted := true), [], Halted)
  {
  }

  /** The operand reads come first: with pc + 2 past the end of RAM the cycle
      raises before the opcode is looked at, HLT included. */
  lemma StepPastEnd(m: Machine)
    requires |m.ram| == RamSize && m.pc >= RamSize - 2
    ensures Step(m).fault == Some(RamIndex(if m.pc == RamSize - 2 then RamSize else m.pc + 1))
    ensures Step(m).next == m
  {
  }

  /** An opcode outside the command table stops the run abnormally, with
      the machine as it was. */
  lemma StepUnknown(m: Machine)
    requires m.pc + 2 < |m.ram|
    requires m.ram[m.pc] !in {HLT, LDI, PRN, MUL}
    ensures Step(m) == Cycle(m, [], Some(UnknownInstruction(m.ram[m.pc], m.pc)))
    ensures !m.halted ==> Execute(m).stop == Faulted(UnknownInstruction(m.ram[m.pc], m.pc))
  {
  }

  /** The rest of a run after an LDI. */
  lemma ExecuteLdi(m: Machine, a: nat)
    requires !m.halted && m.pc + 2 < |m.ram| && m.ram[m.pc] == LDI
    requires m.ram[m.pc + 1] == a && a < |m.registers|
    ensures Execute(m) == Execute(m.(registers := m.registers[a := m.ram[m.pc + 2]], pc := m.pc + 3))
  {
    StepLdi(m, a);
    ExecuteCycle(m);
    var rest := Execute(Step(m).next);
    assert [] + rest.output == rest.output;
  }

  /** The rest of a run after a MUL. */
  lemma ExecuteMul(m: Machine, a: nat, b: nat)
    requires !m.halted && m.pc + 2 < |m.ram| && m.ram[m.pc] == MUL
    requires m.ram[m.pc + 1] == a && m.ram[m.pc + 2] == b
    requires a < |m.registers| && b < |m.registers|
    ensures Execute(m) == Execute(m.(registers := m.registers[a := m.registers[a] * m.registers[b]], pc := m.pc + 3))
  {
    StepMul(m, a, b);
    ExecuteCycle(m);
    var rest := Execute(Step(m).next);
    assert [] + rest.output == rest.output;
  }

  /** The rest of a run after a PRN. */
  lemma ExecutePrn(m: Machine, a: nat)
    requires !m.halted && m.pc + 2 < |m.ram| && m.ram[m.pc] == PRN
    requires m.ram[m.pc + 1] == a && a < |m.registers|
    ensures Execute(m) == Prepend([m.registers[a]], Execute(m.(pc := m.pc + 2)))
  {
    StepPrn(m, a);
    ExecuteCycle(m);
  }

  /** LDI r, v followed by PRN r prints v exactly: the first thing such a
      program prints is the immediate it loaded. */
  lemma LdiThenPrn(m: Machine, r: nat, v: int)
    requires !m.halted && m.pc + 5 < |m.ram| && r < |m.registers|
    requires m.ram[m.pc..m.pc + 5] == [LDI, r, v, PRN, r]
    ensures |Execute(m).output| > 0 && Execute(m).output[0] == v
  {
    assert m.ram[m.pc] == LDI && m.ram[m.pc + 1] == r && m.ram[m.pc + 2] == v by {
      assert m.ram[m.pc..m.pc + 5][0] == m.ram[m.pc];
      assert m.ram[m.pc..m.pc + 5][1] == m.ram[m.pc + 1];
      assert m.ram[m.pc..m.pc + 5][2] == m.ram[m.pc + 2];
    }
    assert m.ram[m.pc + 3] == PRN && m.ram[m.pc + 4] == r by {
      assert m.ram[m.pc..m.pc + 5][3] == m.ram[m.pc + 3];
      assert m.ram[m.pc..m.pc + 5][4] == m.ram[m.pc + 4];
    }
    var m1 := m.(registers := m.registers[r := v], pc := m.pc + 3);
    ExecuteLdi(m, r);
    ExecutePrn(m1, r);
  }

  /** The multiplication example: LDI R0,8; LDI R1,9; MUL R0,R1; PRN R0;
      HLT prints 72 and halts, whatever the registers held before. */
  const MultiplyProgram: seq<int> := [LDI, 0, 8, LDI, 1, 9, MUL, 0, 1, PRN, 0, HLT]

  lemma MultiplyPrints72(m: Machine)
    requires |m.ram| == RamSize && m.ram[..|MultiplyProgram|] == MultiplyProgram
    requires |m.registers| == RegisterCount && m.pc == 0 && !m.halted
    ensures Execute(m).output == [72] && Execute(m).stop == Halted
    ensures Execute(m).final.registers[0] == 72 && Execute(m).final.pc == 11
  {
    var p := m.ram[..|MultiplyProgram|];
    assert p[0] == m.ram[0] && p[1] == m.ram[1] && p[2] == m.ram[2];
    assert p[3] == m.ram[3] && p[4] == m.ram[4] && p[5] == m.ram[5];
    assert p[6] == m.ram[6] && p[7] == m.ram[7] && p[8] == m.ram[8];
    assert p[9] == m.ram[9] && p[10] == m.ram[10] && p[11] == m.ram[11];
    MultiplyHead(m);
    var m2 := m.(registers := m.registers[0 := 8][1 := 9], pc := 6);
    MultiplyTail(m2);
  }

  /** The first half of the example: LDI R0,8 then LDI R1,9. */
  lemma MultiplyHead(m: Machine)
    requires |m.ram| == RamSize && |m.registers| == RegisterCount && m.pc == 0 && !m.halted
    requires m.ram[0] == LDI && m.ram[1] == 0 && m.ram[2] == 8
    requires m.ram[3] == LDI && m.ram[4] == 1 && m.ram[5] == 9
    ensures Execute(m) == Execute(m.(registers := m.registers[0 := 8][1 := 9], pc := 6))
  {
    var m1 := m.(registers := m.registers[0 := 8], pc := 3);
    ExecuteLdi(m, 0);
    ExecuteLdi(m1, 1);
  }

  /** The second half of the example: from MUL R0,R1 with R0 = 8 and R1 = 9. */
  lemma MultiplyTail(m: Machine)
    requires |m.ram| == RamSize && |m.registers| == RegisterCount && m.pc == 6 && !m.halted
    requires m.ram[6] == MUL && m.ram[7] == 0 && m.ram[8] == 1
    requires m.ram[9] == PRN && m.ram[10] == 0 && m.ram[11] == HLT
    requires m.registers[0] == 8 && m.registers[1] == 9
    ensures Execute(m).output == [72] && Execute(m).stop == Halted
    ensures Execute(m).final.registers[0] == 72 && Execute(m).final.pc == 11
  {
    var m3 := m.(registers := m.registers[0 := 72], pc := 9);
    var m4 := m3.(pc := 11);
    ExecuteMul(m, 0, 1);
    ExecutePrn(m3, 0);
    StepHlt(m4);
  }
}
