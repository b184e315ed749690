/** The CPU class of ls8/cpu.py: RAM and registers as arrays that the
    methods update in place, and the program counter and halted flag as
    fields. Each method is proved to do what the functions of module Ls8
    and module Loader say. */
module Cpu {
  import opened Builtins
  import opened Loader
  import opened Ls8

  class CPU {
    var ram: array<int>
    var registers: array<int>
    var pc: nat
    var halted: bool

    /** 256 RAM cells and 8 registers, in two distinct lists. */
    ghost predicate Valid()
      reads this
    {
      ram.Length == RamSize && registers.Length == RegisterCount && ram != registers
    }

    /** The machine state the fields hold. */
    ghost function State(): Machine
      reads this, ram, registers
    {
      Machine(ram[..], registers[..], pc, halted)
    }

    /** RAM and registers all zero, pc at 0, not halted. */
    constructor()
      ensures Valid() && fresh(ram) && fresh(registers)
      ensures State() == Initial()
    {
      ram := new int[RamSize](_ => 0);
      registers := new int[RegisterCount](_ => 0);
      pc := 0;
      halted := false;
    }

    /** ram_read(address): the cell the address selects, with Python's list
        indexing, or the IndexError. */
    method RamRead(address: int) returns (value: Result<int, Fault>)
      requires Valid()
      ensures value.Ok? <==> -ram.Length <= address < ram.Length
      ensures 0 <= address < ram.Length ==> value == Ok(ram[address])
      ensures -ram.Length <= address < 0 ==> value == Ok(ram[ram.Length + address])
      ensures value.Err? ==> value.error == RamIndex(address)
    {
      match Slot(address, ram.Length)
      case None => return Err(RamIndex(address));
      case Some(k) => return Ok(ram[k]);
    }

    /** ram_write(address, value), which stores at pc instead of address. */
    method RamWrite(address: int, value: int) returns (fault: Option<Fault>)
      requires Valid()
      modifies ram
      ensures WriteRam(old(ram[..]), pc, address, value).None? ==>
        fault == Some(RamIndex(pc)) && ram[..] == old(ram[..])
      ensures WriteRam(old(ram[..]), pc, address, value).Some? ==>
        fault.None? && ram[..] == WriteRam(old(ram[..]), pc, address, value).value
    {
      if pc >= ram.Length {
        return Some(RamIndex(pc));
      }
      ram[pc] := value;
      return None;
    }

    /** alu(op, reg_a, reg_b), exactly as Ls8.Alu describes it: ADD updates
        register a and still raises. */
    method Alu(op: string, regA: int, regB: int) returns (fault: Option<Fault>)
      requires Valid()
      modifies registers
      ensures AluResult(registers[..], fault) == Ls8.Alu(op, old(registers[..]), regA, regB)
    {
      if op == "ADD" {
        match Slot(regA, registers.Length)
        case None => return Some(RegisterIndex(regA));
        case Some(i) =>
          match Slot(regB, registers.Length)
          case None => return Some(RegisterIndex(regB));
          case Some(j) => registers[i] := registers[i] + registers[j];
      }
      if op == "MUL" {
        match Slot(regA, registers.Length)
        case None => return Some(RegisterIndex(regA));
        case Some(i) =>
          match Slot(regB, registers.Length)
          case None => return Some(RegisterIndex(regB));
          case Some(j) => registers[i] := registers[i] * registers[j];
      } else {
        return Some(UnsupportedOperation);
      }
      return None;
    }

    /** load(file), given the file's lines: the program is read line by line
        first, then copied into RAM from address 0. A line that raises leaves
        RAM untouched; a program longer than RAM fills all of RAM and then
        raises. */
    method Load(lines: seq<string>) returns (error: Option<LoadError>)
      requires Valid()
      modifies ram
      ensures ProgramOf(lines).Err? ==>
        error == Some(ProgramOf(lines).error) && ram[..] == old(ram[..])
      ensures ProgramOf(lines).Ok? ==>
        var p := ProgramOf(lines).value;
        (error.None? <==> |p| <= ram.Length) &&
        (error.Some? ==> error == Some(RamOverflow)) &&
        forall i | 0 <= i < ram.Length :: ram[i] == if i < |p| then p[i] else old(ram[i])
    {
      var program := ReadProgram(lines);
      if program.Err? {
        return Some(program.error);
      }
      error := Place(program.value);
    }

    /** The second loop of load: the program's values go to RAM from
        address 0 on, and a value with no cell left raises. */
    method Place(p: seq<int>) returns (error: Option<LoadError>)
      requires Valid()
      modifies ram
      ensures error.None? <==> |p| <= ram.Length
      ensures error.Some? ==> error == Some(RamOverflow)
      ensures forall i | 0 <= i < ram.Length :: ram[i] == if i < |p| then p[i] else old(ram[i])
    {
      var address := 0;
      while address < |p|
        invariant 0 <= address <= |p| && address <= ram.Length
        invariant forall i | 0 <= i < ram.Length :: ram[i] == if i < address then p[i] else old(ram[i])
      {
        if address >= ram.Length {
          return Some(RamOverflow);
        }
        ram[address] := p[address];
        address := address + 1;
      }
      return None;
    }

    /** run(): cycles until halted or until a cycle raises. The output is
        what PRN printed, in order; the final state, the output and the way
        the run stopped are those of Ls8.Execute. */
    method Run() returns (output: seq<int>, stop: Stop)
      requires Valid()
      modifies this, registers
      ensures ram == old(ram) && registers == old(registers) && Valid()
      ensures RunResult(State(), output, stop) == Execute(old(State()))
    {
      output := [];
      while !halted
        invariant ram == old(ram) && registers == old(registers) && Valid()
        invariant ram[..] == old(ram[..])
        invariant Execute(old(State())) == Prepend(output, Execute(State()))
        decreases ram.Length - pc, if halted then 0 else 1
      {
        ghost var before, printedBefore := State(), output;
        var operandA := RamRead(pc + 1);
        if operandA.Err? {
          stop := Faulted(operandA.error);
          Abandon(output, before);
          return;
        }
        var operandB := RamRead(pc + 2);
        if operandB.Err? {
          stop := Faulted(operandB.error);
          Abandon(output, before);
          return;
        }
        StepDispatch(before);
        var printed, fault := Perform(operandA.value, operandB.value);
        if fault.Some? {
          stop := Faulted(fault.value);
          Abandon(output, before);
          return;
        }
        output := output + printed;
        Continue(printedBefore, before);
      }
      stop := Halted;
      assert output + [] == output;
    }

    /** The if/elif chain of run() on the opcode at pc, once the operands
        a and b have been read. A branch that raises leaves the state as it
        was. */
    method Perform(a: int, b: int) returns (printed: seq<int>, fault: Option<Fault>)
      requires Valid() && pc < ram.Length
      modifies this, registers
      ensures ram == old(ram) && registers == old(registers) && Valid()
      ensures Cycle(State(), printed, fault) == Dispatch(old(State()), a, b)
    {
      printed, fault := [], None;
      var ir := ram[pc];
      if ir == HLT {
        halted := true;
      } else if ir == LDI {
        match Slot(a, registers.Length)
        case None => fault := Some(RegisterIndex(a));
        case Some(k) =>
          registers[k] := b;
          pc := pc + 3;
      } else if ir == PRN {
        match Slot(a, registers.Length)
        case None => fault := Some(RegisterIndex(a));
        case Some(k) =>
          printed := [registers[k]];
          pc := pc + 2;
      } else if ir == MUL {
        fault := Alu("MUL", a, b);
        if fault.None? {
          pc := pc + 3;
        }
      } else {
        fault := Some(UnknownInstruction(ir, pc));
      }
    }
  }

  /** A cycle that goes through: the run goes on from the state it leaves,
      after what it printed. */
  lemma Continue(output: seq<int>, m: Machine)
    requires !m.halted && Step(m).fault.None?
    ensures Prepend(output, Execute(m)) == Prepend(output + Step(m).printed, Execute(Step(m).next))
  {
  }

  /** A cycle that raises ends the run with the state it started from. */
  lemma Abandon(output: seq<int>, m: Machine)
    requires !m.halted && Step(m).fault.Some?
    ensures Prepend(output, Execute(m)) == RunResult(m, output, Faulted(Step(m).fault.value))
  {
  }

  /** The multiplication example as a listing: it loads back as the program,
      and, placed in a fresh RAM, prints 72 and halts. */
  lemma MultiplyListing()
    ensures ProgramOf(Listing(MultiplyProgram)) == Ok(MultiplyProgram)
    ensures var m := Initial().(ram := MultiplyProgram + Initial().ram[|MultiplyProgram|..]);
      Execute(m).output == [72] && Execute(m).stop == Halted
  {
    var bytes: seq<nat> := [LDI, 0, 8, LDI, 1, 9, MUL, 0, 1, PRN, 0, HLT];
    assert bytes == MultiplyProgram;
    ProgramOfListing(bytes);
    var m := Initial().(ram := MultiplyProgram + Initial().ram[|MultiplyProgram|..]);
    assert m.ram[..|MultiplyProgram|] == MultiplyProgram;
    MultiplyPrints72(m);
  }
}
