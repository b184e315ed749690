# LS-8 CPU (ls8/cpu.py) in Dafny

`ls8/cpu.py` is a small emulator for the LS-8 teaching computer. A `CPU` object has:

- 256 RAM cells;
- 8 registers;
- a program counter `pc`;
- a `halted` flag;
- a command table of four opcodes: HLT, LDI, PRN and MUL.

`load` reads a program listing and keeps each line whose first space-separated field starts with `0` or `1`. It converts that field with `int(field, 2)` and copies the resulting list into RAM from address 0. `run` is a fetch-decode-execute loop. Each pass reads `ram[pc+1]` and `ram[pc+2]` as operands, then dispatches on the opcode `ram[pc]`. The loop stops when HLT sets the flag, or when a pass raises.

## Files

The project has four modules, one per file. Each imports only the ones before it.

- `builtins.dfy` (module `Builtins`): the Python behaviours the code relies on.
  - `Slot` models list indexing, including negative indices and the IndexError.
  - `IntBase2` models `int(text, 2)`: white space trimmed at both ends, an optional sign, an optional `0b` prefix, and underscores between digits. It gives `None` for the ValueError. The white space is what `int()` skips: the ASCII space and `\t` to `\r`, plus the non-ASCII characters for which `str.isspace()` holds. The ASCII separators U+001C to U+001F are not skipped, although `str.isspace()` holds for them.
- `loader.dfy` (module `Loader`): the line filter of `load`.
  - The file's lines are given as a `seq<string>`.
  - `ProgramOf` is the specification of the resulting program list.
  - `ReadProgram` is the loop that builds that list, proved equal to `ProgramOf`.
- `machine.dfy` (module `Ls8`): the machine as a value.
  - `Alu` is `alu` as written; `WriteRam` is `ram_write` as written.
  - `Step` is one pass of the run loop; `Execute` is a whole run as a terminating recursive function.
  - The file also holds the per-opcode lemmas and the multiplication example.
- `cpu.dfy` (module `Cpu`): `class CPU`.
  - RAM and registers are `array<int>`; `pc` and `halted` are fields.
  - The methods mirror the Python methods. Each is proved to behave as the functions of `Ls8` and `Loader` say.
  - `Run` keeps the invariant `Execute(initial state) == Prepend(output so far, Execute(current state))`. The loop's `decreases` clause (room left in RAM ahead of `pc`, then the halted flag) is the termination argument.

Modelling choices:

- Values are unbounded `int`s, as Python's are. MUL therefore does not wrap, and the model proves `8 * 9 = 72` without any mask.
- Every exception the model represents is a `Fault` or a `LoadError` value (the exceptions it does not represent are listed under "Left out"):
  - an IndexError on RAM or on the register list;
  - the ALU's "Unsupported ALU operation";
  - the abnormal stop in the dispatcher's last branch;
  - an empty first field in `load`;
  - a ValueError from `int`;
  - a RAM overflow while placing the program.
- When a pass raises, `run` ends with the state the pass started in. This holds as written: no branch changes state before it raises.

The dispatcher in `ls8/cpu.py` knows four opcodes. It has no stack pointer, no condition flags and no 8-bit wrap-around, and neither has the model.

## Model

| member | source | states |
|---|---|---|
| Cpu.CPU.constructor | ls8/cpu.py:9-13 | A new CPU has 256 zero RAM cells, 8 zero registers, pc 0 and is not halted (`State() == Initial()`), in two fresh, distinct arrays |
| Cpu.CPU.RamRead | ls8/cpu.py:40-41 | Succeeds exactly when `-256 <= address < 256`. It gives `ram[address]`, or `ram[256 + address]` for a negative address, and otherwise the IndexError `RamIndex(address)` |
| Cpu.CPU.RamWrite | ls8/cpu.py:43-44 | The new RAM is `WriteRam(old RAM, pc, address, value)`: only `ram[pc]` changes, whatever the address. With pc out of range it is an IndexError and RAM is unchanged |
| Ls8.WriteRam | ls8/cpu.py:43-44 | Defined exactly when `pc < |ram|`. Then it has the same length, holds `value` at `pc` and keeps every other cell |
| Ls8.RamWriteMissesAddress | ls8/cpu.py:44 | On a fresh CPU, `ram_write(5, 7)` leaves cell 5 at 0 and stores 7 in cell 0 |
| Ls8.WriteRamAtThenRead | ls8/cpu.py:43-44 | The intended write (to the address given) stores the value there and keeps every other cell |
| Ls8.Combine | ls8/cpu.py:50 | `registers[a] += / *= registers[b]` succeeds exactly when both indices are valid Python indices, and keeps the register count |
| Ls8.Alu | ls8/cpu.py:46-56 | Returns normally exactly when op is "MUL" and both indices are in range. It keeps the register count, and for every op other than "ADD" an exception leaves the registers unchanged |
| Ls8.AluMul | ls8/cpu.py:52-53 | MUL sets register a to `registers[a] * registers[b]`, with no wrap-around, and keeps every other register |
| Ls8.AluAddRaises | ls8/cpu.py:49-56 | ADD stores `registers[a] + registers[b]` in register a and then still raises UnsupportedOperation. Every other register is unchanged |
| Ls8.AluIntendedAdd | ls8/cpu.py:49-56 | With an if/elif chain, ADD returns normally with the sum in register a. It agrees with the code as written on every op other than ADD, MUL included |
| Cpu.CPU.Alu | ls8/cpu.py:46-56 | Updates the register array in place to exactly `Ls8.Alu(op, old registers, a, b)` and returns its exception |
| Ls8.Step | ls8/cpu.py:78-102 | One pass never writes RAM and keeps the register count. A raising pass changes nothing and prints nothing. A pass that does not raise had `pc + 2` inside RAM and prints at most one value. It either halts with pc unchanged, or moves pc forward by 2 or 3 with the flag unchanged |
| Ls8.Dispatch | ls8/cpu.py:84-102 | The opcode branch never writes RAM. It raises without changing anything, or prints at most one value and either halts at pc or advances pc by 2 to 3 |
| Ls8.StepDispatch | ls8/cpu.py:80-83 | When both operand reads are in range, a pass is the dispatch on `ram[pc]` with operands `ram[pc+1]` and `ram[pc+2]` |
| Ls8.Execute | ls8/cpu.py:76-102 | Every run terminates. It never changes RAM or the register count, and never moves pc backwards. It ends halted exactly when it stops at HLT rather than on an exception |
| Ls8.ExecuteCycle | ls8/cpu.py:77-102 | A run from a running state whose pass does not raise is that pass's output followed by the run from the state it leaves |
| Ls8.StepLdi | ls8/cpu.py:87-89 | LDI a, v sets register a to v and pc to pc + 3. No other register, no RAM cell and not the flag changes, and nothing is printed |
| Ls8.StepMul | ls8/cpu.py:95-98 | MUL a, b sets register a to `registers[a] * registers[b]` and pc to pc + 3. Everything else is unchanged and nothing is printed |
| Ls8.StepPrn | ls8/cpu.py:91-93 | PRN a prints `registers[a]` and sets pc to pc + 2. RAM, the registers and the flag are unchanged |
| Ls8.StepHlt | ls8/cpu.py:84-85 | HLT sets the halted flag and leaves pc unchanged. The run then stops at once with nothing more printed |
| Ls8.StepPastEnd | ls8/cpu.py:80-82 | With pc >= 254 a pass raises an IndexError on the operand read (address 256, or pc + 1) before the opcode is looked at, HLT included |
| Ls8.StepUnknown | ls8/cpu.py:100-102 | An opcode outside the table stops the pass, and so the run, abnormally with that opcode and address, and changes nothing |
| Ls8.ExecuteLdi | ls8/cpu.py:87-89 | A run that meets LDI is the run from the state LDI leaves |
| Ls8.ExecuteMul | ls8/cpu.py:95-98 | A run that meets MUL is the run from the state MUL leaves |
| Ls8.ExecutePrn | ls8/cpu.py:91-93 | A run that meets PRN prints the register first and then continues from pc + 2 |
| Ls8.LdiThenPrn | ls8/cpu.py:87-93 | `LDI r, v; PRN r` prints exactly v first |
| Ls8.MultiplyHead | ls8/cpu.py:87-89 | `LDI R0,8; LDI R1,9` from address 0 leads to the run from pc 6 with R0 = 8 and R1 = 9 |
| Ls8.MultiplyTail | ls8/cpu.py:91-98 | `MUL R0,R1; PRN R0; HLT` with R0 = 8 and R1 = 9 prints [72] and halts at pc 11 with R0 = 72 |
| Ls8.MultiplyPrints72 | ls8/cpu.py:76-102 | The program LDI R0,8; LDI R1,9; MUL R0,R1; PRN R0; HLT prints exactly [72] and halts at pc 11 with R0 = 72 |
| Cpu.CPU.Perform | ls8/cpu.py:84-102 | The opcode branches of `run` change the fields and the register array exactly as `Ls8.Dispatch` says, and return what it prints and raises |
| Cpu.CPU.Run | ls8/cpu.py:76-102 | The loop ends with the final state, the printed output and the way it stopped that `Ls8.Execute` gives for the starting state. RAM is unchanged |
| Cpu.Continue | ls8/cpu.py:77-102 | After a pass that does not raise, the rest of the run continues after what the pass printed |
| Cpu.Abandon | ls8/cpu.py:80-102 | A pass that raises ends the run in the state the pass started from, with the output printed so far |
| Cpu.CPU.Load | ls8/cpu.py:22-38 | A line that raises leaves RAM untouched and reports that line's error. Otherwise `ram[i] = program[i]` for every `i < min(n, 256)` and the other cells are unchanged. The load succeeds exactly when n <= 256, and fails with RamOverflow otherwise |
| Cpu.CPU.Place | ls8/cpu.py:34-38 | The placement loop: `ram[i] = p[i]` for every `i < min(|p|, 256)`, and the other cells are unchanged. It succeeds exactly when `|p| <= 256`, and raises RamOverflow otherwise |
| Loader.FirstField | ls8/cpu.py:29 | `line.split(" ")[0]` is the longest prefix without a space, followed by a space or by the end of the line |
| Loader.ReadLine | ls8/cpu.py:29-32 | A line is skipped exactly when its first field is non-empty and starts with neither '0' nor '1'. An empty field raises. A kept line gives `int(field, 2)` (non-negative), or the ValueError when that fails |
| Loader.ProgramOf | ls8/cpu.py:26-32 | The program list that the loop builds. It is a success exactly when no line raises, and then holds at most one value per line, every value non-negative |
| Loader.CollectOfReads | ls8/cpu.py:26-32 | Building the program from the lines' readings succeeds exactly when no line raises, and then gives only non-negative values |
| Loader.Collect | ls8/cpu.py:28-32 | Builds at most one value per reading; a failed build reports the error of one of the lines that raise |
| Loader.CollectNonNegative | ls8/cpu.py:28-32 | When every kept value is non-negative, so is every value of the built program |
| Loader.KeptAt | ls8/cpu.py:28-32 | Lists, in increasing order, the positions of all the kept lines, and only those |
| Loader.CollectOk | ls8/cpu.py:28-32 | Building the program succeeds exactly when no line raises |
| Loader.CollectFirstError | ls8/cpu.py:28-32 | A failed build reports the error of the first line that raises |
| Loader.CollectInOrder | ls8/cpu.py:28-32 | A successful build has one value per kept line: the j-th value is the j-th kept line's value, in file order |
| Loader.CollectAppend | ls8/cpu.py:28-32 | Building from two listings in a row: the first error wins, otherwise the two programs are concatenated |
| Loader.CollectNext | ls8/cpu.py:28-32 | One more line: a skipped line adds nothing, a kept line appends its value, and a line that raises is the error of the whole build |
| Loader.CollectAllKept | ls8/cpu.py:28-32 | Lines that are all kept build exactly their values, in order |
| Loader.ReadProgram | ls8/cpu.py:26-32 | The line loop returns exactly `ProgramOf(lines)` |
| Loader.ReadEncodedLine | ls8/cpu.py:29-32 | A byte written as 8 binary digits, then optional non-space white space, then an optional comment after a space, is kept with that byte's value |
| Loader.ProgramOfListing | ls8/cpu.py:28-32 | Round trip: a listing of bytes, one 8-digit line each, loads back as exactly those bytes |
| Cpu.MultiplyListing | ls8/cpu.py:22-102 | The multiplication program written as a listing loads back as itself. Placed in fresh RAM, it prints [72] and halts |
| Builtins.Slot | ls8/cpu.py:41 | A list index selects a cell exactly when `-n <= i < n`. That cell is i itself or `n + i` |
| Builtins.IntBase2 | ls8/cpu.py:32 | `int(text, 2)` succeeds only on a non-empty literal once the white space is trimmed, and gives a negative value only when that literal starts with '-' |
| Builtins.IntBase2KeepsSeparators | ls8/cpu.py:32 | U+001C after a digit is not trimmed: `int("1\x1c", 2)` raises the ValueError |
| Builtins.IntBase2OfBits | ls8/cpu.py:32 | `int(word + white space, 2)` of an n-digit binary word gives back the number it encodes |
| Builtins.IntBase2FromDigit | ls8/cpu.py:30-32 | A field that starts with '0' or '1' has no leading white space or sign, so `int(field, 2)` reads it as an unsigned literal |
| Builtins.BinaryValueOfBits | ls8/cpu.py:32 | The value of the width-digit word `Bits(n, width)` is n, for n < 2^width |

## Left out

- Opening and iterating the file in `load` (ls8/cpu.py:25, 28) is I/O. `Cpu.CPU.Load` takes the file's lines as a sequence of strings.
- `trace` (ls8/cpu.py:58-74) only formats and prints diagnostics.
- PRN's printing to standard output (ls8/cpu.py:92) is modelled as a sequence of printed values.
- The text of the unknown-instruction message and `sys.exit(1)` (ls8/cpu.py:101-102) are not modelled. As written, that line refers to the undefined names `instruction` and `pc` and raises NameError before it reaches `sys.exit`. The model records this branch as the abnormal stop `UnknownInstruction(opcode, pc)`.
- The `commands` dictionary (ls8/cpu.py:15-20) is the four constants `Ls8.HLT`, `Ls8.LDI`, `Ls8.PRN` and `Ls8.MUL`.
- Builtins.IntBase2: `int` also accepts non-ASCII Unicode decimal digits that equal 0 or 1 (for example, Arabic-Indic digits). This model accepts only the ASCII characters '0' and '1'.
- Cpu.CPU.Run: the body of the loop is split into `Cpu.CPU.Perform` (the opcode branches) so that each proof stays small. The order of reads and writes is the same as in `run`.
- Ls8.StepPrn: CPython 3.11 and later, and the 2022 security releases of 3.7 to 3.10, refuse to convert an integer of more than 4300 decimal digits to text. On such a value PRN raises a ValueError on ls8/cpu.py:92 before anything is printed. The model prints the value. An example is LDI R0,255, then MUL R0,R0 eleven times, then PRN R0. The limit depends on the interpreter version and its settings, which is why it is not modelled.
- Exceptions not listed under Modelling choices are not modelled, apart from the PRN conversion error above. One such exception is a `TypeError` from a non-integer value, which cannot arise from values that `load` produces.

## Findings

| source | as written | input that shows it | evidently intended | confidence | as-written member | corrected member |
|---|---|---|---|---|---|---|
| ls8/cpu.py:43-44 | `ram_write` stores the value at `ram[pc]` and ignores `address` | a fresh CPU, `ram_write(5, 7)`: cell 5 stays 0 and cell 0 becomes 7 | store the value at `ram[address]` | not executed | Ls8.RamWriteMissesAddress | Ls8.WriteRamAtThenRead |
| ls8/cpu.py:49-56 | `if ADD … if MUL … else raise`, so ADD falls into the `else` | `alu("ADD", 0, 1)` with valid registers: R0 gets the sum, then "Unsupported ALU operation" is raised | an if/elif/else chain, so that ADD returns normally | not executed | Ls8.AluAddRaises | Ls8.AluIntendedAdd |

Nothing in `ls8/cpu.py` calls `ram_write`. `run` calls the ALU only with "MUL", where the written and the intended ALU agree (`Ls8.AluIntendedAdd`), so `Ls8.Step` can use `Ls8.Alu` as written.
