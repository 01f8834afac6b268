# Synacor virtual machine, modelled in Dafny

This project models the interpreter of the Synacor challenge virtual machine, the Ruby
class `SynacorChallenge::Vm` in `lib/vm.rb`. The machine has a word-addressed memory
holding the program image, eight registers, an unbounded stack and a program counter.
It runs a fetch-decode-execute loop over 22 opcodes. An operand word below 32768 is a
literal. A word in 32768..32775 names a register. A word above 32775 is invalid.

The model has four layers:

- `Words` reads the program image the way Ruby's `unpack('v*')` does: little-endian 16-bit
  words, with a trailing odd byte dropped. `Pack` is its writer, and the two round trips
  are proved.
- `Machine` is the specification: a `State` datatype, operand decoding (`Resolve`,
  `TargetIndex` and the `...At` readers), the opcode table (`Lookup`), the value each
  arithmetic opcode stores (`Apply`, `Complement`), one cycle (`Step`) and a run bounded by
  fuel (`Run`). A fault is a value of `Fault`, one per way a run can end with an exception.
- `Interpreter.Vm` is a class whose fields are updated in place, one operand word at a
  time, as in the Ruby class. Every method is proved to leave the object in the state the
  matching `Machine` function describes.
- `Properties`, `Runs`, `Bits` and `Guards` state and prove what the machine promises:
  - what each opcode does to the state, and which faults it raises;
  - that runs compose, and that output is only appended to and input only consumed;
  - the bit-level meaning of `and`, `or` and `not`;
  - complete example programs;
  - the two empty-stack guards as the code writes them.

The model follows `lib/vm.rb` as written, including where it departs from the usual
description of a Synacor machine:

- Memory holds only the words of the image. Ruby's `Array.new(MODULO)` is replaced at once
  by the unpacked file, so there is no zero-filled 32768-cell memory.
- Reading an address the image does not cover is a fault (`UnsetCell`), because Ruby
  would read nil there.
- A write to any address adds a cell there, as assigning past the end of a Ruby array
  does.
- Register values are unbounded naturals. `rmem` copies a stored word unchecked, so a
  register can hold a word above 32767.
- `in` takes the next character before it fetches its destination word. It uses that word
  raw: a register word writes the register, and any other word writes that memory
  address.
- The two empty-stack guards cannot fire in Ruby. The model implements the intent (see
  Findings).

## Model

| member | source | states |
|---|---|---|
| Machine.Lookup | lib/vm.rb:9-32 | a key names an opcode exactly when it is in 0..21, and that opcode's number is the key |
| Machine.LookupCode | lib/vm.rb:9-32 | every opcode is found again under its own number, so the table is one-to-one |
| Machine.IsRegister | lib/vm.rb:73-75 | `register?` holds exactly for the words 32768..32775 |
| Machine.RegisterId | lib/vm.rb:77-79 | the index of a register word is below 8, and 32768 plus the index is the word |
| Machine.Resolve | lib/vm.rb:63-69 | a literal stands for itself; a register word stands for that register's content; a word is invalid exactly when it is above 32775, with an InvalidValue fault |
| Machine.TargetIndex | lib/vm.rb:88-92 | a destination decodes exactly when it is a register word, to an index below 8; otherwise the fault is NotARegister |
| Machine.ValueAt | lib/vm.rb:61-71 | `next_instruction` is the resolved stored word, or an UnsetCell fault when the cell holds no word |
| Machine.TargetAt | lib/vm.rb:87-93 | `target_register` succeeds exactly when the cell holds a register word, giving that register's index |
| Machine.TwoValuesAt | lib/vm.rb:95-97 | two operands decode exactly when both do, in order, giving both values |
| Machine.KeyValueAt | lib/vm.rb:99-101 | a destination then an operand decode exactly when both do; the index is below 8 |
| Machine.KeyTwoValuesAt | lib/vm.rb:103-105 | a destination then two operands decode exactly when all three do; the index is below 8 |
| Machine.Sum | lib/vm.rb:142 | add stores the value below 32768 congruent to a + b modulo 32768 |
| Machine.Product | lib/vm.rb:187 | mult stores the value below 32768 congruent to a * b modulo 32768 |
| Machine.Remainder | lib/vm.rb:192 | mod stores the remainder: below the divisor, with a = (a / b) * b + r |
| Machine.Apply | lib/vm.rb:140-193 | eq and gt give 1 exactly when the relation holds and 0 otherwise; add and mult wrap modulo 32768; mod faults exactly when the divisor is 0; and and or set exactly the bits set in both, or in either, operand; on 15-bit operands every result is 15-bit |
| Machine.Complement | lib/vm.rb:177 | not sets bit i exactly when i < 15 and bit i of the operand is clear; the result is below 32768 and, for a 15-bit operand, the two add up to 32767 |
| Machine.Image | lib/vm.rb:57 | memory after loading holds exactly the image's words, at addresses 0..n-1 |
| Machine.RawAt | lib/vm.rb:81-85 | no contract of its own; specified by Properties.FetchOutsideMemoryFaults and Properties.InStores |
| Machine.ExecSet | lib/vm.rb:135-138 | no contract of its own; specified by Properties.SetStep and Properties.LiteralDestinationFaults |
| Machine.ExecPush | lib/vm.rb:150-152 | no contract of its own; specified by Properties.PushStep and Properties.InvalidOperandFaults |
| Machine.ExecPop | lib/vm.rb:154-158 | no contract of its own; specified by Properties.PopStep, Properties.PopEmptyFaults and Properties.PushThenPop |
| Machine.ExecBinary | lib/vm.rb:140-193 | no contract of its own; specified by Properties.ArithmeticStep and Properties.ModByZeroFaults, with the values from Machine.Apply |
| Machine.ExecNot | lib/vm.rb:175-178 | no contract of its own; specified by Properties.NotStep, with the value from Machine.Complement |
| Machine.ExecJmp | lib/vm.rb:121-123 | no contract of its own; specified by Properties.JmpStep |
| Machine.ExecJump | lib/vm.rb:125-133 | no contract of its own; specified by Properties.JtStep and Properties.JfStep |
| Machine.ExecRmem | lib/vm.rb:195-198 | no contract of its own; specified by Properties.RmemStep |
| Machine.ExecWmem | lib/vm.rb:200-203 | no contract of its own; specified by Properties.WmemStep |
| Machine.ExecCall | lib/vm.rb:180-183 | no contract of its own; specified by Properties.CallStep and Properties.CallThenRet |
| Machine.ExecRet | lib/vm.rb:205-208 | no contract of its own; specified by Properties.RetStep and Properties.RetEmptyHalts |
| Machine.ExecOut | lib/vm.rb:113-115 | no contract of its own; specified by Properties.OutStep |
| Machine.ExecIn | lib/vm.rb:210-221 | no contract of its own; specified by Properties.InExhaustedHalts and Properties.InStores |
| Machine.Execute | lib/vm.rb:46 | no contract of its own; the `send` dispatch, specified by Properties.Dispatches and the per-opcode lemmas |
| Machine.Step | lib/vm.rb:42-46 | no contract of its own; specified by Properties.Dispatches, Properties.UnknownOpcodeFaults, Properties.RegisterOpcodeDispatches, the per-opcode lemmas and Runs.StepFollows |
| Machine.Run | lib/vm.rb:41-47 | no contract of its own; specified by Runs.RunAdditive, Runs.RunFinished and Runs.RunFollows |
| Machine.Initial | lib/vm.rb:34-39 | no contract of its own; specified by Runs.ImageHolds, with the memory from Machine.Image |
| Machine.Load | lib/vm.rb:52-58 | no contract of its own; specified by Runs.OutThenHaltLoads, with the words from Words.Unpack |
| Words.Unpack | lib/vm.rb:57 | the image yields one word per two bytes, low byte first, each below 65536 |
| Words.UnpackPack | lib/vm.rb:57 | unpacking what Pack wrote gives the words back |
| Words.PackUnpack | lib/vm.rb:57 | packing the unpacked words gives the image back, less a trailing odd byte |
| Words.OddByteDropped | lib/vm.rb:57 | a trailing odd byte adds no word |
| Bits.AndBit | lib/vm.rb:167 | bit i of the bitwise and of a and b is set exactly when it is set in both a and b |
| Bits.OrBit | lib/vm.rb:172 | bit i of the bitwise or of a and b is set exactly when it is set in a or in b |
| Bits.ComplementBit | lib/vm.rb:177 | bit i of the masked complement is set exactly when i < 15 and bit i of the operand is clear |
| Bits.AndAtMost | lib/vm.rb:167 | a & b is at most a and at most b |
| Bits.OrBelow | lib/vm.rb:172 | the or of two k-bit numbers is a k-bit number |
| Bits.ComplementBelow | lib/vm.rb:177 | the complement of k bits is a k-bit number |
| Bits.ComplementSum | lib/vm.rb:177 | on a k-bit number the complement is 2^k - 1 minus the number |
| Bits.OrFifteenBits | lib/vm.rb:172 | or of two values below 32768 is below 32768 |
| Interpreter.Vm.constructor | lib/vm.rb:34-39 | a new machine has an empty stack, zeroed registers, counter 0, empty output and the image loaded from address 0 |
| Interpreter.Vm.RawInstruction | lib/vm.rb:81-85 | reads the cell at the counter unresolved, and advances the counter by one |
| Interpreter.Vm.NextInstruction | lib/vm.rb:61-71 | reads and resolves the word at the counter, as ValueAt, and advances the counter by one |
| Interpreter.Vm.TargetRegister | lib/vm.rb:87-93 | reads a destination register index at the counter, as TargetAt, and advances the counter by one |
| Interpreter.Vm.TwoValues | lib/vm.rb:95-97 | decodes two operands, as TwoValuesAt, advancing past both |
| Interpreter.Vm.KeyValue | lib/vm.rb:99-101 | decodes a destination and an operand, as KeyValueAt, advancing past both |
| Interpreter.Vm.KeyTwoValues | lib/vm.rb:103-105 | decodes a destination and two operands, as KeyTwoValuesAt, advancing past all three |
| Interpreter.Vm.SetRegister | lib/vm.rb:135-138 | set leaves the fields as Machine.ExecSet describes, or reports its fault |
| Interpreter.Vm.PushValue | lib/vm.rb:150-152 | push leaves the fields as Machine.ExecPush describes |
| Interpreter.Vm.PopValue | lib/vm.rb:154-158 | pop leaves the fields as Machine.ExecPop describes, with the empty stack checked first |
| Interpreter.Vm.Arithmetic | lib/vm.rb:140-193 | eq, gt, add, mult, mod, and and or store what Apply gives, as Machine.ExecBinary describes |
| Interpreter.Vm.NotValue | lib/vm.rb:175-178 | not stores Complement of its operand, as Machine.ExecNot describes |
| Interpreter.Vm.Jump | lib/vm.rb:121-123 | jmp sets the counter to its resolved operand, as Machine.ExecJmp describes |
| Interpreter.Vm.JumpIf | lib/vm.rb:125-133 | jt and jf jump exactly when the test is non-zero, or zero, as Machine.ExecJump describes |
| Interpreter.Vm.ReadMemory | lib/vm.rb:195-198 | rmem copies the stored word unresolved into the register, as Machine.ExecRmem describes |
| Interpreter.Vm.WriteMemory | lib/vm.rb:200-203 | wmem stores its resolved value at its resolved address, as Machine.ExecWmem describes |
| Interpreter.Vm.CallRoutine | lib/vm.rb:180-183 | call pushes the address after its operand, then jumps, as Machine.ExecCall describes |
| Interpreter.Vm.Return | lib/vm.rb:205-208 | ret pops the counter, or halts on an empty stack, as Machine.ExecRet describes |
| Interpreter.Vm.Write | lib/vm.rb:113-115 | out appends a code of at most 255 to the output, or faults, as Machine.ExecOut describes |
| Interpreter.Vm.Read | lib/vm.rb:210-221 | in consumes one character and stores it where its raw destination word says, or halts without input, as Machine.ExecIn describes |
| Interpreter.Vm.Step | lib/vm.rb:42-46 | one pass of the loop leaves the object where Machine.Step says, halted, or failed with Step's fault |
| Interpreter.Vm.Run | lib/vm.rb:41-47 | the loop, run for at most fuel passes, ends where Machine.Run says |
| Properties.FetchOutsideMemoryFaults | lib/vm.rb:81-85 | fetching from a cell the image does not cover is fatal |
| Properties.UnknownOpcodeFaults | lib/vm.rb:43-45 | a resolved opcode word of 22 or more is fatal, before any effect |
| Properties.Dispatches | lib/vm.rb:43-46 | an opcode number at the counter runs that opcode with the counter just past it |
| Properties.RegisterOpcodeDispatches | lib/vm.rb:43-46 | a register word at the counter dispatches on that register's content |
| Properties.InvalidOperandFaults | lib/vm.rb:67-68 | an operand word above 32775 is fatal for every opcode whose first operand is resolved: push, jmp, jt, jf, wmem, call and out |
| Properties.LiteralDestinationFaults | lib/vm.rb:89-91 | a destination word that is not a register word is fatal for every opcode that writes a register: set, not, rmem, the seven binary opcodes, and pop on a non-empty stack |
| Properties.HaltStops | lib/vm.rb:109-111 | halt stops the machine and changes nothing else |
| Properties.NoopContinues | lib/vm.rb:117-119 | noop only advances the counter |
| Properties.SetStep | lib/vm.rb:135-138 | set writes the operand's value into the named register only, and advances by 3 |
| Properties.ArithmeticStep | lib/vm.rb:140-193 | a binary opcode writes Apply's value into the named register only, and advances by 4, or faults with division by zero |
| Properties.ModByZeroFaults | lib/vm.rb:190-193 | mod with a zero divisor is fatal once its operands have decoded |
| Properties.NotStep | lib/vm.rb:175-178 | not writes the complement of its operand into the named register only |
| Properties.PushStep | lib/vm.rb:150-152 | push appends the operand's value to the stack and changes nothing else |
| Properties.PopStep | lib/vm.rb:154-158 | pop moves the top of the stack into the named register and shortens the stack by one |
| Properties.PopEmptyFaults | lib/vm.rb:155 | pop on an empty stack is fatal, before its destination word is read |
| Properties.JmpStep | lib/vm.rb:121-123 | jmp sets the counter to the operand's value and changes nothing else |
| Properties.JtStep | lib/vm.rb:125-128 | jt jumps exactly when its test is non-zero, and otherwise goes on past its operands |
| Properties.JfStep | lib/vm.rb:130-133 | jf jumps exactly when its test is zero, and otherwise goes on past its operands |
| Properties.RmemStep | lib/vm.rb:195-198 | rmem copies the stored word, unresolved, into the named register |
| Properties.WmemStep | lib/vm.rb:200-203 | wmem writes the second operand's value at the first operand's address and changes nothing else |
| Properties.CallStep | lib/vm.rb:180-183 | call at address A pushes A + 2 and jumps to its operand |
| Properties.RetStep | lib/vm.rb:205-208 | ret pops the top of the stack into the counter |
| Properties.RetEmptyHalts | lib/vm.rb:206 | ret on an empty stack stops the machine and changes nothing else |
| Properties.OutStep | lib/vm.rb:113-115 | out appends a code of at most 255 to the output and faults on a larger one |
| Properties.InExhaustedHalts | lib/vm.rb:211-212 | in with no input left stops the machine without reading its destination word |
| Properties.InStores | lib/vm.rb:210-221 | in stores the next character in the register a register word names, and otherwise at the memory address the raw word gives |
| Properties.PushThenPop | lib/vm.rb:150-158 | push a then pop r leaves the stack as it was and r holding a's value |
| Properties.CallThenRet | lib/vm.rb:180-208 | call, reaching a ret, comes back past the call with the stack and registers as they were |
| Runs.RunAdditive | lib/vm.rb:41-47 | running m cycles and then n more is the same as running m + n cycles |
| Runs.RunFinished | lib/vm.rb:41-47 | once a run has halted or faulted, more fuel changes nothing |
| Runs.FollowsTransitive | lib/vm.rb:41-47 | the relation "output only appended, input only consumed" composes |
| Runs.StepFollows | lib/vm.rb:113-115 | one cycle only appends codes of at most 255 to the output and only consumes input from its front |
| Runs.RunFollows | lib/vm.rb:41-47 | the same holds for any run that does not fault |
| Runs.ImageHolds | lib/vm.rb:57 | a loaded image holds its words from address 0 |
| Runs.OutThenHaltLoads | lib/vm.rb:57 | the six bytes of `out 65; halt` load as its three words |
| Runs.OutThenHalt | lib/vm.rb:109-115 | `out 65; halt` writes the one code 65 and halts |
| Runs.CompareRuns | lib/vm.rb:135-193 | from any state holding `set r0 4; set r1 1; add r2 r0 r1; eq r3 r2 5; out r3; halt`, six cycles write 1 and halt |
| Runs.AddThenCompare | lib/vm.rb:135-193 | the same program, as loaded, ends with registers 4, 1, 5, 1 and output 1 |
| Runs.LifoRuns | lib/vm.rb:150-158 | from any state holding `push 5; push 6; pop r0; pop r1; out r1; halt`, r0 gets 6 and r1 gets 5, the stack ends as it began, and 5 is written |
| Runs.StackIsLastInFirstOut | lib/vm.rb:150-158 | the same program, as loaded, writes 5: the first value pushed is popped last |
| Runs.ModByZeroProgram | lib/vm.rb:190-193 | the loaded program `mod r0 7 0` faults with a division by zero |
| Runs.UnknownOpcodeProgram | lib/vm.rb:43-45 | the loaded program consisting of the word 99 faults with an unknown opcode |
| Guards.CountIsTruthy | lib/vm.rb:155 | every stack count, 0 included, is true to Ruby |
| Guards.PopAsWritten | lib/vm.rb:154-158 | pop as written fails exactly when the stack count is false to Ruby, which is never: on an empty stack the register gets nil and the stack stays empty, otherwise the register gets the top and the stack loses it |
| Guards.PopEmptyStoresNil | lib/vm.rb:154-158 | pop as written, on an empty stack, does not fail and stores nil in the register |
| Guards.RetAsWritten | lib/vm.rb:205-208 | ret as written halts exactly when the stack count is false to Ruby, which is never: on an empty stack the counter becomes nil, otherwise it gets the top of the stack |
| Guards.RetEmptyLeavesNilCounter | lib/vm.rb:205-208 | ret as written, on an empty stack, does not halt and sets the counter to nil |
| Guards.EmptyStackIntended | lib/vm.rb:154-158 | in the model, pop on an empty stack faults and ret on an empty stack halts with nothing else changed |

## Left out

- Loading from a file path (`load_data`, the existence check) is not modelled. The model starts from the image's bytes (`Machine.Load`, `Interpreter.Vm.constructor`).
- Terminal input and output are sequences of character codes. `STDIN.getc` takes the next element of the state's input, and a character's code is not bounded. `print ... .chr` appends to the state's output.
- `exit` in `halt`, and `halt` called from `ret` and `in`, become a Stop effect, or the Halted outcome of the class.
- The `send(opcode)` dispatch by method name becomes a match on the `Opcode` datatype.
- The unbounded `loop do` becomes a run of at most `fuel` cycles. A run still going when the fuel is spent ends in `Next`, or `Running`.
- Interpreter.Vm.Step, and every other Vm method, states only the fault after a fault, not the fields: the run is over at that point, because Ruby raises.
- Nil accidents are not modelled. Ruby reads nil at an address beyond the image, and `rmem` of such an address stores nil in a register. The model treats every read of a missing cell as an UnsetCell fault, so `Machine.ExecRmem` faults where Ruby would go on with a nil register.
- Exception classes and messages are not modelled. Each becomes a constructor of `Fault`.
- `challenge.rb`, the command-line entry point, is not part of this model: it only constructs the machine, runs it and prints any exception.
- `lib/module.rb` is not part of this model: it is an unused duplicate of the opcode table and opcode bodies of `lib/vm.rb`, which `challenge.rb` never loads (it requires only `lib/vm`).

## Findings

| source | as written | input that shows it | evidently intended | confidence | as-written member | corrected member |
|---|---|---|---|---|---|---|
| lib/vm.rb:155 | `fail 'Stack is empty' unless @stack.count` never fails, because an Integer count, 0 included, is true in Ruby; `@stack.pop` then gives nil and the register is set to nil | `pop r0` with an empty stack | pop on an empty stack fails (`@stack.empty?`) | high; not executed | Guards.PopEmptyStoresNil | Properties.PopEmptyFaults |
| lib/vm.rb:206 | `halt unless @stack.count` never halts; the counter becomes nil, and the next fetch `@memory[@counter]` raises | `ret` with an empty stack | ret on an empty stack halts the machine | high; not executed | Guards.RetEmptyLeavesNilCounter | Properties.RetEmptyHalts |
