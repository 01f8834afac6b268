/** What one cycle of the machine does, instruction by instruction, stated from the
    program's point of view: memory holds an instruction at the program counter, and Step
    yields the state the opcode table promises (or the fault it names). */
module Properties {
  import opened Machine

  /** Memory holds the words ws at addresses addr, addr + 1, ... */
  predicate Holds(s: State, addr: nat, ws: seq<nat>)
  {
    forall a :: addr <= a < addr + |ws| ==> a in s.memory && s.memory[a] == ws[a - addr]
  }

  /** An operand word that decodes: a literal or a register word. */
  predicate IsOperand(w: nat)
  {
    w < Modulo + RegisterCount
  }

  /** The value an operand word stands for in state s. */
  function Operand(s: State, w: nat): nat
    requires IsOperand(w)
  {
    Resolve(s.registers, w).value
  }

  // ----- decoding and dispatch -----

  /** A fetch from a cell that holds no word is fatal. */
  lemma FetchOutsideMemoryFaults(s: State)
    requires s.counter !in s.memory
    ensures Step(s) == Err(UnsetCell(s.counter))
  {
  }

  /** An opcode key outside 0..21 is fatal before any effect of the instruction. */
  lemma UnknownOpcodeFaults(s: State)
    requires s.counter in s.memory && IsOperand(s.memory[s.counter])
    requires Operand(s, s.memory[s.counter]) >= 22
    ensures Step(s) == Err(UnknownOpcode(Operand(s, s.memory[s.counter])))
  {
  }

  /** The opcode word is itself resolved: a register word at the counter dispatches on
      the register's content. */
  lemma RegisterOpcodeDispatches(s: State, r: nat)
    requires r < RegisterCount && Holds(s, s.counter, [Modulo + r])
    requires s.registers[r] < 22
    ensures Step(s) == Execute(Lookup(s.registers[r]).value, s.(counter := s.counter + 1))
  {
  }

  /** A literal opcode word at the counter dispatches to its opcode, with the counter
      just past the opcode word. */
  lemma Dispatches(s: State, op: Opcode)
    requires Holds(s, s.counter, [Code(op)])
    ensures Step(s) == Execute(op, s.(counter := s.counter + 1))
  {
    LookupCode(op);
  }

  /** An operand word above 32775 is fatal, for every opcode whose first operand is
      resolved. */
  lemma InvalidOperandFaults(s: State, op: Opcode, x: nat)
    requires op in {Push, Jmp, Jt, Jf, Wmem, Call, Out}
    requires Holds(s, s.counter, [Code(op), x]) && !IsOperand(x)
    ensures Step(s) == Err(InvalidValue(x))
  {
    Dispatches(s, op);
  }

  /** A destination word that is not a register word is fatal, for every opcode that
      writes a register (pop only once its stack check has passed). */
  lemma LiteralDestinationFaults(s: State, op: Opcode, w: nat)
    requires op in {Set, Not, Rmem} || op.Binary? || (op == Pop && s.stack != [])
    requires Holds(s, s.counter, [Code(op), w]) && !IsRegister(w)
    ensures Step(s) == Err(NotARegister(w))
  {
    Dispatches(s, op);
  }

  // ----- one instruction each -----

  lemma HaltStops(s: State)
    requires Holds(s, s.counter, [Code(Halt)])
    ensures Step(s) == Ok(Stop(s.(counter := s.counter + 1)))
  {
  }

  lemma NoopContinues(s: State)
    requires Holds(s, s.counter, [Code(Noop)])
    ensures Step(s) == Ok(Next(s.(counter := s.counter + 1)))
  {
  }

  lemma SetStep(s: State, r: nat, x: nat)
    requires Holds(s, s.counter, [Code(Set), r, x]) && IsRegister(r) && IsOperand(x)
    ensures Step(s) == Ok(Next(s.(counter := s.counter + 3,
                                  registers := s.registers[r - Modulo := Operand(s, x)])))
  {
  }

  /** eq, gt, add, mult, mod, and, or write the value Apply gives into the destination
      register and nothing else, or fault with division by zero. */
  lemma ArithmeticStep(s: State, op: BinaryOp, r: nat, x: nat, y: nat)
    requires Holds(s, s.counter, [Code(Binary(op)), r, x, y])
    requires IsRegister(r) && IsOperand(x) && IsOperand(y)
    ensures Apply(op, Operand(s, x), Operand(s, y)).Err? ==> Step(s) == Err(DivisionByZero)
    ensures Apply(op, Operand(s, x), Operand(s, y)).Ok? ==>
      Step(s) == Ok(Next(s.(counter := s.counter + 4,
                            registers := s.registers[r - Modulo := Apply(op, Operand(s, x), Operand(s, y)).value])))
  {
    Dispatches(s, Binary(op));
    BinaryOperands(s.(counter := s.counter + 1), op, r, x, y);
  }

  /** The body of ArithmeticStep, with the counter already past the opcode word. */
  lemma BinaryOperands(t: State, op: BinaryOp, r: nat, x: nat, y: nat)
    requires Holds(t, t.counter, [r, x, y])
    requires IsRegister(r) && IsOperand(x) && IsOperand(y)
    ensures Apply(op, Operand(t, x), Operand(t, y)).Err? ==> ExecBinary(op, t) == Err(DivisionByZero)
    ensures Apply(op, Operand(t, x), Operand(t, y)).Ok? ==>
      ExecBinary(op, t) == Ok(Next(t.(counter := t.counter + 3,
                                      registers := t.registers[r - Modulo := Apply(op, Operand(t, x), Operand(t, y)).value])))
  {
    assert KeyTwoValuesAt(t, t.counter) == Ok((r - Modulo, Operand(t, x), Operand(t, y)));
  }

  /** mod with a zero divisor is fatal, once all its operands have decoded. */
  lemma ModByZeroFaults(s: State, r: nat, x: nat, y: nat)
    requires Holds(s, s.counter, [Code(Binary(Mod)), r, x, y])
    requires IsRegister(r) && IsOperand(x) && IsOperand(y) && Operand(s, y) == 0
    ensures Step(s) == Err(DivisionByZero)
  {
    ArithmeticStep(s, Mod, r, x, y);
  }

  lemma NotStep(s: State, r: nat, x: nat)
    requires Holds(s, s.counter, [Code(Not), r, x]) && IsRegister(r) && IsOperand(x)
    ensures Step(s) == Ok(Next(s.(counter := s.counter + 3,
                                  registers := s.registers[r - Modulo := Complement(Operand(s, x))])))
  {
  }

  lemma PushStep(s: State, x: nat)
    requires Holds(s, s.counter, [Code(Push), x]) && IsOperand(x)
    ensures Step(s) == Ok(Next(s.(counter := s.counter + 2, stack := s.stack + [Operand(s, x)])))
  {
  }

  lemma PopStep(s: State, r: nat)
    requires Holds(s, s.counter, [Code(Pop), r]) && IsRegister(r) && s.stack != []
    ensures Step(s) == Ok(Next(s.(counter := s.counter + 2,
                                  registers := s.registers[r - Modulo := s.stack[|s.stack| - 1]],
                                  stack := s.stack[..|s.stack| - 1])))
  {
  }

  /** pop on an empty stack is fatal, before its destination word is read. */
  lemma PopEmptyFaults(s: State)
    requires Holds(s, s.counter, [Code(Pop)]) && s.stack == []
    ensures Step(s) == Err(StackUnderflow)
  {
  }

  lemma JmpStep(s: State, x: nat)
    requires Holds(s, s.counter, [Code(Jmp), x]) && IsOperand(x)
    ensures Step(s) == Ok(Next(s.(counter := Operand(s, x))))
  {
  }

  /** jt at A jumps to b exactly when a is not 0, and otherwise goes on at A + 3. */
  lemma JtStep(s: State, x: nat, y: nat)
    requires Holds(s, s.counter, [Code(Jt), x, y]) && IsOperand(x) && IsOperand(y)
    ensures Step(s) == Ok(Next(s.(counter := if Operand(s, x) != 0 then Operand(s, y) else s.counter + 3)))
  {
  }

  /** jf at A jumps to b exactly when a is 0, and otherwise goes on at A + 3. */
  lemma JfStep(s: State, x: nat, y: nat)
    requires Holds(s, s.counter, [Code(Jf), x, y]) && IsOperand(x) && IsOperand(y)
    ensures Step(s) == Ok(Next(s.(counter := if Operand(s, x) == 0 then Operand(s, y) else s.counter + 3)))
  {
  }

  /** rmem copies the stored word as it is, even one that is not a valid operand. */
  lemma RmemStep(s: State, r: nat, x: nat)
    requires Holds(s, s.counter, [Code(Rmem), r, x]) && IsRegister(r) && IsOperand(x)
    requires Operand(s, x) in s.memory
    ensures Step(s) == Ok(Next(s.(counter := s.counter + 3,
                                  registers := s.registers[r - Modulo := s.memory[Operand(s, x)]])))
  {
  }

  lemma WmemStep(s: State, x: nat, y: nat)
    requires Holds(s, s.counter, [Code(Wmem), x, y]) && IsOperand(x) && IsOperand(y)
    ensures Step(s) == Ok(Next(s.(counter := s.counter + 3,
                                  memory := s.memory[Operand(s, x) := Operand(s, y)])))
  {
  }

  /** call at A pushes A + 2 and jumps to its operand. */
  lemma CallStep(s: State, x: nat)
    requires Holds(s, s.counter, [Code(Call), x]) && IsOperand(x)
    ensures Step(s) == Ok(Next(s.(counter := Operand(s, x), stack := s.stack + [s.counter + 2])))
  {
  }

  lemma RetStep(s: State)
    requires Holds(s, s.counter, [Code(Ret)]) && s.stack != []
    ensures Step(s) == Ok(Next(s.(counter := s.stack[|s.stack| - 1], stack := s.stack[..|s.stack| - 1])))
  {
  }

  /** ret on an empty stack stops the machine. */
  lemma RetEmptyHalts(s: State)
    requires Holds(s, s.counter, [Code(Ret)]) && s.stack == []
    ensures Step(s) == Ok(Stop(s.(counter := s.counter + 1)))
  {
  }

  /** out appends a code of at most 255 to the output and faults on a larger one. */
  lemma OutStep(s: State, x: nat)
    requires Holds(s, s.counter, [Code(Out), x]) && IsOperand(x)
    ensures Operand(s, x) <= MaxChar ==>
      Step(s) == Ok(Next(s.(counter := s.counter + 2, output := s.output + [Operand(s, x)])))
    ensures Operand(s, x) > MaxChar ==> Step(s) == Err(CharOutOfRange(Operand(s, x)))
  {
  }

  /** in with no input left stops the machine without reading its destination word. */
  lemma InExhaustedHalts(s: State)
    requires Holds(s, s.counter, [Code(In)]) && s.input == []
    ensures Step(s) == Ok(Stop(s.(counter := s.counter + 1)))
  {
  }

  /** in stores the next character in the register a register word names, and in the
      memory cell the raw word addresses otherwise, whatever that word is. */
  lemma InStores(s: State, w: nat)
    requires Holds(s, s.counter, [Code(In), w]) && s.input != []
    ensures IsRegister(w) ==>
      Step(s) == Ok(Next(s.(counter := s.counter + 2, input := s.input[1..],
                            registers := s.registers[w - Modulo := s.input[0]])))
    ensures !IsRegister(w) ==>
      Step(s) == Ok(Next(s.(counter := s.counter + 2, input := s.input[1..],
                            memory := s.memory[w := s.input[0]])))
  {
  }

  // ----- pairs of instructions -----

  /** push a; pop r leaves the stack as it was and r holding a; nothing else changes. */
  lemma PushThenPop(s: State, x: nat, r: nat)
    requires Holds(s, s.counter, [Code(Push), x, Code(Pop), r]) && IsOperand(x) && IsRegister(r)
    ensures Run(s, 2) == Ok(Next(s.(counter := s.counter + 4,
                                     registers := s.registers[r - Modulo := Operand(s, x)])))
  {
    PushStep(s, x);
    var t := s.(counter := s.counter + 2, stack := s.stack + [Operand(s, x)]);
    assert Holds(t, t.counter, [Code(Pop), r]);
    PopStep(t, r);
    assert t.stack[..|t.stack| - 1] == s.stack;
  }

  /** call at A, reaching a ret, comes back to A + 2 with stack and registers as they were. */
  lemma CallThenRet(s: State, x: nat)
    requires Holds(s, s.counter, [Code(Call), x]) && IsOperand(x)
    requires Holds(s, Operand(s, x), [Code(Ret)])
    ensures Run(s, 2) == Ok(Next(s.(counter := s.counter + 2)))
  {
    CallStep(s, x);
    var t := s.(counter := Operand(s, x), stack := s.stack + [s.counter + 2]);
    RetStep(t);
    assert t.stack[..|t.stack| - 1] == s.stack;
  }
}
