/** The Synacor virtual machine as a state-transition function: the state (memory, eight
    registers, stack, program counter, pending input, emitted output), operand decoding,
    the opcode table and the effect of one fetch-decode-execute cycle. The class
    Interpreter.Vm carries out the same cycle by updating its fields in place and is
    proved to agree with Step and Run here. */
module Machine {
  import Bits
  import Words

  const Modulo := 32768
  const MaxInt := 32767
  const RegisterCount := 8
  const MaxChar := 255

  type Registers = r: seq<nat> | |r| == RegisterCount witness [0, 0, 0, 0, 0, 0, 0, 0]

  /** Memory maps each address that holds a word to that word. The loaded image fills
      0..n-1; a write to any other address adds a cell, as assigning past the end of a
      Ruby array does. An address without a cell is one Ruby would read as nil. */
  datatype State = State(
    memory: map<nat, nat>,
    registers: Registers,
    stack: seq<nat>,
    counter: nat,
    input: seq<nat>,
    output: seq<nat>)

  /** The conditions that end a run with an exception. */
  datatype Fault =
    | UnsetCell(address: nat)   // a fetch or rmem reads a cell that holds no word
    | InvalidValue(word: nat)   // an operand word above 32775
    | NotARegister(word: nat)   // a destination word outside 32768..32775
    | UnknownOpcode(key: nat)   // a resolved opcode word outside 0..21
    | StackUnderflow            // pop on an empty stack
    | DivisionByZero            // mod with divisor 0
    | CharOutOfRange(code: nat) // out with a code above 255

  datatype Option<+T> = None | Some(value: T)

  datatype Result<+T> = Ok(value: T) | Err(fault: Fault)
  {
    predicate IsFailure() { Err? }

    function PropagateFailure<U>(): Result<U>
      requires Err?
    {
      Err(fault)
    }

    function Extract(): T
      requires Ok?
    {
      value
    }
  }

  /** A cycle that does not fault either continues with the next state or stops the
      machine (halt, ret on an empty stack, in with no input left). */
  datatype Effect = Next(state: State) | Stop(state: State)

  datatype BinaryOp = Eq | Gt | Add | Mult | Mod | And | Or

  datatype Opcode =
    | Halt | Set | Push | Pop | Jmp | Jt | Jf | Not | Rmem | Wmem
    | Call | Ret | Out | In | Noop
    | Binary(op: BinaryOp)

  /** The number an opcode has in the instruction encoding. */
  function Code(op: Opcode): (c: nat)
    ensures c < 22
  {
    match op
    case Halt => 0
    case Set => 1
    case Push => 2
    case Pop => 3
    case Binary(Eq) => 4
    case Binary(Gt) => 5
    case Jmp => 6
    case Jt => 7
    case Jf => 8
    case Binary(Add) => 9
    case Binary(Mult) => 10
    case Binary(Mod) => 11
    case Binary(And) => 12
    case Binary(Or) => 13
    case Not => 14
    case Rmem => 15
    case Wmem => 16
    case Call => 17
    case Ret => 18
    case Out => 19
    case In => 20
    case Noop => 21
  }

  /** The opcode table: a key names an opcode exactly when it is in 0..21. */
  function Lookup(key: nat): (op: Option<Opcode>)
    ensures op.Some? <==> key < 22
    ensures op.Some? ==> Code(op.value) == key
  {
    match key
    case 0 => Some(Halt)
    case 1 => Some(Set)
    case 2 => Some(Push)
    case 3 => Some(Pop)
    case 4 => Some(Binary(Eq))
    case 5 => Some(Binary(Gt))
    case 6 => Some(Jmp)
    case 7 => Some(Jt)
    case 8 => Some(Jf)
    case 9 => Some(Binary(Add))
    case 10 => Some(Binary(Mult))
    case 11 => Some(Binary(Mod))
    case 12 => Some(Binary(And))
    case 13 => Some(Binary(Or))
    case 14 => Some(Not)
    case 15 => Some(Rmem)
    case 16 => Some(Wmem)
    case 17 => Some(Call)
    case 18 => Some(Ret)
    case 19 => Some(Out)
    case 20 => Some(In)
    case 21 => Some(Noop)
    case _ => None
  }

  /** Every opcode is found again under its own number. */
  lemma LookupCode(op: Opcode)
    ensures Lookup(Code(op)) == Some(op)
  {
  }

  // ----- operand decoding -----

  /** `register?`: the word names one of the eight registers. */
  predicate IsRegister(w: nat)
    ensures IsRegister(w) <==> Modulo <= w < Modulo + RegisterCount
  {
    w > MaxInt && w <= MaxInt + RegisterCount
  }

  /** `register_id`: the index of the register a register word names. */
  function RegisterId(w: nat): (k: nat)
    requires IsRegister(w)
    ensures k < RegisterCount && Modulo + k == w
  {
    w - Modulo
  }

  /** The word in a memory cell, or the fault of reading a cell that holds none. */
  function Cell(memory: map<nat, nat>, address: nat): Result<nat>
  {
    if address in memory then Ok(memory[address]) else Err(UnsetCell(address))
  }

  /** The value of an operand word: a literal stands for itself, a register word for the
      register's content, and a word above 32775 is invalid. */
  function Resolve(registers: Registers, w: nat): (r: Result<nat>)
    ensures w <= MaxInt ==> r == Ok(w)
    ensures IsRegister(w) ==> r == Ok(registers[w - Modulo])
    ensures r.Err? <==> w >= Modulo + RegisterCount
    ensures r.Err? ==> r.fault == InvalidValue(w)
  {
    if w > MaxInt && IsRegister(w) then Ok(registers[RegisterId(w)])
    else if w > MaxInt then Err(InvalidValue(w))
    else Ok(w)
  }

  /** A destination word names a register index; anything else is a fault. */
  function TargetIndex(w: nat): (r: Result<nat>)
    ensures r.Ok? <==> IsRegister(w)
    ensures r.Ok? ==> r.value < RegisterCount && r.value + Modulo == w
    ensures r.Err? ==> r.fault == NotARegister(w)
  {
    if IsRegister(w) then Ok(RegisterId(w)) else Err(NotARegister(w))
  }

  /** `raw_instruction` at the given address: the stored word, unresolved. */
  function RawAt(s: State, address: nat): Result<nat>
  {
    Cell(s.memory, address)
  }

  /** `next_instruction` at the given address: the stored word, resolved. */
  function ValueAt(s: State, address: nat): (r: Result<nat>)
    ensures address in s.memory ==> r == Resolve(s.registers, s.memory[address])
    ensures address !in s.memory ==> r == Err(UnsetCell(address))
  {
    var w :- RawAt(s, address);
    Resolve(s.registers, w)
  }

  /** `target_register` at the given address: the register index the stored word names. */
  function TargetAt(s: State, address: nat): (r: Result<nat>)
    ensures r.Ok? <==> address in s.memory && IsRegister(s.memory[address])
    ensures r.Ok? ==> r.value < RegisterCount && r.value + Modulo == s.memory[address]
  {
    var w :- RawAt(s, address);
    TargetIndex(w)
  }

  /** `two_values`: two resolved operands; the first fault in left-to-right order wins. */
  function TwoValuesAt(s: State, address: nat): (r: Result<(nat, nat)>)
    ensures r.Ok? <==> ValueAt(s, address).Ok? && ValueAt(s, address + 1).Ok?
    ensures r.Ok? ==> r.value == (ValueAt(s, address).value, ValueAt(s, address + 1).value)
  {
    var a :- ValueAt(s, address);
    var b :- ValueAt(s, address + 1);
    Ok((a, b))
  }

  /** `key_value`: a destination register index, then one resolved operand. */
  function KeyValueAt(s: State, address: nat): (r: Result<(nat, nat)>)
    ensures r.Ok? <==> TargetAt(s, address).Ok? && ValueAt(s, address + 1).Ok?
    ensures r.Ok? ==> r.value == (TargetAt(s, address).value, ValueAt(s, address + 1).value)
    ensures r.Ok? ==> r.value.0 < RegisterCount
  {
    var k :- TargetAt(s, address);
    var a :- ValueAt(s, address + 1);
    Ok((k, a))
  }

  /** `key_two_values`: a destination register index, then two resolved operands. */
  function KeyTwoValuesAt(s: State, address: nat): (r: Result<(nat, nat, nat)>)
    ensures r.Ok? <==> TargetAt(s, address).Ok? && ValueAt(s, address + 1).Ok? && ValueAt(s, address + 2).Ok?
    ensures r.Ok? ==> r.value == (TargetAt(s, address).value, ValueAt(s, address + 1).value, ValueAt(s, address + 2).value)
    ensures r.Ok? ==> r.value.0 < RegisterCount
  {
    var k :- TargetAt(s, address);
    var a :- ValueAt(s, address + 1);
    var b :- ValueAt(s, address + 2);
    Ok((k, a, b))
  }

  // ----- values computed by the opcodes -----

  /** Sum modulo 32768: the 15-bit value congruent to a + b. */
  function Sum(a: nat, b: nat): (r: nat)
    ensures r < Modulo && (a + b - r) % Modulo == 0
  {
    (a + b) % Modulo
  }

  /** Product modulo 32768: the 15-bit value congruent to a * b. */
  function Product(a: nat, b: nat): (r: nat)
    ensures r < Modulo && (a * b - r) % Modulo == 0
  {
    (a * b) % Modulo
  }

  /** Ruby's `a % b` on non-negative operands: the remainder of floor division. */
  function Remainder(a: nat, b: nat): (r: nat)
    requires b != 0
    ensures r < b && a == (a / b) * b + r
  {
    a % b
  }

  /** The value eq, gt, add, mult, mod, and, or store. */
  function Apply(op: BinaryOp, a: nat, b: nat): (r: Result<nat>)
    ensures r.Err? <==> op == Mod && b == 0
    ensures r.Err? ==> r.fault == DivisionByZero
    ensures op == Eq ==> r.Ok? && r.value <= 1 && (r.value == 1 <==> a == b)
    ensures op == Gt ==> r.Ok? && r.value <= 1 && (r.value == 1 <==> a > b)
    ensures op == Add ==> r.Ok? && r.value < Modulo && (a + b - r.value) % Modulo == 0
    ensures op == Mult ==> r.Ok? && r.value < Modulo && (a * b - r.value) % Modulo == 0
    ensures op == Mod && b != 0 ==> r.Ok? && r.value < b && a == (a / b) * b + r.value
    ensures op == And ==> r.Ok? && forall i: nat :: Bits.Bit(r.value, i) <==> Bits.Bit(a, i) && Bits.Bit(b, i)
    ensures op == Or ==> r.Ok? && forall i: nat :: Bits.Bit(r.value, i) <==> Bits.Bit(a, i) || Bits.Bit(b, i)
    ensures r.Ok? && a < Modulo && b < Modulo ==> r.value < Modulo
  {
    match op
    case Eq => Ok(if a == b then 1 else 0)
    case Gt => Ok(if a > b then 1 else 0)
    case Add => Ok(Sum(a, b))
    case Mult => Ok(Product(a, b))
    case Mod => if b == 0 then Err(DivisionByZero) else Ok(Remainder(a, b))
    case And =>
      Bits.AndBits(a, b);
      Bits.AndAtMost(a, b);
      Ok(Bits.And(a, b))
    case Or =>
      Bits.OrBits(a, b);
      if a < Modulo && b < Modulo then Bits.OrFifteenBits(a, b); Ok(Bits.Or(a, b))
      else Ok(Bits.Or(a, b))
  }

  /** The value not stores: `(~a) & 32767`, the low 15 bits of a flipped. */
  function Complement(a: nat): (r: nat)
    ensures r < Modulo
    ensures forall i: nat :: Bits.Bit(r, i) <==> i < 15 && !Bits.Bit(a, i)
    ensures a < Modulo ==> r + a == MaxInt
  {
    Bits.Pow2Of15();
    Bits.ComplementBelow(a, 15);
    Bits.ComplementBits(a, 15);
    if a < Modulo then Bits.ComplementSum(a, 15); Bits.Complement(a, 15)
    else Bits.Complement(a, 15)
  }

  // ----- the opcodes; each starts with the counter just past the opcode word -----

  function Last(stack: seq<nat>): nat
    requires stack != []
  {
    stack[|stack| - 1]
  }

  function Rest(stack: seq<nat>): seq<nat>
    requires stack != []
  {
    stack[..|stack| - 1]
  }

  function ExecSet(s: State): Result<Effect>
  {
    var kv :- KeyValueAt(s, s.counter);
    Ok(Next(s.(counter := s.counter + 2, registers := s.registers[kv.0 := kv.1])))
  }

  function ExecPush(s: State): Result<Effect>
  {
    var a :- ValueAt(s, s.counter);
    Ok(Next(s.(counter := s.counter + 1, stack := s.stack + [a])))
  }

  function ExecPop(s: State): Result<Effect>
  {
    if s.stack == [] then Err(StackUnderflow)
    else
      var k :- TargetAt(s, s.counter);
      Ok(Next(s.(counter := s.counter + 1, registers := s.registers[k := Last(s.stack)], stack := Rest(s.stack))))
  }

  function ExecBinary(op: BinaryOp, s: State): Result<Effect>
  {
    var kab :- KeyTwoValuesAt(s, s.counter);
    var v :- Apply(op, kab.1, kab.2);
    Ok(Next(s.(counter := s.counter + 3, registers := s.registers[kab.0 := v])))
  }

  function ExecNot(s: State): Result<Effect>
  {
    var ka :- KeyValueAt(s, s.counter);
    Ok(Next(s.(counter := s.counter + 2, registers := s.registers[ka.0 := Complement(ka.1)])))
  }

  function ExecJmp(s: State): Result<Effect>
  {
    var a :- ValueAt(s, s.counter);
    Ok(Next(s.(counter := a)))
  }

  /** jt when `ifNonZero`, jf otherwise. */
  function ExecJump(ifNonZero: bool, s: State): Result<Effect>
  {
    var tv :- TwoValuesAt(s, s.counter);
    var taken := if ifNonZero then tv.0 != 0 else tv.0 == 0;
    Ok(Next(s.(counter := if taken then tv.1 else s.counter + 2)))
  }

  function ExecRmem(s: State): Result<Effect>
  {
    var ka :- KeyValueAt(s, s.counter);
    var w :- Cell(s.memory, ka.1);
    Ok(Next(s.(counter := s.counter + 2, registers := s.registers[ka.0 := w])))
  }

  function ExecWmem(s: State): Result<Effect>
  {
    var av :- TwoValuesAt(s, s.counter);
    Ok(Next(s.(counter := s.counter + 2, memory := s.memory[av.0 := av.1])))
  }

  /** call pushes the address after its one operand, then jumps. */
  function ExecCall(s: State): Result<Effect>
  {
    ExecJmp(s.(stack := s.stack + [s.counter + 1]))
  }

  function ExecRet(s: State): Result<Effect>
  {
    if s.stack == [] then Ok(Stop(s))
    else Ok(Next(s.(counter := Last(s.stack), stack := Rest(s.stack))))
  }

  function ExecOut(s: State): Result<Effect>
  {
    var a :- ValueAt(s, s.counter);
    if a > MaxChar then Err(CharOutOfRange(a))
    else Ok(Next(s.(counter := s.counter + 1, output := s.output + [a])))
  }

  /** in takes the next character first; its destination word is used raw. */
  function ExecIn(s: State): Result<Effect>
  {
    if s.input == [] then Ok(Stop(s))
    else
      var code := s.input[0];
      var w :- RawAt(s, s.counter);
      var t := s.(counter := s.counter + 1, input := s.input[1..]);
      if IsRegister(w) then Ok(Next(t.(registers := s.registers[RegisterId(w) := code])))
      else Ok(Next(t.(memory := s.memory[w := code])))
  }

  /** The effect of an opcode whose operands start at s.counter. */
  function Execute(op: Opcode, s: State): Result<Effect>
  {
    match op
    case Halt => Ok(Stop(s))
    case Set => ExecSet(s)
    case Push => ExecPush(s)
    case Pop => ExecPop(s)
    case Binary(b) => ExecBinary(b, s)
    case Not => ExecNot(s)
    case Jmp => ExecJmp(s)
    case Jt => ExecJump(true, s)
    case Jf => ExecJump(false, s)
    case Rmem => ExecRmem(s)
    case Wmem => ExecWmem(s)
    case Call => ExecCall(s)
    case Ret => ExecRet(s)
    case Out => ExecOut(s)
    case In => ExecIn(s)
    case Noop => Ok(Next(s))
  }

  /** One cycle of the run loop: fetch and resolve the opcode word, look it up, execute. */
  function Step(s: State): Result<Effect>
  {
    var key :- ValueAt(s, s.counter);
    match Lookup(key)
    case None => Err(UnknownOpcode(key))
    case Some(op) => Execute(op, s.(counter := s.counter + 1))
  }

  /** At most `fuel` cycles; Next means the machine is still running when fuel runs out. */
  function Run(s: State, fuel: nat): Result<Effect>
    decreases fuel
  {
    if fuel == 0 then Ok(Next(s))
    else
      match Step(s)
      case Err(f) => Err(f)
      case Ok(Stop(t)) => Ok(Stop(t))
      case Ok(Next(t)) => Run(t, fuel - 1)
  }

  // ----- loading -----

  /** Memory holding exactly the loaded words, from address 0. */
  function Image(words: seq<nat>): (memory: map<nat, nat>)
    ensures forall a: nat :: a in memory <==> a < |words|
    ensures forall a :: 0 <= a < |words| ==> memory[a] == words[a]
  {
    map a: nat | a < |words| :: words[a]
  }

  function Initial(words: seq<nat>, input: seq<nat>): State
  {
    State(Image(words), [0, 0, 0, 0, 0, 0, 0, 0], [], 0, input, [])
  }

  /** The machine as constructed from a program image and the input it will read. */
  function Load(image: seq<Words.Byte>, input: seq<nat>): State
  {
    Initial(Words.Unpack(image), input)
  }
}
