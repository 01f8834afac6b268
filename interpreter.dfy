/** The virtual machine object: its fields are updated in place, one operand word at a
    time, as the Ruby class `SynacorChallenge::Vm` does. Every method is proved to leave
    the object in the state the matching function of module Machine describes. */
module Interpreter {
  import opened Machine
  import Words

  /** What one cycle, or a run, ends with. */
  datatype Outcome = Running | Halted | Failed(fault: Fault)

  class Vm {
    var memory: map<nat, nat>
    var registers: Registers
    var stack: seq<nat>
    var counter: nat
    var input: seq<nat>   // characters not yet read by `in`
    var output: seq<nat>  // characters written by `out`, in order

    /** The object's fields as a Machine.State. */
    ghost function Current(): State
      reads this
    {
      State(memory, registers, stack, counter, input, output)
    }

    /** The outcome o, with the object's current fields, is what r describes. After a
        fault only the fault is described: the run is over. */
    ghost predicate Reflects(o: Outcome, r: Result<Effect>)
      reads this
    {
      match r
      case Err(f) => o == Failed(f)
      case Ok(Next(t)) => o == Running && Current() == t
      case Ok(Stop(t)) => o == Halted && Current() == t
    }

    /** `initialize`: empty stack, zeroed registers, counter 0, memory holding the image. */
    constructor (image: seq<Words.Byte>, input: seq<nat>)
      ensures Current() == Load(image, input)
    {
      memory := Image(Words.Unpack(image));
      registers := [0, 0, 0, 0, 0, 0, 0, 0];
      stack := [];
      counter := 0;
      this.input := input;
      output := [];
    }

    // ----- operand decoding -----

    method RawInstruction() returns (w: Result<nat>)
      modifies this`counter
      ensures counter == old(counter) + 1
      ensures w == RawAt(old(Current()), old(counter))
    {
      w := Cell(memory, counter);
      counter := counter + 1;
    }

    method NextInstruction() returns (v: Result<nat>)
      modifies this`counter
      ensures counter == old(counter) + 1
      ensures v == ValueAt(old(Current()), old(counter))
    {
      var data := RawInstruction();
      if data.Err? {
        return Err(data.fault);
      }
      var w := data.value;
      if w > MaxInt && IsRegister(w) {
        v := Ok(registers[RegisterId(w)]);
      } else if w > MaxInt {
        v := Err(InvalidValue(w));
      } else {
        v := Ok(w);
      }
    }

    method TargetRegister() returns (k: Result<nat>)
      modifies this`counter
      ensures counter == old(counter) + 1
      ensures k == TargetAt(old(Current()), old(counter))
    {
      var w := RawInstruction();
      if w.Err? {
        return Err(w.fault);
      }
      if !IsRegister(w.value) {
        return Err(NotARegister(w.value));
      }
      k := Ok(RegisterId(w.value));
    }

    method TwoValues() returns (r: Result<(nat, nat)>)
      modifies this`counter
      ensures r == TwoValuesAt(old(Current()), old(counter))
      ensures r.Ok? ==> counter == old(counter) + 2
    {
      var a := NextInstruction();
      if a.Err? {
        return Err(a.fault);
      }
      var b := NextInstruction();
      if b.Err? {
        return Err(b.fault);
      }
      r := Ok((a.value, b.value));
    }

    method KeyValue() returns (r: Result<(nat, nat)>)
      modifies this`counter
      ensures r == KeyValueAt(old(Current()), old(counter))
      ensures r.Ok? ==> counter == old(counter) + 2
    {
      var k := TargetRegister();
      if k.Err? {
        return Err(k.fault);
      }
      var a := NextInstruction();
      if a.Err? {
        return Err(a.fault);
      }
      r := Ok((k.value, a.value));
    }

    method KeyTwoValues() returns (r: Result<(nat, nat, nat)>)
      modifies this`counter
      ensures r == KeyTwoValuesAt(old(Current()), old(counter))
      ensures r.Ok? ==> counter == old(counter) + 3
    {
      var k := TargetRegister();
      if k.Err? {
        return Err(k.fault);
      }
      var a := NextInstruction();
      if a.Err? {
        return Err(a.fault);
      }
      var b := NextInstruction();
      if b.Err? {
        return Err(b.fault);
      }
      r := Ok((k.value, a.value, b.value));
    }

    // ----- the opcodes; each runs with the counter just past the opcode word -----

    method SetRegister() returns (o: Outcome)
      modifies this
      ensures Reflects(o, ExecSet(old(Current())))
    {
      var kv := KeyValue();
      if kv.Err? {
        return Failed(kv.fault);
      }
      registers := registers[kv.value.0 := kv.value.1];
      o := Running;
    }

    method PushValue() returns (o: Outcome)
      modifies this
      ensures Reflects(o, ExecPush(old(Current())))
    {
      var a := NextInstruction();
      if a.Err? {
        return Failed(a.fault);
      }
      stack := stack + [a.value];
      o := Running;
    }

    /** The empty-stack check comes before the destination word is read. */
    method PopValue() returns (o: Outcome)
      modifies this
      ensures Reflects(o, ExecPop(old(Current())))
    {
      if stack == [] {
        return Failed(StackUnderflow);
      }
      var k := TargetRegister();
      if k.Err? {
        return Failed(k.fault);
      }
      registers := registers[k.value := stack[|stack| - 1]];
      stack := stack[..|stack| - 1];
      o := Running;
    }

    /** eq, gt, add, mult, mod, and, or: all three operands are decoded before the value
        is computed, so a decoding fault comes before a division by zero. */
    method Arithmetic(op: BinaryOp) returns (o: Outcome)
      modifies this
      ensures Reflects(o, ExecBinary(op, old(Current())))
    {
      var kab := KeyTwoValues();
      if kab.Err? {
        return Failed(kab.fault);
      }
      var v := Apply(op, kab.value.1, kab.value.2);
      if v.Err? {
        return Failed(v.fault);
      }
      registers := registers[kab.value.0 := v.value];
      o := Running;
    }

    method NotValue() returns (o: Outcome)
      modifies this
      ensures Reflects(o, ExecNot(old(Current())))
    {
      var k := TargetRegister();
      if k.Err? {
        return Failed(k.fault);
      }
      var a := NextInstruction();
      if a.Err? {
        return Failed(a.fault);
      }
      registers := registers[k.value := Complement(a.value)];
      o := Running;
    }

    method Jump() returns (o: Outcome)
      modifies this
      ensures Reflects(o, ExecJmp(old(Current())))
    {
      var a := NextInstruction();
      if a.Err? {
        return Failed(a.fault);
      }
      counter := a.value;
      o := Running;
    }

    /** jt when ifNonZero holds, jf otherwise. */
    method JumpIf(ifNonZero: bool) returns (o: Outcome)
      modifies this
      ensures Reflects(o, ExecJump(ifNonZero, old(Current())))
    {
      var tv := TwoValues();
      if tv.Err? {
        return Failed(tv.fault);
      }
      var taken := if ifNonZero then tv.value.0 != 0 else tv.value.0 == 0;
      if taken {
        counter := tv.value.1;
      }
      o := Running;
    }

    /** rmem copies the stored word itself, without resolving it. */
    method ReadMemory() returns (o: Outcome)
      modifies this
      ensures Reflects(o, ExecRmem(old(Current())))
    {
      var ka := KeyValue();
      if ka.Err? {
        return Failed(ka.fault);
      }
      var w := Cell(memory, ka.value.1);
      if w.Err? {
        return Failed(w.fault);
      }
      registers := registers[ka.value.0 := w.value];
      o := Running;
    }

    method WriteMemory() returns (o: Outcome)
      modifies this
      ensures Reflects(o, ExecWmem(old(Current())))
    {
      var av := TwoValues();
      if av.Err? {
        return Failed(av.fault);
      }
      memory := memory[av.value.0 := av.value.1];
      o := Running;
    }

    /** call pushes the address after its operand before decoding it, then jumps. */
    method CallRoutine() returns (o: Outcome)
      modifies this
      ensures Reflects(o, ExecCall(old(Current())))
    {
      stack := stack + [counter + 1];
      o := Jump();
    }

    method Return() returns (o: Outcome)
      modifies this
      ensures Reflects(o, ExecRet(old(Current())))
    {
      if stack == [] {
        return Halted;
      }
      counter := stack[|stack| - 1];
      stack := stack[..|stack| - 1];
      o := Running;
    }

    method Write() returns (o: Outcome)
      modifies this
      ensures Reflects(o, ExecOut(old(Current())))
    {
      var a := NextInstruction();
      if a.Err? {
        return Failed(a.fault);
      }
      if a.value > MaxChar {
        return Failed(CharOutOfRange(a.value));
      }
      output := output + [a.value];
      o := Running;
    }

    /** in reads the character before its destination word, and uses that word raw. */
    method Read() returns (o: Outcome)
      modifies this
      ensures Reflects(o, ExecIn(old(Current())))
    {
      if input == [] {
        return Halted;
      }
      var code := input[0];
      input := input[1..];
      var w := RawInstruction();
      if w.Err? {
        return Failed(w.fault);
      }
      if IsRegister(w.value) {
        registers := registers[RegisterId(w.value) := code];
      } else {
        memory := memory[w.value := code];
      }
      o := Running;
    }

    // ----- the run loop -----

    /** One pass of the run loop: fetch and resolve the opcode word, look it up, dispatch. */
    method Step() returns (o: Outcome)
      modifies this
      ensures Reflects(o, Machine.Step(old(Current())))
    {
      var key := NextInstruction();
      if key.Err? {
        return Failed(key.fault);
      }
      var op := Lookup(key.value);
      if op.None? {
        return Failed(UnknownOpcode(key.value));
      }
      match op.value {
        case Halt => o := Halted;
        case Set => o := SetRegister();
        case Push => o := PushValue();
        case Pop => o := PopValue();
        case Binary(b) => o := Arithmetic(b);
        case Not => o := NotValue();
        case Jmp => o := Jump();
        case Jt => o := JumpIf(true);
        case Jf => o := JumpIf(false);
        case Rmem => o := ReadMemory();
        case Wmem => o := WriteMemory();
        case Call => o := CallRoutine();
        case Ret => o := Return();
        case Out => o := Write();
        case In => o := Read();
        case Noop => o := Running;
      }
    }

    /** The run loop, for at most `fuel` cycles. */
    method Run(fuel: nat) returns (o: Outcome)
      modifies this
      ensures Reflects(o, Machine.Run(old(Current()), fuel))
    {
      o := Running;
      var n := fuel;
      while n > 0
        invariant o == Running
        invariant Machine.Run(Current(), n) == Machine.Run(old(Current()), fuel)
      {
        o := Step();
        if o != Running {
          return;
        }
        n := n - 1;
      }
    }
  }
}
