/** The empty-stack guards of `pop` and `ret` as they are written in lib/vm.rb, over
    Ruby's own values. Ruby treats only nil and false as false, so a guard on the stack's
    count, an Integer, never fires; Array#pop on an empty array answers nil. The rest of
    the model (Machine.ExecPop, Machine.ExecRet) follows the evident intent instead. */
module Guards {
  import opened Machine

  /** The Ruby values these two opcodes handle. */
  datatype RubyValue = Nil | Bool(b: bool) | Int(n: int)

  /** Ruby's truth test: everything but nil and false is true. */
  predicate Truthy(v: RubyValue)
  {
    v != Nil && v != Bool(false)
  }

  /** `@stack.count`. */
  function Count(stack: seq<nat>): (c: RubyValue)
    ensures c.Int? && c.n == |stack|
  {
    Int(|stack|)
  }

  /** `@stack.pop`: the last element and the rest, or nil and the empty stack. */
  function ArrayPop(stack: seq<nat>): (r: (RubyValue, seq<nat>))
    ensures stack == [] ==> r == (Nil, [])
    ensures stack != [] ==> r.0.Int? && r.1 + [r.0.n] == stack
  {
    if stack == [] then (Nil, []) else (Int(stack[|stack| - 1]), stack[..|stack| - 1])
  }

  /** Every stack count is true to Ruby, the empty stack's 0 included. */
  lemma CountIsTruthy(stack: seq<nat>)
    ensures Truthy(Count(stack))
  {
  }

  /** `pop` as written: `fail unless @stack.count`, then the register `key` gets
      `@stack.pop`. None stands for the failure the guard would raise. */
  function PopAsWritten(registers: seq<RubyValue>, stack: seq<nat>, key: nat): (r: Option<(seq<RubyValue>, seq<nat>)>)
    requires key < |registers|
    ensures r.None? <==> !Truthy(Count(stack))
    ensures r.Some?
    ensures stack == [] ==> r.value == (registers[key := Nil], [])
    ensures stack != [] ==> r.value == (registers[key := Int(stack[|stack| - 1])], stack[..|stack| - 1])
  {
    CountIsTruthy(stack);
    if !Truthy(Count(stack)) then None
    else
      var (v, rest) := ArrayPop(stack);
      Some((registers[key := v], rest))
  }

  /** On an empty stack the guard lets `pop` through, and the register gets nil. */
  lemma PopEmptyStoresNil(registers: seq<RubyValue>, key: nat)
    requires key < |registers|
    ensures PopAsWritten(registers, [], key) == Some((registers[key := Nil], []))
  {
    CountIsTruthy([]);
  }

  /** `ret` as written: `halt unless @stack.count`, then the counter gets `@stack.pop`.
      None stands for the halt. */
  function RetAsWritten(stack: seq<nat>): (r: Option<(RubyValue, seq<nat>)>)
    ensures r.None? <==> !Truthy(Count(stack))
    ensures r.Some?
    ensures stack == [] ==> r.value == (Nil, [])
    ensures stack != [] ==> r.value == (Int(stack[|stack| - 1]), stack[..|stack| - 1])
  {
    CountIsTruthy(stack);
    if !Truthy(Count(stack)) then None else Some(ArrayPop(stack))
  }

  /** On an empty stack `ret` does not halt: the counter becomes nil, and the next fetch
      `@memory[@counter]` raises instead of the machine stopping. */
  lemma RetEmptyLeavesNilCounter()
    ensures RetAsWritten([]) == Some((Nil, []))
  {
    CountIsTruthy([]);
  }

  /** The intended guards, as the model has them: pop on an empty stack faults before its
      destination is read, and ret on an empty stack halts with nothing else changed. */
  lemma EmptyStackIntended(s: State)
    requires s.stack == []
    ensures ExecPop(s) == Err(StackUnderflow)
    ensures ExecRet(s) == Ok(Stop(s))
  {
  }
}
