/** Properties of whole runs: how runs compose, what a run can do to the input and
    output, and complete example programs. */
module Runs {
  import opened Machine
  import Words
  import opened Properties

  /** The cycle or run did not fault or stop: the machine goes on. */
  predicate Continues(r: Result<Effect>)
  {
    r.Ok? && r.value.Next?
  }

  /** Running m cycles and then n more is running m + n cycles. */
  lemma {:induction false} RunAdditive(s: State, m: nat, n: nat)
    requires Continues(Run(s, m))
    ensures Run(s, m + n) == Run(Run(s, m).value.state, n)
    decreases m
  {
    if m > 0 {
      assert Continues(Step(s));
      RunAdditive(Step(s).value.state, m - 1, n);
    }
  }

  /** Once a run has halted or faulted, more fuel changes nothing. */
  lemma {:induction false} RunFinished(s: State, m: nat, n: nat)
    requires !Continues(Run(s, m))
    ensures Run(s, m + n) == Run(s, m)
    decreases m
  {
    if Continues(Step(s)) {
      RunFinished(Step(s).value.state, m - 1, n);
    }
  }

  /** Between two states of one run, output is only appended to, with codes of at most
      255, and input is only consumed from its front. */
  predicate Follows(s: State, t: State)
  {
    && s.output <= t.output
    && (forall i :: |s.output| <= i < |t.output| ==> t.output[i] <= MaxChar)
    && |t.input| <= |s.input|
    && t.input == s.input[|s.input| - |t.input|..]
  }

  lemma FollowsTransitive(s: State, t: State, u: State)
    requires Follows(s, t) && Follows(t, u)
    ensures Follows(s, u)
  {
    var k := |s.input| - |t.input|;
    assert s.input[k..][|t.input| - |u.input|..] == s.input[|s.input| - |u.input|..];
  }

  lemma StepFollows(s: State)
    requires Step(s).Ok?
    ensures Follows(s, Step(s).value.state)
  {
    var t := Step(s).value.state;
    assert s.input[|s.input| - |s.input|..] == s.input;
    if |t.input| < |s.input| {
      assert s.input[|s.input| - |t.input|..] == s.input[1..];
    }
  }

  lemma {:induction false} RunFollows(s: State, n: nat)
    requires Run(s, n).Ok?
    ensures Follows(s, Run(s, n).value.state)
    decreases n
  {
    if n == 0 {
      assert s.input[|s.input| - |s.input|..] == s.input;
    } else {
      StepFollows(s);
      var t := Step(s).value.state;
      if Continues(Step(s)) {
        RunFollows(t, n - 1);
        FollowsTransitive(s, t, Run(s, n).value.state);
      }
    }
  }

  // ----- example programs -----

  /** A loaded image holds its words from address 0. */
  lemma ImageHolds(words: seq<nat>, input: seq<nat>)
    ensures Holds(Initial(words, input), 0, words)
  {
  }

  /** Words held back to back hold one after the other. */
  lemma HoldsSplit(s: State, addr: nat, u: seq<nat>, v: seq<nat>)
    requires Holds(s, addr, u + v)
    ensures Holds(s, addr, u) && Holds(s, addr + |u|, v)
  {
    forall a | addr <= a < addr + |u|
      ensures a in s.memory && s.memory[a] == u[a - addr]
    {
      assert (u + v)[a - addr] == u[a - addr];
    }
    forall a | addr + |u| <= a < addr + |u| + |v|
      ensures a in s.memory && s.memory[a] == v[a - addr - |u|]
    {
      assert (u + v)[a - addr] == v[a - addr - |u|];
    }
  }

  /** One cycle that continues, then the rest of the run. */
  lemma RunThrough(s: State, t: State, n: nat)
    requires n > 0 && Step(s) == Ok(Next(t))
    ensures Run(s, n) == Run(t, n - 1)
  {
  }

  /** A cycle that stops ends the run. */
  lemma RunStops(s: State, t: State, n: nat)
    requires n > 0 && Step(s) == Ok(Stop(t))
    ensures Run(s, n) == Ok(Stop(t))
  {
  }

  // Each `+` separates two instructions of the program.
  const OutA: seq<nat> := [19, 65] + [0]

  /** The image bytes of `out 65; halt`, low byte first, load as its three words. */
  lemma OutThenHaltLoads(image: seq<Words.Byte>)
    requires image == [19, 0, 65, 0, 0, 0]
    ensures Load(image, []) == Initial(OutA, [])
  {
    var words := Words.Unpack(image);
    assert words[0] == 19 && words[1] == 65 && words[2] == 0;
    assert words == OutA;
  }

  /** `out 65; halt` writes the one character 65 and halts. */
  lemma OutThenHalt(words: seq<nat>)
    requires words == OutA
    ensures var s := Initial(words, []);
      Run(s, 2) == Ok(Stop(s.(counter := 3, output := [65])))
  {
    var s := Initial(words, []);
    var t := s.(counter := 2, output := [65]);
    ImageHolds(words, []);
    HoldsSplit(s, 0, [19, 65], [0]);
    OutStep(s, 65);
    assert s.output + [65] == [65];
    RunThrough(s, t, 2);
    HaltStops(t);
    RunStops(t, t.(counter := 3), 1);
  }

  // Each `+` separates two instructions of the program.
  const Compare: seq<nat> :=
    [1, 32768, 4] + ([1, 32769, 1] + ([9, 32770, 32768, 32769] + ([4, 32771, 32770, 5] + ([19, 32771] + [0]))))

  /** Memory holds the compare program at address 0, instruction by instruction. */
  predicate CompareLoaded(s: State)
  {
    Holds(s, 0, [1, 32768, 4]) && Holds(s, 3, [1, 32769, 1]) && Holds(s, 6, [9, 32770, 32768, 32769])
    && Holds(s, 10, [4, 32771, 32770, 5]) && Holds(s, 14, [19, 32771]) && Holds(s, 16, [0])
  }

  lemma CompareSet0(s: State)
    requires CompareLoaded(s) && s.counter == 0 && s.registers == [0, 0, 0, 0, 0, 0, 0, 0]
    ensures Step(s) == Ok(Next(s.(counter := 3, registers := [4, 0, 0, 0, 0, 0, 0, 0])))
  {
    SetStep(s, 32768, 4);
    assert s.registers[0 := 4] == [4, 0, 0, 0, 0, 0, 0, 0];
  }

  lemma CompareSet1(s: State)
    requires CompareLoaded(s) && s.counter == 3 && s.registers == [4, 0, 0, 0, 0, 0, 0, 0]
    ensures Step(s) == Ok(Next(s.(counter := 6, registers := [4, 1, 0, 0, 0, 0, 0, 0])))
  {
    SetStep(s, 32769, 1);
    assert s.registers[1 := 1] == [4, 1, 0, 0, 0, 0, 0, 0];
  }

  lemma CompareAdd(s: State)
    requires CompareLoaded(s) && s.counter == 6 && s.registers == [4, 1, 0, 0, 0, 0, 0, 0]
    ensures Step(s) == Ok(Next(s.(counter := 10, registers := [4, 1, 5, 0, 0, 0, 0, 0])))
  {
    ArithmeticStep(s, Add, 32770, 32768, 32769);
    assert s.registers[2 := 5] == [4, 1, 5, 0, 0, 0, 0, 0];
  }

  lemma CompareEq(s: State)
    requires CompareLoaded(s) && s.counter == 10 && s.registers == [4, 1, 5, 0, 0, 0, 0, 0]
    ensures Step(s) == Ok(Next(s.(counter := 14, registers := [4, 1, 5, 1, 0, 0, 0, 0])))
  {
    ArithmeticStep(s, Eq, 32771, 32770, 5);
    assert s.registers[3 := 1] == [4, 1, 5, 1, 0, 0, 0, 0];
  }

  lemma CompareOut(s: State)
    requires CompareLoaded(s) && s.counter == 14 && s.registers == [4, 1, 5, 1, 0, 0, 0, 0]
    ensures Step(s) == Ok(Next(s.(counter := 16, output := s.output + [1])))
  {
    OutStep(s, 32771);
  }

  /** The first three cycles of the compare program: r0 := 4, r1 := 1, r2 := r0 + r1. */
  lemma CompareAdds(s: State)
    requires CompareLoaded(s) && s.counter == 0 && s.registers == [0, 0, 0, 0, 0, 0, 0, 0]
    ensures Run(s, 3) == Ok(Next(s.(counter := 10, registers := [4, 1, 5, 0, 0, 0, 0, 0])))
  {
    var s1 := s.(counter := 3, registers := [4, 0, 0, 0, 0, 0, 0, 0]);
    var s2 := s.(counter := 6, registers := [4, 1, 0, 0, 0, 0, 0, 0]);
    CompareSet0(s);
    RunThrough(s, s1, 3);
    CompareSet1(s1);
    RunThrough(s1, s2, 2);
    CompareAdd(s2);
    RunThrough(s2, s.(counter := 10, registers := [4, 1, 5, 0, 0, 0, 0, 0]), 1);
  }

  /** From any state holding the compare program at address 0, with the counter at 0 and
      the registers cleared, six cycles write the code 1 and halt at address 17. */
  lemma CompareRuns(s: State)
    requires CompareLoaded(s) && s.counter == 0 && s.registers == [0, 0, 0, 0, 0, 0, 0, 0]
    ensures Run(s, 6) == Ok(Stop(s.(counter := 17, registers := [4, 1, 5, 1, 0, 0, 0, 0], output := s.output + [1])))
  {
    var s3 := s.(counter := 10, registers := [4, 1, 5, 0, 0, 0, 0, 0]);
    var s4 := s.(counter := 14, registers := [4, 1, 5, 1, 0, 0, 0, 0]);
    var s5 := s4.(counter := 16, output := s.output + [1]);
    CompareAdds(s);
    RunAdditive(s, 3, 3);
    CompareEq(s3);
    RunThrough(s3, s4, 3);
    CompareOut(s4);
    RunThrough(s4, s5, 2);
    HaltStops(s5);
    RunStops(s5, s5.(counter := 17), 1);
  }

  lemma CompareLoads(words: seq<nat>)
    requires words == Compare
    ensures CompareLoaded(Initial(words, []))
  {
    var s := Initial(words, []);
    ImageHolds(words, []);
    HoldsSplit(s, 0, [1, 32768, 4], [1, 32769, 1] + ([9, 32770, 32768, 32769] + ([4, 32771, 32770, 5] + ([19, 32771] + [0]))));
    HoldsSplit(s, 3, [1, 32769, 1], [9, 32770, 32768, 32769] + ([4, 32771, 32770, 5] + ([19, 32771] + [0])));
    HoldsSplit(s, 6, [9, 32770, 32768, 32769], [4, 32771, 32770, 5] + ([19, 32771] + [0]));
    HoldsSplit(s, 10, [4, 32771, 32770, 5], [19, 32771] + [0]);
    HoldsSplit(s, 14, [19, 32771], [0]);
  }

  /** `set r0 4; set r1 1; add r2 r0 r1; eq r3 r2 5; out r3; halt`, loaded as it is,
      writes the code 1 and halts. */
  lemma AddThenCompare(words: seq<nat>)
    requires words == Compare
    ensures var s := Initial(words, []);
      Run(s, 6) == Ok(Stop(s.(counter := 17, registers := [4, 1, 5, 1, 0, 0, 0, 0], output := [1])))
  {
    var s := Initial(words, []);
    CompareLoads(words);
    CompareRuns(s);
    assert s.output + [1] == [1];
  }

  // Each `+` separates two instructions of the program.
  const Lifo: seq<nat> := [2, 5] + ([2, 6] + ([3, 32768] + ([3, 32769] + ([19, 32769] + [0]))))

  /** Memory holds the stack program at address 0, instruction by instruction. */
  predicate LifoLoaded(s: State)
  {
    Holds(s, 0, [2, 5]) && Holds(s, 2, [2, 6]) && Holds(s, 4, [3, 32768]) && Holds(s, 6, [3, 32769])
    && Holds(s, 8, [19, 32769]) && Holds(s, 10, [0])
  }

  /** push 5; push 6 on top of any stack. */
  lemma LifoPushes(s: State)
    requires LifoLoaded(s) && s.counter == 0
    ensures Run(s, 2) == Ok(Next(s.(counter := 4, stack := s.stack + [5, 6])))
  {
    PushStep(s, 5);
    var s1 := s.(counter := 2, stack := s.stack + [5]);
    PushStep(s1, 6);
    assert s1.stack + [6] == s.stack + [5, 6];
  }

  lemma LifoPop0(s: State)
    requires LifoLoaded(s) && s.counter == 4 && s.registers == [0, 0, 0, 0, 0, 0, 0, 0] && s.stack != []
    ensures Step(s) == Ok(Next(s.(counter := 6, stack := s.stack[..|s.stack| - 1],
                                  registers := [s.stack[|s.stack| - 1], 0, 0, 0, 0, 0, 0, 0])))
  {
    PopStep(s, 32768);
    assert s.registers[0 := s.stack[|s.stack| - 1]] == [s.stack[|s.stack| - 1], 0, 0, 0, 0, 0, 0, 0];
  }

  lemma LifoPop1(s: State, x: nat)
    requires LifoLoaded(s) && s.counter == 6 && s.registers == [x, 0, 0, 0, 0, 0, 0, 0] && s.stack != []
    ensures Step(s) == Ok(Next(s.(counter := 8, stack := s.stack[..|s.stack| - 1],
                                  registers := [x, s.stack[|s.stack| - 1], 0, 0, 0, 0, 0, 0])))
  {
    PopStep(s, 32769);
    assert s.registers[1 := s.stack[|s.stack| - 1]] == [x, s.stack[|s.stack| - 1], 0, 0, 0, 0, 0, 0];
  }

  /** pop r0; pop r1 with 5 and 6 on top of the stack: r0 gets 6, r1 gets 5, and the rest
      of the stack stays. */
  lemma LifoPops(s: State)
    requires LifoLoaded(s) && s.counter == 4 && s.registers == [0, 0, 0, 0, 0, 0, 0, 0]
    requires |s.stack| >= 2 && s.stack[|s.stack| - 2..] == [5, 6]
    ensures Run(s, 2) == Ok(Next(s.(counter := 8, stack := s.stack[..|s.stack| - 2],
                                     registers := [6, 5, 0, 0, 0, 0, 0, 0])))
  {
    var n := |s.stack|;
    assert s.stack[n - 1] == s.stack[n - 2..][1] == 6;
    assert s.stack[n - 2] == s.stack[n - 2..][0] == 5;
    LifoPop0(s);
    var s1 := s.(counter := 6, stack := s.stack[..n - 1], registers := [6, 0, 0, 0, 0, 0, 0, 0]);
    LifoPop1(s1, 6);
    assert s1.stack[..n - 2] == s.stack[..n - 2];
  }

  /** The four stack cycles: the values come off in the reverse order they went on. */
  lemma LifoPushesThenPops(s: State)
    requires LifoLoaded(s) && s.counter == 0 && s.registers == [0, 0, 0, 0, 0, 0, 0, 0]
    ensures Run(s, 4) == Ok(Next(s.(counter := 8, registers := [6, 5, 0, 0, 0, 0, 0, 0])))
  {
    var s2 := s.(counter := 4, stack := s.stack + [5, 6]);
    LifoPushes(s);
    RunAdditive(s, 2, 2);
    assert s2.stack[|s2.stack| - 2..] == [5, 6] && s2.stack[..|s2.stack| - 2] == s.stack;
    LifoPops(s2);
  }

  /** out r1; halt with 5 in r1. */
  lemma LifoWrites(s: State)
    requires LifoLoaded(s) && s.counter == 8 && s.registers == [6, 5, 0, 0, 0, 0, 0, 0]
    ensures Run(s, 2) == Ok(Stop(s.(counter := 11, output := s.output + [5])))
  {
    var t := s.(counter := 10, output := s.output + [5]);
    OutStep(s, 32769);
    RunThrough(s, t, 2);
    HaltStops(t);
    RunStops(t, t.(counter := 11), 1);
  }

  /** From any state holding the stack program at address 0, with the counter at 0 and the
      registers cleared, six cycles write 5, the first value pushed, and halt at address 11,
      leaving the stack as it was. */
  lemma LifoRuns(s: State)
    requires LifoLoaded(s) && s.counter == 0 && s.registers == [0, 0, 0, 0, 0, 0, 0, 0]
    ensures Run(s, 6) == Ok(Stop(s.(counter := 11, registers := [6, 5, 0, 0, 0, 0, 0, 0], output := s.output + [5])))
  {
    LifoPushesThenPops(s);
    RunAdditive(s, 4, 2);
    LifoWrites(s.(counter := 8, registers := [6, 5, 0, 0, 0, 0, 0, 0]));
  }

  lemma LifoLoads(words: seq<nat>)
    requires words == Lifo
    ensures LifoLoaded(Initial(words, []))
  {
    var s := Initial(words, []);
    ImageHolds(words, []);
    HoldsSplit(s, 0, [2, 5], [2, 6] + ([3, 32768] + ([3, 32769] + ([19, 32769] + [0]))));
    HoldsSplit(s, 2, [2, 6], [3, 32768] + ([3, 32769] + ([19, 32769] + [0])));
    HoldsSplit(s, 4, [3, 32768], [3, 32769] + ([19, 32769] + [0]));
    HoldsSplit(s, 6, [3, 32769], [19, 32769] + [0]);
    HoldsSplit(s, 8, [19, 32769], [0]);
  }

  /** `push 5; push 6; pop r0; pop r1; out r1; halt`, loaded as it is, writes 5: the
      first value pushed is the last popped. */
  lemma StackIsLastInFirstOut(words: seq<nat>)
    requires words == Lifo
    ensures var s := Initial(words, []);
      Run(s, 6) == Ok(Stop(s.(counter := 11, registers := [6, 5, 0, 0, 0, 0, 0, 0], output := [5])))
  {
    var s := Initial(words, []);
    LifoLoads(words);
    LifoRuns(s);
    assert s.output + [5] == [5];
  }

  /** `mod r0 7 0` faults with a division by zero and writes nothing. */
  lemma ModByZeroProgram(words: seq<nat>)
    requires words == [11, 32768, 7, 0]
    ensures Run(Initial(words, []), 1) == Err(DivisionByZero)
  {
    ImageHolds(words, []);
    ModByZeroFaults(Initial(words, []), 32768, 7, 0);
  }

  /** An opcode word of 99 faults as an unknown opcode. */
  lemma UnknownOpcodeProgram(words: seq<nat>)
    requires words == [99]
    ensures Run(Initial(words, []), 1) == Err(UnknownOpcode(99))
  {
    ImageHolds(words, []);
    UnknownOpcodeFaults(Initial(words, []));
  }
}
