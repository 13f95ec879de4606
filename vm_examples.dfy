/** The unit tests of the VM, restated as lemmas about `GuardedStep` (one
    `run_once`) and `RunFor` (`run`) on the same programs and starting
    registers. */
module VmExamples {
  import opened Ints
  import opened Vm

  /** Each test's start: `new_test_vm()`, then `vm.program = bytes`. The
      lemmas below start from `Loaded(bytes)`, the state this leaves. */
  method NewTestVm(program: seq<byte>) returns (vm: VM)
    ensures fresh(vm) && fresh(vm.registers) && vm.Valid() && vm.View() == Loaded(program)
  {
    vm := new VM();
    vm.program := program;
    LoadedIsNew(program);
  }

  lemma HaltAdvancesOneByte()
    ensures var t := GuardedStep(Loaded([0, 0, 0, 0])); t.signal == Stop && t.next.pc == 1
  {
  }

  lemma IllegalAdvancesOneByte()
    ensures var t := GuardedStep(Loaded([200, 0, 0, 0])); t.signal == Stop && t.next.pc == 1
  {
  }

  lemma LoadFiveHundred()
    ensures var t := GuardedStep(Loaded([1, 0, 1, 244]));
      t.next.registers[0] == 500 && t.next.stdout == 0
  {
  }

  lemma HaltDoesNotLoad()
    ensures GuardedStep(Loaded([0, 0, 1, 244])).next.registers[0] != 500
  {
  }

  lemma AddProgram()
    ensures var t := RunFor(Loaded([1, 0, 1, 244, 1, 1, 1, 244, 2, 0, 1, 2]), 4);
      t.signal == Stop && t.next.registers[2] == 1000
  {
  }

  lemma SubProgram()
    ensures var t := RunFor(Loaded([1, 0, 1, 244, 1, 1, 0, 244, 3, 0, 1, 2]), 4);
      t.signal == Stop && t.next.registers[2] == 256
  {
  }

  lemma MulProgram()
    ensures var t := RunFor(Loaded([1, 0, 0, 2, 1, 1, 0, 255, 4, 0, 1, 2]), 4);
      t.signal == Stop && t.next.registers[2] == 510
  {
  }

  lemma DivProgram()
    ensures var t := RunFor(Loaded([1, 0, 0, 244, 1, 1, 0, 2, 5, 0, 1, 2]), 4);
      t.signal == Stop && t.next.registers[2] == 122 && t.next.remainder == 0
  {
    DivProgramLoads();
    DivProgramDivides();
    RunForSplit(Loaded([1, 0, 0, 244, 1, 1, 0, 2, 5, 0, 1, 2]), 2, 2);
  }

  /** The two LOADs of the division test leave 244 and 2 in registers 0 and 1. */
  lemma DivProgramLoads()
    ensures var s0 := Loaded([1, 0, 0, 244, 1, 1, 0, 2, 5, 0, 1, 2]);
      RunFor(s0, 2) == Transition(s0.(registers := s0.registers[0 := 244][1 := 2], stdout := 1, pc := 8), Continue)
  {
  }

  /** From there, DIV leaves 122 and no remainder, and the run then stops. */
  lemma DivProgramDivides()
    ensures var s0 := Loaded([1, 0, 0, 244, 1, 1, 0, 2, 5, 0, 1, 2]);
      var t := RunFor(s0.(registers := s0.registers[0 := 244][1 := 2], stdout := 1, pc := 8), 2);
      t.signal == Stop && t.next.registers[2] == 122 && t.next.remainder == 0
  {
  }

  lemma DivWithRemainderProgram()
    ensures var t := RunFor(Loaded([1, 0, 0, 245, 1, 1, 0, 2, 5, 0, 1, 2]), 4);
      t.signal == Stop && t.next.registers[2] == 122 && t.next.remainder == 1
  {
    DivWithRemainderLoads();
    DivWithRemainderDivides();
    RunForSplit(Loaded([1, 0, 0, 245, 1, 1, 0, 2, 5, 0, 1, 2]), 2, 2);
  }

  lemma DivWithRemainderLoads()
    ensures var s0 := Loaded([1, 0, 0, 245, 1, 1, 0, 2, 5, 0, 1, 2]);
      RunFor(s0, 2) == Transition(s0.(registers := s0.registers[0 := 245][1 := 2], stdout := 1, pc := 8), Continue)
  {
  }

  lemma DivWithRemainderDivides()
    ensures var s0 := Loaded([1, 0, 0, 245, 1, 1, 0, 2, 5, 0, 1, 2]);
      var t := RunFor(s0.(registers := s0.registers[0 := 245][1 := 2], stdout := 1, pc := 8), 2);
      t.signal == Stop && t.next.registers[2] == 122 && t.next.remainder == 1
  {
  }

  lemma JumpToThree()
    ensures var s0 := Loaded([6, 0, 0, 0]);
      GuardedStep(s0.(registers := s0.registers[0 := 3])).next.pc == 3
  {
    var s0 := Loaded([6, 0, 0, 0]);
    StepJump(s0.(registers := s0.registers[0 := 3]));
  }

  lemma JumpForwardToSix()
    ensures var s0 := Loaded([7, 0, 0, 0]);
      GuardedStep(s0.(registers := s0.registers[0 := 4])).next.pc == 6
  {
    var s0 := Loaded([7, 0, 0, 0]);
    StepJump(s0.(registers := s0.registers[0 := 4]));
  }

  lemma JumpBackToZero()
    ensures var s0 := Loaded([8, 1, 0, 0]);
      var s1 := GuardedStep(s0.(registers := s0.registers[1 := 2])).next;
      s1.pc == 0 && GuardedStep(s1).next.pc == 0
  {
    var s0 := Loaded([8, 1, 0, 0]);
    var s := s0.(registers := s0.registers[1 := 2]);
    StepJump(s);
    StepJump(GuardedStep(s).next);
  }

  lemma JumpForwardThenBack()
    ensures var s0 := Loaded([7, 0, 0, 0, 8, 1, 0, 0]);
      var s1 := GuardedStep(s0.(registers := s0.registers[0 := 2][1 := 4])).next;
      s1.pc == 4 && GuardedStep(s1).next.pc == 2
  {
    var s0 := Loaded([7, 0, 0, 0, 8, 1, 0, 0]);
    var s := s0.(registers := s0.registers[0 := 2][1 := 4]);
    StepJump(s);
    StepJump(GuardedStep(s).next);
  }

  lemma EqualThenUnequal()
    ensures var s0 := Loaded([9, 0, 1, 0, 9, 0, 2, 0]);
      var s1 := GuardedStep(s0.(registers := s0.registers[0 := 10][1 := 10][2 := 5])).next;
      s1.eqFlag && !GuardedStep(s1).next.eqFlag
  {
    var s0 := Loaded([9, 0, 1, 0, 9, 0, 2, 0]);
    var s := s0.(registers := s0.registers[0 := 10][1 := 10][2 := 5]);
    StepCompare(s);
    StepCompare(GuardedStep(s).next);
  }

  lemma NotEqualThenUnequal()
    ensures var s0 := Loaded([10, 0, 1, 0, 10, 0, 2, 0]);
      var s1 := GuardedStep(s0.(registers := s0.registers[0 := 10][1 := 10][2 := 5])).next;
      !s1.eqFlag && GuardedStep(s1).next.eqFlag
  {
    var s0 := Loaded([10, 0, 1, 0, 10, 0, 2, 0]);
    var s := s0.(registers := s0.registers[0 := 10][1 := 10][2 := 5]);
    StepCompare(s);
    StepCompare(GuardedStep(s).next);
  }

  lemma JeqTaken()
    ensures var s0 := Loaded([15, 0, 0, 0]);
      GuardedStep(s0.(registers := s0.registers[0 := 7], eqFlag := true)).next.pc == 7
  {
    var s0 := Loaded([15, 0, 0, 0]);
    StepJeq(s0.(registers := s0.registers[0 := 7], eqFlag := true));
  }
}
