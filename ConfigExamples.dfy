/** Concrete configuration files and what loading them into a freshly
    constructed configuration does. A line is described by the two tokens it
    reads as, so each file below stands for every spelling of its lines
    (extra whitespace, text after the value); SpelledLines shows particular
    spellings. */
module ConfigExamples {
  import opened ConfigUtils
  import opened Tokenizer
  import opened ConfigRules
  import opened ConfigProperties

  /** The line's first token is key and its second is value. */
  predicate Reads(line: string, key: string, value: string)
  {
    KeyToken(line) == key && ValueToken(line) == value
  }

  /** The line sets numeric field f: its first token is f's key and it has a
      second token, which reads as n. */
  predicate SetsTo(line: string, f: Field, n: nat)
  {
    KeyToken(line) == KeyOf(f) && ValueToken(line) != [] && ParseUnsigned(ValueToken(line)) == n
  }

  /** Some spellings of lines: the tokens are found across any whitespace,
      and text after the value is never read. */
  lemma SpelledLines()
    ensures Reads("num-cpu 8", "num-cpu", "8")
    ensures Reads("  num-cpu\t8 # eight cores", "num-cpu", "8")
  {
    assert NoSpace("num-cpu") && NoSpace("8");
    assert "num-cpu 8" == [] + "num-cpu" + " " + "8" + [];
    TokensOfLine([], "num-cpu", " ", "8", []);
    assert "  num-cpu\t8 # eight cores" == "  " + "num-cpu" + "\t" + "8" + " # eight cores";
    TokensOfLine("  ", "num-cpu", "\t", "8", " # eight cores");
  }

  /** The memory sizes the files below use. */
  lemma MemorySizes()
    ensures MemSizeOk(2) && MemSizeOk(128) && MemSizeOk(1024) && MemSizeOk(2048)
    ensures !MemSizeOk(1) && !MemSizeOk(3)
  {
    assert IsPowerOfTwo(128);
    assert IsPowerOfTwo(1024);
    assert IsPowerOfTwo(2048);
  }

  /** A file holding only `scheduler "fcfs"` and `num-cpu 8` loads, changing
      those two fields and keeping the other defaults. */
  lemma SchedulerAndCpu(l1: string, l2: string)
    requires Reads(l1, "scheduler", "\"fcfs\"") && SetsTo(l2, NumCpu, 8)
    ensures Load(Defaults(), [l1, l2]) ==
              LoadResult(Defaults().(schedulerType := "fcfs", numCpu := 8), Loaded)
  {
    var s1 := Defaults().(schedulerType := "fcfs");
    assert Step(Defaults(), l1) == Continue(s1) by {
      assert "\"fcfs\"" == ['"'] + "fcfs" + ['"'];
      StripQuotesOfQuoted("fcfs");
      StepAssignsOwnField(Defaults(), l1, Scheduler);
    }
    assert Step(s1, l2) == Continue(s1.(numCpu := 8)) by {
      StepAssignsOwnField(s1, l2, NumCpu);
    }
    assert [l2][1..] == [];
    assert Load(s1, [l2]) == LoadResult(s1.(numCpu := 8), Loaded);
    assert [l1, l2][1..] == [l2];
  }

  /** `num-cpu 0` is out of range; the 0 is already stored when the load stops. */
  lemma NumCpuZero(l: string)
    requires SetsTo(l, NumCpu, 0)
    ensures Load(Defaults(), [l]) ==
              LoadResult(Defaults().(numCpu := 0), Failed(Invalid("num-cpu", OutOfRange)))
  {
    StepAssignsOwnField(Defaults(), l, NumCpu);
  }

  /** `max-overall-mem` at the bottom of its range: 1 is below it, 2 is
      accepted, 3 is not a power of two. */
  lemma MaxOverallMemBoundaries(l1: string, l2: string, l3: string)
    requires SetsTo(l1, MaxOverallMem, 1)
    requires SetsTo(l2, MaxOverallMem, 2)
    requires SetsTo(l3, MaxOverallMem, 3)
    ensures Load(Defaults(), [l1]).outcome == Failed(Invalid("max-overall-mem", NotPowerOfTwoInRange))
    ensures Load(Defaults(), [l2]) == LoadResult(Defaults().(maxOverallMem := 2), Loaded)
    ensures Load(Defaults(), [l3]).outcome == Failed(Invalid("max-overall-mem", NotPowerOfTwoInRange))
  {
    var s := Defaults();
    var e := Invalid("max-overall-mem", NotPowerOfTwoInRange);
    assert Step(s, l1) == Stop(s.(maxOverallMem := 1), e) by {
      MemorySizes();
      StepAssignsOwnField(s, l1, MaxOverallMem);
    }
    assert Step(s, l2) == Continue(s.(maxOverallMem := 2)) by {
      MemorySizes();
      StepAssignsOwnField(s, l2, MaxOverallMem);
    }
    assert Step(s, l3) == Stop(s.(maxOverallMem := 3), e) by {
      MemorySizes();
      StepAssignsOwnField(s, l3, MaxOverallMem);
    }
  }

  /** With max-overall-mem raised first, a larger mem-per-frame passes the
      comparison with it. */
  lemma FrameAfterBoundLoads(a: string, b: string)
    requires SetsTo(a, MaxOverallMem, 2048) && SetsTo(b, MemPerFrame, 1024)
    ensures Load(Defaults(), [a, b]) ==
              LoadResult(Defaults().(maxOverallMem := 2048, memPerFrame := 1024), Loaded)
  {
    var s1 := Defaults().(maxOverallMem := 2048);
    assert Step(Defaults(), a) == Continue(s1) by {
      MemorySizes();
      StepAssignsOwnField(Defaults(), a, MaxOverallMem);
    }
    assert Step(s1, b) == Continue(s1.(memPerFrame := 1024)) by {
      MemorySizes();
      StepAssignsOwnField(s1, b, MemPerFrame);
    }
    assert [b][1..] == [];
    assert Load(s1, [b]) == LoadResult(s1.(memPerFrame := 1024), Loaded);
    assert [a, b][1..] == [b];
  }

  /** The same mem-per-frame line placed first fails, whatever follows it: the
      comparison reads the bound as it stands at that line, still the default
      512. */
  lemma FrameBeforeBoundFails(b: string, rest: seq<string>)
    requires SetsTo(b, MemPerFrame, 1024)
    ensures Load(Defaults(), [b] + rest) ==
              LoadResult(Defaults().(memPerFrame := 1024), Failed(Invalid("mem-per-frame", CrossField)))
  {
    assert Step(Defaults(), b) ==
      Stop(Defaults().(memPerFrame := 1024), Invalid("mem-per-frame", CrossField)) by {
      MemorySizes();
      StepAssignsOwnField(Defaults(), b, MemPerFrame);
    }
    assert ([b] + rest)[0] == b;
  }

  /** Lowering a bound after the line it was compared on is not re-checked:
      on the defaults, these one-line files load with memPerFrame >
      maxOverallMem and with minMemPerProc > maxMemPerProc. */
  lemma LaterBoundsNotRechecked(l1: string, l2: string)
    requires SetsTo(l1, MaxOverallMem, 128)
    requires SetsTo(l2, MinMemPerProc, 1024)
    ensures var r := Load(Defaults(), [l1]);
      r.outcome == Loaded && r.settings.memPerFrame > r.settings.maxOverallMem
    ensures var r := Load(Defaults(), [l2]);
      r.outcome == Loaded && r.settings.minMemPerProc > r.settings.maxMemPerProc
  {
    var s := Defaults();
    assert Step(s, l1) == Continue(s.(maxOverallMem := 128)) by {
      MemorySizes();
      StepAssignsOwnField(s, l1, MaxOverallMem);
    }
    assert Step(s, l2) == Continue(s.(minMemPerProc := 1024)) by {
      MemorySizes();
      StepAssignsOwnField(s, l2, MinMemPerProc);
    }
  }

  /** No line compares the instruction counts: a file can leave minIns
      above maxIns. */
  lemma InstructionCountsNotCompared(l: string)
    requires SetsTo(l, MinIns, 5000)
    ensures var r := Load(Defaults(), [l]);
      r.outcome == Loaded && r.settings.minIns > r.settings.maxIns
  {
    StepAssignsOwnField(Defaults(), l, MinIns);
  }

  /** A failing line ends the load: earlier assignments stay, the bad value is
      stored, and whatever follows is never read. */
  lemma FailureKeepsEarlierAssignments(l1: string, l2: string, rest: seq<string>)
    requires SetsTo(l1, NumCpu, 8) && SetsTo(l2, QuantumCycles, 0)
    ensures Load(Defaults(), [l1, l2] + rest) ==
              LoadResult(Defaults().(numCpu := 8, quantumCycles := 0),
                         Failed(Invalid("quantum-cycles", OutOfRange)))
  {
    var s1 := Defaults().(numCpu := 8);
    assert Step(Defaults(), l1) == Continue(s1) by {
      StepAssignsOwnField(Defaults(), l1, NumCpu);
    }
    assert Step(s1, l2) == Stop(s1.(quantumCycles := 0), Invalid("quantum-cycles", OutOfRange)) by {
      StepAssignsOwnField(s1, l2, QuantumCycles);
    }
    assert ([l2] + rest)[0] == l2;
    assert ([l1, l2] + rest)[0] == l1 && ([l1, l2] + rest)[1..] == [l2] + rest;
  }

  /** Comments and blank lines are skipped, and a key set twice keeps the
      later value. */
  lemma CommentsSkippedLastValueKept(l1: string, l2: string, l3: string, l4: string)
    requires l1 == "# cores" && l3 == ""
    requires SetsTo(l2, NumCpu, 8) && SetsTo(l4, NumCpu, 2)
    ensures Load(Defaults(), [l1, l2, l3, l4]) == LoadResult(Defaults().(numCpu := 2), Loaded)
  {
    var s := Defaults();
    var s1, s2 := s.(numCpu := 8), s.(numCpu := 2);
    assert Step(s, l2) == Continue(s1) by {
      StepAssignsOwnField(s, l2, NumCpu);
    }
    assert Step(s1, l4) == Continue(s2) by {
      StepAssignsOwnField(s1, l4, NumCpu);
    }
    assert [l4][1..] == [];
    assert Load(s1, [l4]) == LoadResult(s2, Loaded);
    assert [l3, l4][1..] == [l4];
    assert Load(s1, [l3, l4]) == LoadResult(s2, Loaded);
    assert [l2, l3, l4][1..] == [l3, l4];
    assert Load(s, [l2, l3, l4]) == LoadResult(s2, Loaded);
    assert [l1, l2, l3, l4][1..] == [l2, l3, l4];
  }

  /** A key with no value after it leaves a numeric field as it was, so a
      bare `num-cpu` line is accepted and the default 4 stays. */
  lemma BareKeyKeepsValue()
    ensures Load(Defaults(), ["num-cpu"]) == LoadResult(Defaults(), Loaded)
  {
    assert "num-cpu" == [] + "num-cpu" + [];
    NextTokenOf([], "num-cpu", []);
    assert ValueToken("num-cpu") == [];
    StepAssignsOwnField(Defaults(), "num-cpu", NumCpu);
  }

  /** A whitespace-only line and an indented comment both stop the load as
      unknown keys. */
  lemma IndentedLinesAreUnknownKeys()
    ensures Load(Defaults(), ["  "]) == LoadResult(Defaults(), Failed(UnknownKey("")))
    ensures Load(Defaults(), ["  # note"]).outcome.Failed?
    ensures Load(Defaults(), ["  # note"]).outcome.error.UnknownKey?
  {
    BlankLookingLineIsUnknownKey(Defaults(), "  ");
    assert "  # note" == "  " + ['#'] + " note";
    IndentedCommentIsUnknownKey(Defaults(), "  ", " note");
  }
}
