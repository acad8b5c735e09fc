/** The configuration object: eleven fields set to their defaults by the
    constructor and overwritten, line by line, by the loader. */
module ConfigLoader {
  import opened ConfigUtils
  import opened Tokenizer
  import opened ConfigRules
  import opened ConfigProperties

  class Config {
    var numCpu: int
    var schedulerType: string
    var quantumCycles: nat
    var batchProcessFreq: nat
    var minIns: nat
    var maxIns: nat
    var delaysPerExec: nat
    var maxOverallMem: nat
    var memPerFrame: nat
    var minMemPerProc: nat
    var maxMemPerProc: nat

    /** The fields as one value. */
    function Snapshot(): Settings
      reads this
    {
      Settings(numCpu, schedulerType, quantumCycles, batchProcessFreq, minIns, maxIns,
               delaysPerExec, maxOverallMem, memPerFrame, minMemPerProc, maxMemPerProc)
    }

    constructor ()
      ensures numCpu == 4 && schedulerType == "rr" && quantumCycles == 5
      ensures batchProcessFreq == 1 && minIns == 1000 && maxIns == 2000
      ensures delaysPerExec == 0 && maxOverallMem == 512 && memPerFrame == 256
      ensures minMemPerProc == 512 && maxMemPerProc == 512
      ensures Snapshot() == Defaults()
    {
      numCpu := 4;
      schedulerType := "rr";
      quantumCycles := 5;
      batchProcessFreq := 1;
      minIns := 1000;
      maxIns := 2000;
      delaysPerExec := 0;
      maxOverallMem := 512;
      memPerFrame := 256;
      minMemPerProc := 512;
      maxMemPerProc := 512;
    }

    /** Handles one line of the file: the body of the loader's loop. Returns
        false where the loader returns false. */
    method ApplyLine(line: string) returns (accepted: bool)
      modifies this
      ensures accepted == Step(old(Snapshot()), line).Continue?
      ensures Snapshot() == Step(old(Snapshot()), line).settings
    {
      if line == [] || line[0] == '#' {
        return true;
      }
      var paramName := KeyToken(line);
      match LookupKey(paramName) {
        case None =>
          accepted := false;
        case Some(f) =>
          accepted := StoreField(f, ValueToken(line));
      }
    }

    /** Reads the value token into the field the key selected, then checks it:
        the branch of the loader's key dispatch for that key. A numeric field
        is only overwritten when there is a value token to convert. */
    method StoreField(f: Field, value: string) returns (accepted: bool)
      modifies this
      ensures accepted == Assign(old(Snapshot()), f, value).Continue?
      ensures Snapshot() == Assign(old(Snapshot()), f, value).settings
    {
      match f {
        case NumCpu =>
          numCpu := ExtractNumber(numCpu, value);
          if numCpu < 1 || numCpu > 128 {
            return false;
          }
        case Scheduler =>
          schedulerType := StripQuotes(value);
          if schedulerType != "fcfs" && schedulerType != "rr" {
            return false;
          }
        case QuantumCycles =>
          quantumCycles := ExtractNumber(quantumCycles, value);
          if quantumCycles < 1 {
            return false;
          }
        case BatchProcessFreq =>
          batchProcessFreq := ExtractNumber(batchProcessFreq, value);
          if batchProcessFreq < 1 {
            return false;
          }
        case MinIns =>
          minIns := ExtractNumber(minIns, value);
          if minIns < 1 {
            return false;
          }
        case MaxIns =>
          maxIns := ExtractNumber(maxIns, value);
          if maxIns < 1 {
            return false;
          }
        case DelayPerExec =>
          delaysPerExec := ExtractNumber(delaysPerExec, value);
          if delaysPerExec < 0 {
            return false;
          }
        case MaxOverallMem =>
          maxOverallMem := ExtractNumber(maxOverallMem, value);
          if !IsInValidRange(maxOverallMem) || !IsPowerOfTwo(maxOverallMem) {
            return false;
          }
        case MemPerFrame =>
          memPerFrame := ExtractNumber(memPerFrame, value);
          if !IsInValidRange(memPerFrame) || !IsPowerOfTwo(memPerFrame) {
            return false;
          }
          if memPerFrame > maxOverallMem {
            return false;
          }
        case MinMemPerProc =>
          minMemPerProc := ExtractNumber(minMemPerProc, value);
          if !IsInValidRange(minMemPerProc) || !IsPowerOfTwo(minMemPerProc) {
            return false;
          }
        case MaxMemPerProc =>
          maxMemPerProc := ExtractNumber(maxMemPerProc, value);
          if !IsInValidRange(maxMemPerProc) || !IsPowerOfTwo(maxMemPerProc) {
            return false;
          }
          if maxMemPerProc < minMemPerProc {
            return false;
          }
      }
      return true;
    }

    /** Loads a configuration file given as its lines (None: it could not be
        opened). The result and the new fields are those of LoadFile; a load
        that returns true keeps every field within its own rule. */
    method LoadConfig(file: Option<seq<string>>) returns (ok: bool)
      modifies this
      ensures ok == LoadFile(old(Snapshot()), file).outcome.Loaded?
      ensures Snapshot() == LoadFile(old(Snapshot()), file).settings
      ensures ok && FieldsValid(old(Snapshot())) ==> FieldsValid(Snapshot())
    {
      if file.None? {
        return false;
      }
      var lines := file.value;
      var i := 0;
      while i < |lines|
        invariant 0 <= i <= |lines|
        invariant Load(old(Snapshot()), lines) == Load(Snapshot(), lines[i..])
      {
        assert lines[i..][0] == lines[i] && lines[i..][1..] == lines[i + 1..];
        var accepted := ApplyLine(lines[i]);
        if !accepted {
          return false;
        }
        i := i + 1;
      }
      if FieldsValid(old(Snapshot())) {
        LoadPreservesFieldsValid(old(Snapshot()), lines);
      }
      return true;
    }

    // The getters: each returns the current value of one field, the value
    // Get reads for that field in the rules.

    function GetNumCpu(): (n: int)
      reads this
      ensures Num(n) == Get(Snapshot(), NumCpu)
    {
      numCpu
    }

    function GetSchedulerType(): (t: string)
      reads this
      ensures Text(t) == Get(Snapshot(), Scheduler)
    {
      schedulerType
    }

    function GetQuantumCycles(): (n: nat)
      reads this
      ensures Num(n) == Get(Snapshot(), QuantumCycles)
    {
      quantumCycles
    }

    function GetBatchProcessFreq(): (n: nat)
      reads this
      ensures Num(n) == Get(Snapshot(), BatchProcessFreq)
    {
      batchProcessFreq
    }

    function GetMinIns(): (n: nat)
      reads this
      ensures Num(n) == Get(Snapshot(), MinIns)
    {
      minIns
    }

    function GetMaxIns(): (n: nat)
      reads this
      ensures Num(n) == Get(Snapshot(), MaxIns)
    {
      maxIns
    }

    function GetDelaysPerExec(): (n: nat)
      reads this
      ensures Num(n) == Get(Snapshot(), DelayPerExec)
    {
      delaysPerExec
    }

    function GetMaxOverallMem(): (n: nat)
      reads this
      ensures Num(n) == Get(Snapshot(), MaxOverallMem)
    {
      maxOverallMem
    }

    function GetMemPerFrame(): (n: nat)
      reads this
      ensures Num(n) == Get(Snapshot(), MemPerFrame)
    {
      memPerFrame
    }

    function GetMinMemPerProc(): (n: nat)
      reads this
      ensures Num(n) == Get(Snapshot(), MinMemPerProc)
    {
      minMemPerProc
    }

    function GetMaxMemPerProc(): (n: nat)
      reads this
      ensures Num(n) == Get(Snapshot(), MaxMemPerProc)
    {
      maxMemPerProc
    }
  }
}
