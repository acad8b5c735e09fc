/** The configuration loader's rules, stated on values: the eleven settings,
    what one line of the file does to them, and what a whole file does.
    The class in ConfigLoader updates its fields in place and is proved to
    follow these functions. */
module ConfigRules {
  import opened ConfigUtils
  import opened Tokenizer

  datatype Option<T> = None | Some(value: T)

  /** The eleven settings, with the source's field names. */
  datatype Settings = Settings(
    numCpu: int,
    schedulerType: string,
    quantumCycles: nat,
    batchProcessFreq: nat,
    minIns: nat,
    maxIns: nat,
    delaysPerExec: nat,
    maxOverallMem: nat,
    memPerFrame: nat,
    minMemPerProc: nat,
    maxMemPerProc: nat)

  /** The values a freshly constructed configuration holds. */
  function Defaults(): Settings
  {
    Settings(4, "rr", 5, 1, 1000, 2000, 0, 512, 256, 512, 512)
  }

  /** The eleven settings as names, one per recognised key. */
  datatype Field =
    | NumCpu | Scheduler | QuantumCycles | BatchProcessFreq | MinIns | MaxIns
    | DelayPerExec | MaxOverallMem | MemPerFrame | MinMemPerProc | MaxMemPerProc

  /** The key that sets a field in the configuration file. */
  function KeyOf(f: Field): (key: string)
    ensures key != [] && key[0] != '#'
  {
    match f
    case NumCpu => "num-cpu"
    case Scheduler => "scheduler"
    case QuantumCycles => "quantum-cycles"
    case BatchProcessFreq => "batch-process-freq"
    case MinIns => "min-ins"
    case MaxIns => "max-ins"
    case DelayPerExec => "delay-per-exec"
    case MaxOverallMem => "max-overall-mem"
    case MemPerFrame => "mem-per-frame"
    case MinMemPerProc => "min-mem-per-proc"
    case MaxMemPerProc => "max-mem-per-proc"
  }

  /** The field a key sets, if it is one of the eleven. */
  function LookupKey(key: string): (r: Option<Field>)
    ensures r.Some? ==> KeyOf(r.value) == key
    ensures r.None? ==> forall f: Field :: KeyOf(f) != key
  {
    if key == "num-cpu" then Some(NumCpu)
    else if key == "scheduler" then Some(Scheduler)
    else if key == "quantum-cycles" then Some(QuantumCycles)
    else if key == "batch-process-freq" then Some(BatchProcessFreq)
    else if key == "min-ins" then Some(MinIns)
    else if key == "max-ins" then Some(MaxIns)
    else if key == "delay-per-exec" then Some(DelayPerExec)
    else if key == "max-overall-mem" then Some(MaxOverallMem)
    else if key == "mem-per-frame" then Some(MemPerFrame)
    else if key == "min-mem-per-proc" then Some(MinMemPerProc)
    else if key == "max-mem-per-proc" then Some(MaxMemPerProc)
    else None
  }

  /** A field's value: the scheduler type is text, every other field a number. */
  datatype Value = Num(n: int) | Text(s: string)

  function Get(s: Settings, f: Field): Value
  {
    match f
    case NumCpu => Num(s.numCpu)
    case Scheduler => Text(s.schedulerType)
    case QuantumCycles => Num(s.quantumCycles)
    case BatchProcessFreq => Num(s.batchProcessFreq)
    case MinIns => Num(s.minIns)
    case MaxIns => Num(s.maxIns)
    case DelayPerExec => Num(s.delaysPerExec)
    case MaxOverallMem => Num(s.maxOverallMem)
    case MemPerFrame => Num(s.memPerFrame)
    case MinMemPerProc => Num(s.minMemPerProc)
    case MaxMemPerProc => Num(s.maxMemPerProc)
  }

  /** The value a line's value token, when there is one, stores into a field. */
  function Parsed(f: Field, token: string): Value
  {
    if f == Scheduler then Text(StripQuotes(token)) else Num(ParseUnsigned(token))
  }

  /** The value field f holds after the line's value token is read into it:
      the scheduler always takes the (possibly empty) stripped token, while a
      numeric field keeps its value when the line has no value token. */
  function Stored(s: Settings, f: Field, token: string): Value
  {
    if f != Scheduler && token == [] then Get(s, f) else Parsed(f, token)
  }

  /** A memory size the four memory fields accept. */
  predicate MemSizeOk(v: int)
  {
    IsInValidRange(v) && IsPowerOfTwo(v)
  }

  /** Each field's own rule, on its own value. */
  predicate ValueOk(f: Field, v: Value)
  {
    match f
    case NumCpu => v.Num? && 1 <= v.n <= 128
    case Scheduler => v.Text? && (v.s == "fcfs" || v.s == "rr")
    case QuantumCycles => v.Num? && v.n >= 1
    case BatchProcessFreq => v.Num? && v.n >= 1
    case MinIns => v.Num? && v.n >= 1
    case MaxIns => v.Num? && v.n >= 1
    // an unsigned value is never below 0
    case DelayPerExec => v.Num? && v.n >= 0
    case MaxOverallMem => v.Num? && MemSizeOk(v.n)
    case MemPerFrame => v.Num? && MemSizeOk(v.n)
    case MinMemPerProc => v.Num? && MemSizeOk(v.n)
    case MaxMemPerProc => v.Num? && MemSizeOk(v.n)
  }

  predicate Admissible(s: Settings, f: Field)
  {
    ValueOk(f, Get(s, f))
  }

  /** Every field satisfies its own rule. */
  predicate FieldsValid(s: Settings)
  {
    forall f: Field :: Admissible(s, f)
  }

  /** The field that the comparison made by a line setting f reads. */
  function Bound(f: Field): Field
  {
    match f
    case MemPerFrame => MaxOverallMem
    case MaxMemPerProc => MinMemPerProc
    case _ => f
  }

  /** The comparison with another field that a line setting f also makes. */
  predicate CrossOk(s: Settings, f: Field)
  {
    match f
    case MemPerFrame => s.memPerFrame <= s.maxOverallMem
    case MaxMemPerProc => s.maxMemPerProc >= s.minMemPerProc
    case _ => true
  }

  datatype Violation = OutOfRange | BadScheduler | NotPowerOfTwoInRange | CrossField

  datatype LoadError =
    | SourceUnavailable
    | UnknownKey(key: string)
    | Invalid(key: string, kind: Violation)

  /** What one line does: go on with the updated settings, or stop the load. */
  datatype StepResult =
    | Continue(settings: Settings)
    | Stop(settings: Settings, error: LoadError)

  function Check(updated: Settings, ok: bool, key: string, kind: Violation): StepResult
  {
    if ok then Continue(updated) else Stop(updated, Invalid(key, kind))
  }

  /** Reads a line's value token into field f and checks it. A failing check
      stops the load with the bad value already stored. */
  function Assign(s: Settings, f: Field, token: string): StepResult
  {
    var key := KeyOf(f);
    match f
    case NumCpu =>
      var n := ExtractNumber(s.numCpu, token);
      Check(s.(numCpu := n), !(n < 1 || n > 128), key, OutOfRange)
    case Scheduler =>
      var t := StripQuotes(token);
      Check(s.(schedulerType := t), !(t != "fcfs" && t != "rr"), key, BadScheduler)
    case QuantumCycles =>
      var n := ExtractNumber(s.quantumCycles, token);
      Check(s.(quantumCycles := n), !(n < 1), key, OutOfRange)
    case BatchProcessFreq =>
      var n := ExtractNumber(s.batchProcessFreq, token);
      Check(s.(batchProcessFreq := n), !(n < 1), key, OutOfRange)
    case MinIns =>
      var n := ExtractNumber(s.minIns, token);
      Check(s.(minIns := n), !(n < 1), key, OutOfRange)
    case MaxIns =>
      var n := ExtractNumber(s.maxIns, token);
      Check(s.(maxIns := n), !(n < 1), key, OutOfRange)
    case DelayPerExec =>
      var n := ExtractNumber(s.delaysPerExec, token);
      Check(s.(delaysPerExec := n), !(n < 0), key, OutOfRange)
    case MaxOverallMem =>
      var n := ExtractNumber(s.maxOverallMem, token);
      Check(s.(maxOverallMem := n), MemSizeOk(n), key, NotPowerOfTwoInRange)
    case MemPerFrame =>
      var n := ExtractNumber(s.memPerFrame, token);
      var updated := s.(memPerFrame := n);
      if !MemSizeOk(n) then Stop(updated, Invalid(key, NotPowerOfTwoInRange))
      else Check(updated, !(n > s.maxOverallMem), key, CrossField)
    case MinMemPerProc =>
      var n := ExtractNumber(s.minMemPerProc, token);
      Check(s.(minMemPerProc := n), MemSizeOk(n), key, NotPowerOfTwoInRange)
    case MaxMemPerProc =>
      var n := ExtractNumber(s.maxMemPerProc, token);
      var updated := s.(maxMemPerProc := n);
      if !MemSizeOk(n) then Stop(updated, Invalid(key, NotPowerOfTwoInRange))
      else Check(updated, !(n < s.minMemPerProc), key, CrossField)
  }

  /** One line of the file. A blank line or one starting with '#' changes
      nothing. Otherwise the first token selects the field and the second is
      assigned to it; an unrecognised first token stops the load with nothing
      changed. */
  function Step(s: Settings, line: string): StepResult
  {
    if line == [] || line[0] == '#' then Continue(s)
    else
      var key := KeyToken(line);
      match LookupKey(key)
      case None => Stop(s, UnknownKey(key))
      case Some(f) => Assign(s, f, ValueToken(line))
  }

  datatype Outcome = Loaded | Failed(error: LoadError)

  datatype LoadResult = LoadResult(settings: Settings, outcome: Outcome)

  /** The lines of a file, in order, until the first one that stops the load. */
  function Load(s: Settings, lines: seq<string>): LoadResult
    decreases |lines|
  {
    if lines == [] then LoadResult(s, Loaded)
    else
      match Step(s, lines[0])
      case Continue(next) => Load(next, lines[1..])
      case Stop(next, e) => LoadResult(next, Failed(e))
  }

  /** A file that could not be opened (None) fails before anything changes. */
  function LoadFile(s: Settings, file: Option<seq<string>>): LoadResult
  {
    match file
    case None => LoadResult(s, Failed(SourceUnavailable))
    case Some(lines) => Load(s, lines)
  }
}
