/** What the loader's rules guarantee, and what they do not: one line at a
    time (Step) and over a whole file (Load). */
module ConfigProperties {
  import opened ConfigUtils
  import opened Tokenizer
  import opened ConfigRules

  /** Looking up a field's own key finds that field: the key table is one to one. */
  lemma LookupKeyOf(f: Field)
    ensures LookupKey(KeyOf(f)) == Some(f)
  {
    match f
    case NumCpu =>
    case Scheduler =>
    case QuantumCycles =>
    case BatchProcessFreq =>
    case MinIns =>
    case MaxIns =>
    case DelayPerExec =>
    case MaxOverallMem =>
    case MemPerFrame =>
    case MinMemPerProc =>
    case MaxMemPerProc =>
  }

  /** The defaults satisfy every field rule and both comparisons. */
  lemma DefaultsValid()
    ensures FieldsValid(Defaults())
    ensures CrossOk(Defaults(), MemPerFrame) && CrossOk(Defaults(), MaxMemPerProc)
  {
    Pow2IsPowerOfTwo(8);
    Pow2IsPowerOfTwo(9);
    assert Pow2(8) == 256 && Pow2(9) == 512;
    forall f: Field ensures Admissible(Defaults(), f) {
    }
  }

  /** A blank line, or one whose very first character is '#', changes nothing
      and lets the load go on. */
  lemma StepSkipsBlankAndComment(s: Settings, line: string)
    requires line == [] || line[0] == '#'
    ensures Step(s, line) == Continue(s)
  {
  }

  /** A line whose first token is one of the eleven keys is not skipped. */
  lemma KeyLineIsSignificant(line: string, f: Field)
    requires KeyToken(line) == KeyOf(f)
    ensures line != [] && line[0] != '#'
  {
    if line != [] && line[0] == '#' {
      TakeTokenStart(line);
    }
  }

  /** A first token outside the eleven keys stops the load with nothing changed. */
  lemma StepUnknownKey(s: Settings, line: string)
    requires line != [] && line[0] != '#'
    requires forall f: Field :: KeyOf(f) != KeyToken(line)
    ensures Step(s, line) == Stop(s, UnknownKey(KeyToken(line)))
  {
  }

  /** A line holding only whitespace is not skipped: its key is empty, so it
      stops the load as an unknown key. */
  lemma BlankLookingLineIsUnknownKey(s: Settings, line: string)
    requires line != [] && AllSpace(line)
    ensures Step(s, line) == Stop(s, UnknownKey(""))
  {
    assert line + [] == line;
    DropSpacesOf(line, []);
    assert KeyToken(line) == [];
  }

  /** A comment indented by whitespace is not skipped: its key starts with '#',
      so it stops the load as an unknown key. */
  lemma IndentedCommentIsUnknownKey(s: Settings, indent: string, text: string)
    requires indent != [] && AllSpace(indent)
    ensures Step(s, indent + ['#'] + text).Stop?
    ensures Step(s, indent + ['#'] + text).settings == s
    ensures Step(s, indent + ['#'] + text).error.UnknownKey?
  {
    var line := indent + ['#'] + text;
    assert line == indent + (['#'] + text);
    DropSpacesOf(indent, ['#'] + text);
    TakeTokenStart(['#'] + text);
    assert KeyToken(line)[0] == '#';
  }

  /** Reading a value token into a field stores its parsed value there; a
      numeric field with no token to read keeps its value. */
  lemma AssignStores(s: Settings, f: Field, token: string)
    ensures token != [] || f == Scheduler ==> Get(Assign(s, f, token).settings, f) == Parsed(f, token)
    ensures token == [] && f != Scheduler ==> Get(Assign(s, f, token).settings, f) == Get(s, f)
  {
  }

  /** Assigning to a field leaves every other field as it was. */
  lemma AssignFrame(s: Settings, f: Field, token: string, g: Field)
    requires g != f
    ensures Get(Assign(s, f, token).settings, g) == Get(s, g)
  {
  }

  /** An assignment goes on exactly when the stored value passes the field's
      rule and its comparison with another field. When it stops, the error
      names the field's key, and is a failed comparison exactly when the value
      itself passed. */
  lemma AssignVerdict(s: Settings, f: Field, token: string)
    ensures Assign(s, f, token).Continue? <==>
              Admissible(Assign(s, f, token).settings, f) && CrossOk(Assign(s, f, token).settings, f)
    ensures Assign(s, f, token).Stop? ==>
              Assign(s, f, token).error.Invalid? && Assign(s, f, token).error.key == KeyOf(f) &&
              (Assign(s, f, token).error.kind == CrossField <==> Admissible(Assign(s, f, token).settings, f))
  {
  }

  /** The same for a whole line whose first token is a recognised key. */
  lemma StepAssignsOwnField(s: Settings, line: string, f: Field)
    requires KeyToken(line) == KeyOf(f)
    ensures Step(s, line) == Assign(s, f, ValueToken(line))
    ensures Get(Step(s, line).settings, f) == Stored(s, f, ValueToken(line))
    ensures forall g: Field :: g != f ==> Get(Step(s, line).settings, g) == Get(s, g)
    ensures Step(s, line).Continue? <==>
              Admissible(Step(s, line).settings, f) && CrossOk(Step(s, line).settings, f)
  {
    KeyLineIsSignificant(line, f);
    LookupKeyOf(f);
    AssignStores(s, f, ValueToken(line));
    AssignVerdict(s, f, ValueToken(line));
    forall g: Field | g != f
      ensures Get(Step(s, line).settings, g) == Get(s, g)
    {
      AssignFrame(s, f, ValueToken(line), g);
    }
  }

  /** `delay-per-exec` never stops the load: its `< 0` test cannot fail for
      an unsigned value. */
  lemma DelayPerExecNeverRejected(s: Settings, line: string)
    requires KeyToken(line) == KeyOf(DelayPerExec)
    ensures Step(s, line) == Continue(s.(delaysPerExec := ExtractNumber(s.delaysPerExec, ValueToken(line))))
  {
    KeyLineIsSignificant(line, DelayPerExec);
    LookupKeyOf(DelayPerExec);
  }

  /** Loading two pieces of a file one after the other is loading the whole
      file, and a piece that fails ends the load. */
  lemma {:induction false} LoadAppend(s: Settings, a: seq<string>, b: seq<string>)
    ensures Load(s, a + b) ==
              if Load(s, a).outcome.Failed? then Load(s, a) else Load(Load(s, a).settings, b)
    decreases |a|
  {
    if a == [] {
      assert a + b == b;
    } else {
      assert (a + b)[0] == a[0] && (a + b)[1..] == a[1..] + b;
      match Step(s, a[0])
      case Continue(next) =>
        LoadAppend(next, a[1..], b);
      case Stop(next, e) =>
    }
  }

  /** The first line that stops the load ends it: what follows is never read,
      and the settings are those after the earlier lines with the offending
      line's assignment on top (nothing is rolled back). */
  lemma LoadStopsAtFirstFailure(s: Settings, before: seq<string>, line: string, after: seq<string>)
    requires Load(s, before).outcome == Loaded
    requires Step(Load(s, before).settings, line).Stop?
    ensures Load(s, before + [line] + after) ==
              LoadResult(Step(Load(s, before).settings, line).settings,
                         Failed(Step(Load(s, before).settings, line).error))
  {
    assert before + [line] + after == before + ([line] + after);
    LoadAppend(s, before, [line] + after);
  }

  /** The line writes field f: its key is f's, and it has a value token to
      read, or f is the scheduler (which takes even an empty token). */
  predicate Writes(line: string, f: Field)
  {
    KeyToken(line) == KeyOf(f) && (f == Scheduler || ValueToken(line) != [])
  }

  /** A field that no line writes keeps the value it had: for a freshly
      constructed configuration, its default. */
  lemma {:induction false} LoadKeepsAbsentField(s: Settings, lines: seq<string>, f: Field)
    requires forall j :: 0 <= j < |lines| ==> !Writes(lines[j], f)
    ensures Get(Load(s, lines).settings, f) == Get(s, f)
    decreases |lines|
  {
    if lines != [] {
      var line := lines[0];
      var key := KeyToken(line);
      var r := Step(s, line);
      if line != [] && line[0] != '#' && LookupKey(key).Some? {
        StepAssignsOwnField(s, line, LookupKey(key).value);
      }
      assert Get(r.settings, f) == Get(s, f);
      if r.Continue? {
        LoadKeepsAbsentField(r.settings, lines[1..], f);
      }
    }
  }

  /** After a successful load, a field written on several lines holds the
      value of the last of them. */
  lemma LoadLastAssignmentWins(s: Settings, lines: seq<string>, j: nat, f: Field)
    requires j < |lines| && Writes(lines[j], f)
    requires forall k :: j < k < |lines| ==> !Writes(lines[k], f)
    requires Load(s, lines).outcome == Loaded
    ensures Get(Load(s, lines).settings, f) == Parsed(f, ValueToken(lines[j]))
  {
    assert lines == lines[..j] + lines[j..];
    LoadAppend(s, lines[..j], lines[j..]);
    var mid := Load(s, lines[..j]).settings;
    var r := Step(mid, lines[j]);
    assert lines[j..][0] == lines[j] && lines[j..][1..] == lines[j + 1..];
    StepAssignsOwnField(mid, lines[j], f);
    LoadKeepsAbsentField(r.settings, lines[j + 1..], f);
  }

  /** A successful load keeps every field within its own rule. */
  lemma {:induction false} LoadPreservesFieldsValid(s: Settings, lines: seq<string>)
    requires FieldsValid(s)
    requires Load(s, lines).outcome == Loaded
    ensures FieldsValid(Load(s, lines).settings)
    decreases |lines|
  {
    if lines != [] {
      var line := lines[0];
      var key := KeyToken(line);
      var r := Step(s, line);
      if line != [] && line[0] != '#' && LookupKey(key).Some? {
        var f := LookupKey(key).value;
        StepAssignsOwnField(s, line, f);
        forall g: Field ensures Admissible(r.settings, g) {
          if g != f {
            assert Get(r.settings, g) == Get(s, g);
            assert Admissible(s, g);
          }
        }
      }
      LoadPreservesFieldsValid(r.settings, lines[1..]);
    }
  }

  /** Main guarantee: when loading into a freshly constructed configuration
      returns true, every field satisfies its own rule. */
  lemma LoadedFromDefaultsIsValid(lines: seq<string>)
    requires Load(Defaults(), lines).outcome == Loaded
    ensures FieldsValid(Load(Defaults(), lines).settings)
  {
    DefaultsValid();
    LoadPreservesFieldsValid(Defaults(), lines);
  }

  /** An accepted assignment to a field other than the bound a comparison
      reads keeps that comparison true. */
  lemma AssignKeepsCrossCheck(s: Settings, g: Field, token: string, f: Field)
    requires f == MemPerFrame || f == MaxMemPerProc
    requires g != Bound(f)
    requires CrossOk(s, f)
    requires Assign(s, g, token).Continue?
    ensures CrossOk(Assign(s, g, token).settings, f)
  {
    AssignVerdict(s, g, token);
    if g != f {
      AssignFrame(s, g, token, f);
      AssignFrame(s, g, token, Bound(f));
    }
  }

  /** The same for a line whose key is not the bound's. */
  lemma StepKeepsCrossCheck(s: Settings, line: string, f: Field)
    requires f == MemPerFrame || f == MaxMemPerProc
    requires CrossOk(s, f)
    requires KeyToken(line) != KeyOf(Bound(f))
    requires Step(s, line).Continue?
    ensures CrossOk(Step(s, line).settings, f)
  {
    var key := KeyToken(line);
    if line != [] && line[0] != '#' && LookupKey(key).Some? {
      var g := LookupKey(key).value;
      assert Step(s, line) == Assign(s, g, ValueToken(line));
      AssignKeepsCrossCheck(s, g, ValueToken(line), f);
    }
  }

  /** Each comparison holds after a successful load only while the bound it
      reads is not set again later: memPerFrame <= maxOverallMem survives when
      no line sets max-overall-mem, and maxMemPerProc >= minMemPerProc when no
      line sets min-mem-per-proc. */
  lemma {:induction false} LoadKeepsCrossCheck(s: Settings, lines: seq<string>, f: Field)
    requires f == MemPerFrame || f == MaxMemPerProc
    requires CrossOk(s, f)
    requires forall j :: 0 <= j < |lines| ==> KeyToken(lines[j]) != KeyOf(Bound(f))
    requires Load(s, lines).outcome == Loaded
    ensures CrossOk(Load(s, lines).settings, f)
    decreases |lines|
  {
    if lines != [] {
      var r := Step(s, lines[0]);
      assert r.Continue? && Load(s, lines) == Load(r.settings, lines[1..]);
      StepKeepsCrossCheck(s, lines[0], f);
      LoadKeepsCrossCheck(r.settings, lines[1..], f);
    }
  }

  /** The settings after reading each line's value in turn with no check
      stopping the walk: what the fields would hold if every line passed. */
  function Apply(s: Settings, lines: seq<string>): Settings
    decreases |lines|
  {
    if lines == [] then s else Apply(Step(s, lines[0]).settings, lines[1..])
  }

  /** The value of field f left by the last line of `lines` that writes it,
      or its value in s when none does. */
  function LastSet(s: Settings, lines: seq<string>, f: Field): Value
    decreases |lines|
  {
    if lines == [] then Get(s, f)
    else if Writes(lines[|lines| - 1], f) then Parsed(f, ValueToken(lines[|lines| - 1]))
    else LastSet(s, lines[..|lines| - 1], f)
  }

  /** The comparison with another field that a line setting f to v makes,
      against the settings t as they stand before it. */
  predicate ComparisonOk(t: Settings, f: Field, v: Value)
  {
    match f
    case MemPerFrame => v.Num? && v.n <= t.maxOverallMem
    case MaxMemPerProc => v.Num? && v.n >= t.minMemPerProc
    case _ => true
  }

  /** A line passes against the settings t: it is skipped, or its key is
      recognised and the value its field ends with passes the field's rule
      and the comparison. */
  predicate LineOk(t: Settings, line: string)
  {
    line == [] || line[0] == '#' ||
    match LookupKey(KeyToken(line))
    case None => false
    case Some(f) =>
      var v := Stored(t, f, ValueToken(line));
      ValueOk(f, v) && ComparisonOk(t, f, v)
  }

  /** One line goes on exactly when it passes. */
  lemma StepVerdict(t: Settings, line: string)
    ensures Step(t, line).Continue? <==> LineOk(t, line)
  {
    if line != [] && line[0] != '#' && LookupKey(KeyToken(line)).Some? {
      var f := LookupKey(KeyToken(line)).value;
      StepAssignsOwnField(t, line, f);
      if f == MemPerFrame || f == MaxMemPerProc {
        AssignFrame(t, f, ValueToken(line), Bound(f));
      }
    }
  }

  /** Reading one more line at the end. */
  lemma {:induction false} ApplySnoc(s: Settings, lines: seq<string>, line: string)
    ensures Apply(s, lines + [line]) == Step(Apply(s, lines), line).settings
    decreases |lines|
  {
    if lines == [] {
      assert lines + [line] == [line];
      assert [line][1..] == [];
    } else {
      assert (lines + [line])[0] == lines[0] && (lines + [line])[1..] == lines[1..] + [line];
      ApplySnoc(Step(s, lines[0]).settings, lines[1..], line);
    }
  }

  /** After one line, a field holds the line's value if the line writes it,
      and its earlier value otherwise. */
  lemma StepWrites(t: Settings, line: string, f: Field)
    ensures Get(Step(t, line).settings, f) ==
              if Writes(line, f) then Parsed(f, ValueToken(line)) else Get(t, f)
  {
    var key := KeyToken(line);
    if line != [] && line[0] != '#' && LookupKey(key).Some? {
      StepAssignsOwnField(t, line, LookupKey(key).value);
    } else if line != [] && line[0] != '#' {
      assert KeyOf(f) != key;
    } else if KeyToken(line) == KeyOf(f) {
      KeyLineIsSignificant(line, f);
    }
  }

  /** Each field of Apply holds the value of the last line that writes it. */
  lemma {:induction false} ApplyIsLastSet(s: Settings, lines: seq<string>, f: Field)
    ensures Get(Apply(s, lines), f) == LastSet(s, lines, f)
    decreases |lines|
  {
    if lines != [] {
      var init, line := lines[..|lines| - 1], lines[|lines| - 1];
      assert lines == init + [line];
      ApplySnoc(s, init, line);
      ApplyIsLastSet(s, init, f);
      StepWrites(Apply(s, init), line, f);
    }
  }

  /** A successful load leaves the fields as Apply does. */
  lemma {:induction false} LoadedIsApply(s: Settings, lines: seq<string>)
    requires Load(s, lines).outcome == Loaded
    ensures Load(s, lines).settings == Apply(s, lines)
    decreases |lines|
  {
    if lines != [] {
      LoadedIsApply(Step(s, lines[0]).settings, lines[1..]);
    }
  }

  /** The loader's verdict: a file loads exactly when every line passes
      against the values the earlier lines left. So a mem-per-frame line
      passes only up to the max-overall-mem of the lines above it, and a
      max-mem-per-proc line only down to their min-mem-per-proc. */
  lemma {:induction false} LoadVerdict(s: Settings, lines: seq<string>)
    ensures Load(s, lines).outcome == Loaded <==>
              forall j :: 0 <= j < |lines| ==> LineOk(Apply(s, lines[..j]), lines[j])
    decreases |lines|
  {
    if lines != [] {
      var s1 := Step(s, lines[0]).settings;
      var rest := lines[1..];
      StepVerdict(s, lines[0]);
      LoadVerdict(s1, rest);
      assert lines[..0] == [];
      forall j | 1 <= j < |lines|
        ensures Apply(s, lines[..j]) == Apply(s1, rest[..j - 1]) && lines[j] == rest[j - 1]
      {
        assert lines[..j][0] == lines[0] && lines[..j][1..] == rest[..j - 1];
      }
      if Step(s, lines[0]).Continue? {
        assert Load(s, lines) == Load(s1, rest);
        if forall k :: 0 <= k < |rest| ==> LineOk(Apply(s1, rest[..k]), rest[k]) {
          forall j | 0 <= j < |lines|
            ensures LineOk(Apply(s, lines[..j]), lines[j])
          {
            if j > 0 {
              assert LineOk(Apply(s1, rest[..j - 1]), rest[j - 1]);
            }
          }
        }
        if forall j :: 0 <= j < |lines| ==> LineOk(Apply(s, lines[..j]), lines[j]) {
          forall k | 0 <= k < |rest|
            ensures LineOk(Apply(s1, rest[..k]), rest[k])
          {
            assert LineOk(Apply(s, lines[..k + 1]), lines[k + 1]);
          }
        }
      } else {
        assert !LineOk(Apply(s, lines[..0]), lines[0]);
      }
    }
  }

  /** A line that passes on its own: skipped, or a recognised key other than
      the two that compare with another field, with a value that passes the
      rule. */
  predicate AcceptedAlone(line: string)
  {
    line == [] || line[0] == '#' ||
    match LookupKey(KeyToken(line))
    case None => false
    case Some(f) =>
      f != MemPerFrame && f != MaxMemPerProc && Writes(line, f) && ValueOk(f, Parsed(f, ValueToken(line)))
  }

  /** A file made only of such lines loads successfully, whatever it starts from. */
  lemma {:induction false} LoadSucceedsOnAcceptedLines(s: Settings, lines: seq<string>)
    requires forall j :: 0 <= j < |lines| ==> AcceptedAlone(lines[j])
    ensures Load(s, lines).outcome == Loaded
    decreases |lines|
  {
    if lines != [] {
      var line := lines[0];
      assert AcceptedAlone(line);
      if line != [] && line[0] != '#' {
        StepAssignsOwnField(s, line, LookupKey(KeyToken(line)).value);
      }
      assert Step(s, line).Continue?;
      LoadSucceedsOnAcceptedLines(Step(s, line).settings, lines[1..]);
    }
  }
}
