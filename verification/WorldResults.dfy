// A region's answer to a script's query: lines of key=value that become variables of the script.

module WorldResults {
  import opened Basics
  import opened ScriptVm
  import opened Text
  import opened VmCodec

  const MAX_STATE_TEXT: nat := 64 * 1024

  // The lines of a text; an end of line at the end begins no further line.
  function Lines(text: string): seq<string> {
    var pieces := Split(text, '\n');
    if pieces[|pieces| - 1] == "" then pieces[..|pieces| - 1] else pieces
  }

  // The key of a line that is a field; other lines are passed over.
  function KeyOf(line: string): Option<string> {
    var split := IndexOf(line, '=');
    if split == |line| || split == 0 || split > 64 then None else Some(line[..split])
  }

  function ValueOf(line: string): string
    requires KeyOf(line).Some?
  {
    line[IndexOf(line, '=') + 1..]
  }

  function Absorb(lines: seq<string>, count: nat, prefix: string, variables: map<string, string>): Result<map<string, string>>
    decreases |lines|
  {
    if lines == [] then Ok(variables)
    else if count + 1 > 32 then Err("world-result-too-large")
    else
      match KeyOf(lines[0])
      case None => Absorb(lines[1..], count + 1, prefix, variables)
      case Some(key) =>
        if !SafeField(key, 64) || |ValueOf(lines[0])| > 2048 then Err("invalid-world-result-field")
        else Absorb(lines[1..], count + 1, prefix, variables[prefix + "." + key := ValueOf(lines[0])])
  }

  method AbsorbLines(result: string, prefix: string, variables: map<string, string>) returns (r: Result<map<string, string>>)
    ensures r == Absorb(Lines(result), 0, prefix, variables)
  {
    var lines, after := Lines(result), variables;
    for i := 0 to |lines|
      invariant Absorb(lines, 0, prefix, variables) == Absorb(lines[i..], i, prefix, after)
    {
      var line := lines[i];
      assert lines[i..][1..] == lines[i + 1..];
      if i + 1 > 32 {
        return Err("world-result-too-large");
      }
      var key := KeyOf(line);
      if key.Some? {
        if !SafeField(key.value, 64) || |ValueOf(line)| > 2048 {
          return Err("invalid-world-result-field");
        }
        after := after[prefix + "." + key.value := ValueOf(line)];
      }
    }
    r := Ok(after);
  }

  // The script's state with the answer in it.
  ghost function WithResult(start: Result<VmState>, prefix: string, result: string): Result<VmState> {
    match start
    case Err(e) => Err(e)
    case Ok(s) =>
      match Absorb(Lines(result), 0, prefix, s.variables)
      case Err(e) => Err(e)
      case Ok(variables) =>
        if |variables[prefix + ".ready" := "1"]| > 64 then Err("world-result-variable-budget-exceeded")
        else Ok(s.(variables := variables[prefix + ".ready" := "1"]))
  }

  ghost predicate Encodes(s: VmState, text: string) {
    exists walk :: Walks(walk, s.variables) && text == Encoded(s, walk)
  }

  function Sized(text: string): Result<string> {
    if |text| > MAX_STATE_TEXT then Err("world-result-state-too-large") else Ok(text)
  }

  // What is stored for an outcome: its text, if it is not too long.
  ghost predicate Stores(outcome: Result<VmState>, stored: Result<string>) {
    match outcome
    case Err(e) => stored == Err(e)
    case Ok(state) => exists text :: Encodes(state, text) && stored == Sized(text)
  }

  method ExtendedText(start: VmState, prefix: string, result: string) returns (r: Result<string>)
    ensures Stores(WithResult(Ok(start), prefix, result), r)
  {
    var absorbed := AbsorbLines(result, prefix, start.variables);
    if absorbed.Err? {
      return Err(absorbed.error);
    }
    var variables := absorbed.value[prefix + ".ready" := "1"];
    if |variables| > 64 {
      return Err("world-result-variable-budget-exceeded");
    }
    r := StateText(start.(variables := variables));
  }

  method StateText(state: VmState) returns (r: Result<string>)
    ensures Stores(Ok(state), r)
  {
    var walk := WalkVariables(state.variables);
    var encoded := SerializeVmState(state, walk);
    assert Encodes(state, encoded);
    r := Sized(encoded);
  }

  // ---------- which variables an answer writes ----------

  ghost function FieldNames(lines: seq<string>): set<string> {
    set line | line in lines && KeyOf(line).Some? :: KeyOf(line).value
  }

  ghost function Written(lines: seq<string>, prefix: string): set<string> {
    set key | key in FieldNames(lines) :: prefix + "." + key
  }

  ghost function Names(lines: seq<string>, prefix: string): set<string> {
    {prefix + ".ready"} + Written(lines, prefix)
  }

  // A variable is written for every field, and no other is new.
  lemma {:induction false} AbsorbNames(lines: seq<string>, count: nat, prefix: string, variables: map<string, string>)
    requires Absorb(lines, count, prefix, variables).Ok?
    ensures Absorb(lines, count, prefix, variables).value.Keys == variables.Keys + Written(lines, prefix)
    decreases |lines|
  {
    if lines != [] {
      var rest := lines[1..];
      assert forall line :: line in lines <==> line == lines[0] || line in rest;
      match KeyOf(lines[0]) {
        case None =>
          AbsorbNames(rest, count + 1, prefix, variables);
          assert FieldNames(lines) == FieldNames(rest);
        case Some(key) =>
          AbsorbNames(rest, count + 1, prefix, variables[prefix + "." + key := ValueOf(lines[0])]);
          assert FieldNames(lines) == {key} + FieldNames(rest);
      }
    }
  }

  // The names an answer writes are atoms when prefix and keys are, and short enough together.
  lemma AtomNames(lines: seq<string>, prefix: string)
    requires VmAtom(prefix) && |prefix| <= 64 && forall key :: key in FieldNames(lines) ==> VmAtom(key) && |key| <= 63
    ensures forall name :: name in Names(lines, prefix) ==> VmAtom(name)
  {
    AtomJoin(prefix, "ready");
    assert prefix + "." + "ready" == prefix + ".ready";
    forall key | key in FieldNames(lines) ensures VmAtom(prefix + "." + key) {
      AtomJoin(prefix, key);
    }
  }

  lemma AtomJoin(prefix: string, key: string)
    requires VmAtom(prefix) && |prefix| <= 64 && VmAtom(key) && |key| <= 63
    ensures VmAtom(prefix + "." + key)
  {
  }

  // ---------- bytes ----------

  lemma {:induction false} UnhexBytes(text: string)
    ensures Unhex(text).Some? ==> Bytes(Unhex(text).value)
  {
    if |text| >= 2 {
      UnhexBytes(text[2..]);
    }
  }

  ghost predicate NamedBytes(variables: map<string, string>) {
    forall k :: k in variables ==> VmAtom(k) && Bytes(k) && Bytes(variables[k])
  }

  lemma {:induction false} VariablesNamed(text: string, variables: map<string, string>)
    requires NamedBytes(variables)
    ensures DecodeVariables(text, variables).Ok? ==> NamedBytes(DecodeVariables(text, variables).value)
    decreases |text|
  {
    if text != "" {
      var end := IndexOf(text, ';');
      PartNamed(text[..end]);
      match DecodePart(text[..end]) {
        case None =>
        case Some((key, value)) =>
          assert NamedBytes(variables[key := value]);
          if end < |text| {
            VariablesNamed(text[end + 1..], variables[key := value]);
          }
      }
    }
  }

  lemma PartNamed(part: string)
    ensures match DecodePart(part)
            case None => true
            case Some((key, value)) => VmAtom(key) && Bytes(key) && Bytes(value)
  {
    var eq := IndexOf(part, '=');
    if eq < |part| {
      UnhexBytes(part[..eq]);
      UnhexBytes(part[eq + 1..]);
    }
  }

  // Whatever can be decoded has atoms for names, and is made of bytes.
  lemma DecodedNamed(encoded: string)
    ensures Decode(encoded).Ok? ==> Named(Decode(encoded).value) && Storable(Decode(encoded).value)
  {
    var first := IndexOf(encoded, ';');
    UnhexBytes(encoded[..first]);
    VariablesNamed(if first == |encoded| then "" else encoded[first + 1..], map[]);
  }

  lemma AtomBytes(text: string)
    requires VmAtom(text)
    ensures Bytes(text)
  {
    forall i | 0 <= i < |text| ensures text[i] as int < 256 {
      assert text[i] in text;
    }
  }

  lemma {:induction false} SplitBytes(text: string, separator: char)
    requires Bytes(text)
    ensures forall piece :: piece in Split(text, separator) ==> Bytes(piece)
    decreases |text|
  {
    var i := IndexOf(text, separator);
    if i < |text| {
      SplitBytes(text[i + 1..], separator);
    }
  }

  ghost predicate AllBytes(variables: map<string, string>) {
    forall k :: k in variables ==> Bytes(k) && Bytes(variables[k])
  }

  lemma {:induction false} AbsorbBytes(lines: seq<string>, count: nat, prefix: string, variables: map<string, string>)
    requires AllBytes(variables) && Bytes(prefix) && forall line :: line in lines ==> Bytes(line)
    ensures Absorb(lines, count, prefix, variables).Ok? ==> AllBytes(Absorb(lines, count, prefix, variables).value)
    decreases |lines|
  {
    if lines != [] && count + 1 <= 32 {
      assert lines[0] in lines;
      match KeyOf(lines[0]) {
        case None => AbsorbBytes(lines[1..], count + 1, prefix, variables);
        case Some(key) =>
          assert Bytes(key) && Bytes(ValueOf(lines[0])) && Bytes(prefix + "." + key);
          AbsorbBytes(lines[1..], count + 1, prefix, variables[prefix + "." + key := ValueOf(lines[0])]);
      }
    }
  }

  lemma ResultStorable(start: VmState, prefix: string, result: string)
    requires Storable(start) && Bytes(prefix) && Bytes(result) && WithResult(Ok(start), prefix, result).Ok?
    ensures Storable(WithResult(Ok(start), prefix, result).value)
  {
    var lines := Lines(result);
    SplitBytes(result, '\n');
    assert forall line :: line in lines ==> line in Split(result, '\n');
    AbsorbBytes(lines, 0, prefix, start.variables);
  }

  lemma EncodedSome(s: VmState, walk: seq<Entry>, name: string)
    requires Walks(walk, s.variables) && name in s.variables
    ensures Encoded(s, walk) != ""
  {
    SortAscending(walk);
    assert (name, s.variables[name]) in Sort(walk);
  }

  // ---------- one line ----------

  lemma SpacedField(variables: map<string, string>)
    ensures Absorb(Lines("a b=1"), 0, "q", variables) == Ok(variables["q.a b" := "1"])
    ensures Names(Lines("a b=1"), "q") == {"q.ready", "q.a b"}
  {
    var line := "a b=1";
    IndexOfSeparator("a b", '=', "1");
    assert "a b" + "=" + "1" == line;
    NoBreak(line, '\n');
    var lines: seq<string> := [line];
    assert Lines(line) == lines;
    assert line[..3] == "a b" && line[4..] == "1";
    assert lines[1..] == [];
    assert "q" + "." + "a b" == "q.a b" && "q" + ".ready" == "q.ready";
    assert KeyOf(line) == Some("a b") && lines[0] == line;
    assert FieldNames(lines) == {"a b"};
  }

  lemma SpacedResult()
    ensures WithResult(Ok(VmState("default", map[])), "q", "a b=1") ==
      Ok(VmState("default", map["q.a b" := "1", "q.ready" := "1"]))
  {
    SpacedField(map[]);
    assert "q" + ".ready" == "q.ready";
    var after: map<string, string> := map[];
    assert after["q.a b" := "1"]["q.ready" := "1"] == map["q.a b" := "1", "q.ready" := "1"];
    assert |map["q.a b" := "1", "q.ready" := "1"]| <= 64 by {
      assert map["q.a b" := "1", "q.ready" := "1"].Keys == {"q.a b", "q.ready"};
    }
  }

  lemma SpacedNoAtom()
    ensures "q.a b" in Names(Lines("a b=1"), "q") && !VmAtom("q.a b")
  {
    SpacedField(map[]);
    var text := "q.a b";
    assert text[3] == ' ' && text[3] in text;
  }

  lemma NoBreak(text: string, c: char)
    requires c !in text
    ensures Split(text, c) == [text]
  {
    assert forall k :: 0 <= k < |text| ==> text[k] in text;
  }

  lemma {:induction false} SortLength(entries: seq<Entry>)
    ensures |Sort(entries)| == |entries|
  {
    if entries != [] {
      SortLength(entries[1..]);
      InsertLength(entries[0], Sort(entries[1..]));
    }
  }

  lemma {:induction false} InsertLength(e: Entry, entries: seq<Entry>)
    ensures |Insert(e, entries)| == |entries| + 1
  {
    if entries != [] {
      InsertLength(e, entries[1..]);
    }
  }

  lemma {:induction false} HexLength(text: string)
    ensures |Hex(text)| == 2 * |text|
  {
    if text != "" {
      HexLength(text[1..]);
    }
  }

  lemma {:induction false} FieldsLength(entries: seq<Entry>)
    requires forall e :: e in entries ==> |e.0| <= 10 && |e.1| <= 10
    ensures |Fields(entries)| <= |entries| * 42
  {
    if entries != [] {
      HexLength(entries[0].0);
      HexLength(entries[0].1);
      assert entries[0] in entries;
      FieldsLength(entries[1..]);
    }
  }

  lemma {:induction false} KeysCount(walk: seq<Entry>, keys: set<string>)
    requires DistinctKeys(walk) && forall e :: e in walk ==> e.0 in keys
    ensures |walk| <= |keys|
  {
    if walk != [] {
      assert walk[0] in walk;
      forall e | e in walk[1..] ensures e.0 in keys - {walk[0].0} {
        assert e in walk;
      }
      KeysCount(walk[1..], keys - {walk[0].0});
    }
  }

  // A state with two short variables has a short text.
  lemma ShortText(s: VmState, text: string, p: string, q: string)
    requires Encodes(s, text) && |s.state| <= 10 && |p| <= 10 && |q| <= 10
    requires forall k :: k in s.variables ==> (k == p || k == q) && |s.variables[k]| <= 10
    ensures |text| <= MAX_STATE_TEXT
  {
    var walk: seq<Entry> :| Walks(walk, s.variables) && text == Encoded(s, walk);
    KeysCount(walk, {p, q});
    SortLength(walk);
    SortAscending(walk);
    HexLength(s.state);
    FieldsLength(Sort(walk));
  }

  lemma SpacedBytes()
    ensures Bytes("q") && Bytes("a b=1") && Bytes("default")
  {
  }
}
