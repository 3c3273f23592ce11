// Stored script states and answers to queries as texts: what is written, character by character, and which
// values an answer gives which variables.

module StateTexts {
  import opened Basics
  import opened ScriptVm
  import opened Text
  import opened VmCodec
  import opened WorldResults

  // ---------- hexadecimal ----------

  const DIGITS: string := "0123456789abcdef"

  // Every byte is written with two digits, the higher first.
  lemma {:induction false} HexMeans(text: string, i: nat)
    requires Bytes(text) && i < |text|
    ensures |Hex(text)| == 2 * |text|
    ensures Hex(text)[2 * i] == DIGITS[text[i] as int / 16] && Hex(text)[2 * i + 1] == DIGITS[text[i] as int % 16]
    decreases i
  {
    HexLength(text);
    HexFirst(text);
    if i > 0 {
      HexMeans(text[1..], i - 1);
      HexLater(text, 2 * (i - 1));
      HexLater(text, 2 * (i - 1) + 1);
    }
  }

  lemma HexFirst(text: string)
    requires Bytes(text) && text != ""
    ensures Hex(text) == [DIGITS[text[0] as int / 16], DIGITS[text[0] as int % 16]] + Hex(text[1..])
  {
    HexUnfolds(text, text[0] as int);
    DigitsInOrder(text[0] as int / 16);
    DigitsInOrder(text[0] as int % 16);
  }

  lemma HexUnfolds(text: string, byte: int)
    requires text != "" && 0 <= byte < 256 && byte == text[0] as int
    ensures Hex(text) == [HexDigit(byte / 16), HexDigit(byte % 16)] + Hex(text[1..])
  {
  }

  lemma HexLater(text: string, j: nat)
    requires Bytes(text) && text != "" && j < |Hex(text[1..])|
    ensures j + 2 < |Hex(text)| && Hex(text)[j + 2] == Hex(text[1..])[j]
  {
    HexFirst(text);
  }

  lemma DigitsInOrder(n: nat)
    requires n < 16
    ensures HexDigit(n) == DIGITS[n]
  {
    var all := DIGITS;
    assert all[0] == '0' && all[1] == '1' && all[2] == '2' && all[3] == '3' && all[4] == '4' && all[5] == '5';
    assert all[6] == '6' && all[7] == '7' && all[8] == '8' && all[9] == '9' && all[10] == 'a' && all[11] == 'b';
    assert all[12] == 'c' && all[13] == 'd' && all[14] == 'e' && all[15] == 'f';
  }

  // ---------- a state as it is stored ----------

  lemma HexOne(c: char)
    requires c as int < 256
    ensures Hex([c]) == [DIGITS[c as int / 16], DIGITS[c as int % 16]]
  {
    HexMeans([c], 0);
    assert Hex([c]) == [Hex([c])[0], Hex([c])[1]];
  }

  lemma HexTwo(c: char, d: char)
    requires c as int < 256 && d as int < 256
    ensures Hex([c, d]) == Hex([c]) + Hex([d])
  {
    assert [c, d][1..] == [d];
  }

  lemma WrittenDigits()
    ensures Hex("on") == "6f6e" && Hex("a") == "61" && Hex("b") == "62" && Hex("1") == "31" && Hex("2") == "32"
  {
    HexOne('o');
    HexOne('n');
    HexTwo('o', 'n');
    HexOne('a');
    HexOne('b');
    HexOne('1');
    HexOne('2');
  }

  lemma SortTwo()
    ensures Sort([("b", "2"), ("a", "1")]) == [("a", "1"), ("b", "2")]
  {
    var entries: seq<Entry> := [("b", "2"), ("a", "1")];
    assert Less("a", "b") && !Less("b", "a");
    assert entries[1..] == [("a", "1")] && entries[1..][1..] == [];
    assert Sort(entries[1..]) == [("a", "1")];
  }

  // The logical state first, then the variables in the order of their names, each as name=value.
  lemma StateAsWritten(walk: seq<Entry>)
    requires Walks(walk, map["b" := "2", "a" := "1"])
    ensures Encoded(VmState("on", map["b" := "2", "a" := "1"]), walk) == "6f6e;61=31;62=32"
  {
    TwoWalked(walk);
    SortTwo();
    TwoWritten();
  }

  lemma TwoWritten()
    ensures Hex("on") + Fields([("a", "1"), ("b", "2")]) == "6f6e;61=31;62=32"
  {
    WrittenDigits();
    FieldsOfTwo(("a", "1"), ("b", "2"));
    assert Field(("a", "1")) == "61=31" && Field(("b", "2")) == "62=32";
  }

  lemma TwoWalked(walk: seq<Entry>)
    requires Walks(walk, map["b" := "2", "a" := "1"])
    ensures Sort(walk) == Sort([("b", "2"), ("a", "1")])
  {
    EncodingOrderFree(map["b" := "2", "a" := "1"], walk, [("b", "2"), ("a", "1")]);
  }

  lemma FieldsOfTwo(d: Entry, e: Entry)
    ensures Fields([d, e]) == ";" + Field(d) + (";" + Field(e))
  {
    assert [d, e][1..] == [e] && [e][1..] == [];
    assert Fields([e]) == ";" + Field(e) + "" == ";" + Field(e);
  }

  // A name that can be stored and read back: 1 to 128 letters, digits, and four signs.
  lemma AtomMeans(text: string)
    ensures VmAtom(text) <==>
      && text != "" && |text| < 129
      && forall i :: 0 <= i < |text| ==>
           ('a' <= text[i] <= 'z') || ('A' <= text[i] <= 'Z') || ('0' <= text[i] <= '9') || text[i] in "_-.:"
  {
    FourSigns();
    if VmAtom(text) {
      forall i | 0 <= i < |text|
        ensures ('a' <= text[i] <= 'z') || ('A' <= text[i] <= 'Z') || ('0' <= text[i] <= '9') || text[i] in "_-.:"
      {
        assert text[i] in text;
      }
    }
  }

  lemma FourSigns()
    ensures forall c: char :: c in "_-.:" <==> c == '_' || c == '-' || c == '.' || c == ':'
  {
    var all := "_-.:";
    assert all[0] == '_' && all[1] == '-' && all[2] == '.' && all[3] == ':';
  }

  // ---------- answers ----------

  // A line that is a field: a key of 1 to 64 characters before the first equals sign.
  predicate IsField(line: string, key: string, value: string) { 1 <= |key| <= 64 && '=' !in key && line == key + "=" + value }

  lemma FieldRead(line: string, key: string, value: string)
    requires IsField(line, key, value)
    ensures KeyOf(line) == Some(key) && ValueOf(line) == value
  {
    IndexOfSeparator(key, '=', value);
    assert line[..|key|] == key && line[|key| + 1..] == value;
  }

  lemma FieldOnly(line: string)
    ensures KeyOf(line).Some? ==> IsField(line, KeyOf(line).value, ValueOf(line))
  {
    var i := IndexOf(line, '=');
    if 0 < i < |line| {
      assert line == line[..i] + "=" + line[i + 1..];
    }
  }

  // A field whose key stays on a line and whose value is not too long.
  predicate Takeable(line: string) {
    KeyOf(line).Some? ==>
      && '\t' !in KeyOf(line).value && '\r' !in KeyOf(line).value && '\n' !in KeyOf(line).value && |ValueOf(line)| <= 2048
  }

  lemma TakeableMeans(line: string)
    ensures Takeable(line) <==> KeyOf(line).None? || (SafeField(KeyOf(line).value, 64) && |ValueOf(line)| <= 2048)
  {
    if KeyOf(line).Some? && Takeable(line) {
      forall c | c in KeyOf(line).value ensures c != '\t' && c != '\r' && c != '\n' {
      }
    }
  }

  // An answer is taken exactly when it has at most 32 lines and all its fields can be taken.
  lemma {:induction false} TakenExactly(lines: seq<string>, count: nat, prefix: string, variables: map<string, string>)
    requires count <= 32
    ensures Absorb(lines, count, prefix, variables).Ok? <==> count + |lines| <= 32 && forall line :: line in lines ==> Takeable(line)
    decreases |lines|
  {
    if lines != [] {
      TakeableMeans(lines[0]);
      assert forall line :: line in lines <==> line == lines[0] || line in lines[1..];
      if count + 1 <= 32 && Takeable(lines[0]) {
        var next := if KeyOf(lines[0]).None? then variables
          else variables[prefix + "." + KeyOf(lines[0]).value := ValueOf(lines[0])];
        TakenExactly(lines[1..], count + 1, prefix, next);
      }
    }
  }

  // The line with a key that no later line has.
  predicate LastWith(lines: seq<string>, i: nat, key: string) {
    i < |lines| && KeyOf(lines[i]) == Some(key) && forall j :: i < j < |lines| ==> KeyOf(lines[j]) != Some(key)
  }

  lemma SameName(prefix: string, a: string, b: string)
    ensures prefix + "." + a == prefix + "." + b ==> a == b
  {
    var p := prefix + ".";
    assert (p + a)[|p|..] == a && (p + b)[|p|..] == b;
  }

  // The last line with a key gives the variable prefix.key its value; a variable without a line keeps its own.
  lemma {:induction false} TakenValues(lines: seq<string>, count: nat, prefix: string, variables: map<string, string>, key: string)
    requires Absorb(lines, count, prefix, variables).Ok?
    ensures var after, name := Absorb(lines, count, prefix, variables).value, prefix + "." + key;
      && (forall i: nat :: LastWith(lines, i, key) ==> name in after && after[name] == ValueOf(lines[i]))
      && ((forall i :: 0 <= i < |lines| ==> KeyOf(lines[i]) != Some(key)) ==>
            (name in after <==> name in variables) && (name in after ==> after[name] == variables[name]))
    decreases |lines|
  {
    if lines != [] {
      var first, rest, name := KeyOf(lines[0]), lines[1..], prefix + "." + key;
      var next := if first.None? then variables else variables[prefix + "." + first.value := ValueOf(lines[0])];
      TakenValues(rest, count + 1, prefix, next, key);
      if first.Some? {
        SameName(prefix, first.value, key);
      }
      forall i: nat | LastWith(lines, i, key)
        ensures name in Absorb(lines, count, prefix, variables).value
        ensures Absorb(lines, count, prefix, variables).value[name] == ValueOf(lines[i])
      {
        if i > 0 {
          assert LastWith(rest, i - 1, key);
        } else {
          assert forall j :: 0 <= j < |rest| ==> KeyOf(rest[j]) == KeyOf(lines[j + 1]);
        }
      }
    }
  }

  // An answer leaves the logical state alone, gives the variables their values, and says that it is there.
  lemma AnswerMeans(s: VmState, prefix: string, result: string)
    ensures match Absorb(Lines(result), 0, prefix, s.variables)
            case Err(e) => WithResult(Ok(s), prefix, result) == Err(e)
            case Ok(variables) =>
              var after := variables[prefix + ".ready" := "1"];
              WithResult(Ok(s), prefix, result) ==
                if |after| <= 64 then Ok(VmState(s.state, after)) else Err("world-result-variable-budget-exceeded")
  {
  }

  // What is stored is the text of the state, when that is at most 64 KiB long.
  lemma StoredMeans(s: VmState, stored: Result<string>)
    requires Stores(Ok(s), stored)
    ensures stored.Ok? ==> Encodes(s, stored.value) && |stored.value| <= 65536
    ensures stored.Err? ==> stored.error == "world-result-state-too-large" && exists text :: Encodes(s, text) && |text| > 65536
  {
  }
}
