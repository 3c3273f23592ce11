// The text form in which a script's VM state is stored: hexadecimal fields, variables in key order.

module VmCodec {
  import opened Basics
  import opened ScriptVm
  import opened Text

  type Entry = (string, string)

  // ---------- hexadecimal ----------

  // The model's text is made of bytes.
  predicate Bytes(text: string) { forall i :: 0 <= i < |text| ==> text[i] as int < 256 }

  function HexDigit(n: nat): (c: char)
    requires n < 16
    ensures c != ';' && c != '=' && Nibble(c) == Some(n)
  {
    if n < 10 then n as char + '0' else (n - 10) as char + 'a'
  }

  function Nibble(c: char): Option<nat> {
    if '0' <= c <= '9' then Some(c as int - '0' as int)
    else if 'a' <= c <= 'f' then Some(c as int - 'a' as int + 10)
    else if 'A' <= c <= 'F' then Some(c as int - 'A' as int + 10)
    else None
  }

  function Hex(text: string): (r: string)
    ensures ';' !in r && '=' !in r
  {
    if text == "" then ""
    else
      var byte := text[0] as int % 256;
      [HexDigit(byte / 16), HexDigit(byte % 16)] + Hex(text[1..])
  }

  function Unhex(text: string): Option<string> {
    if text == "" then Some("")
    else if |text| == 1 then None
    else
      match (Nibble(text[0]), Nibble(text[1]), Unhex(text[2..]))
      case (Some(hi), Some(lo), Some(rest)) => Some([(hi * 16 + lo) as char] + rest)
      case _ => None
  }

  lemma {:induction false} UnhexHex(text: string)
    requires Bytes(text)
    ensures Unhex(Hex(text)) == Some(text)
  {
    if text != "" {
      UnhexHex(text[1..]);
      assert Hex(text)[2..] == Hex(text[1..]);
      assert [text[0]] + text[1..] == text;
    }
  }

  // ---------- key order ----------

  predicate Less(a: string, b: string)
    decreases |a|
  {
    b != "" && (a == "" || a[0] < b[0] || (a[0] == b[0] && Less(a[1..], b[1..])))
  }

  lemma {:induction false} LessTotal(a: string, b: string)
    ensures a == b || Less(a, b) || Less(b, a)
    ensures !(Less(a, b) && Less(b, a)) && !Less(a, a)
    decreases |a|
  {
    if a != "" {
      LessTotal(a[1..], a[1..]);
      if b != "" && a[0] == b[0] {
        LessTotal(a[1..], b[1..]);
        assert a == [a[0]] + a[1..] && b == [b[0]] + b[1..];
      }
    }
  }

  lemma {:induction false} LessTransitive(a: string, b: string, c: string)
    requires Less(a, b) && Less(b, c)
    ensures Less(a, c)
    decreases |a|
  {
    if a != "" && a[0] == b[0] == c[0] {
      LessTransitive(a[1..], b[1..], c[1..]);
    }
  }

  predicate Ascending(entries: seq<Entry>) {
    forall i, j :: 0 <= i < j < |entries| ==> Less(entries[i].0, entries[j].0)
  }

  // Insertion into ascending entries; stands for the library sort.
  function Insert(e: Entry, entries: seq<Entry>): seq<Entry> {
    if entries == [] || Less(e.0, entries[0].0) then [e] + entries
    else [entries[0]] + Insert(e, entries[1..])
  }

  function Sort(entries: seq<Entry>): seq<Entry> {
    if entries == [] then [] else Insert(entries[0], Sort(entries[1..]))
  }

  ghost predicate DistinctKeys(entries: seq<Entry>) {
    forall i, j :: 0 <= i < j < |entries| ==> entries[i].0 != entries[j].0
  }

  lemma {:induction false} InsertAscending(e: Entry, entries: seq<Entry>)
    requires Ascending(entries) && forall x :: x in entries ==> x.0 != e.0
    ensures Ascending(Insert(e, entries))
    ensures forall x :: x in Insert(e, entries) <==> x == e || x in entries
  {
    if entries != [] {
      LessTotal(e.0, entries[0].0);
      if Less(e.0, entries[0].0) {
        forall j | 0 <= j < |entries| ensures Less(e.0, entries[j].0) {
          if j > 0 { LessTransitive(e.0, entries[0].0, entries[j].0); }
        }
      } else {
        assert entries[0] in entries;
        InsertAscending(e, entries[1..]);
        forall x | x in Insert(e, entries[1..]) ensures Less(entries[0].0, x.0) {
          if x != e { assert x in entries[1..]; }
        }
        assert forall x :: x in entries <==> x == entries[0] || x in entries[1..];
      }
    }
  }

  lemma {:induction false} SortAscending(entries: seq<Entry>)
    requires DistinctKeys(entries)
    ensures Ascending(Sort(entries))
    ensures forall x :: x in Sort(entries) <==> x in entries
  {
    if entries != [] {
      SortAscending(entries[1..]);
      forall x | x in entries[1..] ensures x.0 != entries[0].0 {
        var k :| 0 <= k < |entries| - 1 && entries[1..][k] == x;
        assert entries[k + 1] == x;
      }
      InsertAscending(entries[0], Sort(entries[1..]));
      assert forall x :: x in entries <==> x == entries[0] || x in entries[1..];
    }
  }

  // Ascending entries are determined by which entries they are.
  lemma {:induction false} AscendingUnique(p: seq<Entry>, q: seq<Entry>)
    requires Ascending(p) && Ascending(q) && forall x :: x in p <==> x in q
    ensures p == q
  {
    assert p != [] ==> p[0] in p;
    assert q != [] ==> q[0] in q;
    if p != [] && q != [] {
      if p[0] != q[0] {
        assert Less(q[0].0, p[0].0) && Less(p[0].0, q[0].0);
        LessTotal(p[0].0, q[0].0);
      }
      forall x ensures x in p[1..] <==> x in q[1..] {
        LessTotal(p[0].0, p[0].0);
        assert x in p <==> x == p[0] || x in p[1..];
        assert x in q <==> x == q[0] || x in q[1..];
        assert p[0] !in p[1..] && q[0] !in q[1..];
      }
      AscendingUnique(p[1..], q[1..]);
      assert p == [p[0]] + p[1..] && q == [q[0]] + q[1..];
    }
  }

  // ---------- encoding ----------

  // `entries` lists the variables once each, in whatever order the hash map is walked.
  ghost predicate Walks(entries: seq<Entry>, variables: map<string, string>) {
    && DistinctKeys(entries)
    && forall x :: x in entries <==> x.0 in variables && variables[x.0] == x.1
  }

  ghost predicate Storable(s: VmState) {
    Bytes(s.state) && forall k :: k in s.variables ==> Bytes(k) && Bytes(s.variables[k])
  }

  function Field(e: Entry): (r: string)
    ensures ';' !in r
  {
    Hex(e.0) + "=" + Hex(e.1)
  }

  function Fields(entries: seq<Entry>): string {
    if entries == [] then "" else ";" + Field(entries[0]) + Fields(entries[1..])
  }

  lemma {:induction false} FieldsSnoc(entries: seq<Entry>, e: Entry)
    ensures Fields(entries + [e]) == Fields(entries) + (";" + Field(e))
  {
    if entries != [] {
      assert (entries + [e])[1..] == entries[1..] + [e];
      FieldsSnoc(entries[1..], e);
    } else {
      assert [] + [e] == [e];
    }
  }

  lemma Associate(p: string, q: string, r: string)
    ensures p + q + r == p + (q + r)
  {
  }

  function Encoded(s: VmState, walk: seq<Entry>): string { Hex(s.state) + Fields(Sort(walk)) }

  method SerializeVmState(s: VmState, walk: seq<Entry>) returns (out: string)
    ensures out == Encoded(s, walk)
  {
    var values := Sort(walk);
    out := Hex(s.state);
    for i := 0 to |values|
      invariant out == Hex(s.state) + Fields(values[..i])
    {
      FieldsSnoc(values[..i], values[i]);
      assert values[..i + 1] == values[..i] + [values[i]];
      Associate(Hex(s.state), Fields(values[..i]), ";" + Field(values[i]));
      out := out + (";" + Field(values[i]));
    }
    assert values[..|values|] == values;
  }

  // The encoding does not depend on the order in which the variables are walked.
  lemma EncodingOrderFree(variables: map<string, string>, walk: seq<Entry>, other: seq<Entry>)
    requires Walks(walk, variables) && Walks(other, variables)
    ensures Sort(walk) == Sort(other)
  {
    SortAscending(walk);
    SortAscending(other);
    AscendingUnique(Sort(walk), Sort(other));
  }

  // ---------- decoding ----------

  predicate VmAtom(text: string) {
    0 < |text| <= 128 && forall c :: c in text ==>
      'a' <= c <= 'z' || 'A' <= c <= 'Z' || '0' <= c <= '9' || c == '_' || c == '-' || c == '.' || c == ':'
  }

  // One name=value field.
  function DecodePart(part: string): Option<(string, string)> {
    var eq := IndexOf(part, '=');
    if eq == |part| then None
    else
      match (Unhex(part[..eq]), Unhex(part[eq + 1..]))
      case (Some(key), Some(value)) => if VmAtom(key) then Some((key, value)) else None
      case _ => None
  }

  function DecodeVariables(text: string, variables: map<string, string>): Result<map<string, string>>
    decreases |text|
  {
    if text == "" then Ok(variables)
    else
      var end := IndexOf(text, ';');
      match DecodePart(text[..end])
      case None => Err("invalid-vm-variable")
      case Some((key, value)) =>
        if end == |text| then Ok(variables[key := value])
        else DecodeVariables(text[end + 1..], variables[key := value])
  }

  function Decode(encoded: string): Result<VmState> {
    var first := IndexOf(encoded, ';');
    match Unhex(encoded[..first])
    case None => Err("invalid-vm-state")
    case Some(state) =>
      if !VmAtom(state) then Err("invalid-vm-state")
      else
        match DecodeVariables(if first == |encoded| then "" else encoded[first + 1..], map[])
        case Ok(variables) => Ok(VmState(state, variables))
        case Err(e) => Err(e)
  }

  method DeserializeVmState(encoded: string) returns (r: Result<VmState>)
    ensures r == Decode(encoded)
  {
    var first := IndexOf(encoded, ';');
    var decodedState := Unhex(encoded[..first]);
    if decodedState.None? || !VmAtom(decodedState.value) {
      return Err("invalid-vm-state");
    }
    var variables := DeserializeVariables(if first == |encoded| then "" else encoded[first + 1..]);
    r := if variables.Ok? then Ok(VmState(decodedState.value, variables.value)) else Err(variables.error);
  }

  method DeserializeVariables(encoded: string) returns (r: Result<map<string, string>>)
    ensures r == DecodeVariables(encoded, map[])
  {
    var variables: map<string, string> := map[];
    var pos := 0;
    assert encoded[pos..] == encoded;
    while pos < |encoded|
      invariant pos <= |encoded|
      invariant DecodeVariables(encoded, map[]) == DecodeVariables(encoded[pos..], variables)
    {
      var rest := encoded[pos..];
      var end := IndexOf(rest, ';');
      var part := DecodePart(rest[..end]);
      if part.None? {
        return Err("invalid-vm-variable");
      }
      variables := variables[part.value.0 := part.value.1];
      if end == |rest| {
        return Ok(variables);
      }
      assert rest[end + 1..] == encoded[pos + end + 1..];
      pos := pos + end + 1;
    }
    r := Ok(variables);
  }

  // ---------- round trip ----------

  function Folded(entries: seq<Entry>, variables: map<string, string>): map<string, string> {
    if entries == [] then variables else Folded(entries[1..], variables[entries[0].0 := entries[0].1])
  }

  // One field, and what comes after it.
  lemma DecodeField(e: Entry, tail: string, variables: map<string, string>)
    requires Bytes(e.0) && Bytes(e.1)
    ensures if !VmAtom(e.0) then
        && DecodeVariables(Field(e), variables) == Err("invalid-vm-variable")
        && DecodeVariables(Field(e) + ";" + tail, variables) == Err("invalid-vm-variable")
      else
        && DecodeVariables(Field(e), variables) == Ok(variables[e.0 := e.1])
        && DecodeVariables(Field(e) + ";" + tail, variables) == DecodeVariables(tail, variables[e.0 := e.1])
  {
    var key, value, part := Hex(e.0), Hex(e.1), Field(e);
    UnhexHex(e.0);
    UnhexHex(e.1);
    IndexOfSeparator(key, '=', value);
    IndexOfSeparator(part, ';', tail);
    assert part[..|key|] == key && part[|key| + 1..] == value && part[..|part|] == part;
    assert (part + ";" + tail)[..|part|] == part && (part + ";" + tail)[|part| + 1..] == tail;
  }

  predicate KeysAreAtoms(entries: seq<Entry>) {
    entries == [] || (VmAtom(entries[0].0) && KeysAreAtoms(entries[1..]))
  }

  // The fields without the separator in front of the first.
  function Body(entries: seq<Entry>): string
    requires entries != []
  {
    if |entries| == 1 then Field(entries[0]) else Field(entries[0]) + ";" + Body(entries[1..])
  }

  lemma {:induction false} FieldsBody(entries: seq<Entry>)
    requires entries != []
    ensures Fields(entries) == ";" + Body(entries)
    decreases |entries|
  {
    var field := Field(entries[0]);
    if |entries| == 1 {
      assert Fields(entries[1..]) == "";
      assert ";" + field + "" == ";" + field;
    } else {
      FieldsBody(entries[1..]);
      Regroup(field, Body(entries[1..]));
    }
  }

  lemma Regroup(p: string, q: string)
    ensures ";" + p + (";" + q) == ";" + (p + ";" + q)
  {
  }

  lemma {:induction false} DecodeBody(entries: seq<Entry>, variables: map<string, string>)
    requires entries != [] && forall i :: 0 <= i < |entries| ==> Bytes(entries[i].0) && Bytes(entries[i].1)
    ensures DecodeVariables(Body(entries), variables) ==
      if KeysAreAtoms(entries) then Ok(Folded(entries, variables)) else Err("invalid-vm-variable")
    decreases |entries|
  {
    var e, rest := entries[0], entries[1..];
    if rest == [] {
      DecodeField(e, "", variables);
    } else {
      DecodeField(e, Body(rest), variables);
      DecodeBody(rest, variables[e.0 := e.1]);
    }
  }

  lemma {:induction false} FoldedHolds(entries: seq<Entry>, variables: map<string, string>)
    requires DistinctKeys(entries)
    ensures var f := Folded(entries, variables);
      && (forall e :: e in entries ==> e.0 in f && f[e.0] == e.1)
      && forall k :: (forall e :: e in entries ==> e.0 != k) ==>
           (k in f <==> k in variables) && (k in f ==> f[k] == variables[k])
    decreases |entries|
  {
    if entries != [] {
      var e, rest := entries[0], entries[1..];
      FoldedHolds(rest, variables[e.0 := e.1]);
      assert forall x :: x in entries <==> x == e || x in rest;
      assert forall x :: x in rest ==> x.0 != e.0;
    }
  }

  lemma FoldedRestores(entries: seq<Entry>, variables: map<string, string>)
    requires Walks(entries, variables)
    ensures Folded(entries, map[]) == variables
  {
    FoldedHolds(entries, map[]);
    var f := Folded(entries, map[]);
    forall k ensures (k in f <==> k in variables) && (k in variables ==> f[k] == variables[k]) {
      if k in variables {
        assert (k, variables[k]) in entries;
      }
    }
  }

  // What can be read back: the state name and every variable name are atoms. Values are arbitrary.
  ghost predicate Named(s: VmState) {
    VmAtom(s.state) && forall k :: k in s.variables ==> VmAtom(k)
  }

  lemma {:induction false} AtomsOfWalk(entries: seq<Entry>)
    ensures KeysAreAtoms(entries) <==> forall e :: e in entries ==> VmAtom(e.0)
  {
    if entries != [] {
      AtomsOfWalk(entries[1..]);
      assert forall x :: x in entries <==> x == entries[0] || x in entries[1..];
    }
  }

  function WithState(state: string, variables: Result<map<string, string>>): Result<VmState> {
    match variables case Ok(v) => Ok(VmState(state, v)) case Err(e) => Err(e)
  }

  // Decoding the state part, with or without fields behind it.
  lemma DecodeHead(state: string, tail: string)
    requires Bytes(state)
    ensures !VmAtom(state) ==> Decode(Hex(state)).Err? && Decode(Hex(state) + ";" + tail).Err?
    ensures VmAtom(state) ==> Decode(Hex(state)) == Ok(VmState(state, map[]))
    ensures VmAtom(state) ==> Decode(Hex(state) + ";" + tail) == WithState(state, DecodeVariables(tail, map[]))
  {
    var p := Hex(state);
    UnhexHex(state);
    IndexOfSeparator(p, ';', tail);
    assert p[..|p|] == p && (p + ";" + tail)[..|p|] == p && (p + ";" + tail)[|p| + 1..] == tail;
  }

  lemma EncodedBody(p: string, entries: seq<Entry>)
    ensures p + Fields(entries) == if entries == [] then p else p + ";" + Body(entries)
  {
    if entries == [] {
      assert p + "" == p;
    } else {
      FieldsBody(entries);
      assert p + (";" + Body(entries)) == p + ";" + Body(entries);
    }
  }

  // Decoding an encoded state gives that state back exactly when its names are atoms; otherwise
  // the stored text is rejected.
  lemma RoundTrip(s: VmState, walk: seq<Entry>)
    requires Storable(s) && Walks(walk, s.variables)
    ensures if Named(s) then Decode(Encoded(s, walk)) == Ok(s) else Decode(Encoded(s, walk)).Err?
  {
    var entries := Sort(walk);
    SortAscending(walk);
    AscendingDistinct(entries);
    forall i | 0 <= i < |entries| ensures Bytes(entries[i].0) && Bytes(entries[i].1) {
      assert entries[i] in walk;
    }
    EncodedBody(Hex(s.state), entries);
    DecodeHead(s.state, if entries == [] then "" else Body(entries));
    if entries != [] {
      DecodeBody(entries, map[]);
    }
    FoldedRestores(entries, s.variables);
    AtomsOfWalk(entries);
    assert forall k :: k in s.variables ==> (k, s.variables[k]) in entries;
  }

  lemma AscendingDistinct(entries: seq<Entry>)
    requires Ascending(entries)
    ensures DistinctKeys(entries)
  {
    forall i, j | 0 <= i < j < |entries| ensures entries[i].0 != entries[j].0 {
      LessTotal(entries[i].0, entries[j].0);
    }
  }

  // A walk over the variables, as the hash map yields it.
  method WalkVariables(variables: map<string, string>) returns (walk: seq<Entry>)
    ensures Walks(walk, variables)
  {
    walk := [];
    var rest := variables;
    while rest != map[]
      invariant rest.Keys <= variables.Keys && forall k :: k in rest ==> rest[k] == variables[k]
      invariant DistinctKeys(walk)
      invariant forall x :: x in walk <==> x.0 in variables && x.0 !in rest && variables[x.0] == x.1
      decreases |rest|
    {
      var key :| key in rest;
      walk := walk + [(key, rest[key])];
      rest := rest - {key};
    }
  }
}
