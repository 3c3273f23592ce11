// Bounded inlining of OGL functions.

module OglInlining {
  import opened Basics
  import opened OglCompiler

  // A line of a whole OGL script after classification.
  datatype SourceLine =
    | CallLine(name: string)
    | PragmaLine
    | StateLine(name: string)
    | OnLine(event: string)
    | EndLine
    | FunctionLine(name: string)
    | EndFunctionLine
    | BodyLine(line: Line)

  type FunctionMap = map<string, seq<SourceLine>>

  const MAX_DEPTH: nat := 8
  const MAX_EXPANDED: nat := 4096

  predicate AtomChar(c: char) {
    'a' <= c <= 'z' || 'A' <= c <= 'Z' || '0' <= c <= '9' || c == '_' || c == '-' || c == '.'
  }

  predicate Atom(text: string) { 0 < |text| <= 128 && forall c :: c in text ==> AtomChar(c) }

  // A name: 1 to 128 letters, digits, and three signs.
  lemma AtomMeans(text: string)
    ensures Atom(text) <==>
      && text != "" && |text| < 129
      && forall i :: 0 <= i < |text| ==>
           ('a' <= text[i] <= 'z') || ('A' <= text[i] <= 'Z') || ('0' <= text[i] <= '9') || text[i] in "_-."
  {
    ThreeSigns();
    if Atom(text) {
      forall i | 0 <= i < |text|
        ensures ('a' <= text[i] <= 'z') || ('A' <= text[i] <= 'Z') || ('0' <= text[i] <= '9') || text[i] in "_-."
      {
        assert text[i] in text;
      }
    }
  }

  lemma ThreeSigns()
    ensures forall c: char :: c in "_-." <==> c == '_' || c == '-' || c == '.'
  {
    var all := "_-.";
    assert all[0] == '_' && all[1] == '-' && all[2] == '.';
  }

  // ---------- collecting functions ----------

  // The first line that ends a function body, or begins another function.
  function BodyEnd(lines: seq<SourceLine>): (n: nat)
    ensures n <= |lines| && (n < |lines| ==> lines[n].EndFunctionLine? || lines[n].FunctionLine?)
    ensures forall i :: 0 <= i < n ==> !lines[i].EndFunctionLine? && !lines[i].FunctionLine?
  {
    if lines == [] || lines[0].EndFunctionLine? || lines[0].FunctionLine? then 0 else 1 + BodyEnd(lines[1..])
  }

  // The functions and the program among the lines, after `functions` and `program` have been found.
  function Collect(lines: seq<SourceLine>, functions: FunctionMap, program: seq<SourceLine>)
    : Result<(FunctionMap, seq<SourceLine>)>
    decreases |lines|
  {
    if lines == [] then Ok((functions, program))
    else
      var rest := lines[1..];
      if !lines[0].FunctionLine? then Collect(rest, functions, program + [lines[0]])
      else
        var name, n := lines[0].name, BodyEnd(rest);
        if !Atom(name) || name in functions then Err("ogl-invalid-function")
        else if n == |rest| then Err("ogl-unclosed-function")
        else if rest[n].FunctionLine? then Err("ogl-nested-function")
        else Collect(rest[n + 1..], functions[name := rest[..n]], program)
  }

  method CollectFunctions(lines: seq<SourceLine>) returns (r: Result<(FunctionMap, seq<SourceLine>)>)
    ensures r == Collect(lines, map[], [])
  {
    var functions: FunctionMap, program: seq<SourceLine> := map[], [];
    var index := 0;
    while index < |lines|
      invariant index <= |lines|
      invariant Collect(lines, map[], []) == Collect(lines[index..], functions, program)
    {
      var line := lines[index];
      assert lines[index..][1..] == lines[index + 1..];
      if !line.FunctionLine? {
        program := program + [line];
      } else {
        if !Atom(line.name) || line.name in functions {
          return Err("ogl-invalid-function");
        }
        var body := FunctionBody(lines[index + 1..]);
        if body.Err? {
          return Err(body.error);
        }
        functions := functions[line.name := body.value];
        assert lines[index + 1..][|body.value| + 1..] == lines[index + 1 + |body.value| + 1..];
        index := index + 1 + |body.value|;
      }
      index := index + 1;
    }
    r := Ok((functions, program));
  }

  method FunctionBody(lines: seq<SourceLine>) returns (r: Result<seq<SourceLine>>)
    ensures var n := BodyEnd(lines);
      r == if n == |lines| then Err("ogl-unclosed-function")
           else if lines[n].FunctionLine? then Err("ogl-nested-function") else Ok(lines[..n])
  {
    var body: seq<SourceLine> := [];
    while |body| < |lines|
      invariant |body| <= |lines| && body == lines[..|body|]
      invariant BodyEnd(lines) == |body| + BodyEnd(lines[|body|..])
      decreases |lines| - |body|
    {
      var line := lines[|body|];
      if line.EndFunctionLine? {
        return Ok(body);
      }
      if line.FunctionLine? {
        return Err("ogl-nested-function");
      }
      assert lines[|body|..][1..] == lines[|body| + 1..];
      body := body + [line];
    }
    r := Err("ogl-unclosed-function");
  }

  // A script as written: lines of the program, and definitions between them.
  datatype Item = Plain(line: SourceLine) | Definition(name: string, body: seq<SourceLine>)

  predicate WellFormed(items: seq<Item>, taken: set<string>) {
    items == [] ||
    (match items[0]
     case Plain(line) => !line.FunctionLine? && WellFormed(items[1..], taken)
     case Definition(name, body) =>
       && Atom(name) && name !in taken && BodyEnd(body) == |body| && WellFormed(items[1..], taken + {name}))
  }

  function Written(items: seq<Item>): seq<SourceLine> {
    if items == [] then []
    else
      (match items[0]
       case Plain(line) => [line]
       case Definition(name, body) => Defined(name, body)) + Written(items[1..])
  }

  function Program(items: seq<Item>): seq<SourceLine> {
    if items == [] then [] else (if items[0].Plain? then [items[0].line] else []) + Program(items[1..])
  }

  function Table(items: seq<Item>, functions: FunctionMap): FunctionMap {
    if items == [] then functions
    else Table(items[1..], if items[0].Definition? then functions[items[0].name := items[0].body] else functions)
  }

  lemma {:induction false} BodyEndHere(body: seq<SourceLine>, rest: seq<SourceLine>)
    requires BodyEnd(body) == |body|
    ensures BodyEnd(body + [EndFunctionLine] + rest) == |body|
  {
    if body != [] {
      assert (body + [EndFunctionLine] + rest)[1..] == body[1..] + [EndFunctionLine] + rest;
      BodyEndHere(body[1..], rest);
    }
  }

  lemma CollectPlain(line: SourceLine, rest: seq<SourceLine>, functions: FunctionMap, program: seq<SourceLine>)
    requires !line.FunctionLine?
    ensures Collect([line] + rest, functions, program) == Collect(rest, functions, program + [line])
  {
    assert ([line] + rest)[1..] == rest;
  }

  function Defined(name: string, body: seq<SourceLine>): seq<SourceLine> {
    [FunctionLine(name)] + body + [EndFunctionLine]
  }

  lemma CollectDefinition(
    name: string, body: seq<SourceLine>, rest: seq<SourceLine>, functions: FunctionMap, program: seq<SourceLine>)
    requires Atom(name) && name !in functions && BodyEnd(body) == |body|
    ensures Collect(Defined(name, body) + rest, functions, program) == Collect(rest, functions[name := body], program)
  {
    var after := body + [EndFunctionLine] + rest;
    assert Defined(name, body) + rest == [FunctionLine(name)] + after;
    assert ([FunctionLine(name)] + after)[1..] == after;
    BodyEndHere(body, rest);
    assert after[..|body|] == body && after[|body| + 1..] == rest;
  }

  // What is written is collected.
  lemma {:induction false} CollectWritten(items: seq<Item>, functions: FunctionMap, program: seq<SourceLine>)
    requires WellFormed(items, functions.Keys)
    ensures Collect(Written(items), functions, program) == Ok((Table(items, functions), program + Program(items)))
    decreases |items|
  {
    if items == [] {
      assert program + [] == program;
    } else {
      match items[0] {
        case Plain(line) =>
          CollectPlain(line, Written(items[1..]), functions, program);
          CollectWritten(items[1..], functions, program + [line]);
          assert program + [line] + Program(items[1..]) == program + Program(items);
        case Definition(name, body) =>
          CollectDefinition(name, body, Written(items[1..]), functions, program);
          assert functions[name := body].Keys == functions.Keys + {name};
          CollectWritten(items[1..], functions[name := body], program);
          assert Program(items) == Program(items[1..]);
      }
    }
  }

  // And whatever is collected was written so.
  lemma {:induction false} CollectedWritten(lines: seq<SourceLine>, functions: FunctionMap, program: seq<SourceLine>)
    returns (items: seq<Item>)
    requires Collect(lines, functions, program).Ok?
    ensures WellFormed(items, functions.Keys) && Written(items) == lines
    decreases |lines|
  {
    if lines == [] {
      items := [];
    } else if !lines[0].FunctionLine? {
      var more := CollectedWritten(lines[1..], functions, program + [lines[0]]);
      items := [Plain(lines[0])] + more;
      assert items[1..] == more;
    } else {
      var name, n := lines[0].name, BodyEnd(lines[1..]);
      var body, after := lines[1..][..n], lines[1..][n + 1..];
      BodyEndPrefix(lines[1..], n);
      var more := CollectedWritten(after, functions[name := body], program);
      items := [Definition(name, body)] + more;
      assert functions[name := body].Keys == functions.Keys + {name} && items[1..] == more;
      DefinitionLines(lines, name, n);
    }
  }

  // A function with a bad or repeated name, one that is never closed, and one inside another are refused.
  lemma CollectRefuses(
    name: string, other: string, body: seq<SourceLine>, rest: seq<SourceLine>, functions: FunctionMap, program: seq<SourceLine>)
    requires forall line :: line in body ==> !line.EndFunctionLine? && !line.FunctionLine?
    ensures !Atom(name) || name in functions ==>
      Collect([FunctionLine(name)] + rest, functions, program) == Err("ogl-invalid-function")
    ensures Atom(name) && name !in functions ==>
      && Collect([FunctionLine(name)] + body, functions, program) == Err("ogl-unclosed-function")
      && Collect([FunctionLine(name)] + (body + [FunctionLine(other)] + rest), functions, program) == Err("ogl-nested-function")
  {
    var nested := body + [FunctionLine(other)] + rest;
    assert ([FunctionLine(name)] + rest)[1..] == rest && ([FunctionLine(name)] + body)[1..] == body;
    assert ([FunctionLine(name)] + nested)[1..] == nested;
    OpenBody(body, [FunctionLine(other)] + rest);
    assert body + ([FunctionLine(other)] + rest) == nested && body + [] == body;
    OpenBody(body, []);
  }

  // Lines that neither end nor begin a function go on to the first line that does.
  lemma {:induction false} OpenBody(body: seq<SourceLine>, rest: seq<SourceLine>)
    requires forall line :: line in body ==> !line.EndFunctionLine? && !line.FunctionLine?
    requires rest == [] || rest[0].EndFunctionLine? || rest[0].FunctionLine?
    ensures BodyEnd(body + rest) == |body|
    decreases |body|
  {
    if body == [] {
      assert body + rest == rest;
    } else {
      assert body[0] in body && (body + rest)[1..] == body[1..] + rest;
      OpenBody(body[1..], rest);
    }
  }

  lemma DefinitionLines(lines: seq<SourceLine>, name: string, n: nat)
    requires lines != [] && lines[0] == FunctionLine(name) && n + 1 < |lines| && lines[n + 1].EndFunctionLine?
    ensures lines == Defined(name, lines[1..][..n]) + lines[1..][n + 1..]
  {
  }

  lemma {:induction false} BodyEndPrefix(lines: seq<SourceLine>, n: nat)
    requires n <= BodyEnd(lines)
    ensures BodyEnd(lines[..n]) == n
    decreases |lines|
  {
    if n > 0 {
      BodyEndPrefix(lines[1..], n - 1);
      assert lines[..n][1..] == lines[1..][..n - 1];
    }
  }

  // ---------- bounded expansion ----------

  // Expansion at a call depth, after `output` has been produced at this depth.
  function Expand(input: seq<SourceLine>, functions: FunctionMap, depth: nat, output: seq<SourceLine>): Result<seq<SourceLine>>
    decreases MAX_DEPTH + 1 - depth, |input|
  {
    if depth > MAX_DEPTH then Err("ogl-function-recursion-limit")
    else if input == [] then Ok(output)
    else if !input[0].CallLine? then Expand(input[1..], functions, depth, output + [input[0]])
    else
      var name := input[0].name;
      if !Atom(name) || name !in functions then Err("ogl-unknown-function")
      else
        match Expand(functions[name], functions, depth + 1, [])
        case Err(e) => Err(e)
        case Ok(body) =>
          if |output + body| > MAX_EXPANDED then Err("ogl-expanded-program-too-large")
          else Expand(input[1..], functions, depth, output + body)
  }

  method ExpandCalls(input: seq<SourceLine>, functions: FunctionMap, depth: nat) returns (r: Result<seq<SourceLine>>)
    ensures r == Expand(input, functions, depth, [])
    decreases MAX_DEPTH + 1 - depth
  {
    if depth > MAX_DEPTH {
      return Err("ogl-function-recursion-limit");
    }
    var output: seq<SourceLine> := [];
    var at := 0;
    while at < |input|
      invariant at <= |input|
      invariant Expand(input, functions, depth, []) == Expand(input[at..], functions, depth, output)
    {
      var line := input[at];
      assert input[at..][1..] == input[at + 1..];
      if !line.CallLine? {
        output := output + [line];
      } else {
        if !Atom(line.name) || line.name !in functions {
          return Err("ogl-unknown-function");
        }
        var expanded := ExpandCalls(functions[line.name], functions, depth + 1);
        if expanded.Err? {
          return expanded;
        }
        output := output + expanded.value;
        if |output| > MAX_EXPANDED {
          return Err("ogl-expanded-program-too-large");
        }
      }
      at := at + 1;
    }
    r := Ok(output);
  }

  // ---------- textual inlining ----------

  // The text with every call replaced by the inlined body of its function; None when a name is
  // unknown or calls nest more than `levels` deep. There is no limit on size.
  function Inlined(input: seq<SourceLine>, functions: FunctionMap, levels: nat): Option<seq<SourceLine>>
    decreases levels, |input|
  {
    if input == [] then Some([])
    else
      var line := input[0];
      var head :=
        if !line.CallLine? then Some([line])
        else if !Atom(line.name) || line.name !in functions || levels == 0 then None
        else Inlined(functions[line.name], functions, levels - 1);
      var tail := Inlined(input[1..], functions, levels);
      if head.None? || tail.None? then None else Some(head.value + tail.value)
  }

  // A successful expansion is the textual inlining, with no call left in it.
  lemma {:induction false} ExpandInlines(input: seq<SourceLine>, functions: FunctionMap, depth: nat, output: seq<SourceLine>)
    requires Expand(input, functions, depth, output).Ok?
    ensures depth <= 8 && Inlined(input, functions, 8 - depth).Some?
    ensures Expand(input, functions, depth, output).value == output + Inlined(input, functions, 8 - depth).value
    ensures forall l :: l in Inlined(input, functions, 8 - depth).value ==> !l.CallLine?
    decreases 9 - depth, |input|
  {
    if input != [] {
      if !input[0].CallLine? {
        ExpandInlines(input[1..], functions, depth, output + [input[0]]);
      } else {
        var name := input[0].name;
        ExpandInlines(functions[name], functions, depth + 1, []);
        var body := Expand(functions[name], functions, depth + 1, []).value;
        ExpandInlines(input[1..], functions, depth, output + body);
      }
    }
  }

  // Conversely, an inlining that exists within the depth limit and fits the size limit is found.
  lemma {:induction false} InlinedExpands(input: seq<SourceLine>, functions: FunctionMap, depth: nat, output: seq<SourceLine>)
    requires depth <= 8 && Inlined(input, functions, 8 - depth).Some?
    requires |output| + |Inlined(input, functions, 8 - depth).value| <= 4096
    ensures Expand(input, functions, depth, output) == Ok(output + Inlined(input, functions, 8 - depth).value)
    decreases 9 - depth, |input|
  {
    if input != [] {
      var tail := Inlined(input[1..], functions, 8 - depth).value;
      if !input[0].CallLine? {
        InlinedExpands(input[1..], functions, depth, output + [input[0]]);
        assert output + [input[0]] + tail == output + ([input[0]] + tail);
      } else {
        var name := input[0].name;
        var body := Inlined(functions[name], functions, 8 - depth - 1).value;
        InlinedExpands(functions[name], functions, depth + 1, []);
        assert [] + body == body;
        InlinedExpands(input[1..], functions, depth, output + body);
        assert output + body + tail == output + (body + tail);
      }
    } else {
      assert output + [] == output;
    }
  }

  // ---------- recursion ----------

  // A path of calls: the text calls path[0], whose body calls path[1], and so on.
  ghost predicate CallPath(text: seq<SourceLine>, functions: FunctionMap, path: seq<string>)
    decreases |path|
  {
    path == [] ||
    (CallLine(path[0]) in text && path[0] in functions && CallPath(functions[path[0]], functions, path[1..]))
  }

  // Calls that nest deeper than the limit are rejected.
  lemma {:induction false} DeepPathRejected(input: seq<SourceLine>, functions: FunctionMap, depth: nat,
                                            output: seq<SourceLine>, path: seq<string>)
    requires CallPath(input, functions, path) && depth + |path| > 8
    ensures Expand(input, functions, depth, output).Err?
    decreases 9 - depth, |input|
  {
    if depth <= 8 && input != [] {
      if input[0] == CallLine(path[0]) {
        DeepPathRejected(functions[path[0]], functions, depth + 1, [], path[1..]);
      } else {
        assert CallLine(path[0]) in input[1..];
        forall more: seq<SourceLine> ensures Expand(input[1..], functions, depth, output + more).Err? {
          DeepPathRejected(input[1..], functions, depth, output + more, path);
        }
      }
    }
  }

  // A rejection for depth has a path of calls to show for it.
  lemma {:induction false} RejectedHasPath(input: seq<SourceLine>, functions: FunctionMap, depth: nat,
                                           output: seq<SourceLine>) returns (path: seq<string>)
    requires Expand(input, functions, depth, output) == Err("ogl-function-recursion-limit")
    requires depth <= 8
    ensures CallPath(input, functions, path) && depth + |path| == 9
    decreases 9 - depth, |input|
  {
    if !input[0].CallLine? {
      path := RejectedHasPath(input[1..], functions, depth, output + [input[0]]);
    } else {
      var name := input[0].name;
      var inner := Expand(functions[name], functions, depth + 1, []);
      if inner.Ok? {
        path := RejectedHasPath(input[1..], functions, depth, output + inner.value);
      } else if depth == 8 {
        return [name];
      } else {
        var rest := RejectedHasPath(functions[name], functions, depth + 1, []);
        path := [name] + rest;
      }
    }
  }

  lemma {:induction false} PathConcat(text: seq<SourceLine>, functions: FunctionMap, p: seq<string>, f: string, q: seq<string>)
    requires CallPath(text, functions, p + [f]) && f in functions && CallPath(functions[f], functions, q)
    ensures CallPath(text, functions, p + [f] + q)
    decreases |p|
  {
    if p == [] {
      assert ([] + [f] + q)[1..] == q;
    } else {
      assert (p + [f])[1..] == p[1..] + [f];
      assert (p + [f] + q)[1..] == p[1..] + [f] + q;
      PathConcat(functions[p[0]], functions, p[1..], f, q);
    }
  }

  lemma {:induction false} Pump(functions: FunctionMap, f: string, loop: seq<string>, k: nat) returns (path: seq<string>)
    requires f in functions && CallPath(functions[f], functions, loop + [f])
    ensures |path| >= k && CallPath(functions[f], functions, path)
    decreases k
  {
    if k == 0 {
      path := [];
    } else {
      var rest := Pump(functions, f, loop, k - 1);
      PathConcat(functions[f], functions, loop, f, rest);
      path := loop + [f] + rest;
    }
  }

  // A program that reaches a function able to reach itself is rejected.
  lemma RecursionRejected(program: seq<SourceLine>, functions: FunctionMap, to: seq<string>, f: string, loop: seq<string>)
    requires CallPath(program, functions, to + [f]) && f in functions
    requires CallPath(functions[f], functions, loop + [f])
    ensures Expand(program, functions, 0, []).Err?
  {
    var cycle := Pump(functions, f, loop, 8);
    PathConcat(program, functions, to, f, cycle);
    DeepPathRejected(program, functions, 0, [], to + [f] + cycle);
  }
}
