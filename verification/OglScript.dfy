// A whole OGL script: inlining, cutting into handlers, compiling and assembling each handler, and
// what delivering an event to the result means.

module OglScript {
  import opened Basics
  import opened ScriptVm
  import opened Text
  import opened OglLanguage
  import opened OglCompiler
  import opened OglInlining

  // What is not modelled of the text of one command: the assembler's checks of its fields, None or the
  // reason for rejecting it, and its length.
  datatype Assembler = Assembler(check: Instruction -> Option<string>, width: Instruction -> nat)

  const MAX_HANDLER_LINES: nat := 4096
  const MAX_LINES: nat := 4096
  const MAX_TEXT: nat := 64 * 1024

  // ---------- the assembler ----------

  datatype Assembly = Assembled(instructions: seq<Instruction>) | BadField(reason: string) | TooLong | TooLarge | TargetOutOfRange

  predicate TargetsInRange(commands: seq<Instruction>) {
    forall i :: 0 <= i < |commands| && Jumps(commands[i]) ==> commands[i].target <= |commands|
  }

  function AssembleFrom(commands: seq<Instruction>, asm: Assembler, at: nat): Assembly
    requires at <= |commands|
    decreases |commands| - at
  {
    if at == |commands| then
      if TargetsInRange(commands) then Assembled(commands) else TargetOutOfRange
    else if asm.check(commands[at]).Some? then BadField(asm.check(commands[at]).value)
    else if at + 1 > MAX_COMMANDS then TooLarge
    else AssembleFrom(commands, asm, at + 1)
  }

  // The text of a handler's commands, a line each.
  function LinesSize(commands: seq<Instruction>, asm: Assembler): nat {
    if commands == [] then 0 else asm.width(commands[0]) + 1 + LinesSize(commands[1..], asm)
  }

  // With the lines before and after them that name the event and end the handler.
  function TextSize(event: string, commands: seq<Instruction>, asm: Assembler): nat {
    |"event "| + |event| + 1 + LinesSize(commands, asm) + |"end"| + 1
  }

  // The text itself, for any way of writing the commands.
  function LinesText(commands: seq<Instruction>, write: Instruction -> string): string {
    if commands == [] then "" else write(commands[0]) + "\n" + LinesText(commands[1..], write)
  }

  lemma {:induction false} LinesMeasured(commands: seq<Instruction>, asm: Assembler, write: Instruction -> string)
    requires forall ins :: |write(ins)| == asm.width(ins)
    ensures |LinesText(commands, write)| == LinesSize(commands, asm)
    decreases |commands|
  {
    if commands != [] {
      LinesMeasured(commands[1..], asm, write);
    }
  }

  lemma TextMeasured(event: string, commands: seq<Instruction>, asm: Assembler, write: Instruction -> string)
    requires forall ins :: |write(ins)| == asm.width(ins)
    ensures TextSize(event, commands, asm) == |"event " + event + "\n" + LinesText(commands, write) + "end\n"|
  {
    LinesMeasured(commands, asm, write);
  }

  // The assembler's own limit on lines lies beyond its limit on commands, and is never met first.
  function AssembleText(event: string, commands: seq<Instruction>, asm: Assembler): Assembly {
    if TextSize(event, commands, asm) > MAX_TEXT then TooLong else AssembleFrom(commands, asm, 0)
  }

  method MeasureText(event: string, commands: seq<Instruction>, asm: Assembler) returns (size: nat)
    ensures size == TextSize(event, commands, asm)
  {
    size := |"event "| + |event| + 1;
    for i := 0 to |commands|
      invariant TextSize(event, commands, asm) == size + LinesSize(commands[i..], asm) + |"end"| + 1
    {
      assert commands[i..][1..] == commands[i + 1..];
      size := size + asm.width(commands[i]) + 1;
    }
    size := size + |"end"| + 1;
  }

  method Assemble(event: string, commands: seq<Instruction>, asm: Assembler) returns (r: Assembly)
    ensures r == AssembleText(event, commands, asm)
  {
    var size := MeasureText(event, commands, asm);
    if size > MAX_TEXT {
      return TooLong;
    }
    var instructions: seq<Instruction> := [];
    while |instructions| < |commands|
      invariant |instructions| <= |commands| && instructions == commands[..|instructions|]
      invariant AssembleFrom(commands, asm, 0) == AssembleFrom(commands, asm, |instructions|)
      decreases |commands| - |instructions|
    {
      var ins := commands[|instructions|];
      var bad := asm.check(ins);
      if bad.Some? {
        return BadField(bad.value);
      }
      instructions := instructions + [ins];
      if |instructions| > MAX_COMMANDS {
        return TooLarge;
      }
    }
    assert instructions == commands;
    for i := 0 to |instructions|
      invariant forall k :: 0 <= k < i && Jumps(instructions[k]) ==> instructions[k].target <= |instructions|
    {
      if Jumps(instructions[i]) && instructions[i].target > |instructions| {
        return TargetOutOfRange;
      }
    }
    r := Assembled(instructions);
  }

  predicate FieldsAccepted(commands: seq<Instruction>, asm: Assembler) {
    forall i :: 0 <= i < |commands| ==> asm.check(commands[i]).None?
  }

  lemma {:induction false} AssembleExact(commands: seq<Instruction>, asm: Assembler, at: nat)
    requires at <= |commands| && at <= MAX_COMMANDS
    ensures AssembleFrom(commands, asm, at) == Assembled(commands) <==>
              (forall i :: at <= i < |commands| ==> asm.check(commands[i]).None?)
              && |commands| <= MAX_COMMANDS && TargetsInRange(commands)
    ensures AssembleFrom(commands, asm, at).Assembled? ==> AssembleFrom(commands, asm, at).instructions == commands
    ensures AssembleFrom(commands, asm, at).TargetOutOfRange? ==> !TargetsInRange(commands)
    decreases |commands| - at
  {
    if at < |commands| && at + 1 <= MAX_COMMANDS {
      AssembleExact(commands, asm, at + 1);
    }
  }

  // Compiler output is never rejected for a jump target, and command i becomes instruction i.
  lemma CompilerOutputAssembles(b: Block, asm: Assembler)
    ensures !AssembleFrom(Code(b), asm, 0).TargetOutOfRange?
    ensures AssembleFrom(Code(b), asm, 0) == Assembled(Code(b)) <==>
              FieldsAccepted(Code(b), asm) && Size(b) <= MAX_COMMANDS
    ensures AssembleFrom(Code(b), asm, 0).Assembled? ==> AssembleFrom(Code(b), asm, 0) == Assembled(Code(b))
  {
    forall i | 0 <= i < |Code(b)| && Jumps(Code(b)[i]) ensures Code(b)[i].target <= |Code(b)| {
      TargetsInside(b, 0, i);
    }
    AssembleExact(Code(b), asm, 0);
  }

  // ---------- one handler ----------

  // The lines of one handler, with the logical state and the event it belongs to.
  datatype Source = Source(state: string, event: string, raw: seq<Line>)

  // The block a handler's lines spell, if the handler is accepted.
  ghost predicate Accepted(source: Source, asm: Assembler) {
    var s := Structure(source.raw);
    s.Ok? && Fitting(source.event, s.value, asm)
  }

  // The code of a block is one the assembler takes.
  ghost predicate Fitting(event: string, b: Block, asm: Assembler) {
    Size(b) <= 1024 && FieldsAccepted(Code(b), asm) && TextSize(event, Code(b), asm) <= 64 * 1024
  }

  // A handler is accepted exactly when its lines are some block written out whose code fits, in
  // commands and in text, and has acceptable fields.
  lemma AcceptedExact(source: Source, asm: Assembler)
    ensures Accepted(source, asm) <==> exists b :: source.raw == Flatten(b) && Fitting(source.event, b, asm)
  {
    if Accepted(source, asm) {
      var b := Structure(source.raw).value;
      StructureExact(source.raw, b);
      assert source.raw == Flatten(b);
    }
    if b :| source.raw == Flatten(b) && Fitting(source.event, b, asm) {
      RoomWhenSmall(b, 0);
      StructureExact(source.raw, b);
    }
  }

  ghost function HandlerOf(source: Source): Handler
    requires Structure(source.raw).Ok?
  {
    Handler(source.state, source.event, [], Code(Structure(source.raw).value))
  }

  method CompileHandler(source: Source, asm: Assembler) returns (r: Result<Handler>)
    ensures r.Ok? <==> Accepted(source, asm)
    ensures r.Ok? ==> r.value == HandlerOf(source)
  {
    var commands, _ := CompileCommands(source.raw);
    if commands.Err? {
      return Err(commands.error);
    }
    CompilerOutputAssembles(Structure(source.raw).value, asm);
    var assembly := Assemble(source.event, commands.value, asm);
    match assembly
    case Assembled(instructions) => r := Ok(Handler(source.state, source.event, [], instructions));
    case BadField(reason) => r := Err(reason);
    case TooLong => r := Err("invalid-script-size");
    case TooLarge => r := Err("handler-too-large");
    case TargetOutOfRange => r := Err("jump-target-out-of-range");
  }

  // ---------- cutting a script into handlers ----------

  function Flush(state: string, event: string, raw: seq<Line>): seq<Source> {
    if event == "" then [] else [Source(state, event, raw)]
  }

  function Prepend(first: seq<Source>, rest: Result<seq<Source>>): Result<seq<Source>> {
    match rest case Ok(sources) => Ok(first + sources) case Err(e) => Err(e)
  }

  function Segment(lines: seq<SourceLine>, state: string, event: string, raw: seq<Line>): Result<seq<Source>>
    decreases |lines|, 0
  {
    if lines == [] then Ok(Flush(state, event, raw))
    else
      var rest := lines[1..];
      match lines[0]
      case PragmaLine => Segment(rest, state, event, raw)
      case StateLine(name) =>
        if !Atom(name) then Err("ogl-invalid-state")
        else Prepend(Flush(state, event, raw), Segment(rest, name, "", []))
      case OnLine(name) =>
        if !Atom(name) then Err("ogl-invalid-event")
        else Prepend(Flush(state, event, raw), Segment(rest, state, name, []))
      case EndLine =>
        if event == "" then Err("ogl-unexpected-end")
        else Prepend(Flush(state, event, raw), Segment(rest, state, "", []))
      case BodyLine(line) => SegmentBody(line, rest, state, event, raw)
      case _ => SegmentBody(BadLine("ogl-unknown-command"), rest, state, event, raw)
  }

  function SegmentBody(line: Line, rest: seq<SourceLine>, state: string, event: string, raw: seq<Line>): Result<seq<Source>>
    decreases |rest|, 1
  {
    if event == "" then Err("ogl-command-outside-event")
    else if |raw| + 1 > MAX_HANDLER_LINES then Err("handler-too-large")
    else Segment(rest, state, event, raw + [line])
  }

  // The handlers' sources of a script: its lines without the functions, with calls inlined, cut up.
  ghost function SourcesOf(lines: seq<SourceLine>): Result<seq<Source>> {
    match Collect(lines, map[], [])
    case Err(e) => Err(e)
    case Ok((functions, program)) =>
      match Expand(program, functions, 0, [])
      case Err(e) => Err(e)
      case Ok(expanded) => Segment(expanded, "default", "", [])
  }

  // A script without functions as it is written: pragmas, changes of state, and handlers, which an `end` may
  // close.
  datatype Part = Pragma | InState(name: string) | Handles(event: string, raw: seq<Line>, closed: bool)

  predicate Proper(part: Part) {
    match part
    case Pragma => true
    case InState(name) => Atom(name)
    case Handles(event, raw, _) => Atom(event) && |raw| <= 4096
  }

  function BodyLines(raw: seq<Line>): seq<SourceLine> {
    if raw == [] then [] else [BodyLine(raw[0])] + BodyLines(raw[1..])
  }

  function PartLines(part: Part): seq<SourceLine> {
    match part
    case Pragma => [PragmaLine]
    case InState(name) => [StateLine(name)]
    case Handles(event, raw, closed) => [OnLine(event)] + BodyLines(raw) + (if closed then [EndLine] else [])
  }

  function ScriptLines(parts: seq<Part>): seq<SourceLine> {
    if parts == [] then [] else PartLines(parts[0]) + ScriptLines(parts[1..])
  }

  // Each handler, with the state it is written under.
  function HandlersIn(parts: seq<Part>, state: string): seq<Source> {
    if parts == [] then []
    else
      match parts[0]
      case Pragma => HandlersIn(parts[1..], state)
      case InState(name) => HandlersIn(parts[1..], name)
      case Handles(event, raw, _) => [Source(state, event, raw)] + HandlersIn(parts[1..], state)
  }

  lemma SegmentBodyLine(line: Line, rest: seq<SourceLine>, state: string, event: string, before: seq<Line>)
    requires event != "" && |before| < 4096
    ensures Segment([BodyLine(line)] + rest, state, event, before) == Segment(rest, state, event, before + [line])
  {
    assert ([BodyLine(line)] + rest)[1..] == rest;
  }

  // The lines of a body are taken one after another.
  lemma {:induction false} SegmentBodyLines(
    raw: seq<Line>, rest: seq<SourceLine>, state: string, event: string, before: seq<Line>)
    requires event != "" && |before| + |raw| <= 4096
    ensures Segment(BodyLines(raw) + rest, state, event, before) == Segment(rest, state, event, before + raw)
    decreases |raw|
  {
    if raw == [] {
      assert BodyLines(raw) + rest == rest && before + raw == before;
    } else {
      assert BodyLines(raw) + rest == [BodyLine(raw[0])] + (BodyLines(raw[1..]) + rest);
      assert before + [raw[0]] + raw[1..] == before + raw;
      SegmentBodyLine(raw[0], BodyLines(raw[1..]) + rest, state, event, before);
      SegmentBodyLines(raw[1..], rest, state, event, before + [raw[0]]);
    }
  }

  lemma SegmentHandler(part: Part, rest: seq<SourceLine>, state: string, event: string, raw: seq<Line>)
    requires part.Handles? && Proper(part)
    ensures Segment(PartLines(part) + rest, state, event, raw) == Prepend(Flush(state, event, raw),
      if part.closed then Prepend([Source(state, part.event, part.raw)], Segment(rest, state, "", []))
      else Segment(rest, state, part.event, part.raw))
  {
    var after := (if part.closed then [EndLine] else []) + rest;
    var lines := PartLines(part) + rest;
    assert lines[0] == OnLine(part.event) && lines[1..] == BodyLines(part.raw) + after;
    SegmentBoundary(lines, state, event, raw);
    SegmentBodyLines(part.raw, after, state, part.event, []);
    assert [] + part.raw == part.raw;
    if part.closed {
      assert after[0] == EndLine && after[1..] == rest;
      SegmentBoundary(after, state, part.event, part.raw);
    } else {
      assert after == rest;
    }
  }

  // A script is cut into its handlers, each under the state it is written in.
  lemma {:induction false} SegmentWritten(parts: seq<Part>, state: string, event: string, raw: seq<Line>)
    requires forall part :: part in parts ==> Proper(part)
    requires event != "" ==> |raw| <= 4096
    ensures Segment(ScriptLines(parts), state, event, raw) == Ok(Flush(state, event, raw) + HandlersIn(parts, state))
    decreases |parts|
  {
    if parts == [] {
      assert Flush(state, event, raw) + [] == Flush(state, event, raw);
    } else {
      var part, rest := parts[0], ScriptLines(parts[1..]);
      assert part in parts;
      match part {
        case Pragma =>
          assert ([PragmaLine] + rest)[1..] == rest;
          SegmentWritten(parts[1..], state, event, raw);
        case InState(name) =>
          assert ([StateLine(name)] + rest)[1..] == rest;
          SegmentWritten(parts[1..], name, "", []);
          assert [] + HandlersIn(parts[1..], name) == HandlersIn(parts[1..], name);
        case Handles(named, body, closed) =>
          SegmentHandler(part, rest, state, event, raw);
          SegmentWritten(parts[1..], state, if closed then "" else named, if closed then [] else body);
          assert [] + HandlersIn(parts[1..], state) == HandlersIn(parts[1..], state);
      }
    }
  }

  // Lines that cannot stand where they do.
  lemma SegmentRefuses(rest: seq<SourceLine>, line: Line, name: string, state: string, event: string, raw: seq<Line>)
    ensures Segment([BodyLine(line)] + rest, state, "", []) == Err("ogl-command-outside-event")
    ensures Segment([EndLine] + rest, state, "", raw) == Err("ogl-unexpected-end")
    ensures !Atom(name) ==> Segment([StateLine(name)] + rest, state, event, raw) == Err("ogl-invalid-state")
    ensures !Atom(name) ==> Segment([OnLine(name)] + rest, state, event, raw) == Err("ogl-invalid-event")
    ensures event != "" && |raw| == 4096 ==> Segment([BodyLine(line)] + rest, state, event, raw) == Err("handler-too-large")
  {
  }

  // What a script of some size in bytes must satisfy to compile.
  ghost predicate ScriptAccepted(size: nat, lines: seq<SourceLine>, asm: Assembler) {
    && 0 < size <= 64 * 1024 && |lines| <= 4096
    && SourcesOf(lines).Ok? && SourcesOf(lines).value != [] && AllAccepted(SourcesOf(lines).value, asm)
  }

  ghost function HandlersOf(sources: seq<Source>): seq<Handler>
    requires forall i :: 0 <= i < |sources| ==> Structure(sources[i].raw).Ok?
  {
    seq(|sources|, i requires 0 <= i < |sources| => HandlerOf(sources[i]))
  }

  ghost predicate AllAccepted(sources: seq<Source>, asm: Assembler) {
    forall i :: 0 <= i < |sources| ==> Accepted(sources[i], asm)
  }

  lemma PrependTwice(p: seq<Source>, q: seq<Source>, rest: Result<seq<Source>>)
    ensures Prepend([], rest) == rest
    ensures Prepend(p, Prepend(q, rest)) == Prepend(p + q, rest)
  {
    if rest.Ok? {
      assert [] + rest.value == rest.value;
      assert p + (q + rest.value) == p + q + rest.value;
    }
  }

  lemma NotAllAccepted(p: seq<Source>, q: seq<Source>, rest: seq<Source>, asm: Assembler)
    requires !AllAccepted(q, asm)
    ensures !AllAccepted(p + (q + rest), asm)
  {
    var i :| 0 <= i < |q| && !Accepted(q[i], asm);
    assert (p + (q + rest))[|p| + i] == q[i];
  }

  method FlushHandler(state: string, event: string, raw: seq<Line>, asm: Assembler) returns (r: Result<seq<Handler>>)
    ensures r.Ok? <==> AllAccepted(Flush(state, event, raw), asm)
    ensures r.Ok? ==> r.value == HandlersOf(Flush(state, event, raw))
  {
    if event == "" {
      return Ok([]);
    }
    var handler := CompileHandler(Source(state, event, raw), asm);
    if handler.Err? {
      assert !Accepted(Flush(state, event, raw)[0], asm);
      return Err(handler.error);
    }
    r := Ok([handler.value]);
  }

  // The handlers so far stand for the sources so far.
  ghost predicate Stands(handlers: seq<Handler>, sources: seq<Source>, asm: Assembler) {
    AllAccepted(sources, asm) && handlers == HandlersOf(sources)
  }

  // The handler that a boundary line, or the end of the script, closes.
  method CloseHandler(
    state: string, event: string, raw: seq<Line>, asm: Assembler, handlers: seq<Handler>,
    ghost sources: seq<Source>, ghost rest: Result<seq<Source>>)
    returns (r: Result<seq<Handler>>)
    requires Stands(handlers, sources, asm)
    ensures r.Ok? ==> Stands(r.value, sources + Flush(state, event, raw), asm)
    ensures r.Err? && rest.Ok? ==> !AllAccepted(sources + (Flush(state, event, raw) + rest.value), asm)
  {
    ghost var here := Flush(state, event, raw);
    var flushed := FlushHandler(state, event, raw, asm);
    if flushed.Err? {
      if rest.Ok? {
        NotAllAccepted(sources, here, rest.value, asm);
      }
      return Err(flushed.error);
    }
    r := Ok(handlers + flushed.value);
  }

  // Where a boundary line leads, once the handler before it is closed.
  function Boundary(line: SourceLine, state: string, event: string): Result<(string, string)>
    requires line.StateLine? || line.OnLine? || line.EndLine?
  {
    match line
    case StateLine(name) => if Atom(name) then Ok((name, "")) else Err("ogl-invalid-state")
    case OnLine(name) => if Atom(name) then Ok((state, name)) else Err("ogl-invalid-event")
    case _ => if event != "" then Ok((state, "")) else Err("ogl-unexpected-end")
  }

  lemma SegmentBoundary(lines: seq<SourceLine>, state: string, event: string, raw: seq<Line>)
    requires lines != [] && (lines[0].StateLine? || lines[0].OnLine? || lines[0].EndLine?)
    ensures Segment(lines, state, event, raw) ==
      match Boundary(lines[0], state, event)
      case Err(e) => Err(e)
      case Ok((s, v)) => Prepend(Flush(state, event, raw), Segment(lines[1..], s, v, []))
  {
  }

  method CutHandlers(lines: seq<SourceLine>, asm: Assembler) returns (r: Result<seq<Handler>>)
    ensures var sources := Segment(lines, "default", "", []);
      && (r.Ok? <==> sources.Ok? && AllAccepted(sources.value, asm))
      && (r.Ok? ==> r.value == HandlersOf(sources.value))
  {
    var state, event, raw := "default", "", [];
    var handlers: seq<Handler> := [];
    ghost var sources: seq<Source> := [];
    ghost var meaning := Segment(lines, state, event, raw);
    var at := 0;
    PrependTwice([], [], meaning);
    while at < |lines|
      invariant at <= |lines| && Stands(handlers, sources, asm)
      invariant meaning == Prepend(sources, Segment(lines[at..], state, event, raw))
    {
      var line := lines[at];
      assert lines[at..][1..] == lines[at + 1..];
      if line.StateLine? || line.OnLine? || line.EndLine? {
        SegmentBoundary(lines[at..], state, event, raw);
        var next := Boundary(line, state, event);
        if line.EndLine? && next.Err? {
          return Err(next.error);
        }
        ghost var rest := if next.Ok? then Segment(lines[at + 1..], next.value.0, next.value.1, []) else Err("");
        PrependTwice(sources, Flush(state, event, raw), rest);
        var closed := CloseHandler(state, event, raw, asm, handlers, sources, rest);
        if closed.Err? {
          return closed;
        }
        if next.Err? {
          return Err(next.error);
        }
        handlers, sources := closed.value, sources + Flush(state, event, raw);
        state, event, raw := next.value.0, next.value.1, [];
      } else if !line.PragmaLine? {
        if event == "" {
          return Err("ogl-command-outside-event");
        }
        raw := raw + [if line.BodyLine? then line.line else BadLine("ogl-unknown-command")];
        if |raw| > MAX_HANDLER_LINES {
          return Err("handler-too-large");
        }
      }
      at := at + 1;
    }
    PrependTwice(sources, Flush(state, event, raw), Ok([]));
    r := CloseHandler(state, event, raw, asm, handlers, sources, Ok([]));
  }

  // `lines` are the lines of the source without comments and blanks.
  method CompileOglScript(size: nat, lines: seq<SourceLine>, asm: Assembler) returns (r: Result<seq<Handler>>)
    ensures r.Ok? <==> ScriptAccepted(size, lines, asm)
    ensures r.Ok? ==> r.value == HandlersOf(SourcesOf(lines).value)
  {
    if size == 0 || size > MAX_TEXT {
      return Err("invalid-script-size");
    }
    if |lines| > MAX_LINES {
      return Err("ogl-too-many-lines");
    }
    var collected := CollectFunctions(lines);
    if collected.Err? {
      return Err(collected.error);
    }
    var expanded := ExpandCalls(collected.value.1, collected.value.0, 0);
    if expanded.Err? {
      return Err(expanded.error);
    }
    r := CutHandlers(expanded.value, asm);
    if r == Ok([]) {
      return Err("no-event-handlers");
    }
  }

  // ---------- the meaning of a compiled script ----------

  function Answering(sources: seq<Source>, event: string, s: VmState): (i: nat)
    ensures i <= |sources|
    ensures i < |sources| ==> sources[i].event == event && sources[i].state == s.state
    ensures forall j :: 0 <= j < i ==> !(sources[j].event == event && sources[j].state == s.state)
  {
    if sources == [] || (sources[0].event == event && sources[0].state == s.state) then 0
    else 1 + Answering(sources[1..], event, s)
  }

  // What the run of a handler comes to, given the meaning of its structured form.
  ghost predicate Delivers(r: VmResult, m: Meaning, budget: nat) {
    if m.Diverged? || m.steps > budget then
      !r.ok && r.error == "instruction-budget-exceeded" && r.instructionsExecuted == budget
    else
      && r.ok == !m.Failed? && r.error == (if m.Failed? then m.error else "")
      && r.instructionsExecuted == m.steps && r.state == m.frame.state && r.actions == m.frame.actions
  }

  // Running the handlers of some sources runs the structured form of the first one for the event and the
  // script's logical state: the same variables, state, actions, error and instruction count when that
  // ends within the budget, the budget error when it does not.
  lemma DeliveryMeansSource(h: Host, sources: seq<Source>, event: string, s: VmState, lim: Limits, payload: string)
    requires forall i :: 0 <= i < |sources| ==> sources[i].state != "*" && Structure(sources[i].raw).Ok?
    ensures var r, i := ExecEvent(h, HandlersOf(sources), event, s, lim, payload), Answering(sources, event, s);
      if i == |sources| then r == VmResult(true, "", 0, s, [])
      else
        Delivers(r, Eval(MachineOf(h, lim), Structure(sources[i].raw).value, Frame(s, []), lim.instructionBudget),
                 lim.instructionBudget)
  {
    var handlers := HandlersOf(sources);
    var i := Answering(sources, event, s);
    assert forall j :: 0 <= j < |sources| ==>
      (Answers(handlers[j], event, s) <==> sources[j].event == event && sources[j].state == s.state);
    assert FindHandler(handlers, event, s) == i;
    if i < |sources| {
      CompiledCodeMeansSource(MachineOf(h, lim), Structure(sources[i].raw).value, Frame(s, []), lim.instructionBudget);
    }
  }

  // No handler of a script is for every state.
  lemma {:induction false} SegmentStates(lines: seq<SourceLine>, state: string, event: string, raw: seq<Line>)
    requires state != "*"
    ensures var r := Segment(lines, state, event, raw); r.Ok? ==> forall source :: source in r.value ==> source.state != "*"
    decreases |lines|
  {
    if lines != [] {
      var rest := lines[1..];
      match lines[0] {
        case PragmaLine => SegmentStates(rest, state, event, raw);
        case StateLine(name) =>
          assert Atom(name) ==> name[0] in name;
          if name != "*" { SegmentStates(rest, name, "", []); }
        case OnLine(name) => SegmentStates(rest, state, name, []);
        case EndLine => SegmentStates(rest, state, "", []);
        case BodyLine(line) => SegmentStates(rest, state, event, raw + [line]);
        case _ => SegmentStates(rest, state, event, raw + [BadLine("ogl-unknown-command")]);
      }
    }
  }

  // From source lines to behaviour: delivering an event to what an accepted script compiles to runs the
  // structured form of its first handler for the event and the script's logical state.
  lemma CompiledScriptMeansSource(
    size: nat, lines: seq<SourceLine>, asm: Assembler, h: Host, event: string, s: VmState, lim: Limits, payload: string)
    requires ScriptAccepted(size, lines, asm)
    ensures var sources := SourcesOf(lines).value;
      var r, i := ExecEvent(h, HandlersOf(sources), event, s, lim, payload), Answering(sources, event, s);
      if i == |sources| then r == VmResult(true, "", 0, s, [])
      else
        Delivers(r, Eval(MachineOf(h, lim), Structure(sources[i].raw).value, Frame(s, []), lim.instructionBudget),
                 lim.instructionBudget)
  {
    var sources := SourcesOf(lines).value;
    var (functions, program) := Collect(lines, map[], []).value;
    SegmentStates(Expand(program, functions, 0, []).value, "default", "", []);
    forall i | 0 <= i < |sources| ensures sources[i].state != "*" && Structure(sources[i].raw).Ok? {
      assert Accepted(sources[i], asm) && sources[i] in sources;
    }
    DeliveryMeansSource(h, sources, event, s, lim, payload);
  }
}
