// From a flat list of OGL lines to jump code: one pass with a stack of open blocks and in-place
// patching of jump targets, and the structure that such a line list has.

module OglCompiler {
  import opened Basics
  import opened ScriptVm
  import opened Text
  import opened OglLanguage

  // A source line after classification; `stepValue` is the value of the text `step`.
  datatype Line =
    | IfLine(c: Cond)
    | ElseLine
    | EndIfLine
    | WhileLine(c: Cond)
    | EndWhileLine
    | ForLine(variable: string, start: string, step: string, stepValue: int, finish: string)
    | EndForLine
    | CommandLine(ins: Command)
    | BadLine(reason: string)

  const MAX_COMMANDS: nat := 1024

  // ---------- the structure of a line list ----------

  function Append(p: Block, q: Block): (r: Block)
    ensures Size(r) == Size(p) + Size(q)
  {
    if p.Done? then q else p.(next := Append(p.next, q))
  }

  // A block that is still open, and what came before it, innermost first.
  datatype Open =
    | OpenIf(c: Cond)
    | OpenElse(c: Cond, thn: Block)
    | OpenWhile(c: Cond)
    | OpenFor(variable: string, start: string, step: string, stepValue: NonZero, finish: string)

  datatype Context = Top | In(outer: Context, before: Block, open: Open)

  // The open blocks and the statements read so far in the innermost one.
  datatype Reading = Reading(ctx: Context, cur: Block)

  function HeadSize(open: Open): nat {
    match open
    case OpenIf(_) => 1
    case OpenElse(_, thn) => 2 + Size(thn)
    case OpenWhile(_) => 1
    case OpenFor(_, _, _, _, _) => 2
  }

  // Where the code of the innermost open block starts.
  function Start(ctx: Context): nat {
    match ctx
    case Top => 0
    case In(outer, before, open) => Start(outer) + Size(before) + HeadSize(open)
  }

  function Enter(r: Reading, open: Open): Reading { Reading(In(r.ctx, r.cur, open), Done) }

  function Leave(r: Reading, b: Block): Reading
    requires r.ctx.In?
  {
    Reading(r.ctx.outer, Append(r.ctx.before, b))
  }

  // Reading one more line.
  function Read(r: Reading, line: Line): Result<Reading> {
    match line
    case IfLine(c) => Ok(Enter(r, OpenIf(c)))
    case ElseLine =>
      if r.ctx.In? && r.ctx.open.OpenIf? then
        Ok(Reading(r.ctx.(open := OpenElse(r.ctx.open.c, r.cur)), Done))
      else Err("ogl-unexpected-else")
    case EndIfLine =>
      if r.ctx.In? && r.ctx.open.OpenIf? then Ok(Leave(r, If(r.ctx.open.c, r.cur, Done)))
      else if r.ctx.In? && r.ctx.open.OpenElse? then
        Ok(Leave(r, IfElse(r.ctx.open.c, r.ctx.open.thn, r.cur, Done)))
      else Err("ogl-unexpected-endif")
    case WhileLine(c) => Ok(Enter(r, OpenWhile(c)))
    case EndWhileLine =>
      if r.ctx.In? && r.ctx.open.OpenWhile? then Ok(Leave(r, While(r.ctx.open.c, r.cur, Done)))
      else Err("ogl-unexpected-endwhile")
    case ForLine(v, start, step, value, finish) =>
      if value == 0 then Err("ogl-for-zero-step") else Ok(Enter(r, OpenFor(v, start, step, value, finish)))
    case EndForLine =>
      if r.ctx.In? && r.ctx.open.OpenFor? then
        var o := r.ctx.open;
        Ok(Leave(r, For(o.variable, o.start, o.step, o.stepValue, o.finish, r.cur, Done)))
      else Err("ogl-unexpected-endfor")
    case CommandLine(ins) =>
      if Start(r.ctx) + Size(r.cur) + 1 > MAX_COMMANDS then Err("handler-too-large")
      else Ok(r.(cur := Append(r.cur, Do(ins, Done))))
    case BadLine(reason) => Err(reason)
  }

  function ReadAll(r: Reading, lines: seq<Line>): Result<Block>
    decreases |lines|
  {
    if lines == [] then
      if r.ctx.Top? then Ok(r.cur) else Err("ogl-unclosed-control-flow")
    else
      match Read(r, lines[0])
      case Err(e) => Err(e)
      case Ok(s) => ReadAll(s, lines[1..])
  }

  // The structured form of a line list, or the first complaint about it.
  function Structure(lines: seq<Line>): Result<Block> { ReadAll(Reading(Top, Done), lines) }

  // ---------- structure and lines determine each other ----------

  function Flatten(b: Block): seq<Line> {
    match b
    case Done => []
    case Do(ins, next) => [CommandLine(ins)] + Flatten(next)
    case If(c, thn, next) => [IfLine(c)] + Flatten(thn) + ([EndIfLine] + Flatten(next))
    case IfElse(c, thn, els, next) =>
      [IfLine(c)] + Flatten(thn) + ([ElseLine] + (Flatten(els) + ([EndIfLine] + Flatten(next))))
    case While(c, body, next) => [WhileLine(c)] + Flatten(body) + ([EndWhileLine] + Flatten(next))
    case For(v, start, step, value, finish, body, next) =>
      [ForLine(v, start, step, value, finish)] + Flatten(body) + ([EndForLine] + Flatten(next))
  }

  function HeadLines(open: Open): seq<Line> {
    match open
    case OpenIf(c) => [IfLine(c)]
    case OpenElse(c, thn) => [IfLine(c)] + Flatten(thn) + [ElseLine]
    case OpenWhile(c) => [WhileLine(c)]
    case OpenFor(v, start, step, value, finish) => [ForLine(v, start, step, value, finish)]
  }

  function ContextLines(ctx: Context): seq<Line> {
    match ctx
    case Top => []
    case In(outer, before, open) => ContextLines(outer) + Flatten(before) + HeadLines(open)
  }

  function LinesOf(r: Reading): seq<Line> { ContextLines(r.ctx) + Flatten(r.cur) }

  // A block's first statement alone.
  function First(b: Block): Block
    requires !b.Done?
  {
    b.(next := Done)
  }

  // The lines of a block are those of its first statement and those of the rest.
  lemma FlattenWith(p: Block, next: Block)
    requires !p.Done?
    ensures Flatten(p.(next := next)) == Flatten(First(p)) + Flatten(next)
  {
  }

  lemma {:induction false} FlattenAppend(p: Block, q: Block)
    ensures Flatten(Append(p, q)) == Flatten(p) + Flatten(q)
    decreases p
  {
    if !p.Done? {
      FlattenWith(p, p.next);
      FlattenWith(p, Append(p.next, q));
      FlattenAppend(p.next, q);
      Associative(Flatten(First(p)), Flatten(p.next), Flatten(q));
    }
  }

  lemma Associative(a: seq<Line>, b: seq<Line>, c: seq<Line>)
    ensures a + b + c == a + (b + c)
  {
  }

  lemma Regroup(outer: seq<Line>, before: seq<Line>, head: seq<Line>, cur: seq<Line>, close: seq<Line>)
    ensures outer + (before + (head + cur + close)) == outer + before + head + cur + close
  {
  }

  lemma LeaveKeepsLines(r: Reading, b: Block, close: Line)
    requires r.ctx.In? && Flatten(b) == HeadLines(r.ctx.open) + Flatten(r.cur) + [close]
    ensures LinesOf(Leave(r, b)) == LinesOf(r) + [close]
  {
    FlattenAppend(r.ctx.before, b);
    Regroup(ContextLines(r.ctx.outer), Flatten(r.ctx.before), HeadLines(r.ctx.open), Flatten(r.cur), [close]);
  }

  lemma ReadKeepsLines(r: Reading, line: Line)
    requires Read(r, line).Ok?
    ensures LinesOf(Read(r, line).value) == LinesOf(r) + [line]
  {
    match line
    case EndIfLine => EndIfKeepsLines(r);
    case EndWhileLine => EndWhileKeepsLines(r);
    case EndForLine => EndForKeepsLines(r);
    case CommandLine(ins) => FlattenAppend(r.cur, Do(ins, Done));
    case ElseLine => ElseKeepsLines(r);
    case _ =>
  }

  lemma ElseKeepsLines(r: Reading)
    requires Read(r, ElseLine).Ok?
    ensures LinesOf(Read(r, ElseLine).value) == LinesOf(r) + [ElseLine]
  {
  }

  lemma EndIfKeepsLines(r: Reading)
    requires Read(r, EndIfLine).Ok?
    ensures LinesOf(Read(r, EndIfLine).value) == LinesOf(r) + [EndIfLine]
  {
    if r.ctx.open.OpenIf? {
      LeaveKeepsLines(r, If(r.ctx.open.c, r.cur, Done), EndIfLine);
    } else {
      LeaveKeepsLines(r, IfElse(r.ctx.open.c, r.ctx.open.thn, r.cur, Done), EndIfLine);
    }
  }

  lemma EndWhileKeepsLines(r: Reading)
    requires Read(r, EndWhileLine).Ok?
    ensures LinesOf(Read(r, EndWhileLine).value) == LinesOf(r) + [EndWhileLine]
  {
    LeaveKeepsLines(r, While(r.ctx.open.c, r.cur, Done), EndWhileLine);
  }

  lemma EndForKeepsLines(r: Reading)
    requires Read(r, EndForLine).Ok?
    ensures LinesOf(Read(r, EndForLine).value) == LinesOf(r) + [EndForLine]
  {
    var o := r.ctx.open;
    LeaveKeepsLines(r, For(o.variable, o.start, o.step, o.stepValue, o.finish, r.cur, Done), EndForLine);
  }

  lemma {:induction false} ReadAllSound(r: Reading, lines: seq<Line>)
    requires ReadAll(r, lines).Ok?
    ensures Flatten(ReadAll(r, lines).value) == LinesOf(r) + lines
    decreases |lines|
  {
    if lines != [] {
      ReadKeepsLines(r, lines[0]);
      ReadAllSound(Read(r, lines[0]).value, lines[1..]);
    }
  }

  lemma {:induction false} AppendDone(p: Block, q: Block, s: Block)
    ensures Append(p, Done) == p
    ensures Append(Append(p, q), s) == Append(p, Append(q, s))
  {
    if !p.Done? {
      AppendDone(p.next, q, s);
    }
  }

  lemma ReadOne(r: Reading, line: Line, rest: seq<Line>)
    requires Read(r, line).Ok?
    ensures ReadAll(r, [line] + rest) == ReadAll(Read(r, line).value, rest)
  {
    assert ([line] + rest)[1..] == rest;
  }

  // Every plain command of a block lies among the first commands the compiler allows, when the block's
  // code starts at `at`. Control flow on its own is not counted against that limit.
  predicate Room(b: Block, at: nat)
    decreases b, 1
  {
    b.Done? || (RoomFirst(b, at) && Room(b.next, at + Size(b) - Size(b.next)))
  }

  // The same for a block's first statement.
  predicate RoomFirst(b: Block, at: nat)
    requires !b.Done?
    decreases b, 0
  {
    match b
    case Do(_, _) => at + 1 <= MAX_COMMANDS
    case If(_, thn, _) => Room(thn, at + 1)
    case IfElse(_, thn, els, _) => Room(thn, at + 1) && Room(els, at + 2 + Size(thn))
    case While(_, body, _) => Room(body, at + 1)
    case For(_, _, _, _, _, body, _) => Room(body, at + 2)
  }

  lemma {:induction false} RoomWhenSmall(b: Block, at: nat)
    requires at + Size(b) <= MAX_COMMANDS
    ensures Room(b, at)
    decreases b
  {
    if !b.Done? {
      RoomWhenSmall(b.next, at + Size(b) - Size(b.next));
      match b
      case Do(_, _) =>
      case If(_, thn, _) => RoomWhenSmall(thn, at + 1);
      case IfElse(_, thn, els, _) =>
        RoomWhenSmall(thn, at + 1);
        RoomWhenSmall(els, at + 2 + Size(thn));
      case While(_, body, _) => RoomWhenSmall(body, at + 1);
      case For(_, _, _, _, _, body, _) => RoomWhenSmall(body, at + 2);
    }
  }

  // Where the next command goes.
  function Position(r: Reading): nat { Start(r.ctx) + Size(r.cur) }

  // What reading goes on with when a part had room, and when it had not.
  function IfRoom(room: bool, goesOn: Result<Block>): Result<Block> {
    if room then goesOn else Err("handler-too-large")
  }

  lemma FirstAppend(b: Block)
    requires !b.Done?
    ensures Append(First(b), b.next) == b && Size(First(b)) == Size(b) - Size(b.next)
  {
  }

  // A block is read back from its lines, in any context, exactly when it has room there.
  lemma {:induction false} ReadBlock(r: Reading, b: Block, rest: seq<Line>)
    ensures ReadAll(r, Flatten(b) + rest) ==
      IfRoom(Room(b, Position(r)), ReadAll(Reading(r.ctx, Append(r.cur, b)), rest))
    decreases b, 3
  {
    if b.Done? {
      AppendDone(r.cur, Done, Done);
      assert Flatten(b) + rest == rest;
    } else {
      ReadParts(r, b, First(b), b.next, rest);
    }
  }

  // A block's first statement, then the others.
  lemma {:induction false} ReadParts(r: Reading, b: Block, first: Block, next: Block, rest: seq<Line>)
    requires !b.Done? && first == First(b) && next == b.next
    ensures ReadAll(r, Flatten(b) + rest) ==
      IfRoom(Room(b, Position(r)), ReadAll(Reading(r.ctx, Append(r.cur, b)), rest))
    decreases b, 2
  {
    ReadFirst(r, b, rest);
    FirstAppend(b);
    RoomParts(b, Position(r));
    ReadRest(r, first, next, rest);
  }

  lemma RoomParts(b: Block, at: nat)
    requires !b.Done?
    ensures Room(b, at) == (RoomFirst(b, at) && Room(b.next, at + Size(First(b))))
  {
    FirstAppend(b);
  }

  ghost predicate FirstRead(r: Reading, b: Block, rest: seq<Line>)
    requires !b.Done?
  {
    ReadAll(r, Flatten(b) + rest) ==
      IfRoom(RoomFirst(b, Position(r)), ReadAll(Reading(r.ctx, Append(r.cur, First(b))), Flatten(b.next) + rest))
  }

  lemma {:induction false} ReadFirst(r: Reading, b: Block, rest: seq<Line>)
    requires !b.Done?
    ensures FirstRead(r, b, rest)
    decreases b, 1
  {
    match b
    case Do(_, _) => ReadDo(r, b, rest);
    case If(_, _, _) => ReadIf(r, b, rest);
    case IfElse(_, _, _, _) => ReadIfElse(r, b, rest);
    case While(_, _, _) => ReadWhile(r, b, rest);
    case For(_, _, _, _, _, _, _) => ReadFor(r, b, rest);
  }

  lemma ReadDo(r: Reading, b: Block, rest: seq<Line>)
    requires b.Do?
    ensures FirstRead(r, b, rest)
  {
    assert Flatten(b) + rest == [CommandLine(b.ins)] + (Flatten(b.next) + rest);
    if Read(r, CommandLine(b.ins)).Ok? {
      ReadOne(r, CommandLine(b.ins), Flatten(b.next) + rest);
    }
  }

  lemma {:induction false} ReadIf(r: Reading, b: Block, rest: seq<Line>)
    requires b.If?
    ensures FirstRead(r, b, rest)
    decreases b.thn, 6
  {
    ReadArm(r, IfLine(b.c), b.thn, EndIfLine, Flatten(b.next), rest);
  }

  lemma {:induction false} ReadWhile(r: Reading, b: Block, rest: seq<Line>)
    requires b.While?
    ensures FirstRead(r, b, rest)
    decreases b.body, 6
  {
    ReadArm(r, WhileLine(b.c), b.body, EndWhileLine, Flatten(b.next), rest);
  }

  lemma {:induction false} ReadFor(r: Reading, b: Block, rest: seq<Line>)
    requires b.For?
    ensures FirstRead(r, b, rest)
    decreases b.body, 6
  {
    var head := ForLine(b.variable, b.start, b.step, b.stepValue, b.finish);
    ReadArm(r, head, b.body, EndForLine, Flatten(b.next), rest);
  }

  lemma {:induction false} ReadIfElse(r: Reading, b: Block, rest: seq<Line>)
    requires b.IfElse?
    ensures FirstRead(r, b, rest)
    decreases b, 0
  {
    ReadThen(r, b, rest);
    ReadElse(r, b, rest);
  }

  // The first arm.
  lemma {:induction false} ReadThen(r: Reading, b: Block, rest: seq<Line>)
    requires b.IfElse?
    ensures var inner := Reading(In(r.ctx, r.cur, OpenElse(b.c, b.thn)), Done);
      ReadAll(r, Flatten(b) + rest) ==
        IfRoom(Room(b.thn, Position(r) + 1), ReadAll(inner, Flatten(b.els) + ([EndIfLine] + Flatten(b.next)) + rest))
    decreases b.thn, 6
  {
    ReadArm(r, IfLine(b.c), b.thn, ElseLine, Flatten(b.els) + ([EndIfLine] + Flatten(b.next)), rest);
  }

  // The second arm.
  lemma {:induction false} ReadElse(r: Reading, b: Block, rest: seq<Line>)
    requires b.IfElse?
    ensures var inner, at := Reading(In(r.ctx, r.cur, OpenElse(b.c, b.thn)), Done), Position(r) + 2 + Size(b.thn);
      ReadAll(inner, Flatten(b.els) + ([EndIfLine] + Flatten(b.next)) + rest) ==
        IfRoom(Room(b.els, at), ReadAll(Reading(r.ctx, Append(r.cur, First(b))), Flatten(b.next) + rest))
    decreases b.els, 6
  {
    ReadInner(In(r.ctx, r.cur, OpenElse(b.c, b.thn)), b.els, EndIfLine, Flatten(b.next), rest);
  }

  // The block inside an open one, and the line after it.
  lemma {:induction false} ReadInner(ctx: Context, arm: Block, close: Line, after: seq<Line>, rest: seq<Line>)
    requires Read(Reading(ctx, arm), close).Ok?
    ensures ReadAll(Reading(ctx, Done), Flatten(arm) + ([close] + after) + rest) ==
      IfRoom(Room(arm, Start(ctx)), ReadAll(Read(Reading(ctx, arm), close).value, after + rest))
    decreases arm, 4
  {
    assert Flatten(arm) + ([close] + after) + rest == Flatten(arm) + ([close] + (after + rest));
    ReadBlock(Reading(ctx, Done), arm, [close] + (after + rest));
    ReadOne(Reading(ctx, arm), close, after + rest);
  }

  // The same with the line that opened the block.
  lemma {:induction false} ReadArm(r: Reading, head: Line, arm: Block, close: Line, after: seq<Line>, rest: seq<Line>)
    requires head.IfLine? || head.WhileLine? || (head.ForLine? && head.stepValue != 0)
    requires Read(Reading(Read(r, head).value.ctx, arm), close).Ok?
    ensures var ctx := Read(r, head).value.ctx;
      ReadAll(r, [head] + Flatten(arm) + ([close] + after) + rest) ==
        IfRoom(Room(arm, Start(ctx)), ReadAll(Read(Reading(ctx, arm), close).value, after + rest))
    decreases arm, 5
  {
    var inner := Flatten(arm) + ([close] + after) + rest;
    assert [head] + Flatten(arm) + ([close] + after) + rest == [head] + inner;
    ReadOne(r, head, inner);
    ReadInner(Read(r, head).value.ctx, arm, close, after, rest);
  }

  // The statements after a statement b that has been read.
  lemma {:induction false} ReadRest(r: Reading, b: Block, next: Block, rest: seq<Line>)
    ensures ReadAll(Reading(r.ctx, Append(r.cur, b)), Flatten(next) + rest) ==
      IfRoom(Room(next, Position(r) + Size(b)), ReadAll(Reading(r.ctx, Append(r.cur, Append(b, next))), rest))
    decreases next, 4
  {
    ReadBlock(Reading(r.ctx, Append(r.cur, b)), next, rest);
    AppendDone(r.cur, b, next);
  }

  // A line list has a structure exactly when it is some block written out that has room for its
  // commands, and a block written out has no other structure.
  lemma StructureExact(lines: seq<Line>, b: Block)
    ensures Structure(lines) == Ok(b) <==> lines == Flatten(b) && Room(b, 0)
  {
    if Structure(lines) == Ok(b) {
      ReadAllSound(Reading(Top, Done), lines);
      assert LinesOf(Reading(Top, Done)) + lines == lines;
    }
    WrittenStructure(b);
  }

  // What reading a block written out gives.
  lemma WrittenStructure(b: Block)
    ensures Structure(Flatten(b)) == IfRoom(Room(b, 0), Ok(b))
  {
    assert Flatten(b) + [] == Flatten(b);
    ReadBlock(Reading(Top, Done), b, []);
    ReadNothing(b);
  }

  lemma ReadNothing(b: Block)
    ensures ReadAll(Reading(Top, Append(Done, b)), []) == Ok(b)
  {
  }

  // ---------- the one-pass compiler ----------

  datatype Kind = IfKind | WhileKind | ForKind

  datatype Record = Record(kind: Kind, conditionIndex: nat, exitJump: Option<nat>, variable: string, step: string)

  function PatchTarget(commands: seq<Instruction>, index: nat, target: nat): Option<seq<Instruction>> {
    if index >= |commands| || !Jumps(commands[index]) then None
    else Some(commands[index := commands[index].(target := target)])
  }

  // The records the compiler keeps for the open blocks, innermost last.
  function Records(ctx: Context): seq<Record> {
    match ctx
    case Top => []
    case In(outer, before, open) =>
      var h := Start(outer) + Size(before);
      Records(outer) + [
        match open
        case OpenIf(_) => Record(IfKind, h, None, "", "")
        case OpenElse(_, thn) => Record(IfKind, h, Some(h + 1 + Size(thn)), "", "")
        case OpenWhile(_) => Record(WhileKind, h, None, "", "")
        case OpenFor(v, _, step, _, _) => Record(ForKind, h + 1, None, v, step)]
  }

  // The code of everything before the innermost open block's own statements; the jumps that wait
  // for their target still hold 0.
  ghost predicate Begun(code: seq<Instruction>, ctx: Context) {
    Start(ctx) <= |code| &&
    match ctx
    case Top => true
    case In(outer, before, open) =>
      var h := Start(outer) + Size(before);
      && Begun(code, outer) && Installed(code, before, Start(outer))
      && OpenBegun(code, open, h)
  }

  // The head of the innermost open block, at index h.
  ghost predicate OpenBegun(code: seq<Instruction>, open: Open, h: nat) {
    h + HeadSize(open) <= |code| &&
    match open
    case OpenIf(c) => code[h] == JFalse(c, 0)
    case OpenElse(c, thn) =>
      var hop := h + 1 + Size(thn);
      code[h] == JFalse(c, hop + 1) && Installed(code, thn, h + 1) && code[hop] == Jump(0)
    case OpenWhile(c) => code[h] == JFalse(c, 0)
    case OpenFor(v, start, _, value, finish) =>
      code[h] == SetIns(v, start) && code[h + 1] == JFalse(ForCond(v, value, finish), 0)
  }

  ghost predicate Tracks(code: seq<Instruction>, blocks: seq<Record>, r: Reading) {
    && Begun(code, r.ctx) && Installed(code, r.cur, Start(r.ctx))
    && |code| == Start(r.ctx) + Size(r.cur) && blocks == Records(r.ctx)
  }

  lemma InstalledFrame(code: seq<Instruction>, other: seq<Instruction>, b: Block, at: nat)
    requires Installed(code, b, at) && at + Size(b) <= |other|
    requires forall i :: at <= i < at + Size(b) ==> code[i] == other[i]
    ensures Installed(other, b, at)
  {
  }

  lemma {:induction false} BegunFrame(code: seq<Instruction>, other: seq<Instruction>, ctx: Context)
    requires Begun(code, ctx) && Start(ctx) <= |other|
    requires forall i :: 0 <= i < Start(ctx) ==> code[i] == other[i]
    ensures Begun(other, ctx)
    decreases ctx
  {
    if ctx.In? {
      var h := Start(ctx.outer) + Size(ctx.before);
      BegunFrame(code, other, ctx.outer);
      InstalledFrame(code, other, ctx.before, Start(ctx.outer));
      OpenFrame(code, other, ctx.open, h);
    }
  }

  lemma OpenFrame(code: seq<Instruction>, other: seq<Instruction>, open: Open, h: nat)
    requires OpenBegun(code, open, h) && h + HeadSize(open) <= |other|
    requires forall i :: h <= i < h + HeadSize(open) ==> code[i] == other[i]
    ensures OpenBegun(other, open, h)
  {
    if open.OpenElse? {
      InstalledFrame(code, other, open.thn, h + 1);
    }
  }

  // A statement's own instructions and parts do not depend on what follows it.
  lemma AssembledWith(code: seq<Instruction>, p: Block, next: Block, at: nat)
    requires !p.Done? && Assembled(code, p, at) && Installed(code, next, at + Size(p) - Size(p.next))
    ensures Assembled(code, p.(next := next), at)
  {
    var q := p.(next := next);
    if p.IfElse? {
      ArmsWith(code, p, q, at);
    } else if p.For? {
      ForWith(code, p, q, at);
    } else if p.While? {
      WhileWith(code, p, q, at);
    }
  }

  lemma ArmsWith(code: seq<Instruction>, p: Block, q: Block, at: nat)
    requires p.IfElse? && q.IfElse? && q.c == p.c && q.thn == p.thn && q.els == p.els
    requires Assembled(code, p, at) && Installed(code, q.next, at + Size(p) - Size(p.next))
    ensures Assembled(code, q, at)
  {
  }

  lemma ForWith(code: seq<Instruction>, p: Block, q: Block, at: nat)
    requires p.For? && q.For? && q.variable == p.variable && q.start == p.start && q.step == p.step
    requires q.stepValue == p.stepValue && q.finish == p.finish && q.body == p.body
    requires Assembled(code, p, at) && Installed(code, q.next, at + Size(p) - Size(p.next))
    ensures Assembled(code, q, at)
  {
  }

  lemma WhileWith(code: seq<Instruction>, p: Block, q: Block, at: nat)
    requires p.While? && q.While? && q.c == p.c && q.body == p.body
    requires Assembled(code, p, at) && Installed(code, q.next, at + Size(p) - Size(p.next))
    ensures Assembled(code, q, at)
  {
  }

  lemma InstalledNext(code: seq<Instruction>, p: Block, at: nat)
    requires !p.Done? && Assembled(code, p, at)
    ensures Installed(code, p.next, at + Size(p) - Size(p.next))
  {
  }

  lemma InstalledWith(code: seq<Instruction>, p: Block, next: Block, at: nat)
    requires !p.Done? && Assembled(code, p, at) && Installed(code, next, at + Size(p) - Size(p.next))
    ensures Installed(code, p.(next := next), at)
  {
    AssembledWith(code, p, next, at);
    AssembledIsInstalled(code, p.(next := next), at);
  }

  lemma {:induction false} InstalledAppend(code: seq<Instruction>, p: Block, q: Block, at: nat)
    requires Installed(code, p, at) && Installed(code, q, at + Size(p))
    ensures Installed(code, Append(p, q), at)
    decreases p
  {
    if !p.Done? {
      InstalledIsAssembled(code, p, at);
      InstalledNext(code, p, at);
      InstalledAppend(code, p.next, q, at + Size(p) - Size(p.next));
      InstalledWith(code, p, Append(p.next, q), at);
    }
  }

  // Adding commands at the end keeps what is tracked, with the new commands as one more statement.
  lemma TracksPush(code: seq<Instruction>, more: seq<Instruction>, blocks: seq<Record>, r: Reading, b: Block)
    requires Tracks(code, blocks, r) && |more| == Size(b) && Installed(code + more, b, |code|)
    ensures Tracks(code + more, blocks, r.(cur := Append(r.cur, b)))
  {
    BegunFrame(code, code + more, r.ctx);
    InstalledFrame(code, code + more, r.cur, Start(r.ctx));
    InstalledAppend(code + more, r.cur, b, Start(r.ctx));
  }

  // Opening a block.
  lemma TracksEnter(code: seq<Instruction>, more: seq<Instruction>, blocks: seq<Record>, r: Reading, open: Open)
    requires Tracks(code, blocks, r) && !open.OpenElse?
    requires open.OpenFor? ==>
      more == [SetIns(open.variable, open.start), JFalse(ForCond(open.variable, open.stepValue, open.finish), 0)]
    requires open.OpenIf? || open.OpenWhile? ==> more == [JFalse(open.c, 0)]
    ensures Tracks(code + more, Records(Enter(r, open).ctx), Enter(r, open))
  {
    BegunFrame(code, code + more, r.ctx);
    InstalledFrame(code, code + more, r.cur, Start(r.ctx));
  }

  // Closing a block: `code` becomes `closed`, in which the whole block b is installed.
  lemma TracksLeave(code: seq<Instruction>, closed: seq<Instruction>, outer: Context, before: Block, b: Block)
    requires Begun(code, outer) && Installed(code, before, Start(outer))
    requires var h := Start(outer) + Size(before);
      && h + Size(b) == |closed| && Installed(closed, b, h)
      && forall i :: 0 <= i < h ==> closed[i] == code[i]
    ensures Tracks(closed, Records(outer), Reading(outer, Append(before, b)))
  {
    AppendFrame(code, closed, before, b, Start(outer));
    LeaveParts(code, closed, outer, Append(before, b));
  }

  lemma BegunOuter(code: seq<Instruction>, ctx: Context)
    requires ctx.In? && Begun(code, ctx)
    ensures Begun(code, ctx.outer) && Installed(code, ctx.before, Start(ctx.outer))
  {
  }

  lemma LeaveParts(code: seq<Instruction>, closed: seq<Instruction>, outer: Context, cur: Block)
    requires Begun(code, outer) && Installed(closed, cur, Start(outer)) && Start(outer) + Size(cur) == |closed|
    requires forall i :: 0 <= i < Start(outer) ==> closed[i] == code[i]
    ensures Tracks(closed, Records(outer), Reading(outer, cur))
  {
    BegunFrame(code, closed, outer);
    TracksOf(closed, outer, cur);
  }

  lemma TracksOf(code: seq<Instruction>, ctx: Context, cur: Block)
    requires Begun(code, ctx) && Installed(code, cur, Start(ctx)) && |code| == Start(ctx) + Size(cur)
    ensures Tracks(code, Records(ctx), Reading(ctx, cur))
  {
  }

  lemma AppendFrame(code: seq<Instruction>, closed: seq<Instruction>, p: Block, b: Block, at: nat)
    requires Installed(code, p, at) && Installed(closed, b, at + Size(p))
    requires forall i :: at <= i < at + Size(p) ==> closed[i] == code[i]
    ensures Installed(closed, Append(p, b), at)
  {
    InstalledFrame(code, closed, p, at);
    InstalledAppend(closed, p, b, at);
  }

  lemma RecordsLeave(ctx: Context)
    requires ctx.In?
    ensures var blocks := Records(ctx); blocks != [] && blocks[..|blocks| - 1] == Records(ctx.outer)
  {
  }

  // The jump at i leads forward: it was emitted as a placeholder and patched.
  predicate Forward(code: seq<Instruction>, i: nat)
    requires i < |code|
  {
    Jumps(code[i]) && code[i].target > i
  }

  // Every forward jump has been patched exactly once, and nothing else has been patched.
  ghost predicate PatchedOnce(code: seq<Instruction>, patched: seq<nat>) {
    && (forall i :: i in patched ==> i < |code|)
    && forall i :: 0 <= i < |code| ==> multiset(patched)[i] == if Forward(code, i) then 1 else 0
  }

  lemma PatchedPush(code: seq<Instruction>, more: seq<Instruction>, patched: seq<nat>)
    requires PatchedOnce(code, patched)
    requires forall k :: 0 <= k < |more| && Jumps(more[k]) ==> more[k].target <= |code|
    ensures PatchedOnce(code + more, patched)
  {
    forall i | 0 <= i < |code + more| ensures multiset(patched)[i] == if Forward(code + more, i) then 1 else 0 {
      if i < |code| {
        assert Forward(code + more, i) == Forward(code, i);
      } else {
        assert i !in patched && (code + more)[i] == more[i - |code|];
      }
    }
  }

  lemma PatchedPatch(code: seq<Instruction>, index: nat, patched: seq<nat>)
    requires PatchedOnce(code, patched) && index < |code| && Jumps(code[index]) && code[index].target == 0
    ensures PatchedOnce(code[index := code[index].(target := |code|)], patched + [index])
  {
    var after := code[index := code[index].(target := |code|)];
    assert multiset(patched + [index]) == multiset(patched) + multiset{index};
    assert !Forward(code, index) && Forward(after, index);
    forall i | 0 <= i < |after| ensures multiset(patched + [index])[i] == if Forward(after, i) then 1 else 0 {
      if i != index {
        assert Forward(after, i) == Forward(code, i);
      }
    }
  }

  function Patched(code: seq<Instruction>, index: nat): seq<Instruction>
    requires index < |code|
  {
    code[index := code[index].(target := |code|)]
  }

  lemma ElseRecords(r: Reading)
    requires r.ctx.In? && r.ctx.open.OpenIf?
    ensures var blocks, h := Records(r.ctx), Start(r.ctx.outer) + Size(r.ctx.before);
      && blocks != [] && blocks[|blocks| - 1] == Record(IfKind, h, None, "", "")
      && Records(Read(r, ElseLine).value.ctx) == blocks[|blocks| - 1 := Record(IfKind, h, Some(h + 1 + Size(r.cur)), "", "")]
  {
  }

  lemma TracksElse(code: seq<Instruction>, blocks: seq<Record>, r: Reading)
    requires Tracks(code, blocks, r) && r.ctx.In? && r.ctx.open.OpenIf?
    ensures blocks != [] && blocks[|blocks| - 1].kind.IfKind? && blocks[|blocks| - 1].exitJump.None?
    ensures var top := blocks[|blocks| - 1];
      var after := code + [Jump(0)];
      && top.conditionIndex < |code| && Jumps(after[top.conditionIndex]) && after[top.conditionIndex].target == 0
      && Tracks(Patched(after, top.conditionIndex), blocks[|blocks| - 1 := top.(exitJump := Some(|code|))],
                Read(r, ElseLine).value)
  {
    ElseRecords(r);
    ElseBegun(code, r);
  }

  lemma ElseBegun(code: seq<Instruction>, r: Reading)
    requires Begun(code, r.ctx) && r.ctx.In? && r.ctx.open.OpenIf?
    requires Installed(code, r.cur, Start(r.ctx)) && |code| == Start(r.ctx) + Size(r.cur)
    ensures Begun(Patched(code + [Jump(0)], Start(r.ctx.outer) + Size(r.ctx.before)), Read(r, ElseLine).value.ctx)
  {
    var h := Start(r.ctx.outer) + Size(r.ctx.before);
    var after := Patched(code + [Jump(0)], h);
    BegunOuter(code, r.ctx);
    BegunFrame(code, after, r.ctx.outer);
    InstalledFrame(code, after, r.ctx.before, Start(r.ctx.outer));
    ElseHead(code, r.ctx.open, r.cur, h);
  }

  // The head of a conditional whose first arm has just been closed.
  lemma ElseHead(code: seq<Instruction>, open: Open, thn: Block, h: nat)
    requires open.OpenIf? && OpenBegun(code, open, h) && Installed(code, thn, h + 1) && |code| == h + 1 + Size(thn)
    ensures OpenBegun(Patched(code + [Jump(0)], h), OpenElse(open.c, thn), h)
  {
    InstalledFrame(code, Patched(code + [Jump(0)], h), thn, h + 1);
  }

  lemma InstalledIf(code: seq<Instruction>, b: Block, h: nat)
    requires b.If? && b.next.Done? && h + Size(b) == |code|
    requires code[h] == JFalse(b.c, 0) && Installed(code, b.thn, h + 1)
    ensures Installed(Patched(code, h), b, h)
  {
    var after := Patched(code, h);
    InstalledFrame(code, after, b.thn, h + 1);
    AssembledIsInstalled(after, b, h);
  }

  // Closing a conditional: the waiting jump now leads past it.
  lemma TracksEndIf(code: seq<Instruction>, blocks: seq<Record>, r: Reading)
    requires Tracks(code, blocks, r) && r.ctx.In? && r.ctx.open.OpenIf?
    ensures blocks != [] && blocks[|blocks| - 1].kind.IfKind? && blocks[|blocks| - 1].exitJump.None?
    ensures var index := blocks[|blocks| - 1].conditionIndex;
      && index < |code| && Jumps(code[index]) && code[index].target == 0
      && Tracks(Patched(code, index), blocks[..|blocks| - 1], Read(r, EndIfLine).value)
  {
    var h := Start(r.ctx.outer) + Size(r.ctx.before);
    var b := If(r.ctx.open.c, r.cur, Done);
    InstalledIf(code, b, h);
    TracksLeave(code, Patched(code, h), r.ctx.outer, r.ctx.before, b);
    RecordsLeave(r.ctx);
  }

  lemma InstalledIfElse(code: seq<Instruction>, b: Block, h: nat)
    requires b.IfElse? && b.next.Done? && h + Size(b) == |code|
    requires var hop := h + 1 + Size(b.thn);
      && code[h] == JFalse(b.c, hop + 1) && Installed(code, b.thn, h + 1) && code[hop] == Jump(0)
      && Installed(code, b.els, hop + 1)
    ensures Installed(Patched(code, h + 1 + Size(b.thn)), b, h)
  {
    var after := Patched(code, h + 1 + Size(b.thn));
    InstalledFrame(code, after, b.thn, h + 1);
    InstalledFrame(code, after, b.els, h + 2 + Size(b.thn));
    AssembledIsInstalled(after, b, h);
  }

  lemma TracksEndIfElse(code: seq<Instruction>, blocks: seq<Record>, r: Reading)
    requires Tracks(code, blocks, r) && r.ctx.In? && r.ctx.open.OpenElse?
    ensures blocks != [] && blocks[|blocks| - 1].kind.IfKind? && blocks[|blocks| - 1].exitJump.Some?
    ensures var index := blocks[|blocks| - 1].exitJump.value;
      && index < |code| && Jumps(code[index]) && code[index].target == 0
      && Tracks(Patched(code, index), blocks[..|blocks| - 1], Read(r, EndIfLine).value)
  {
    var h := Start(r.ctx.outer) + Size(r.ctx.before);
    var open := r.ctx.open;
    var b := IfElse(open.c, open.thn, r.cur, Done);
    InstalledIfElse(code, b, h);
    TracksLeave(code, Patched(code, h + 1 + Size(open.thn)), r.ctx.outer, r.ctx.before, b);
    RecordsLeave(r.ctx);
  }

  lemma InstalledWhile(code: seq<Instruction>, b: Block, h: nat)
    requires b.While? && b.next.Done? && h + 1 + Size(b.body) == |code|
    requires code[h] == JFalse(b.c, 0) && Installed(code, b.body, h + 1)
    ensures Installed(Patched(code + [Jump(h)], h), b, h)
  {
    var after := Patched(code + [Jump(h)], h);
    InstalledFrame(code, after, b.body, h + 1);
    AssembledIsInstalled(after, b, h);
  }

  lemma TracksEndWhile(code: seq<Instruction>, blocks: seq<Record>, r: Reading)
    requires Tracks(code, blocks, r) && r.ctx.In? && r.ctx.open.OpenWhile?
    ensures blocks != [] && blocks[|blocks| - 1].kind.WhileKind?
    ensures var index := blocks[|blocks| - 1].conditionIndex;
      && index < |code| && Jumps(code[index]) && code[index].target == 0
      && Tracks(Patched(code + [Jump(index)], index), blocks[..|blocks| - 1], Read(r, EndWhileLine).value)
  {
    var h := Start(r.ctx.outer) + Size(r.ctx.before);
    var b := While(r.ctx.open.c, r.cur, Done);
    InstalledWhile(code, b, h);
    TracksLeave(code, Patched(code + [Jump(h)], h), r.ctx.outer, r.ctx.before, b);
    RecordsLeave(r.ctx);
  }

  lemma InstalledFor(code: seq<Instruction>, b: Block, h: nat)
    requires b.For? && b.next.Done? && h + 2 + Size(b.body) == |code|
    requires code[h] == SetIns(b.variable, b.start) && code[h + 1] == JFalse(LoopCond(b), 0)
    requires Installed(code, b.body, h + 2)
    ensures Installed(Patched(code + [AddIns(b.variable, b.step), Jump(h + 1)], h + 1), b, h)
  {
    var after := Patched(code + [AddIns(b.variable, b.step), Jump(h + 1)], h + 1);
    InstalledFrame(code, after, b.body, h + 2);
    AssembledIsInstalled(after, b, h);
  }

  lemma TracksEndFor(code: seq<Instruction>, blocks: seq<Record>, r: Reading)
    requires Tracks(code, blocks, r) && r.ctx.In? && r.ctx.open.OpenFor?
    ensures blocks != [] && blocks[|blocks| - 1].kind.ForKind?
    ensures var top := blocks[|blocks| - 1];
      var after := code + [AddIns(top.variable, top.step), Jump(top.conditionIndex)];
      && top.conditionIndex < |code| && Jumps(code[top.conditionIndex]) && code[top.conditionIndex].target == 0
      && Tracks(Patched(after, top.conditionIndex), blocks[..|blocks| - 1], Read(r, EndForLine).value)
  {
    var h := Start(r.ctx.outer) + Size(r.ctx.before);
    var o := r.ctx.open;
    var b := For(o.variable, o.start, o.step, o.stepValue, o.finish, r.cur, Done);
    InstalledFor(code, b, h);
    TracksLeave(code, Patched(code + [AddIns(o.variable, o.step), Jump(h + 1)], h + 1), r.ctx.outer, r.ctx.before, b);
    RecordsLeave(r.ctx);
  }

  // Which kind of block is innermost, as the records tell it.
  lemma TopRecord(code: seq<Instruction>, blocks: seq<Record>, r: Reading)
    requires Tracks(code, blocks, r)
    ensures blocks == [] <==> r.ctx.Top?
    ensures blocks != [] ==>
      var top := blocks[|blocks| - 1];
      match top.kind
      case IfKind => if top.exitJump.Some? then r.ctx.open.OpenElse? else r.ctx.open.OpenIf?
      case WhileKind => r.ctx.open.OpenWhile?
      case ForKind => r.ctx.open.OpenFor?
  {
  }

  // The vectors the compiler writes to.
  datatype Output = Output(commands: seq<Instruction>, blocks: seq<Record>)

  ghost predicate Follows(out: Output, patched: seq<nat>, reading: Reading) {
    Tracks(out.commands, out.blocks, reading) && PatchedOnce(out.commands, patched)
  }

  // One line has the effect that Read has on the structure, or its complaint.
  ghost predicate Advances(r: Result<Output>, patched: seq<nat>, next: Result<Reading>) {
    if next.Ok? then r.Ok? && Follows(r.value, patched, next.value) else r == Err(next.error)
  }

  lemma OpeningFollows(out: Output, more: seq<Instruction>, patched: seq<nat>, reading: Reading, open: Open)
    requires Follows(out, patched, reading) && !open.OpenElse?
    requires open.OpenFor? ==>
      more == [SetIns(open.variable, open.start), JFalse(ForCond(open.variable, open.stepValue, open.finish), 0)]
    requires open.OpenIf? || open.OpenWhile? ==> more == [JFalse(open.c, 0)]
    ensures Follows(Output(out.commands + more, Records(Enter(reading, open).ctx)), patched, Enter(reading, open))
  {
    TracksEnter(out.commands, more, out.blocks, reading, open);
    PatchedPush(out.commands, more, patched);
  }

  method CompileOpening(out: Output, line: Line, ghost patched: seq<nat>, ghost reading: Reading) returns (r: Result<Output>)
    requires Follows(out, patched, reading) && (line.IfLine? || line.WhileLine? || line.ForLine?)
    ensures Advances(r, patched, Read(reading, line))
  {
    var index := |out.commands|;
    var more, record;
    match line {
      case IfLine(c) =>
        more, record := [JFalse(c, 0)], Record(IfKind, index, None, "", "");
        OpeningFollows(out, more, patched, reading, OpenIf(c));
      case WhileLine(c) =>
        more, record := [JFalse(c, 0)], Record(WhileKind, index, None, "", "");
        OpeningFollows(out, more, patched, reading, OpenWhile(c));
      case ForLine(v, start, step, value, finish) =>
        if value == 0 {
          return Err("ogl-for-zero-step");
        }
        more := [SetIns(v, start), JFalse(ForCond(v, value, finish), 0)];
        record := Record(ForKind, index + 1, None, v, step);
        OpeningFollows(out, more, patched, reading, OpenFor(v, start, step, value, finish));
    }
    r := Ok(Output(out.commands + more, out.blocks + [record]));
  }

  // Emits `more` and patches the jump at `index` to lead past it.
  method EmitAndPatch(commands: seq<Instruction>, more: seq<Instruction>, index: nat, ghost patched: seq<nat>)
    returns (r: Result<seq<Instruction>>)
    requires PatchedOnce(commands, patched) && index < |commands|
    requires Jumps(commands[index]) && commands[index].target == 0
    requires forall k :: 0 <= k < |more| && Jumps(more[k]) ==> more[k].target <= |commands|
    ensures r == Ok(Patched(commands + more, index)) && PatchedOnce(r.value, patched + [index])
  {
    PatchedPush(commands, more, patched);
    var emitted := commands + more;
    PatchedPatch(emitted, index, patched);
    var patch := PatchTarget(emitted, index, |emitted|);
    if patch.None? {
      return Err("ogl-control-flow-patch-failed");
    }
    r := Ok(patch.value);
  }

  method CompileElse(out: Output, ghost patched: seq<nat>, ghost reading: Reading)
    returns (r: Result<Output>, ghost patchedNow: seq<nat>)
    requires Follows(out, patched, reading)
    ensures Advances(r, patchedNow, Read(reading, ElseLine))
  {
    patchedNow := patched;
    TopRecord(out.commands, out.blocks, reading);
    var last := |out.blocks| - 1;
    if last < 0 || !out.blocks[last].kind.IfKind? || out.blocks[last].exitJump.Some? {
      return Err("ogl-unexpected-else"), patchedNow;
    }
    TracksElse(out.commands, out.blocks, reading);
    var top := out.blocks[last];
    var patch := EmitAndPatch(out.commands, [Jump(0)], top.conditionIndex, patched);
    if patch.Err? {
      return Err("ogl-control-flow-patch-failed"), patchedNow;
    }
    patchedNow := patched + [top.conditionIndex];
    r := Ok(Output(patch.value, out.blocks[last := top.(exitJump := Some(|out.commands|))]));
  }

  method CompileEnd(out: Output, line: Line, ghost patched: seq<nat>, ghost reading: Reading)
    returns (r: Result<Output>, ghost patchedNow: seq<nat>)
    requires Follows(out, patched, reading) && (line.EndIfLine? || line.EndWhileLine? || line.EndForLine?)
    ensures Advances(r, patchedNow, Read(reading, line))
  {
    patchedNow := patched;
    TopRecord(out.commands, out.blocks, reading);
    var kind := if line.EndIfLine? then IfKind else if line.EndWhileLine? then WhileKind else ForKind;
    var last := |out.blocks| - 1;
    if last < 0 || out.blocks[last].kind != kind {
      return Err(if line.EndIfLine? then "ogl-unexpected-endif"
                 else if line.EndWhileLine? then "ogl-unexpected-endwhile" else "ogl-unexpected-endfor"), patchedNow;
    }
    var top := out.blocks[last];
    var back := if line.EndIfLine? then []
                else if line.EndWhileLine? then [Jump(top.conditionIndex)]
                else [AddIns(top.variable, top.step), Jump(top.conditionIndex)];
    var index := if top.exitJump.Some? then top.exitJump.value else top.conditionIndex;
    EndTracked(out, reading, line, back, index);
    var patch := EmitAndPatch(out.commands, back, index, patched);
    if patch.Err? {
      return Err("ogl-control-flow-patch-failed"), patchedNow;
    }
    patchedNow := patched + [index];
    r := Ok(Output(patch.value, out.blocks[..last]));
  }

  // What the four ways of closing a block have in common.
  lemma EndTracked(out: Output, reading: Reading, line: Line, back: seq<Instruction>, index: nat)
    requires Tracks(out.commands, out.blocks, reading) && out.blocks != []
    requires var top := out.blocks[|out.blocks| - 1];
      && index == (if top.exitJump.Some? then top.exitJump.value else top.conditionIndex)
      && match line
         case EndIfLine => top.kind.IfKind? && back == []
         case EndWhileLine => top.kind.WhileKind? && back == [Jump(top.conditionIndex)]
         case EndForLine => top.kind.ForKind? && back == [AddIns(top.variable, top.step), Jump(top.conditionIndex)]
         case _ => false
    ensures Read(reading, line).Ok?
    ensures index < |out.commands| && Jumps(out.commands[index]) && out.commands[index].target == 0
    ensures forall k :: 0 <= k < |back| && Jumps(back[k]) ==> back[k].target <= |out.commands|
    ensures Tracks(Patched(out.commands + back, index), out.blocks[..|out.blocks| - 1], Read(reading, line).value)
  {
    TopRecord(out.commands, out.blocks, reading);
    match reading.ctx.open
    case OpenIf(_) =>
      assert out.commands + back == out.commands;
      TracksEndIf(out.commands, out.blocks, reading);
    case OpenElse(_, _) =>
      assert out.commands + back == out.commands;
      TracksEndIfElse(out.commands, out.blocks, reading);
    case OpenWhile(_) => TracksEndWhile(out.commands, out.blocks, reading);
    case OpenFor(_, _, _, _, _) => TracksEndFor(out.commands, out.blocks, reading);
  }

  method CompileLine(out: Output, line: Line, ghost patched: seq<nat>, ghost reading: Reading)
    returns (r: Result<Output>, ghost patchedNow: seq<nat>)
    requires Follows(out, patched, reading)
    ensures Advances(r, patchedNow, Read(reading, line))
  {
    patchedNow := patched;
    match line
    case ElseLine => r, patchedNow := CompileElse(out, patched, reading);
    case EndIfLine => r, patchedNow := CompileEnd(out, line, patched, reading);
    case EndWhileLine => r, patchedNow := CompileEnd(out, line, patched, reading);
    case EndForLine => r, patchedNow := CompileEnd(out, line, patched, reading);
    case CommandLine(ins) =>
      TracksPush(out.commands, [ins], out.blocks, reading, Do(ins, Done));
      PatchedPush(out.commands, [ins], patched);
      var commands := out.commands + [ins];
      r := if |commands| > MAX_COMMANDS then Err("handler-too-large") else Ok(Output(commands, out.blocks));
    case BadLine(reason) => r := Err(reason);
    case _ => r := CompileOpening(out, line, patched, reading);
  }

  // The compiler accepts exactly the line lists that have a structure, complains as Structure does,
  // emits the code of that structure, and patches every forward jump exactly once.
  method CompileCommands(raw: seq<Line>) returns (r: Result<seq<Instruction>>, ghost patched: seq<nat>)
    ensures r.Ok? <==> Structure(raw).Ok?
    ensures r.Ok? ==> r.value == Code(Structure(raw).value) && PatchedOnce(r.value, patched)
    ensures r.Err? ==> r.error == Structure(raw).error
  {
    var out := Output([], []);
    patched := [];
    ghost var reading := Reading(Top, Done);
    var at := 0;
    while at < |raw|
      invariant at <= |raw| && Follows(out, patched, reading)
      invariant Structure(raw) == ReadAll(reading, raw[at..])
    {
      ghost var next := Read(reading, raw[at]);
      var step;
      step, patched := CompileLine(out, raw[at], patched, reading);
      if step.Err? {
        return Err(step.error), patched;
      }
      out, reading := step.value, next.value;
      at := at + 1;
    }
    TopRecord(out.commands, out.blocks, reading);
    if out.blocks != [] {
      return Err("ogl-unclosed-control-flow"), patched;
    }
    assert forall i :: 0 <= i < |out.commands| ==> out.commands[i] == InsAt(reading.cur, 0, i);
    r := Ok(out.commands);
  }
}
