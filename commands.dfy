/**
 * The class `Commands` (namespace ProgrammingLanguageAssignment) with the fields it updates in
 * place. Every method is proved against the function of `ProgramSemantics` that describes it:
 * what the method leaves in the fields, together with how it ends, is that function of the
 * fields it started from.
 *
 * The graphics context, the text box and the helper objects are not fields here: a shape that
 * is set and drawn is a request appended to `requests`, a message box a message appended to
 * `messages`, and the three helper objects are the store `vars` and the `if` and loop fields.
 * `oracle` stands for the unseen helper code, `variant` picks the code as written or put right,
 * and `passLimit` bounds the passes of one replay.
 */
module Commands {
  import opened Wrappers
  import opened Int32
  import opened Text
  import opened Drawing
  import opened ProgramSemantics

  class Commands {
    var x: int32
    var y: int32
    var fill: bool
    var penColor: Color
    var brushColor: Color
    var vars: seq<Binding>
    var ifOn: bool
    var ifLogic: bool
    var loopOn: bool
    var loopLogic: bool
    var loopVariable: int32
    var loopValue: int32
    var loopOperator: string
    var requests: seq<Request>
    var messages: seq<string>
    const oracle: Oracle
    const variant: Variant
    const passLimit: nat

    /** The fields as one value. */
    function Snapshot(): Machine
      reads this
    {
      Machine(x, y, fill, penColor, brushColor, vars, ifOn, ifLogic,
              loopOn, loopLogic, loopVariable, loopValue, loopOperator, requests, messages)
    }

    /** `Commands(CommandLine, bitmap, x, y, pen, brush)`: fresh store, conditional and loop. */
    constructor(x0: int32, y0: int32, pen: Color, brush: Color, oracle: Oracle, variant: Variant, passLimit: nat)
      ensures Snapshot() == Initial(x0, y0, pen, brush)
      ensures this.oracle == oracle && this.variant == variant && this.passLimit == passLimit
    {
      x, y := x0, y0;
      fill := false;
      penColor, brushColor := pen, brush;
      vars := [];
      ifOn, ifLogic := false, false;
      loopOn, loopLogic := false, false;
      loopVariable, loopValue, loopOperator := 0, 0, "";
      requests, messages := [], [];
      this.oracle := oracle;
      this.variant := variant;
      this.passLimit := passLimit;
    }

    /** `MessageBox.Show(text)`. */
    method Show(text: string)
      modifies this
      ensures Snapshot() == old(Snapshot()).(messages := old(messages) + [text])
    {
      messages := messages + [text];
    }

    /** `s = factory.getShape(kind); s.set(this.x, this.y, pen, brush, list); s.draw(g)`. */
    method Draw(kind: ShapeKind, list: seq<int32>)
      modifies this
      ensures Snapshot() == Emit(old(Snapshot()), kind, list)
    {
      requests := requests + [Shape(kind, x, y, penColor, brushColor, list)];
    }

    /** `this.x = x; this.y = y`. */
    method SetPosition(newX: int32, newY: int32)
      modifies this
      ensures Snapshot() == old(Snapshot()).(x := newX, y := newY)
    {
      x, y := newX, newY;
    }

    /**
     * One `try` block around reading an operand: a value goes on, a `FormatException` shows
     * `message` and ends the handler normally, any other exception escapes.
     */
    method TryRead(r: Read, message: string) returns (stop: Option<Status>)
      modifies this
      ensures stop.None? <==> r.Got?
      ensures match One(r, message)
        case Operands(_) => Snapshot() == old(Snapshot())
        case Rejected(text) => stop == Some(Completed) && Snapshot() == old(Snapshot()).(messages := old(messages) + [text])
        case Escaped(f) => stop == Some(Threw(f)) && Snapshot() == old(Snapshot())
    {
      match r
      case Got(_) => stop := None;
      case Unparsable => Show(message); stop := Some(Completed);
      case Overflow => stop := Some(Threw(OverflowError));
      case OutOfRange => stop := Some(Threw(IndexOutOfRange));
    }

    // -------------------------------------------------------------------------------------
    // The handlers
    // -------------------------------------------------------------------------------------

    /** `MoveTo(ParamList)`. */
    method MoveTo(paramList: seq<string>) returns (status: Status)
      modifies this
      ensures Outcome(Snapshot(), status) == ProgramSemantics.MoveTo(old(Snapshot()), paramList, variant)
    {
      if |paramList| < 2 {
        return Threw(IndexOutOfRange);
      }
      var arguments := Split(paramList[1], {','});
      if |arguments| != 2 {
        Show(MoveToUsage);
        return Completed;
      }
      var first := Resolve(vars, arguments[0]);
      var second := MoveToY(vars, arguments[0], arguments[1], variant);
      TwoCases(first, Unable("X axis", arguments[0]), second, Unable("Y axis", arguments[1]));
      var stop := TryRead(first, Unable("X axis", arguments[0]));
      if stop.Some? {
        return stop.value;
      }
      stop := TryRead(second, Unable("Y axis", arguments[1]));
      if stop.Some? {
        return stop.value;
      }
      Draw(MoveToShape, [first.n, second.n]);
      SetPosition(first.n, second.n);
      return Completed;
    }

    /** `DrawTo(ParamList)`. */
    method DrawTo(paramList: seq<string>) returns (status: Status)
      modifies this
      ensures Outcome(Snapshot(), status) == ProgramSemantics.DrawTo(old(Snapshot()), paramList, variant)
    {
      if |paramList| < 2 {
        return Threw(IndexOutOfRange);
      }
      var arguments := Split(paramList[1], {','});
      if |arguments| != 2 {
        Show(DrawToUsage);
        return Completed;
      }
      var first := Resolve(vars, arguments[0]);
      var second := DrawToY(vars, arguments[0], arguments[1], variant);
      TwoCases(first, Unable("X position", arguments[0]), second, Unable("Y position", arguments[1]));
      var stop := TryRead(first, Unable("X position", arguments[0]));
      if stop.Some? {
        return stop.value;
      }
      stop := TryRead(second, Unable("Y position", arguments[1]));
      if stop.Some? {
        return stop.value;
      }
      Draw(DrawToShape, [first.n, second.n]);
      return Completed;
    }

    /** `DrawRectangle(ParamList)`. */
    method DrawRectangle(paramList: seq<string>) returns (status: Status)
      modifies this
      ensures Outcome(Snapshot(), status) == ProgramSemantics.DrawRectangle(old(Snapshot()), paramList)
    {
      if |paramList| < 2 {
        return Threw(IndexOutOfRange);
      }
      var arguments := Split(paramList[1], {','});
      if |arguments| != 2 {
        Show(RectUsage);
        return Completed;
      }
      var first := Resolve(vars, arguments[0]);
      var second := Resolve(vars, arguments[1]);
      TwoCases(first, Unable("width", arguments[0]), second, Unable("height", arguments[1]));
      var stop := TryRead(first, Unable("width", arguments[0]));
      if stop.Some? {
        return stop.value;
      }
      stop := TryRead(second, Unable("height", arguments[1]));
      if stop.Some? {
        return stop.value;
      }
      Draw(RectShape, [first.n, second.n]);
      return Completed;
    }

    /** `DrawCircle(ParamList)`. */
    method DrawCircle(paramList: seq<string>) returns (status: Status)
      modifies this
      ensures Outcome(Snapshot(), status) == ProgramSemantics.DrawCircle(old(Snapshot()), paramList)
    {
      if |paramList| != 2 {
        Show(CircleUsage);
        return Completed;
      }
      var radius := Resolve(vars, paramList[1]);
      var stop := TryRead(radius, Unable("radius", FirstName(vars)));
      if stop.Some? {
        return stop.value;
      }
      Draw(CircleShape, [radius.n]);
      return Completed;
    }

    /** `DrawTriangle(ParamList)`. */
    method DrawTriangle(paramList: seq<string>) returns (status: Status)
      modifies this
      ensures Outcome(Snapshot(), status) == ProgramSemantics.DrawTriangle(old(Snapshot()), paramList)
    {
      if |paramList| != 2 {
        Show(TriangleUsage);
        return Completed;
      }
      var sides := Resolve(vars, paramList[1]);
      var stop := TryRead(sides, Unable("side", paramList[1]));
      if stop.Some? {
        return stop.value;
      }
      Draw(TriangleShape, [sides.n]);
      return Completed;
    }

    /** `ResetPenPosition()`. */
    method ResetPenPosition()
      modifies this
      ensures Outcome(Snapshot(), Completed) == ProgramSemantics.ResetPenPosition(old(Snapshot()))
    {
      Draw(MoveToShape, [5, 5]);
    }

    /** `FillShape(ParamList)`. */
    method FillShape(paramList: seq<string>)
      modifies this
      ensures Outcome(Snapshot(), Completed) == ProgramSemantics.FillShape(old(Snapshot()), paramList)
    {
      fill := !fill;
      if |paramList| == 2 {
        var c := paramList[1];
        if c == "on" {
          brushColor := penColor;
        } else if c == "off" {
          brushColor := Transparent;
        }
      } else {
        Show(FillUsage);
      }
    }

    /** `PenColor(ParamList)`. */
    method PenColor(paramList: seq<string>)
      modifies this
      ensures Outcome(Snapshot(), Completed) == ProgramSemantics.PenColor(old(Snapshot()), paramList)
    {
      if |paramList| == 2 {
        var c := paramList[1];
        if c == "blue" {
          penColor := Blue;
        } else if c == "black" {
          penColor := Black;
        } else if c == "green" {
          penColor := Green;
        } else if c == "red" {
          penColor := Red;
        }
      } else {
        Show(PenUsage);
      }
    }

    /** `Clear()`. */
    method Clear()
      modifies this
      ensures Outcome(Snapshot(), Completed) == ProgramSemantics.Clear(old(Snapshot()))
    {
      penColor := Black;
      requests := requests + [ClearCanvas(Gray)];
    }

    // -------------------------------------------------------------------------------------
    // Dispatch
    // -------------------------------------------------------------------------------------

    /**
     * `HandleCommand(Command, ProgramStr)`; `None` is the `null` the program window passes,
     * with which `run` fails at once.
     */
    method HandleCommand(command: string, programStr: Option<string>) returns (status: Status)
      modifies this
      ensures programStr.None? ==> Outcome(Snapshot(), status) == Command(old(Snapshot()), command, variant)
      ensures programStr.Some? ==>
        Outcome(Snapshot(), status)
          == ProgramSemantics.HandleCommand(old(Snapshot()), command, programStr.value, variant, oracle, passLimit)
      decreases if programStr.Some? then 6 else 0
    {
      var commandStr := Words(command);
      var w := commandStr[0];
      if w == "moveto" {
        status := MoveTo(commandStr);
      } else if w == "drawto" {
        status := DrawTo(commandStr);
      } else if w == "clear" {
        Clear();
        status := Completed;
      } else if w == "reset" {
        ResetPenPosition();
        status := Completed;
      } else if w == "rect" {
        status := DrawRectangle(commandStr);
      } else if w == "circle" {
        status := DrawCircle(commandStr);
      } else if w == "triangle" {
        status := DrawTriangle(commandStr);
      } else if w == "fill" {
        FillShape(commandStr);
        status := Completed;
      } else if w == "pen" {
        PenColor(commandStr);
        status := Completed;
      } else if w == "run" {
        match programStr
        case None =>
          status := Threw(NullReference);
        case Some(text) =>
          status := ProgramWindowCommand(text);
      } else {
        Show(w + " is not a valid command.");
        status := Completed;
      }
    }

    // -------------------------------------------------------------------------------------
    // Programs
    // -------------------------------------------------------------------------------------

    /** `ProgramWindowCommand(ProgramStr)`: the lines one by one until an exception escapes. */
    method ProgramWindowCommand(programStr: string) returns (status: Status)
      modifies this
      ensures Outcome(Snapshot(), status) == ProgramSemantics.ProgramWindowCommand(old(Snapshot()), programStr, variant, oracle, passLimit)
      decreases 5
    {
      var commander := ProgramLines(programStr);
      ghost var body := LoopLines(programStr);
      ghost var expected := Scan(Snapshot(), commander, 0, body, variant, oracle, passLimit);
      var loop := 0;
      var varLoop: nat := 0;
      while loop < |commander|
        invariant 0 <= loop <= |commander|
        invariant Scan(Snapshot(), commander[loop..], varLoop, body, variant, oracle, passLimit) == expected
        decreases |commander| - loop
      {
        ScanUnfolds(Snapshot(), commander, loop, varLoop, body, variant, oracle, passLimit);
        var lineStatus;
        lineStatus, varLoop := Line(commander[loop], varLoop, programStr);
        if !lineStatus.Completed? {
          return lineStatus;
        }
        loop := loop + 1;
      }
      assert commander[loop..] == [];
      return Completed;
    }

    /** One line of the outer loop, branch by branch. */
    method Line(line: string, varLoop: nat, programStr: string) returns (status: Status, nextVarLoop: nat)
      modifies this
      ensures Stepped(Outcome(Snapshot(), status), nextVarLoop)
           == StepLine(old(Snapshot()), line, varLoop, LoopLines(programStr), variant, oracle, passLimit)
      decreases 4
    {
      var singleCommands := Words(line);
      nextVarLoop := varLoop;
      status := Completed;
      if IsAssignment(singleCommands) {
        vars := Assign(vars, varLoop, singleCommands[0], oracle.stored(vars, singleCommands));
        nextVarLoop := varLoop + 1;
      } else if singleCommands[0] == "if" {
        status := IfHeader(singleCommands);
      } else if ifOn && ifLogic && singleCommands[0] != "endif" {
        status := HandleCommand(line, None);
      } else if ifOn && !ifLogic && singleCommands[0] != "endif" {
      } else if singleCommands[0] == "endif" {
        ifOn, ifLogic := false, false;
      } else if singleCommands[0] == "while" {
        status := WhileHeader(singleCommands);
      } else {
        status := LoopOrCommand(line, varLoop, programStr);
      }
    }

    /** The rest of the chain, from the corrected `endwhile` on. */
    method LoopOrCommand(line: string, varLoop: nat, programStr: string) returns (status: Status)
      modifies this
      requires !IsAssignment(Words(line))
      requires Words(line)[0] !in {"if", "endif", "while"}
      requires !ifOn
      ensures Stepped(Outcome(Snapshot(), status), varLoop)
           == StepLine(old(Snapshot()), line, varLoop, LoopLines(programStr), variant, oracle, passLimit)
      decreases 3
    {
      var singleCommands := Words(line);
      status := Completed;
      if variant == Corrected && singleCommands[0] == "endwhile" {
        loopOn, loopLogic := false, false;
      } else if loopOn && loopLogic {
        var loopBlock := LoopBlock(programStr);
        var loopBlockArray := ProgramLines(loopBlock)[1..];
        var cleanLoopBlock := JoinWith(loopBlockArray, NewLine);
        status := Replay(cleanLoopBlock);
      } else if loopOn && !loopLogic {
      } else if singleCommands[0] == "endwhile" {
        loopOn, loopLogic := false, false;
      } else if singleCommands[0] in DrawingKeywords {
        status := HandleCommand(line, None);
      } else {
        Show(singleCommands[0] + " is not a command.");
      }
    }

    /** The `if` header: the literal right operand, then the left one, then the comparison. */
    method IfHeader(singleCommands: seq<string>) returns (status: Status)
      modifies this
      ensures Outcome(Snapshot(), status) == OpenIf(old(Snapshot()), singleCommands, oracle)
    {
      var header := ReadHeader(vars, singleCommands);
      match header
      case Failed(f) =>
        status := Threw(f);
      case Header(variable, condition, value) =>
        ifOn := true;
        ifLogic := oracle.ifHolds(variable, condition, value);
        status := Completed;
    }

    /** The `while` header: the loop's variable, value and operator, then the guard. */
    method WhileHeader(singleCommands: seq<string>) returns (status: Status)
      modifies this
      ensures Outcome(Snapshot(), status) == OpenWhile(old(Snapshot()), singleCommands, oracle)
    {
      var header := ReadHeader(vars, singleCommands);
      match header
      case Failed(f) =>
        status := Threw(f);
      case Header(variable, operator, value) =>
        SetLoop(variable, operator, value, oracle.loopHolds(variable, operator, value));
        status := Completed;
    }

    /** `setLoop`, `setVariable`, `setValue`, `setOperator` and the guard of the `Loop` object. */
    method SetLoop(variable: int32, operator: string, value: int32, guard: bool)
      modifies this
      ensures Snapshot() == old(Snapshot()).(loopOn := true, loopVariable := variable, loopValue := value,
                                             loopOperator := operator, loopLogic := guard)
    {
      loopOn, loopVariable, loopValue, loopOperator, loopLogic := true, variable, value, operator, guard;
    }

    /**
     * `while (loopInstance.loopLogic)`: a whole pass over the block, then the loop's copy of
     * the variable goes up by one and the guard is recomputed; at most `passLimit` passes.
     */
    method Replay(cleanLoopBlock: string) returns (status: Status)
      modifies this
      ensures Outcome(Snapshot(), status)
           == ProgramSemantics.Replay(old(Snapshot()), ProgramLines(cleanLoopBlock), variant, oracle, passLimit)
      decreases 2
    {
      ghost var body := ProgramLines(cleanLoopBlock);
      ghost var expected := ProgramSemantics.Replay(Snapshot(), body, variant, oracle, passLimit);
      var passes := 0;
      while loopLogic
        invariant passes <= passLimit
        invariant ProgramSemantics.Replay(Snapshot(), body, variant, oracle, passLimit - passes) == expected
        decreases passLimit - passes
      {
        if passes == passLimit {
          return OutOfFuel;
        }
        ghost var before := Snapshot();
        var commanderLoop := ProgramLines(cleanLoopBlock);
        var passStatus := Pass(commanderLoop);
        if !passStatus.Completed? {
          return passStatus;
        }
        ghost var passed := Snapshot();
        NextPass();
        ReplayUnfolds(before, passed, body, variant, oracle, passLimit - passes);
        passes := passes + 1;
      }
      return Completed;
    }

    /** `setVariable(loopVariable + 1)` with `int` wrap-around, then `checkLoopLogic()`. */
    method NextPass()
      modifies this
      ensures Snapshot() == ProgramSemantics.NextPass(old(Snapshot()), oracle)
    {
      var v := Wrap(loopVariable + 1);
      loopVariable, loopLogic := v, oracle.loopHolds(v, loopOperator, loopValue);
    }

    /** One pass over the block: assignments and drawing lines; every other line is passed over. */
    method Pass(commanderLoop: seq<string>) returns (status: Status)
      modifies this
      ensures Outcome(Snapshot(), status) == ProgramSemantics.Pass(old(Snapshot()), commanderLoop, 0, variant, oracle)
      decreases 1
    {
      ghost var expected := ProgramSemantics.Pass(Snapshot(), commanderLoop, 0, variant, oracle);
      var loopC := 0;
      var varLoopC: nat := 0;
      while loopC < |commanderLoop|
        invariant 0 <= loopC <= |commanderLoop|
        invariant ProgramSemantics.Pass(Snapshot(), commanderLoop[loopC..], varLoopC, variant, oracle) == expected
        decreases |commanderLoop| - loopC
      {
        var singleCommandsC := Words(commanderLoop[loopC]);
        assert commanderLoop[loopC..][1..] == commanderLoop[loopC + 1..];
        if IsAssignment(singleCommandsC) {
          vars := Assign(vars, varLoopC, singleCommandsC[0], oracle.stored(vars, singleCommandsC));
          varLoopC := varLoopC + 1;
        } else if singleCommandsC[0] in DrawingKeywords {
          var lineStatus := HandleCommand(commanderLoop[loopC], None);
          if !lineStatus.Completed? {
            return lineStatus;
          }
        }
        loopC := loopC + 1;
      }
      assert commanderLoop[loopC..] == [];
      return Completed;
    }
  }

  /** How `Two` ends: at the first operand that is not a value, or with both values. */
  lemma TwoCases(first: Read, firstMessage: string, second: Read, secondMessage: string)
    ensures !first.Got? ==> Two(first, firstMessage, second, secondMessage) == One(first, firstMessage)
    ensures first.Got? && !second.Got? ==> Two(first, firstMessage, second, secondMessage) == One(second, secondMessage)
    ensures first.Got? && second.Got? ==>
      Two(first, firstMessage, second, secondMessage) == Operands([first.n, second.n])
  {
    if first.Got? && second.Got? {
      assert [first.n] + [second.n] == [first.n, second.n];
    }
  }

  /** A completed pass hands the replay on to the next pass, with one pass fewer left. */
  lemma ReplayUnfolds(before: Machine, passed: Machine, body: seq<string>, variant: Variant, oracle: Oracle, fuel: nat)
    requires before.loopLogic && fuel > 0
    requires Pass(before, body, 0, variant, oracle) == Outcome(passed, Completed)
    ensures Replay(before, body, variant, oracle, fuel) == Replay(NextPass(passed, oracle), body, variant, oracle, fuel - 1)
  {
  }

  /** The scan from line `k` on is that line's step followed by the scan from line `k + 1`. */
  lemma ScanUnfolds(m: Machine, lines: seq<string>, k: nat, varIndex: nat, body: seq<string>,
                    variant: Variant, oracle: Oracle, fuel: nat)
    requires k < |lines|
    ensures var s := StepLine(m, lines[k], varIndex, body, variant, oracle, fuel);
      Scan(m, lines[k..], varIndex, body, variant, oracle, fuel)
        == if s.out.status.Completed? then Scan(s.out.m, lines[k + 1..], s.varIndex, body, variant, oracle, fuel)
           else s.out
  {
    assert lines[k..][0] == lines[k];
    assert lines[k..][1..] == lines[k + 1..];
  }
}
