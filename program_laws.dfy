/**
 * Properties of the `Commands` interpreter: the order in which a program line is classified,
 * variable lookup, the `if` and `while` blocks, the pen and position effects of the handlers,
 * and the three places where the code does not do what it evidently means to do.
 */
module ProgramLaws {
  import opened Wrappers
  import opened Int32
  import opened Text
  import opened Drawing
  import opened ProgramSemantics

  /** Everything but the position, the colours, the fill flag and the output. */
  predicate SameControl(a: Machine, b: Machine) {
    && a.vars == b.vars
    && a.ifOn == b.ifOn && a.ifLogic == b.ifLogic
    && a.loopOn == b.loopOn && a.loopLogic == b.loopLogic
    && a.loopVariable == b.loopVariable && a.loopValue == b.loopValue && a.loopOperator == b.loopOperator
  }

  // ---------------------------------------------------------------------------------------
  // Dispatch and the handlers
  // ---------------------------------------------------------------------------------------

  /** A drawing command never touches the variables or the `if` and loop state. */
  lemma CommandKeepsControl(m: Machine, line: string, variant: Variant)
    ensures SameControl(Command(m, line, variant).m, m)
  {
    var w := Words(line)[0];
    if w == "moveto" || w == "drawto" {
      MoveCommandsKeepControl(m, line, variant);
    } else if w == "rect" || w == "circle" || w == "triangle" {
      ShapeCommandsKeepControl(m, line, variant);
    } else {
      OtherCommandsKeepControl(m, line, variant);
    }
  }

  lemma OtherCommandsKeepControl(m: Machine, line: string, variant: Variant)
    requires Words(line)[0] !in {"moveto", "drawto", "rect", "circle", "triangle"}
    ensures SameControl(Command(m, line, variant).m, m)
  {
    var words := Words(line);
    var w := words[0];
    if w == "fill" {
      assert Command(m, line, variant) == FillShape(m, words);
      FillKeepsControl(m, words);
    } else if w == "pen" {
      assert Command(m, line, variant) == PenColor(m, words);
      PenKeepsControl(m, words);
    } else {
      PlainCommandsKeepControl(m, line, variant);
    }
  }

  lemma FillKeepsControl(m: Machine, words: seq<string>)
    ensures SameControl(FillShape(m, words).m, m)
  {
  }

  lemma PenKeepsControl(m: Machine, words: seq<string>)
    ensures SameControl(PenColor(m, words).m, m)
  {
  }

  lemma PlainCommandsKeepControl(m: Machine, line: string, variant: Variant)
    requires Words(line)[0] !in {"moveto", "drawto", "rect", "circle", "triangle", "fill", "pen"}
    ensures SameControl(Command(m, line, variant).m, m)
  {
    var w := Words(line)[0];
    if w == "clear" {
      assert Command(m, line, variant) == Clear(m);
    } else if w == "reset" {
      assert Command(m, line, variant) == ResetPenPosition(m);
    } else if w == "run" {
      assert Command(m, line, variant) == Throw(m, NullReference);
    } else {
      assert Command(m, line, variant) == Report(m, w + " is not a valid command.");
    }
  }

  lemma MoveCommandsKeepControl(m: Machine, line: string, variant: Variant)
    requires Words(line)[0] == "moveto" || Words(line)[0] == "drawto"
    ensures SameControl(Command(m, line, variant).m, m)
  {
    var words := Words(line);
    if words[0] == "moveto" {
      assert Command(m, line, variant) == MoveTo(m, words, variant);
      MoveToKeepsControl(m, words, variant);
    } else {
      assert Command(m, line, variant) == DrawTo(m, words, variant);
      DrawToStays(m, words, variant);
    }
  }

  lemma ShapeCommandsKeepControl(m: Machine, line: string, variant: Variant)
    requires Words(line)[0] in {"rect", "circle", "triangle"}
    ensures SameControl(Command(m, line, variant).m, m)
  {
    var words := Words(line);
    if words[0] == "rect" {
      assert Command(m, line, variant) == DrawRectangle(m, words);
      RectangleStays(m, words);
    } else if words[0] == "circle" {
      assert Command(m, line, variant) == DrawCircle(m, words);
      CircleStays(m, words);
    } else {
      assert Command(m, line, variant) == DrawTriangle(m, words);
      TriangleStays(m, words);
    }
  }

  /** An unknown first word (the match is exact, so `MoveTo` is one) only shows a message. */
  lemma UnknownWordOnlyReports(m: Machine, command: string, programStr: string,
                               variant: Variant, oracle: Oracle, fuel: nat)
    requires Words(command)[0] !in DrawingKeywords && Words(command)[0] != "run"
    ensures HandleCommand(m, command, programStr, variant, oracle, fuel)
         == Outcome(m.(messages := m.messages + [Words(command)[0] + " is not a valid command."]), Completed)
  {
  }

  /** `a,b` splits at the comma into `a` and `b`. */
  lemma CommaPair(a: string, b: string)
    requires NoSeparator(a, {','}) && NoSeparator(b, {','})
    ensures Split(a + "," + b, {','}) == [a, b]
  {
    SplitAround(a, ',', b, {','});
    SplitWhole(a, {','});
    SplitWhole(b, {','});
    assert a + "," + b == a + [','] + b;
  }

  /** A move ends in one of three ways; only when both operands were read does anything change. */
  lemma MoveWithCases(m: Machine, o: Operands)
    requires o.Operands? ==> |o.values| == 2
    ensures var r := MoveWith(m, o);
      && (o.Operands? ==> && r.status.Completed? && r.m.x == o.values[0] && r.m.y == o.values[1]
                          && r.m.requests == m.requests + [Shape(MoveToShape, m.x, m.y, m.penColor, m.brushColor, [r.m.x, r.m.y])]
                          && r.m.(x := m.x, y := m.y, requests := m.requests) == m)
      && (o.Rejected? ==> r == Report(m, o.message))
      && (o.Escaped? ==> r == Throw(m, o.fault))
  {
    if o.Operands? {
      assert o.values == [o.values[0], o.values[1]];
    }
  }

  /**
   * `moveto` changes the position only when both operands were read, and then to exactly
   * those operands, after drawing from the old position; every other path leaves it.
   */
  lemma MoveToMovesOnlyOnSuccess(m: Machine, words: seq<string>, variant: Variant)
    ensures var o := MoveTo(m, words, variant);
      || (o.m.x == m.x && o.m.y == m.y)
      || (&& o.status.Completed?
          && o.m.requests == m.requests + [Shape(MoveToShape, m.x, m.y, m.penColor, m.brushColor, [o.m.x, o.m.y])])
  {
    if |words| >= 2 && |Split(words[1], {','})| == 2 {
      var args := Split(words[1], {','});
      MoveWithCases(m, Two(Resolve(m.vars, args[0]), Unable("X axis", args[0]),
                           MoveToY(m.vars, args[0], args[1], variant), Unable("Y axis", args[1])));
    }
  }

  /** A `moveto` that does not complete leaves the state as it was; none touches variables or flags. */
  lemma MoveToKeepsControl(m: Machine, words: seq<string>, variant: Variant)
    ensures !MoveTo(m, words, variant).status.Completed? ==> MoveTo(m, words, variant).m == m
    ensures SameControl(MoveTo(m, words, variant).m, m)
  {
    if |words| >= 2 && |Split(words[1], {','})| == 2 {
      var args := Split(words[1], {','});
      MoveWithCases(m, Two(Resolve(m.vars, args[0]), Unable("X axis", args[0]),
                           MoveToY(m.vars, args[0], args[1], variant), Unable("Y axis", args[1])));
    }
  }

  /**
   * Drawing a shape moves nothing and keeps the pen, the brush and the control state; a shape
   * is requested exactly when both operands were read, and an escaping exception changes nothing.
   */
  lemma DrawWithStays(m: Machine, kind: ShapeKind, o: Operands)
    ensures var r := DrawWith(m, kind, o);
      && r.m.x == m.x && r.m.y == m.y && r.m.penColor == m.penColor && r.m.brushColor == m.brushColor
      && SameControl(r.m, m)
      && (o.Operands? ==> r == Done(m.(requests := m.requests + [Shape(kind, m.x, m.y, m.penColor, m.brushColor, o.values)])))
      && (o.Rejected? ==> r == Report(m, o.message))
      && (o.Escaped? ==> r == Throw(m, o.fault))
  {
  }

  /** Both operands read: the operands, in order. */
  lemma TwoGot(p: int32, q: int32, firstMessage: string, secondMessage: string)
    ensures Two(Got(p), firstMessage, Got(q), secondMessage) == Operands([p, q])
  {
    assert [p] + [q] == [p, q];
  }

  /** `drawto` draws from the current position and leaves it where it is. */
  lemma DrawToStays(m: Machine, words: seq<string>, variant: Variant)
    ensures DrawTo(m, words, variant).m.x == m.x && DrawTo(m, words, variant).m.y == m.y
    ensures DrawTo(m, words, variant).m.penColor == m.penColor
    ensures SameControl(DrawTo(m, words, variant).m, m)
  {
    if |words| >= 2 && |Split(words[1], {','})| == 2 {
      var args := Split(words[1], {','});
      DrawWithStays(m, DrawToShape, Two(Resolve(m.vars, args[0]), Unable("X position", args[0]),
                                        DrawToY(m.vars, args[0], args[1], variant), Unable("Y position", args[1])));
    }
  }

  /** `reset` draws a moveto shape towards (5, 5) from the current position and moves nothing. */
  lemma ResetStays(m: Machine)
    ensures ResetPenPosition(m).m == m.(requests := m.requests + [Shape(MoveToShape, m.x, m.y, m.penColor, m.brushColor, [5, 5])])
  {
  }

  /** `fill` flips the flag whatever follows it; only `on` and `off` touch the brush. */
  lemma FillAlwaysToggles(m: Machine, words: seq<string>)
    ensures var o := FillShape(m, words);
      && o.status.Completed?
      && o.m.fill == !m.fill
      && o.m.brushColor == (if |words| == 2 && words[1] == "on" then m.penColor
                            else if |words| == 2 && words[1] == "off" then Transparent
                            else m.brushColor)
      && o.m.(fill := m.fill, brushColor := m.brushColor, messages := m.messages) == m
  {
  }

  /** `pen` with an unknown colour changes nothing; a known one changes the pen colour only. */
  lemma PenColourWords(m: Machine, words: seq<string>)
    ensures |words| == 2 && words[1] !in {"blue", "black", "green", "red"} ==> PenColor(m, words) == Done(m)
    ensures PenColor(m, words).m.(penColor := m.penColor, messages := m.messages) == m
    ensures |words| == 2 ==> PenColor(m, words).m.messages == m.messages
    ensures |words| != 2 ==> PenColor(m, words) == Report(m, PenUsage)
  {
  }

  /** The four colour words name exactly the four colours; every other word keeps the colour. */
  lemma NamedPenColours(word: string, current: Color)
    ensures NamedPen(word, current) == Blue <==> word == "blue" || (current == Blue && word !in {"black", "green", "red"})
    ensures NamedPen(word, current) == Black <==> word == "black" || (current == Black && word !in {"blue", "green", "red"})
    ensures NamedPen(word, current) == Green <==> word == "green" || (current == Green && word !in {"blue", "black", "red"})
    ensures NamedPen(word, current) == Red <==> word == "red" || (current == Red && word !in {"blue", "black", "green"})
    ensures NamedPen(word, current) in {Blue, Black, Green, Red, current}
  {
  }

  /** `clear` resets the pen colour to black and asks for a gray canvas; the position stays. */
  lemma ClearMakesPenBlack(m: Machine)
    ensures Clear(m).m.penColor == Black && Clear(m).m.x == m.x && Clear(m).m.y == m.y
    ensures Clear(m).m.requests == m.requests + [ClearCanvas(Gray)]
  {
  }

  /** `rect` draws at the current position with the current pen and moves nothing. */
  lemma RectangleStays(m: Machine, words: seq<string>)
    ensures var o := DrawRectangle(m, words); o.m.x == m.x && o.m.y == m.y && o.m.penColor == m.penColor
    ensures SameControl(DrawRectangle(m, words).m, m)
  {
    if |words| >= 2 && |Split(words[1], {','})| == 2 {
      var args := Split(words[1], {','});
      DrawWithStays(m, RectShape, Two(Resolve(m.vars, args[0]), Unable("width", args[0]),
                                      Resolve(m.vars, args[1]), Unable("height", args[1])));
    }
  }

  /** `circle r` draws a circle of the radius `r` reads as, at the current position. */
  lemma CircleStays(m: Machine, words: seq<string>)
    ensures var o := DrawCircle(m, words); o.m.x == m.x && o.m.y == m.y && o.m.penColor == m.penColor
    ensures SameControl(DrawCircle(m, words).m, m)
    ensures |words| == 2 && Resolve(m.vars, words[1]).Got? ==>
      DrawCircle(m, words) == Done(Emit(m, CircleShape, [Resolve(m.vars, words[1]).n]))
  {
    if |words| == 2 {
      DrawWithStays(m, CircleShape, One(Resolve(m.vars, words[1]), Unable("radius", FirstName(m.vars))));
    }
  }

  /** `triangle s` draws at the current position and moves nothing. */
  lemma TriangleStays(m: Machine, words: seq<string>)
    ensures var o := DrawTriangle(m, words); o.m.x == m.x && o.m.y == m.y && o.m.penColor == m.penColor
    ensures SameControl(DrawTriangle(m, words).m, m)
  {
    if |words| == 2 {
      DrawWithStays(m, TriangleShape, One(Resolve(m.vars, words[1]), Unable("side", words[1])));
    }
  }

  // ---------------------------------------------------------------------------------------
  // Variables
  // ---------------------------------------------------------------------------------------

  /** A defined name reads as the value at its first index; any other word is parsed as a number. */
  lemma ResolveFirstIndex(vars: seq<Binding>, token: string, k: nat)
    requires k < |vars| && vars[k].name == token
    requires forall j :: 0 <= j < k ==> vars[j].name != token
    ensures Resolve(vars, token) == Got(vars[k].value)
  {
    assert Names(vars)[k] == token;
  }

  /** A word that is no name is read by `Int32.Parse`. */
  lemma ResolveLiteral(vars: seq<Binding>, token: string)
    requires forall j :: 0 <= j < |vars| ==> vars[j].name != token
    ensures Resolve(vars, token) == ParseOperand(token)
  {
  }

  /** A new name assigned at the next slot reads back as its value. */
  lemma AssignFreshThenResolve(vars: seq<Binding>, name: string, value: int32)
    requires name !in Names(vars)
    ensures Resolve(Assign(vars, |vars|, name, value), name) == Got(value)
  {
    var after := Assign(vars, |vars|, name, value);
    ResolveFirstIndex(after, name, |vars|);
  }

  /** Assigning again at the slot that first holds a name changes what it reads as. */
  lemma ReassignThenResolve(vars: seq<Binding>, k: nat, name: string, value: int32)
    requires k < |vars| && vars[k].name == name
    requires forall j :: 0 <= j < k ==> vars[j].name != name
    ensures Resolve(Assign(vars, k, name, value), name) == Got(value)
  {
    ResolveFirstIndex(Assign(vars, k, name, value), name, k);
  }

  /**
   * An assignment to a slot after the first slot of a name is never read back: the name goes
   * on reading as the value at its first slot. Assigning `n = 5` and then `n = 6` on the next
   * line therefore leaves `n` reading as 5.
   */
  lemma LaterSlotIsShadowed(vars: seq<Binding>, index: nat, name: string, value: int32)
    requires name in Names(vars) && IndexOf(vars, name) < index
    ensures Resolve(Assign(vars, index, name, value), name) == Resolve(vars, name)
  {
    var k := IndexOf(vars, name);
    ResolveFirstIndex(Assign(vars, index, name, value), name, k);
  }

  /** The store after `n = 5` and `n = 6` on two consecutive lines of a fresh program. */
  lemma SecondAssignmentShadowed(five: int32, six: int32)
    ensures Resolve(Assign(Assign([], 0, "n", five), 1, "n", six), "n") == Got(five)
  {
    var first := Assign([], 0, "n", five);
    assert Names(first) == ["n"];
    LaterSlotIsShadowed(first, 1, "n", six);
  }

  // ---------------------------------------------------------------------------------------
  // The order of the branches of `ProgramWindowCommand`
  // ---------------------------------------------------------------------------------------

  /** An assignment is carried out whatever the `if` and loop flags say, and takes the next slot. */
  lemma AssignmentComesFirst(m: Machine, line: string, varIndex: nat, body: seq<string>,
                             variant: Variant, oracle: Oracle, fuel: nat)
    requires IsAssignment(Words(line))
    ensures var w := Words(line); var s := StepLine(m, line, varIndex, body, variant, oracle, fuel);
      && s.out == Done(m.(vars := Assign(m.vars, varIndex, w[0], oracle.stored(m.vars, w))))
      && s.varIndex == varIndex + 1
  {
  }

  /**
   * The right operand of `if` and `while` is always parsed as a number, even when it is the
   * name of a variable; a word that does not parse ends the run with a `FormatException`.
   */
  lemma HeaderRightIsLiteral(m: Machine, line: string, varIndex: nat, body: seq<string>,
                             variant: Variant, oracle: Oracle, fuel: nat)
    requires var w := Words(line); |w| >= 4 && w[3] in Names(m.vars) && ParseOperand(w[3]).Unparsable?
    requires Words(line)[0] == "if" || (Words(line)[0] == "while" && !m.ifOn)
    ensures StepLine(m, line, varIndex, body, variant, oracle, fuel).out == Throw(m, FormatError)
  {
    var w := Words(line);
    assert !IsAssignment(w);
    assert ReadHeader(m.vars, w) == Failed(FormatError);
    if w[0] == "if" {
      assert OpenIf(m, w, oracle) == Throw(m, FormatError);
      assert StepLine(m, line, varIndex, body, variant, oracle, fuel).out == OpenIf(m, w, oracle);
    } else {
      assert w[0] != "if" && w[0] != "endif" && w[0] != "endwhile";
      assert OpenWhile(m, w, oracle) == Throw(m, FormatError);
      assert StepLine(m, line, varIndex, body, variant, oracle, fuel).out == OpenWhile(m, w, oracle);
    }
  }

  /** An `if` header sets `If` and records the comparison of the left operand with the literal. */
  lemma IfHeaderSetsLogic(m: Machine, line: string, varIndex: nat, body: seq<string>,
                          variant: Variant, oracle: Oracle, fuel: nat)
    requires var w := Words(line); |w| >= 4 && w[0] == "if"
    requires ParseOperand(Words(line)[3]).Got? && Resolve(m.vars, Words(line)[1]).Got?
    ensures var w := Words(line);
      StepLine(m, line, varIndex, body, variant, oracle, fuel).out
        == Done(m.(ifOn := true, ifLogic := oracle.ifHolds(Resolve(m.vars, w[1]).n, w[2], ParseOperand(w[3]).n)))
  {
  }

  /** Lines that are neither assignments nor `if` nor `endif`. */
  predicate PlainLines(lines: seq<string>) {
    forall k :: 0 <= k < |lines| ==>
      var w := Words(lines[k]); !IsAssignment(w) && w[0] != "if" && w[0] != "endif"
  }

  /** After a true `if`, every plain line goes to `HandleCommand`, `while` and `run` included. */
  lemma TrueIfDispatches(m: Machine, line: string, varIndex: nat, body: seq<string>,
                         variant: Variant, oracle: Oracle, fuel: nat)
    requires m.ifOn && m.ifLogic && PlainLines([line])
    ensures StepLine(m, line, varIndex, body, variant, oracle, fuel) == Stepped(Command(m, line, variant), varIndex)
  {
    assert Words([line][0]) == Words(line);
  }

  /** After a false `if`, plain lines up to the `endif` are skipped and change nothing at all. */
  lemma {:induction false} FalseIfSkipsBlock(m: Machine, lines: seq<string>, varIndex: nat, body: seq<string>,
                                             variant: Variant, oracle: Oracle, fuel: nat)
    requires m.ifOn && !m.ifLogic && PlainLines(lines)
    ensures Scan(m, lines, varIndex, body, variant, oracle, fuel) == Done(m)
    decreases |lines|
  {
    if lines != [] {
      assert Words(lines[0]) == Words(lines[0]) && PlainLines(lines[1..]) by {
        forall k | 0 <= k < |lines[1..]|
          ensures var w := Words(lines[1..][k]); !IsAssignment(w) && w[0] != "if" && w[0] != "endif"
        {
          assert lines[1..][k] == lines[k + 1];
        }
      }
      FalseIfSkipsBlock(m, lines[1..], varIndex, body, variant, oracle, fuel);
    }
  }

  /** `endif` clears both flags of the `Conditional` and nothing else. */
  lemma EndifClears(m: Machine, line: string, varIndex: nat, body: seq<string>,
                    variant: Variant, oracle: Oracle, fuel: nat)
    requires Words(line)[0] == "endif" && !IsAssignment(Words(line))
    ensures StepLine(m, line, varIndex, body, variant, oracle, fuel) == Stepped(Done(m.(ifOn := false, ifLogic := false)), varIndex)
  {
  }

  // ---------------------------------------------------------------------------------------
  // Loops
  // ---------------------------------------------------------------------------------------

  /** A pass leaves the `if` and loop state alone. */
  lemma {:induction false} PassKeepsLoop(m: Machine, lines: seq<string>, varIndex: nat, variant: Variant, oracle: Oracle)
    ensures var r := Pass(m, lines, varIndex, variant, oracle).m;
      && r.ifOn == m.ifOn && r.ifLogic == m.ifLogic
      && r.loopOn == m.loopOn && r.loopLogic == m.loopLogic
      && r.loopVariable == m.loopVariable && r.loopValue == m.loopValue && r.loopOperator == m.loopOperator
    ensures !Pass(m, lines, varIndex, variant, oracle).status.OutOfFuel?
    decreases |lines|
  {
    if lines != [] {
      var words := Words(lines[0]);
      if IsAssignment(words) {
        PassKeepsLoop(m.(vars := Assign(m.vars, varIndex, words[0], oracle.stored(m.vars, words))),
                      lines[1..], varIndex + 1, variant, oracle);
      } else if words[0] in DrawingKeywords {
        var o := Command(m, lines[0], variant);
        CommandKeepsControl(m, lines[0], variant);
        if o.status.Completed? {
          PassKeepsLoop(o.m, lines[1..], varIndex, variant, oracle);
        }
      } else {
        PassKeepsLoop(m, lines[1..], varIndex, variant, oracle);
      }
    }
  }

  /** Within a pass, a line that is no assignment and starts with no drawing keyword is passed over. */
  lemma PassIgnoresOtherLines(m: Machine, line: string, rest: seq<string>, varIndex: nat, variant: Variant, oracle: Oracle)
    requires !IsAssignment(Words(line)) && Words(line)[0] !in DrawingKeywords
    ensures Pass(m, [line] + rest, varIndex, variant, oracle) == Pass(m, rest, varIndex, variant, oracle)
  {
    assert ([line] + rest)[0] == line && ([line] + rest)[1..] == rest;
  }

  /** Empty lines do nothing in a pass. */
  lemma {:induction false} PassSkipsEmpty(m: Machine, lines: seq<string>, varIndex: nat, variant: Variant, oracle: Oracle)
    ensures Pass(m, lines, varIndex, variant, oracle) == Pass(m, RemoveEmpty(lines), varIndex, variant, oracle)
    decreases |lines|
  {
    if lines != [] {
      var rest := RemoveEmpty(lines[1..]);
      if lines[0] == [] {
        assert Words(lines[0]) == [[]];
        assert RemoveEmpty(lines) == [] + rest == rest;
        assert Pass(m, lines, varIndex, variant, oracle) == Pass(m, lines[1..], varIndex, variant, oracle);
        PassSkipsEmpty(m, lines[1..], varIndex, variant, oracle);
      } else {
        var r := RemoveEmpty(lines);
        assert r == [lines[0]] + rest;
        assert r[0] == lines[0] && r[1..] == rest;
        var words := Words(lines[0]);
        if IsAssignment(words) {
          PassSkipsEmpty(m.(vars := Assign(m.vars, varIndex, words[0], oracle.stored(m.vars, words))),
                         lines[1..], varIndex + 1, variant, oracle);
        } else if words[0] in DrawingKeywords {
          var o := Command(m, lines[0], variant);
          PassSkipsEmpty(o.m, lines[1..], varIndex, variant, oracle);
        } else {
          PassSkipsEmpty(m, lines[1..], varIndex, variant, oracle);
        }
      }
    }
  }

  /**
   * The lines a pass replays act as the non-empty lines of the matched block after its first
   * line (the rest of the `while` header): rejoining with CR LF and splitting again only adds
   * empty lines.
   */
  lemma LoopLinesActAsBlock(m: Machine, text: string, variant: Variant, oracle: Oracle)
    ensures var block := ProgramLines(LoopBlock(text));
      Pass(m, LoopLines(text), 0, variant, oracle) == Pass(m, RemoveEmpty(block[1..]), 0, variant, oracle)
  {
    var block := ProgramLines(LoopBlock(text));
    var pieces := block[1..];
    assert forall i :: 0 <= i < |pieces| ==> NoSeparator(pieces[i], LineBreaks) by {
      forall i | 0 <= i < |pieces| ensures NoSeparator(pieces[i], LineBreaks) {
        assert pieces[i] == block[i + 1];
      }
    }
    SplitJoinCrLf(pieces);
    PassSkipsEmpty(m, LoopLines(text), 0, variant, oracle);
    PassSkipsEmpty(m, pieces, 0, variant, oracle);
  }

  /** Without assignments in the body, passes read the store and never write it. */
  lemma {:induction false} PassKeepsStore(m: Machine, lines: seq<string>, varIndex: nat, variant: Variant, oracle: Oracle)
    requires forall k :: 0 <= k < |lines| ==> !IsAssignment(Words(lines[k]))
    ensures Pass(m, lines, varIndex, variant, oracle).m.vars == m.vars
    decreases |lines|
  {
    if lines != [] {
      assert !IsAssignment(Words(lines[0]));
      var words := Words(lines[0]);
      if words[0] in DrawingKeywords {
        var o := Command(m, lines[0], variant);
        CommandKeepsControl(m, lines[0], variant);
        if o.status.Completed? {
          PassKeepsStore(o.m, lines[1..], varIndex, variant, oracle);
        }
      } else {
        PassKeepsStore(m, lines[1..], varIndex, variant, oracle);
      }
    }
  }

  /**
   * The count of a loop lives in the `Loop`, not in the store: a body without assignments
   * leaves every variable as it was, however many passes there are.
   */
  lemma {:induction false} ReplayKeepsStore(m: Machine, body: seq<string>, variant: Variant, oracle: Oracle, fuel: nat)
    requires forall k :: 0 <= k < |body| ==> !IsAssignment(Words(body[k]))
    ensures Replay(m, body, variant, oracle, fuel).m.vars == m.vars
    decreases fuel
  {
    if m.loopLogic && fuel > 0 {
      var o := Pass(m, body, 0, variant, oracle);
      PassKeepsStore(m, body, 0, variant, oracle);
      if o.status.Completed? {
        ReplayKeepsStore(NextPass(o.m, oracle), body, variant, oracle, fuel - 1);
      }
    }
  }

  /** A replay that ends normally ends with the guard false, the loop still on. */
  lemma {:induction false} ReplayEndsWithGuardFalse(m: Machine, body: seq<string>, variant: Variant, oracle: Oracle, fuel: nat)
    ensures var r := Replay(m, body, variant, oracle, fuel);
      r.status.Completed? ==> !r.m.loopLogic && r.m.loopOn == m.loopOn
    decreases fuel
  {
    if m.loopLogic && fuel > 0 {
      var o := Pass(m, body, 0, variant, oracle);
      PassKeepsLoop(m, body, 0, variant, oracle);
      if o.status.Completed? {
        ReplayEndsWithGuardFalse(NextPass(o.m, oracle), body, variant, oracle, fuel - 1);
      }
    }
  }

  /**
   * With `<` as the loop comparison, a guard that holds makes the loop's copy of the variable
   * count up one per pass until it reaches the value; enough fuel is the distance between them.
   */
  lemma {:induction false} CountedReplay(m: Machine, body: seq<string>, variant: Variant, oracle: Oracle, fuel: nat)
    requires forall a, op, b :: oracle.loopHolds(a, op, b) == (a < b)
    requires m.loopLogic == (m.loopVariable < m.loopValue)
    requires fuel >= m.loopValue - m.loopVariable
    ensures var r := Replay(m, body, variant, oracle, fuel);
      && r.status != OutOfFuel
      && (r.status.Completed? ==> r.m.loopVariable == if m.loopLogic then m.loopValue else m.loopVariable)
    decreases fuel
  {
    if m.loopLogic {
      var o := Pass(m, body, 0, variant, oracle);
      PassKeepsLoop(m, body, 0, variant, oracle);
      if o.status.Completed? {
        var next := NextPass(o.m, oracle);
        assert InRange(m.loopVariable + 1);
        assert next.loopVariable == m.loopVariable + 1;
        assert next.loopLogic == oracle.loopHolds(next.loopVariable, next.loopOperator, next.loopValue);
        CountedReplay(next, body, variant, oracle, fuel - 1);
      }
    }
  }

  // ---------------------------------------------------------------------------------------
  // Findings: each as written, and put right
  // ---------------------------------------------------------------------------------------

  /** Lines that neither assign nor open an `if` or a `while`. */
  predicate InertLines(lines: seq<string>) {
    forall k :: 0 <= k < |lines| ==>
      var w := Words(lines[k]); !IsAssignment(w) && w[0] != "if" && w[0] != "while"
  }

  /**
   * As written, once a loop has finished (or its guard failed at the header) every later
   * line is skipped by the loop-skip branch, `endwhile` and drawing lines alike, so the loop
   * is never closed and nothing after it is drawn.
   */
  lemma {:induction false} FinishedLoopSkipsRest(m: Machine, lines: seq<string>, varIndex: nat, body: seq<string>,
                                                 oracle: Oracle, fuel: nat)
    requires m.loopOn && !m.loopLogic && !m.ifOn && !m.ifLogic && InertLines(lines)
    ensures Scan(m, lines, varIndex, body, AsWritten, oracle, fuel) == Done(m)
    decreases |lines|
  {
    if lines != [] {
      assert InertLines(lines[1..]) by {
        forall k | 0 <= k < |lines[1..]|
          ensures var w := Words(lines[1..][k]); !IsAssignment(w) && w[0] != "if" && w[0] != "while"
        {
          assert lines[1..][k] == lines[k + 1];
        }
      }
      assert Words(lines[0])[0] != "while";
      FinishedLoopSkipsRest(m, lines[1..], varIndex, body, oracle, fuel);
    }
  }

  /** Put right, `endwhile` closes the loop and the next drawing line is carried out. */
  lemma EndwhileClosesLoop(m: Machine, endLine: string, line: string, varIndex: nat, body: seq<string>,
                           oracle: Oracle, fuel: nat)
    requires !m.ifOn
    requires Words(endLine)[0] == "endwhile" && !IsAssignment(Words(endLine))
    requires Words(line)[0] in DrawingKeywords && !IsAssignment(Words(line))
    ensures Scan(m, [endLine, line], varIndex, body, Corrected, oracle, fuel)
         == Command(m.(loopOn := false, loopLogic := false), line, Corrected)
  {
    var closed := m.(loopOn := false, loopLogic := false);
    CorrectedEndwhileStep(m, endLine, varIndex, body, oracle, fuel);
    ScanFirstDone(m, endLine, line, closed, varIndex, body, Corrected, oracle, fuel);
    ClosedDrawingStep(closed, line, varIndex, body, Corrected, oracle, fuel);
    ScanLast(closed, line, varIndex, body, Corrected, oracle, fuel);
  }

  lemma CorrectedEndwhileStep(m: Machine, endLine: string, varIndex: nat, body: seq<string>,
                              oracle: Oracle, fuel: nat)
    requires !m.ifOn
    requires Words(endLine)[0] == "endwhile" && !IsAssignment(Words(endLine))
    ensures StepLine(m, endLine, varIndex, body, Corrected, oracle, fuel)
         == Stepped(Done(m.(loopOn := false, loopLogic := false)), varIndex)
  {
  }

  lemma ClosedDrawingStep(m: Machine, line: string, varIndex: nat, body: seq<string>,
                          variant: Variant, oracle: Oracle, fuel: nat)
    requires !m.ifOn && !m.loopOn
    requires Words(line)[0] in DrawingKeywords && !IsAssignment(Words(line))
    ensures StepLine(m, line, varIndex, body, variant, oracle, fuel)
         == Stepped(Command(m, line, variant), varIndex)
  {
    DrawingWordsAreNotControl(Words(line)[0]);
  }

  /** No drawing keyword is one of the control words. */
  lemma DrawingWordsAreNotControl(w: string)
    requires w in DrawingKeywords
    ensures w != "if" && w != "endif" && w != "while" && w != "endwhile"
  {
  }

  /** A first line that completes hands the scan on to the rest. */
  lemma ScanFirstDone(m: Machine, a: string, b: string, next: Machine, varIndex: nat, body: seq<string>,
                      variant: Variant, oracle: Oracle, fuel: nat)
    requires StepLine(m, a, varIndex, body, variant, oracle, fuel) == Stepped(Done(next), varIndex)
    ensures Scan(m, [a, b], varIndex, body, variant, oracle, fuel) == Scan(next, [b], varIndex, body, variant, oracle, fuel)
  {
    assert [a, b][1..] == [b];
  }

  /** A one-line scan is that line's step. */
  lemma ScanLast(m: Machine, a: string, varIndex: nat, body: seq<string>,
                 variant: Variant, oracle: Oracle, fuel: nat)
    ensures Scan(m, [a], varIndex, body, variant, oracle, fuel) == StepLine(m, a, varIndex, body, variant, oracle, fuel).out
  {
    assert [a][1..] == [];
  }

  /** As written, a literal Y of `drawto` is parsed from the X word: `drawto 10,20` draws to (10, 10). */
  lemma DrawToReadsYFromX(m: Machine, a: string, b: string, p: int32, q: int32)
    requires NoSeparator(a, {','}) && NoSeparator(b, {','})
    requires a !in Names(m.vars) && b !in Names(m.vars)
    requires ParseOperand(a) == Got(p) && ParseOperand(b) == Got(q)
    ensures DrawTo(m, ["drawto", a + "," + b], AsWritten) == Done(Emit(m, DrawToShape, [p, p]))
  {
    CommaPair(a, b);
    TwoGot(p, p, Unable("X position", a), Unable("Y position", b));
  }

  /** Put right, `drawto a,b` draws to the operands read from `a` and from `b`. */
  lemma DrawToReadsBoth(m: Machine, a: string, b: string, p: int32, q: int32)
    requires NoSeparator(a, {','}) && NoSeparator(b, {','})
    requires Resolve(m.vars, a) == Got(p) && Resolve(m.vars, b) == Got(q)
    ensures DrawTo(m, ["drawto", a + "," + b], Corrected) == Done(Emit(m, DrawToShape, [p, q]))
  {
    CommaPair(a, b);
    TwoGot(p, q, Unable("X position", a), Unable("Y position", b));
  }

  /**
   * As written, when the X word of `moveto` is a variable the Y word is looked up as a name
   * too, so a number there (`moveto a,5`) gives index -1 and an `IndexOutOfRangeException`.
   */
  lemma MoveToLooksUpYByX(m: Machine, a: string, b: string)
    requires NoSeparator(a, {','}) && NoSeparator(b, {','})
    requires a in Names(m.vars) && b !in Names(m.vars)
    ensures MoveTo(m, ["moveto", a + "," + b], AsWritten) == Throw(m, IndexOutOfRange)
  {
    CommaPair(a, b);
  }

  /** Put right, `moveto a,b` moves to the operands read from `a` and from `b`. */
  lemma MoveToReadsBoth(m: Machine, a: string, b: string, p: int32, q: int32)
    requires NoSeparator(a, {','}) && NoSeparator(b, {','})
    requires Resolve(m.vars, a) == Got(p) && Resolve(m.vars, b) == Got(q)
    ensures MoveTo(m, ["moveto", a + "," + b], Corrected)
         == Done(Emit(m, MoveToShape, [p, q]).(x := p, y := q))
  {
    CommaPair(a, b);
    TwoGot(p, q, Unable("X axis", a), Unable("Y axis", b));
  }

  /**
   * The two readings of `moveto x,y` part only when exactly one of the two words is a
   * variable: when both are, or neither is, they do the same.
   */
  lemma MoveToVariantsAgree(m: Machine, words: seq<string>)
    requires |words| >= 2 && |Split(words[1], {','})| == 2 ==>
      var args := Split(words[1], {','}); (args[0] in Names(m.vars)) == (args[1] in Names(m.vars))
    ensures MoveTo(m, words, AsWritten) == MoveTo(m, words, Corrected)
  {
    if |words| >= 2 && |Split(words[1], {','})| == 2 {
      var args := Split(words[1], {','});
      assert MoveToY(m.vars, args[0], args[1], AsWritten) == MoveToY(m.vars, args[0], args[1], Corrected);
    }
  }

  /**
   * The two readings of `drawto x,y` agree whenever the Y word is a variable, or is the
   * same word as the X word.
   */
  lemma DrawToVariantsAgree(m: Machine, words: seq<string>)
    requires |words| >= 2 && |Split(words[1], {','})| == 2 ==>
      var args := Split(words[1], {','}); args[1] in Names(m.vars) || args[0] == args[1]
    ensures DrawTo(m, words, AsWritten) == DrawTo(m, words, Corrected)
  {
    if |words| >= 2 && |Split(words[1], {','})| == 2 {
      var args := Split(words[1], {','});
      assert DrawToY(m.vars, args[0], args[1], AsWritten) == DrawToY(m.vars, args[0], args[1], Corrected);
    }
  }
}
