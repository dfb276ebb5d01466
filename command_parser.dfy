/**
 * `CommandParser.HandleCommand` (namespace GraphicalCommandInterpreter): script text is cut
 * into lines at CR and LF, each line into tokens at spaces and commas (empty pieces dropped
 * in both cases); the lower-cased first token selects one of nine commands, whose arity and
 * integer arguments are checked; a valid command updates the pen of a `Form1` and calls its
 * drawing methods, and the first invalid line ends the batch with an `InvalidCommandException`
 * naming that line.
 */
module CommandParser {
  import opened Wrappers
  import opened Int32
  import opened Text
  import opened Drawing
  import opened GraphicalForm

  const Separators: set<char> := {' ', ','}

  /** The tokens of one line. */
  function Tokens(line: string): seq<string> {
    SplitNonEmpty(line, Separators)
  }

  /** The lines of a script. */
  function Lines(text: string): seq<string> {
    SplitNonEmpty(text, LineBreaks)
  }

  /** A validated command line. */
  datatype Command =
    | MoveTo(x: int32, y: int32)
    | DrawTo(x: int32, y: int32)
    | Pen(color: Color)
    | Fill(on: bool)
    | Clear
    | Reset
    | Circle(radius: int32)
    | Rectangle(width: int32, height: int32)
    | Triangle(adj: int32, base: int32, hyp: int32)

  /** `InvalidCommandException`: the offending line and the message shown for it. */
  datatype InvalidCommand = InvalidCommand(command: string, message: string)

  const MoveToCoordinates := "Invalid coordinates for moveto command. Moveto takes two integer coordinates, e.g drawto 100,100"
  const MoveToParameters := "Invalid parameters for moveto command. Moveto takes two integer coordinates, e.g drawto 100,100"
  const DrawToCoordinates := "Invalid coordinates for drawto command. Drawto takes two integer coordinates, e.g drawto 100,100"
  const DrawToParameters := "Invalid parameters for drawto command. Drawto takes two integer coordinates, e.g drawto 100,100"
  const PenColour := "Invalid colour specified for pen command. try red, green or black"
  const PenParameter := "Invalid parameter for pen command. pen takes a colour, e.g. pen red"
  const FillStatus := "Invalid fill status specified for fill command. Fill is either on or off, e.g fill on"
  const FillParameter := "Invalid parameter for fill command. Fill is either on or off, e.g fill on"
  const CircleRadius := "Invalid radius specified for circle command. Circle takes a radius e.g. circle 40"
  const CircleParameter := "Invalid parameter for circle command. Circle takes a radius e.g. circle 40"
  const RectangleDimensions := "Invalid dimensions specified for rectangle command. Rectangle takes width and height, e.g. rectangle 80,95"
  const RectangleParameters := "Invalid parameters for rectangle command. Rectangle takes width and height, e.g. rectangle 80,95"
  const TriangleDimensions := "Invalid dimensions specified for triangle command. Triangle takes adjacent, base and hypotenuse, e.g. triangle 80,90,100"
  const TriangleParameters := "Invalid parameters for triangle command. Triangle takes adjacent, base and hypotenuse, e.g. triangle 80,90,100"
  const ValidCommands := "Valid Commands include: moveto, drawto, pen, fill, clear, reset, circle, rectangle, and triangle. Try one"

  const Keywords: set<string> := {"moveto", "drawto", "pen", "fill", "clear", "reset", "circle", "rectangle", "triangle"}

  /** `int.TryParse` into an `int`. */
  function Int(token: string): Option<int32> {
    match TryParse(token)
    case Some(n) => Some(n as int32)
    case None => None
  }

  /** What the validator looks at in an argument token: its `int.TryParse` value and its lower-cased text. */
  datatype Argument = Argument(number: Option<int32>, word: string)

  function Arguments(tokens: seq<string>): (r: seq<Argument>)
    ensures |r| == |tokens|
    ensures forall i :: 0 <= i < |r| ==> r[i] == Argument(Int(tokens[i]), ToLower(tokens[i]))
  {
    seq(|tokens|, i requires 0 <= i < |tokens| => Argument(Int(tokens[i]), ToLower(tokens[i])))
  }

  /** The keyword switch of `HandleCommand` on the tokens of a non-blank line. */
  function Decode(parts: seq<string>): Result<Command, string>
    requires |parts| >= 1
  {
    Validate(ToLower(parts[0]), Arguments(parts[1..]))
  }

  /** The case for each lower-cased keyword: the argument count first, then the arguments themselves. */
  function Validate(keyword: string, args: seq<Argument>): Result<Command, string> {
    if keyword == "moveto" then
      if |args| != 2 then Err(MoveToParameters)
      else if args[0].number.Some? && args[1].number.Some? then Ok(MoveTo(args[0].number.value, args[1].number.value))
      else Err(MoveToCoordinates)
    else if keyword == "drawto" then
      if |args| != 2 then Err(DrawToParameters)
      else if args[0].number.Some? && args[1].number.Some? then Ok(DrawTo(args[0].number.value, args[1].number.value))
      else Err(DrawToCoordinates)
    else if keyword == "pen" then
      if |args| != 1 then Err(PenParameter)
      else if args[0].word == "red" then Ok(Pen(Red))
      else if args[0].word == "green" then Ok(Pen(Green))
      else if args[0].word == "black" then Ok(Pen(Black))
      else Err(PenColour)
    else if keyword == "fill" then
      if |args| != 1 then Err(FillParameter)
      else if args[0].word == "on" then Ok(Fill(true))
      else if args[0].word == "off" then Ok(Fill(false))
      else Err(FillStatus)
    else if keyword == "clear" then Ok(Clear)
    else if keyword == "reset" then Ok(Reset)
    else if keyword == "circle" then
      if |args| != 1 then Err(CircleParameter)
      else if args[0].number.Some? then Ok(Circle(args[0].number.value))
      else Err(CircleRadius)
    else if keyword == "rectangle" then
      if |args| != 2 then Err(RectangleParameters)
      else if args[0].number.Some? && args[1].number.Some? then Ok(Rectangle(args[0].number.value, args[1].number.value))
      else Err(RectangleDimensions)
    else if keyword == "triangle" then
      if |args| != 3 then Err(TriangleParameters)
      else if args[0].number.Some? && args[1].number.Some? && args[2].number.Some? then
        Ok(Triangle(args[0].number.value, args[1].number.value, args[2].number.value))
      else Err(TriangleDimensions)
    else Err(ValidCommands)
  }

  /** One line: nothing to do for a blank line, a command, or the exception for the line. */
  function ParseLine(line: string): Result<Option<Command>, InvalidCommand> {
    var parts := Tokens(line);
    if |parts| < 1 then Ok(None)
    else match Decode(parts)
      case Ok(c) => Ok(Some(c))
      case Err(message) => Err(InvalidCommand(line, message))
  }

  /** What a valid command does to the form: the pen fields it assigns, then the call it makes. */
  function Execute(s: FormState, c: Command, nanToInt: int32): FormState {
    match c
    case MoveTo(x, y) => AfterMoveTo(s.(pen := s.pen.(x := x, y := y)))
    case DrawTo(x, y) => AfterDrawTo(s.(pen := s.pen.(x := x, y := y)))
    case Pen(color) => WithPenColor(s, color)
    case Fill(on) => WithFill(s, on)
    case Clear => AfterClear(s)
    case Reset => AfterReset(s)
    case Circle(r) => AfterCircle(s, r)
    case Rectangle(w, h) => AfterRectangle(s, w, h)
    case Triangle(a, b, h) => AfterTriangle(s, a, b, h, nanToInt)
  }

  /** The form a batch leaves behind, and the exception that ended it, if any. */
  datatype Outcome = Outcome(state: FormState, error: Option<InvalidCommand>)

  /** The lines in order, stopping at the first invalid one. */
  function Run(s: FormState, lines: seq<string>, nanToInt: int32): Outcome
    decreases |lines|
  {
    if lines == [] then Outcome(s, None)
    else match ParseLine(lines[0])
      case Err(e) => Outcome(s, Some(e))
      case Ok(None) => Run(s, lines[1..], nanToInt)
      case Ok(Some(c)) => Run(Execute(s, c, nanToInt), lines[1..], nanToInt)
  }

  /** The pen assignments and the `Form1` call of one valid command. */
  method Perform(form: Form1, c: Command)
    modifies form
    ensures form.State() == Execute(old(form.State()), c, form.nanToInt)
  {
    match c {
      case MoveTo(x, y) =>
        form.penX, form.penY := x, y;
        form.MoveTo();
      case DrawTo(x, y) =>
        form.penX, form.penY := x, y;
        form.DrawTo();
      case Pen(color) => form.SetPenColor(color);
      case Fill(on) => form.SetFillStatus(on);
      case Clear => form.ClearDrawingArea();
      case Reset => form.Reset();
      case Circle(r) => form.DrawCircle(r);
      case Rectangle(w, h) => form.DrawRectangle(w, h);
      case Triangle(a, b, h) => form.DrawTriangle(a, b, h);
    }
  }

  lemma RunFrom(s: FormState, lines: seq<string>, i: nat, nanToInt: int32)
    requires i < |lines|
    ensures var p := ParseLine(lines[i]);
      && (p.Err? ==> Run(s, lines[i..], nanToInt) == Outcome(s, Some(p.error)))
      && (p == Ok(None) ==> Run(s, lines[i..], nanToInt) == Run(s, lines[i + 1..], nanToInt))
      && (p.Ok? && p.value.Some? ==>
            Run(s, lines[i..], nanToInt) == Run(Execute(s, p.value.value, nanToInt), lines[i + 1..], nanToInt))
  {
    assert lines[i..][0] == lines[i] && lines[i..][1..] == lines[i + 1..];
  }

  /**
   * `HandleCommand(form, command)`: the batch as `Run` describes it, carried out on the form;
   * the exception it rethrows is returned.
   */
  method HandleCommand(form: Form1, command: string) returns (error: Option<InvalidCommand>)
    modifies form
    ensures Outcome(form.State(), error) == Run(old(form.State()), Lines(command), form.nanToInt)
  {
    var commandLines := Lines(command);
    ghost var expected := Run(form.State(), commandLines, form.nanToInt);
    var i := 0;
    while i < |commandLines|
      invariant 0 <= i <= |commandLines|
      invariant expected == Run(form.State(), commandLines[i..], form.nanToInt)
    {
      var line := commandLines[i];
      RunFrom(form.State(), commandLines, i, form.nanToInt);
      match ParseLine(line) {
        case Err(e) =>
          return Some(e);
        case Ok(None) =>
        case Ok(Some(c)) =>
          Perform(form, c);
      }
      i := i + 1;
    }
    return None;
  }

  // ---------------------------------------------------------------------------------------
  // Properties of the tokeniser and the validator
  // ---------------------------------------------------------------------------------------

  /** Any run of spaces and commas separates two tokens like any other run. */
  lemma SeparatorsInterchangeable(a: string, run1: string, run2: string, b: string)
    requires SeparatorRunText(run1) && SeparatorRunText(run2)
    ensures Tokens(a + run1 + b) == Tokens(a) + Tokens(b) == Tokens(a + run2 + b)
  {
    SeparatorRun(a, run1, b, Separators);
    SeparatorRun(a, run2, b, Separators);
  }

  /** A word with no separator in it is one token. */
  lemma OneToken(w: string)
    requires w != [] && NoSeparator(w, Separators)
    ensures Tokens(w) == [w]
  {
    SplitWhole(w, Separators);
    assert RemoveEmpty([w]) == [w] + RemoveEmpty([]);
  }

  predicate SeparatorRunText(run: string) {
    |run| >= 1 && forall i :: 0 <= i < |run| ==> run[i] in Separators
  }

  /**
   * A keyword and two arguments give the same three tokens however they are separated:
   * `moveto 10,20`, `moveto 10 20` and `moveto  10,,20` are one command.
   */
  lemma ThreeTokens(keyword: string, run1: string, a: string, run2: string, b: string)
    requires keyword != [] && a != [] && b != []
    requires NoSeparator(keyword, Separators) && NoSeparator(a, Separators) && NoSeparator(b, Separators)
    requires SeparatorRunText(run1) && SeparatorRunText(run2)
    ensures Tokens(keyword + run1 + a + run2 + b) == [keyword, a, b]
  {
    var tail := a + run2 + b;
    assert keyword + run1 + a + run2 + b == keyword + run1 + tail;
    OneToken(keyword);
    OneToken(a);
    OneToken(b);
    SeparatorRun(a, run2, b, Separators);
    assert Tokens(tail) == [a, b];
    SeparatorRun(keyword, run1, tail, Separators);
    assert Tokens(keyword + run1 + tail) == [keyword] + [a, b];
  }

  /** A line made only of spaces and commas is skipped without an error. */
  lemma BlankLineSkipped(line: string)
    requires forall i :: 0 <= i < |line| ==> line[i] in Separators
    ensures ParseLine(line) == Ok(None)
  {
    OnlySeparators(line, Separators);
  }

  /** The validator decides the same on lower-cased tokens: keyword, colour and fill status are case-insensitive. */
  lemma DecodeIgnoresCase(parts: seq<string>)
    requires |parts| >= 1
    ensures Decode(LowerAll(parts)) == Decode(parts)
  {
    var lower := LowerAll(parts);
    LowerIdempotent(parts[0]);
    assert ToLower(lower[0]) == ToLower(parts[0]);
    ArgumentsIgnoreCase(parts[1..], lower[1..]);
    assert Arguments(lower[1..]) == Arguments(parts[1..]);
  }

  /** Arguments read from lower-cased tokens are the same arguments. */
  lemma ArgumentsIgnoreCase(args: seq<string>, lowerArgs: seq<string>)
    requires |lowerArgs| == |args|
    requires forall i :: 0 <= i < |args| ==> lowerArgs[i] == ToLower(args[i])
    ensures Arguments(lowerArgs) == Arguments(args)
  {
    forall i | 0 <= i < |args|
      ensures Arguments(lowerArgs)[i] == Arguments(args)[i]
    {
      ArgumentIgnoresCase(args[i]);
    }
  }

  lemma ArgumentIgnoresCase(w: string)
    ensures Int(ToLower(w)) == Int(w)
    ensures ToLower(ToLower(w)) == ToLower(w)
  {
    ParseIgnoresCase(w);
    LowerIdempotent(w);
  }

  /** A line and its lower-cased copy are accepted alike, as the same command or with the same message. */
  lemma LineIgnoresCase(line: string)
    ensures ParseLine(ToLower(line)).Ok? == ParseLine(line).Ok?
    ensures ParseLine(line).Ok? ==> ParseLine(ToLower(line)) == ParseLine(line)
    ensures ParseLine(line).Err? ==> ParseLine(ToLower(line)).error.message == ParseLine(line).error.message
  {
    SplitNonEmptyLower(line, Separators);
    var parts := Tokens(line);
    if |parts| >= 1 {
      DecodeIgnoresCase(parts);
    }
  }

  /**
   * `moveto` and `drawto` are accepted exactly with two integer arguments, which become the
   * pen position; otherwise the line is rejected with the command's own message.
   */
  lemma MoveDrawValidation(line: string)
    requires |Tokens(line)| >= 1
    ensures var t := Tokens(line); var p := ParseLine(line);
      ToLower(t[0]) == "moveto" ==>
        && (p.Ok? <==> |t| == 3 && Int(t[1]).Some? && Int(t[2]).Some?)
        && (p.Ok? ==> p.value == Some(MoveTo(Int(t[1]).value, Int(t[2]).value)))
        && (p.Err? ==> p.error == InvalidCommand(line, if |t| == 3 then MoveToCoordinates else MoveToParameters))
    ensures var t := Tokens(line); var p := ParseLine(line);
      ToLower(t[0]) == "drawto" ==>
        && (p.Ok? <==> |t| == 3 && Int(t[1]).Some? && Int(t[2]).Some?)
        && (p.Ok? ==> p.value == Some(DrawTo(Int(t[1]).value, Int(t[2]).value)))
        && (p.Err? ==> p.error == InvalidCommand(line, if |t| == 3 then DrawToCoordinates else DrawToParameters))
  {
  }

  /** `pen` takes one of red, green and black (in any case) and nothing else; there is no blue. */
  lemma PenValidation(line: string)
    requires |Tokens(line)| >= 1 && ToLower(Tokens(line)[0]) == "pen"
    ensures var t := Tokens(line); var p := ParseLine(line);
      && (p.Ok? <==> |t| == 2 && ToLower(t[1]) in {"red", "green", "black"})
      && (p.Ok? ==> p.value.Some? && p.value.value.Pen?)
      && (p.Ok? ==> (p.value.value.color == Red <==> ToLower(t[1]) == "red"))
      && (p.Ok? ==> (p.value.value.color == Green <==> ToLower(t[1]) == "green"))
      && (p.Ok? ==> (p.value.value.color == Black <==> ToLower(t[1]) == "black"))
      && (p.Err? ==> p.error == InvalidCommand(line, if |t| == 2 then PenColour else PenParameter))
  {
    var t := Tokens(line);
    KeywordsDiffer();
    assert "red" != "green" && "red" != "black" && "green" != "black";
    assert Decode(t) == if |t| != 2 then Err(PenParameter)
      else if ToLower(t[1]) == "red" then Ok(Pen(Red))
      else if ToLower(t[1]) == "green" then Ok(Pen(Green))
      else if ToLower(t[1]) == "black" then Ok(Pen(Black))
      else Err(PenColour);
  }

  /** `fill` takes on or off (in any case) and nothing else, and sets the flag to whether it was on. */
  lemma FillValidation(line: string)
    requires |Tokens(line)| >= 1 && ToLower(Tokens(line)[0]) == "fill"
    ensures var t := Tokens(line); var p := ParseLine(line);
      && (p.Ok? <==> |t| == 2 && ToLower(t[1]) in {"on", "off"})
      && (p.Ok? ==> p.value == Some(Fill(ToLower(t[1]) == "on")))
      && (p.Err? ==> p.error == InvalidCommand(line, if |t| == 2 then FillStatus else FillParameter))
  {
    var t := Tokens(line);
    KeywordsDiffer();
    assert "on" != "off";
    assert Decode(t) == if |t| != 2 then Err(FillParameter)
      else if ToLower(t[1]) == "on" then Ok(Fill(true))
      else if ToLower(t[1]) == "off" then Ok(Fill(false))
      else Err(FillStatus);
  }

  /** The nine keywords are nine different words. */
  lemma KeywordsDiffer()
    ensures "moveto" != "drawto" && "moveto" != "circle" && "drawto" != "circle"
    ensures "clear" != "reset"
    ensures "moveto" != "circle" && "moveto" != "rectangle" && "moveto" != "triangle"
    ensures "drawto" != "circle" && "drawto" != "rectangle" && "drawto" != "triangle"
    ensures "pen" != "circle" && "pen" != "rectangle" && "pen" != "triangle"
    ensures "fill" != "circle" && "fill" != "rectangle" && "fill" != "triangle"
    ensures "clear" != "circle" && "clear" != "rectangle" && "clear" != "triangle"
    ensures "reset" != "circle" && "reset" != "rectangle" && "reset" != "triangle"
    ensures "circle" != "rectangle" && "circle" != "triangle" && "rectangle" != "triangle"
  {
  }

  /** `circle` takes exactly one integer argument and passes it on unchanged. */
  lemma CircleValidation(line: string)
    requires |Tokens(line)| >= 1 && ToLower(Tokens(line)[0]) == "circle"
    ensures var t := Tokens(line); var p := ParseLine(line);
      && (p.Ok? <==> |t| == 2 && Int(t[1]).Some?)
      && (p.Ok? ==> p.value == Some(Circle(Int(t[1]).value)))
      && (p.Err? ==> p.error == InvalidCommand(line, if |t| == 2 then CircleRadius else CircleParameter))
  {
    var t := Tokens(line);
    KeywordsDiffer();
    assert Decode(t) == if |t| != 2 then Err(CircleParameter)
      else if Int(t[1]).Some? then Ok(Circle(Int(t[1]).value))
      else Err(CircleRadius);
  }

  /** `rectangle` takes exactly two integer arguments, width then height. */
  lemma RectangleValidation(line: string)
    requires |Tokens(line)| >= 1 && ToLower(Tokens(line)[0]) == "rectangle"
    ensures var t := Tokens(line); var p := ParseLine(line);
      && (p.Ok? <==> |t| == 3 && Int(t[1]).Some? && Int(t[2]).Some?)
      && (p.Ok? ==> p.value == Some(Rectangle(Int(t[1]).value, Int(t[2]).value)))
      && (p.Err? ==> p.error == InvalidCommand(line, if |t| == 3 then RectangleDimensions else RectangleParameters))
  {
    var t := Tokens(line);
    KeywordsDiffer();
    assert Decode(t) == if |t| != 3 then Err(RectangleParameters)
      else if Int(t[1]).Some? && Int(t[2]).Some? then Ok(Rectangle(Int(t[1]).value, Int(t[2]).value))
      else Err(RectangleDimensions);
  }

  /** `triangle` takes exactly three integer arguments: adjacent, base and hypotenuse. */
  lemma TriangleValidation(line: string)
    requires |Tokens(line)| >= 1 && ToLower(Tokens(line)[0]) == "triangle"
    ensures var t := Tokens(line); var p := ParseLine(line);
      && (p.Ok? <==> |t| == 4 && Int(t[1]).Some? && Int(t[2]).Some? && Int(t[3]).Some?)
      && (p.Ok? ==> p.value == Some(Triangle(Int(t[1]).value, Int(t[2]).value, Int(t[3]).value)))
      && (p.Err? ==> p.error == InvalidCommand(line, if |t| == 4 then TriangleDimensions else TriangleParameters))
  {
    var t := Tokens(line);
    KeywordsDiffer();
    assert Decode(t) == if |t| != 4 then Err(TriangleParameters)
      else if Int(t[1]).Some? && Int(t[2]).Some? && Int(t[3]).Some? then Ok(Triangle(Int(t[1]).value, Int(t[2]).value, Int(t[3]).value))
      else Err(TriangleDimensions);
  }

  /** `clear` and `reset` ignore whatever follows them; any other unknown keyword is rejected. */
  lemma OtherKeywords(line: string)
    requires |Tokens(line)| >= 1
    ensures ToLower(Tokens(line)[0]) == "clear" ==> ParseLine(line) == Ok(Some(Clear))
    ensures ToLower(Tokens(line)[0]) == "reset" ==> ParseLine(line) == Ok(Some(Reset))
    ensures ToLower(Tokens(line)[0]) !in Keywords ==> ParseLine(line) == Err(InvalidCommand(line, ValidCommands))
  {
    var t := Tokens(line);
    var w := ToLower(t[0]);
    KeywordsDiffer();
    if w == "clear" {
      assert Decode(t) == Ok(Clear);
    } else if w == "reset" {
      assert Decode(t) == Ok(Reset);
    } else if w !in Keywords {
      assert Decode(t) == Err(ValidCommands);
    }
  }

  /** Which pen fields each command assigns; the shapes, `clear` and the position of `pen`/`fill` are untouched. */
  lemma ExecuteTouches(s: FormState, c: Command, nanToInt: int32)
    ensures var t := Execute(s, c, nanToInt);
      && ((c.MoveTo? || c.DrawTo?) ==> t.pen == s.pen.(x := c.x, y := c.y))
      && (c.Pen? ==> t.pen == s.pen.(color := c.color))
      && (c.Fill? ==> t.pen == s.pen.(fill := c.on))
      && (c.Reset? ==> t.pen == InitialPen)
      && ((c.Clear? || c.Circle? || c.Rectangle? || c.Triangle?) ==> t.pen == s.pen)
      && ((c.Pen? || c.Fill?) ==> t.drawn == s.drawn && t.markerSize == s.markerSize)
  {
  }

  // ---------------------------------------------------------------------------------------
  // Properties of a batch
  // ---------------------------------------------------------------------------------------

  predicate AllValid(lines: seq<string>) {
    forall j :: 0 <= j < |lines| ==> ParseLine(lines[j]).Ok?
  }

  /** A batch of valid lines runs to the end without an exception. */
  lemma {:induction false} ValidBatchCompletes(s: FormState, lines: seq<string>, nanToInt: int32)
    requires AllValid(lines)
    ensures Run(s, lines, nanToInt).error == None
    decreases |lines|
  {
    if lines != [] {
      ValidHead(s, lines, nanToInt);
      ValidBatchCompletes(After(s, lines[0], nanToInt), lines[1..], nanToInt);
    }
  }

  /**
   * The first invalid line ends the batch: the effects of the lines before it stay, the lines
   * after it are not run, and the exception names that line.
   */
  lemma {:induction false} FirstInvalidLineAborts(s: FormState, before: seq<string>, bad: string, after: seq<string>, nanToInt: int32)
    requires AllValid(before)
    requires ParseLine(bad).Err?
    ensures Run(s, before + [bad] + after, nanToInt) == Outcome(Run(s, before, nanToInt).state, Some(ParseLine(bad).error))
    ensures ParseLine(bad).error.command == bad
    decreases |before|
  {
    var lines := before + [bad] + after;
    ErrorCarriesLine(bad);
    if before == [] {
      assert lines == [bad] + after;
      InvalidHead(s, lines, nanToInt);
    } else {
      assert lines[0] == before[0];
      assert lines[1..] == before[1..] + [bad] + after;
      var next := After(s, before[0], nanToInt);
      ValidHead(s, lines, nanToInt);
      ValidHead(s, before, nanToInt);
      FirstInvalidLineAborts(next, before[1..], bad, after, nanToInt);
    }
  }

  /** The exception of an invalid line names that line. */
  lemma ErrorCarriesLine(line: string)
    requires ParseLine(line).Err?
    ensures ParseLine(line).error.command == line
  {
  }

  /** A batch that starts with an invalid line stops there, with the form untouched. */
  lemma InvalidHead(s: FormState, lines: seq<string>, nanToInt: int32)
    requires lines != [] && ParseLine(lines[0]).Err?
    ensures Run(s, lines, nanToInt) == Outcome(s, Some(ParseLine(lines[0]).error))
  {
  }

  /** The form after one valid line: the command's effect, or nothing for a blank line. */
  function After(s: FormState, line: string, nanToInt: int32): FormState
    requires ParseLine(line).Ok?
  {
    match ParseLine(line).value
    case Some(c) => Execute(s, c, nanToInt)
    case None => s
  }

  /** A batch that starts with a valid line goes on from the form that line leaves. */
  lemma ValidHead(s: FormState, lines: seq<string>, nanToInt: int32)
    requires lines != [] && ParseLine(lines[0]).Ok?
    ensures Run(s, lines, nanToInt) == Run(After(s, lines[0], nanToInt), lines[1..], nanToInt)
  {
  }

  /** Whenever a batch fails, the exception names one of its lines, a line that is invalid on its own. */
  lemma {:induction false} ErrorNamesInvalidLine(s: FormState, lines: seq<string>, nanToInt: int32)
    requires Run(s, lines, nanToInt).error.Some?
    ensures var e := Run(s, lines, nanToInt).error.value; e.command in lines && ParseLine(e.command) == Err(e)
    decreases |lines|
  {
    if ParseLine(lines[0]).Ok? {
      ValidHead(s, lines, nanToInt);
      ErrorNamesInvalidLine(After(s, lines[0], nanToInt), lines[1..], nanToInt);
    }
  }
}
