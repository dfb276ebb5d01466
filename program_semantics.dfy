/**
 * What `Commands` (namespace ProgrammingLanguageAssignment) does, as functions of its state:
 * the handlers of the nine drawing commands, the dispatch on the first space-separated word,
 * and the line-by-line interpretation of a program with variables, `if`/`endif` and
 * `while`/`endwhile`.
 *
 * The helper classes `Variable`, `Conditional`, `Loop` and `ShapesFactory` are not part of
 * this model. The variable store is a sequence of bindings looked up by first index; the value
 * `checkVariableValue` stores and the comparisons `checkIfLogic` / `checkLoopLogic` make are the
 * functions of an `Oracle`; a drawn shape is a request naming its kind, the current position,
 * the pen and brush colours and the argument list. A message box is a message, and an
 * exception that escapes is a `Threw` status that ends the run.
 */
module ProgramSemantics {
  import opened Wrappers
  import opened Int32
  import opened Text
  import opened Drawing

  // ---------------------------------------------------------------------------------------
  // State
  // ---------------------------------------------------------------------------------------

  /** One variable of the `Variable` store. */
  datatype Binding = Binding(name: string, value: int32)

  /** The shapes `ShapesFactory.getShape` is asked for. */
  datatype ShapeKind = MoveToShape | DrawToShape | RectShape | CircleShape | TriangleShape

  /** A drawing step: a shape set at the current position and drawn, or the canvas cleared. */
  datatype Request =
    | Shape(kind: ShapeKind, x: int32, y: int32, pen: Color, brush: Color, args: seq<int32>)
    | ClearCanvas(color: Color)

  /** The exceptions that no handler catches. */
  datatype Fault = IndexOutOfRange | FormatError | OverflowError | NullReference

  /** How a call ends: normally, by an exception, or by reaching the bound on loop passes. */
  datatype Status = Completed | Threw(fault: Fault) | OutOfFuel

  /** The code as it is written, or with the three slips listed as findings put right. */
  datatype Variant = AsWritten | Corrected

  /** The unseen helper code: the value an assignment stores and the two comparisons. */
  datatype Oracle = Oracle(
    stored: (seq<Binding>, seq<string>) -> int32,
    ifHolds: (int32, string, int32) -> bool,
    loopHolds: (int32, string, int32) -> bool)

  /**
   * The fields of `Commands`: the position `x`, `y`, the `fill` flag, the colours of `pen`
   * and `brush`, the variable store, the `If`/`IfLogic` flags of the `Conditional`, the flag,
   * logic, variable, value and operator of the `Loop`, and what has been drawn and shown.
   */
  datatype Machine = Machine(
    x: int32, y: int32, fill: bool, penColor: Color, brushColor: Color,
    vars: seq<Binding>,
    ifOn: bool, ifLogic: bool,
    loopOn: bool, loopLogic: bool, loopVariable: int32, loopValue: int32, loopOperator: string,
    requests: seq<Request>, messages: seq<string>)

  /** The constructor: a position, a pen and a brush, and fresh helper objects. */
  function Initial(x: int32, y: int32, pen: Color, brush: Color): Machine {
    Machine(x, y, false, pen, brush, [], false, false, false, false, 0, 0, "", [], [])
  }

  datatype Outcome = Outcome(m: Machine, status: Status)

  function Done(m: Machine): Outcome {
    Outcome(m, Completed)
  }

  function Throw(m: Machine, f: Fault): Outcome {
    Outcome(m, Threw(f))
  }

  /** A message box and nothing else. */
  function Report(m: Machine, text: string): Outcome {
    Outcome(m.(messages := m.messages + [text]), Completed)
  }

  /** A shape of `kind` set at the current position with the current pen and brush. */
  function Emit(m: Machine, kind: ShapeKind, args: seq<int32>): Machine {
    m.(requests := m.requests + [Shape(kind, m.x, m.y, m.penColor, m.brushColor, args)])
  }

  // ---------------------------------------------------------------------------------------
  // Words and the variable store
  // ---------------------------------------------------------------------------------------

  /** `line.Split(' ')`, empty pieces kept. */
  function Words(line: string): (w: seq<string>)
    ensures |w| >= 1
  {
    Split(line, {' '})
  }

  /** `getVariableName()`. */
  function Names(vars: seq<Binding>): (r: seq<string>)
    ensures |r| == |vars| && forall i :: 0 <= i < |r| ==> r[i] == vars[i].name
  {
    seq(|vars|, i requires 0 <= i < |vars| => vars[i].name)
  }

  /** `Array.IndexOf(getVariableName(), name)`: the first index holding the name, or -1. */
  function IndexOf(vars: seq<Binding>, name: string): (i: int)
    ensures -1 <= i < |vars|
    ensures i == -1 <==> name !in Names(vars)
    ensures 0 <= i ==> vars[i].name == name && forall k :: 0 <= k < i ==> vars[k].name != name
  {
    if vars == [] then -1
    else if vars[0].name == name then 0
    else
      var j := IndexOf(vars[1..], name);
      assert Names(vars) == [vars[0].name] + Names(vars[1..]);
      if j == -1 then -1 else j + 1
  }

  /**
   * `checkVariableValue(index, name, words)`: slot `index` of the store now binds `name`
   * to `value`; an index past the end adds the binding at the end.
   */
  function Assign(vars: seq<Binding>, index: nat, name: string, value: int32): (r: seq<Binding>)
    ensures var slot := if index < |vars| then index else |vars|;
      && |r| == (if index < |vars| then |vars| else |vars| + 1)
      && r[slot] == Binding(name, value)
      && forall k :: 0 <= k < |vars| && k != slot ==> r[k] == vars[k]
  {
    if index < |vars| then vars[index := Binding(name, value)] else vars + [Binding(name, value)]
  }

  /** Three words with `=` in the middle. */
  predicate IsAssignment(words: seq<string>) {
    |words| == 3 && words[1] == "="
  }

  /** What reading an operand gives: a number, a format error, an overflow, or a bad index. */
  datatype Read = Got(n: int32) | Unparsable | Overflow | OutOfRange

  /** `Int32.Parse`. */
  function ParseOperand(token: string): Read {
    match ParseInteger(token)
    case Value(n) => Got(n)
    case BadFormat => Unparsable
    case TooLarge => Overflow
  }

  /** A defined name reads as its value at its first index; anything else is parsed. */
  function Resolve(vars: seq<Binding>, token: string): Read {
    if token in Names(vars) then Got(vars[IndexOf(vars, token)].value) else ParseOperand(token)
  }

  /** The value at the first index of `name`, or the exception for index -1. */
  function ValueOf(vars: seq<Binding>, name: string): Read {
    var i := IndexOf(vars, name);
    if i == -1 then OutOfRange else Got(vars[i].value)
  }

  // ---------------------------------------------------------------------------------------
  // The handlers
  // ---------------------------------------------------------------------------------------

  const MoveToUsage := "Invalid input. Please use the format: MoveTo 20,20"
  const DrawToUsage := "Invalid input. Please use the format: DrawTo 10,20"
  const RectUsage := "Invalid Input. Kindly input a valid width and height, e.g: rect 10,10."
  const CircleUsage := "Invalid Input. Kindly input a valid circle radius, e.g: circle 30"
  const TriangleUsage := "Invalid Input. Kindly input a valid triangle side length, e.g: triangle 30"
  const FillUsage := "Please select either on or off."
  const PenUsage := "Please select from (blue, green, red, black."

  function Unable(what: string, token: string): string {
    "Unable to parse " + what + " " + token + " as an integer."
  }

  /** The operands of a handler: their values, the message for a format error, or an escaping exception. */
  datatype Operands = Operands(values: seq<int32>) | Rejected(message: string) | Escaped(fault: Fault)

  /** One operand in its own `try` block, catching only `FormatException`. */
  function One(r: Read, message: string): (o: Operands)
    ensures o.Operands? <==> r.Got?
    ensures r.Got? ==> o.values == [r.n]
    ensures o.Rejected? <==> r.Unparsable?
    ensures o.Rejected? ==> o.message == message
    ensures r.Overflow? ==> o == Escaped(OverflowError)
    ensures r.OutOfRange? ==> o == Escaped(IndexOutOfRange)
  {
    match r
    case Got(n) => Operands([n])
    case Unparsable => Rejected(message)
    case Overflow => Escaped(OverflowError)
    case OutOfRange => Escaped(IndexOutOfRange)
  }

  /** Two operands in two `try` blocks, the second read only when the first succeeded. */
  function Two(first: Read, firstMessage: string, second: Read, secondMessage: string): (o: Operands)
    ensures o.Operands? <==> first.Got? && second.Got?
    ensures o.Operands? ==> o.values == [first.n, second.n]
    ensures !first.Got? ==> o == One(first, firstMessage)
    ensures first.Got? && !second.Got? ==> o == One(second, secondMessage)
  {
    match One(first, firstMessage)
    case Operands(a) => (match One(second, secondMessage)
                         case Operands(b) => Operands(a + b)
                         case other => other)
    case other => other
  }

  /** Draws a shape of the operands when both were read; otherwise the message or the exception. */
  function DrawWith(m: Machine, kind: ShapeKind, o: Operands): (r: Outcome)
    ensures !r.status.OutOfFuel?
  {
    match o
    case Operands(v) => Done(Emit(m, kind, v))
    case Rejected(text) => Report(m, text)
    case Escaped(f) => Throw(m, f)
  }

  /** Draws a moveto shape from the old position to the operands and moves there. */
  function MoveWith(m: Machine, o: Operands): (r: Outcome)
    requires o.Operands? ==> |o.values| == 2
    ensures !r.status.OutOfFuel?
  {
    match o
    case Operands(v) => Done(Emit(m, MoveToShape, v).(x := v[0], y := v[1]))
    case Rejected(text) => Report(m, text)
    case Escaped(f) => Throw(m, f)
  }

  /** How `MoveTo` reads Y: as written, the X word decides whether Y is a name. */
  function MoveToY(vars: seq<Binding>, xWord: string, yWord: string, variant: Variant): Read {
    match variant
    case AsWritten => if xWord in Names(vars) then ValueOf(vars, yWord) else ParseOperand(yWord)
    case Corrected => Resolve(vars, yWord)
  }

  /** How `DrawTo` reads Y: as written, a literal Y is parsed from the X word. */
  function DrawToY(vars: seq<Binding>, xWord: string, yWord: string, variant: Variant): Read {
    match variant
    case AsWritten => if yWord in Names(vars) then Resolve(vars, yWord) else ParseOperand(xWord)
    case Corrected => Resolve(vars, yWord)
  }

  /** `MoveTo`: a moveto shape from the old position, then the position becomes the operands. */
  function MoveTo(m: Machine, words: seq<string>, variant: Variant): (r: Outcome)
    ensures !r.status.OutOfFuel?
  {
    if |words| < 2 then Throw(m, IndexOutOfRange)
    else
      var args := Split(words[1], {','});
      if |args| != 2 then Report(m, MoveToUsage)
      else
        MoveWith(m, Two(Resolve(m.vars, args[0]), Unable("X axis", args[0]),
                        MoveToY(m.vars, args[0], args[1], variant), Unable("Y axis", args[1])))
  }

  /** `DrawTo`: a drawto shape from the current position to the operands; the position stays. */
  function DrawTo(m: Machine, words: seq<string>, variant: Variant): (r: Outcome)
    ensures !r.status.OutOfFuel?
  {
    if |words| < 2 then Throw(m, IndexOutOfRange)
    else
      var args := Split(words[1], {','});
      if |args| != 2 then Report(m, DrawToUsage)
      else
        DrawWith(m, DrawToShape, Two(Resolve(m.vars, args[0]), Unable("X position", args[0]),
                                     DrawToY(m.vars, args[0], args[1], variant), Unable("Y position", args[1])))
  }

  /** `DrawRectangle`: width and height after a comma. */
  function DrawRectangle(m: Machine, words: seq<string>): (r: Outcome)
    ensures !r.status.OutOfFuel?
  {
    if |words| < 2 then Throw(m, IndexOutOfRange)
    else
      var args := Split(words[1], {','});
      if |args| != 2 then Report(m, RectUsage)
      else
        DrawWith(m, RectShape, Two(Resolve(m.vars, args[0]), Unable("width", args[0]),
                                   Resolve(m.vars, args[1]), Unable("height", args[1])))
  }

  /** `getVariableName()[0]`: the first name, shown as nothing when the store is empty. */
  function FirstName(vars: seq<Binding>): string {
    if vars == [] then "" else vars[0].name
  }

  /** `DrawCircle`: exactly one radius word. The format message names the first variable. */
  function DrawCircle(m: Machine, words: seq<string>): (r: Outcome)
    ensures !r.status.OutOfFuel?
  {
    if |words| != 2 then Report(m, CircleUsage)
    else
      DrawWith(m, CircleShape, One(Resolve(m.vars, words[1]), Unable("radius", FirstName(m.vars))))
  }

  /** `DrawTriangle`: exactly one side word. */
  function DrawTriangle(m: Machine, words: seq<string>): (r: Outcome)
    ensures !r.status.OutOfFuel?
  {
    if |words| != 2 then Report(m, TriangleUsage)
    else
      DrawWith(m, TriangleShape, One(Resolve(m.vars, words[1]), Unable("side", words[1])))
  }

  /** `ResetPenPosition`: a moveto shape with the arguments 5, 5; the position stays. */
  function ResetPenPosition(m: Machine): (r: Outcome)
    ensures !r.status.OutOfFuel?
  {
    Done(Emit(m, MoveToShape, [5, 5]))
  }

  /** The brush colour a `fill` word asks for: `on` copies the pen, `off` is transparent. */
  function FillBrush(word: string, pen: Color, brush: Color): Color {
    if word == "on" then pen
    else if word == "off" then Transparent
    else brush
  }

  /** `FillShape`: the flag flips first; `on` and `off` then set the brush colour. */
  function FillShape(m: Machine, words: seq<string>): (r: Outcome)
    ensures !r.status.OutOfFuel?
  {
    var flipped := m.(fill := !m.fill);
    if |words| == 2 then Done(flipped.(brushColor := FillBrush(words[1], m.penColor, m.brushColor)))
    else Report(flipped, FillUsage)
  }

  /** The pen colour a `pen` word names; any other word leaves the colour. */
  function NamedPen(word: string, current: Color): Color {
    if word == "blue" then Blue
    else if word == "black" then Black
    else if word == "green" then Green
    else if word == "red" then Red
    else current
  }

  /** `PenColor`: blue, black, green or red. */
  function PenColor(m: Machine, words: seq<string>): (r: Outcome)
    ensures !r.status.OutOfFuel?
  {
    if |words| == 2 then Done(m.(penColor := NamedPen(words[1], m.penColor)))
    else Report(m, PenUsage)
  }

  /** `Clear`: the pen turns black and the canvas is cleared to gray. */
  function Clear(m: Machine): (r: Outcome)
    ensures !r.status.OutOfFuel?
  {
    Done(m.(penColor := Black, requests := m.requests + [ClearCanvas(Gray)]))
  }

  // ---------------------------------------------------------------------------------------
  // Dispatch
  // ---------------------------------------------------------------------------------------

  /** The nine words a program line may start with to be handed to `HandleCommand`. */
  const DrawingKeywords: set<string> := {"pen", "rect", "circle", "triangle", "moveto", "drawto", "fill", "clear", "reset"}

  /**
   * `HandleCommand(line, null)`: the exact first word picks the handler. `run` reaches
   * `ProgramWindowCommand(null)`, whose first step dereferences the null program.
   */
  function Command(m: Machine, line: string, variant: Variant): (r: Outcome)
    ensures !r.status.OutOfFuel?
  {
    var words := Words(line);
    var w := words[0];
    if w == "moveto" then MoveTo(m, words, variant)
    else if w == "drawto" then DrawTo(m, words, variant)
    else if w == "clear" then Clear(m)
    else if w == "reset" then ResetPenPosition(m)
    else if w == "rect" then DrawRectangle(m, words)
    else if w == "circle" then DrawCircle(m, words)
    else if w == "triangle" then DrawTriangle(m, words)
    else if w == "fill" then FillShape(m, words)
    else if w == "pen" then PenColor(m, words)
    else if w == "run" then Throw(m, NullReference)
    else Report(m, w + " is not a valid command.")
  }

  // ---------------------------------------------------------------------------------------
  // Programs
  // ---------------------------------------------------------------------------------------

  /** `Environment.NewLine` on Windows, and the characters a program is split at. */
  const NewLine := "\r\n"

  /** `ProgramStr.Split(Environment.NewLine.ToCharArray())`. */
  function ProgramLines(text: string): (r: seq<string>)
    ensures |r| >= 1
  {
    Split(text, LineBreaks)
  }

  predicate WhileBefore(text: string, p: nat) {
    6 <= p <= |text| && text[p - 6..p] == "while "
  }

  predicate EndwhileAt(text: string, j: nat) {
    j + 8 <= |text| && text[j..j + 8] == "endwhile"
  }

  /** The first position from `p` on that follows `while `. */
  function FirstAfterWhile(text: string, p: nat): (r: Option<nat>)
    ensures r.Some? ==> p <= r.value && WhileBefore(text, r.value)
    ensures r.Some? ==> forall q :: p <= q < r.value ==> !WhileBefore(text, q)
    ensures r.None? ==> forall q :: p <= q ==> !WhileBefore(text, q)
    decreases |text| - p
  {
    if p > |text| then None
    else if WhileBefore(text, p) then Some(p)
    else FirstAfterWhile(text, p + 1)
  }

  /** The last position below `j` where `endwhile` starts. */
  function LastEndwhile(text: string, j: nat): (r: Option<nat>)
    ensures r.Some? ==> r.value < j && EndwhileAt(text, r.value)
    ensures r.Some? ==> forall q :: r.value < q < j ==> !EndwhileAt(text, q)
    ensures r.None? ==> forall q: nat :: q < j ==> !EndwhileAt(text, q)
  {
    if j == 0 then None
    else if EndwhileAt(text, j - 1) then Some(j - 1)
    else LastEndwhile(text, j - 1)
  }

  /**
   * `Regex.Match(text, "(?<=while )[\S\s]*(?=endwhile)").Value`: from the first position
   * after `while ` to the last `endwhile` at or after it (the star is greedy), or nothing.
   */
  function LoopBlock(text: string): string {
    match FirstAfterWhile(text, 0)
    case None => ""
    case Some(p) =>
      match LastEndwhile(text, |text| + 1)
      case Some(j) => if p <= j then text[p..j] else ""
      case None => ""
  }

  /** The lines each pass replays: the block without its first line, rejoined and split again. */
  function LoopLines(text: string): seq<string> {
    var block := ProgramLines(LoopBlock(text));
    ProgramLines(JoinWith(block[1..], NewLine))
  }

  /**
   * One line of a loop pass: an assignment uses the pass's own slot counter, a line starting
   * with a drawing keyword is handed to `HandleCommand`, every other line is passed over.
   */
  function Pass(m: Machine, lines: seq<string>, varIndex: nat, variant: Variant, oracle: Oracle): Outcome
    decreases |lines|
  {
    if lines == [] then Done(m)
    else
      var words := Words(lines[0]);
      if IsAssignment(words) then
        Pass(m.(vars := Assign(m.vars, varIndex, words[0], oracle.stored(m.vars, words))),
             lines[1..], varIndex + 1, variant, oracle)
      else if words[0] in DrawingKeywords then
        var o := Command(m, lines[0], variant);
        if o.status.Completed? then Pass(o.m, lines[1..], varIndex, variant, oracle) else o
      else Pass(m, lines[1..], varIndex, variant, oracle)
  }

  /** After a pass, the loop's copy of the variable goes up by one and the guard is recomputed. */
  function NextPass(m: Machine, oracle: Oracle): Machine {
    var v := Wrap(m.loopVariable + 1);
    m.(loopVariable := v, loopLogic := oracle.loopHolds(v, m.loopOperator, m.loopValue))
  }

  /** `while (loopInstance.loopLogic)`: whole passes over the body, at most `fuel` of them. */
  function Replay(m: Machine, body: seq<string>, variant: Variant, oracle: Oracle, fuel: nat): Outcome
    decreases fuel
  {
    if !m.loopLogic then Done(m)
    else if fuel == 0 then Outcome(m, OutOfFuel)
    else
      var o := Pass(m, body, 0, variant, oracle);
      if o.status.Completed? then Replay(NextPass(o.m, oracle), body, variant, oracle, fuel - 1) else o
  }

  /** The header of an `if` or `while`: the literal right operand, the operator, the left operand. */
  datatype Header = Header(left: int32, operator: string, right: int32) | Failed(fault: Fault)

  /** `Int32.Parse(words[3])` first, then the left word as a name or a number. */
  function ReadHeader(vars: seq<Binding>, words: seq<string>): Header {
    if |words| < 4 then Failed(IndexOutOfRange)
    else
      match ParseOperand(words[3])
      case Unparsable => Failed(FormatError)
      case Overflow => Failed(OverflowError)
      case OutOfRange => Failed(IndexOutOfRange)
      case Got(right) =>
        match Resolve(vars, words[1])
        case Unparsable => Failed(FormatError)
        case Overflow => Failed(OverflowError)
        case OutOfRange => Failed(IndexOutOfRange)
        case Got(left) => Header(left, words[2], right)
  }

  /** An `if` line: `If` is set and `IfLogic` is the comparison of the header. */
  function OpenIf(m: Machine, words: seq<string>, oracle: Oracle): Outcome {
    match ReadHeader(m.vars, words)
    case Failed(f) => Throw(m, f)
    case Header(l, op, r) => Done(m.(ifOn := true, ifLogic := oracle.ifHolds(l, op, r)))
  }

  /** A `while` line: the loop flag, variable, value and operator are set and the guard computed. */
  function OpenWhile(m: Machine, words: seq<string>, oracle: Oracle): Outcome {
    match ReadHeader(m.vars, words)
    case Failed(f) => Throw(m, f)
    case Header(l, op, r) =>
      Done(m.(loopOn := true, loopVariable := l, loopValue := r, loopOperator := op,
              loopLogic := oracle.loopHolds(l, op, r)))
  }

  /** The result of one line of the outer scan, with the scan's slot counter after it. */
  datatype Stepped = Stepped(out: Outcome, varIndex: nat)

  /**
   * One line of `ProgramWindowCommand`, branch by branch in the order of the source. In the
   * corrected variant `endwhile` is recognised right after `while`, before the two loop branches.
   */
  function StepLine(m: Machine, line: string, varIndex: nat, body: seq<string>,
                    variant: Variant, oracle: Oracle, fuel: nat): Stepped
  {
    var words := Words(line);
    if IsAssignment(words) then
      Stepped(Done(m.(vars := Assign(m.vars, varIndex, words[0], oracle.stored(m.vars, words)))), varIndex + 1)
    else if words[0] == "if" then
      Stepped(OpenIf(m, words, oracle), varIndex)
    else if m.ifOn && m.ifLogic && words[0] != "endif" then
      Stepped(Command(m, line, variant), varIndex)
    else if m.ifOn && !m.ifLogic && words[0] != "endif" then
      Stepped(Done(m), varIndex)
    else if words[0] == "endif" then
      Stepped(Done(m.(ifOn := false, ifLogic := false)), varIndex)
    else if words[0] == "while" then
      Stepped(OpenWhile(m, words, oracle), varIndex)
    else if variant == Corrected && words[0] == "endwhile" then
      Stepped(Done(m.(loopOn := false, loopLogic := false)), varIndex)
    else if m.loopOn && m.loopLogic then
      Stepped(Replay(m, body, variant, oracle, fuel), varIndex)
    else if m.loopOn && !m.loopLogic then
      Stepped(Done(m), varIndex)
    else if words[0] == "endwhile" then
      Stepped(Done(m.(loopOn := false, loopLogic := false)), varIndex)
    else if words[0] in DrawingKeywords then
      Stepped(Command(m, line, variant), varIndex)
    else
      Stepped(Report(m, words[0] + " is not a command."), varIndex)
  }

  /** The outer scan: line after line until the end or the first escaping exception. */
  function Scan(m: Machine, lines: seq<string>, varIndex: nat, body: seq<string>,
                variant: Variant, oracle: Oracle, fuel: nat): Outcome
    decreases |lines|
  {
    if lines == [] then Done(m)
    else
      var s := StepLine(m, lines[0], varIndex, body, variant, oracle, fuel);
      if s.out.status.Completed? then Scan(s.out.m, lines[1..], s.varIndex, body, variant, oracle, fuel)
      else s.out
  }

  /** `ProgramWindowCommand(text)`; `fuel` bounds the passes of each replay. */
  function ProgramWindowCommand(m: Machine, text: string, variant: Variant, oracle: Oracle, fuel: nat): Outcome {
    Scan(m, ProgramLines(text), 0, LoopLines(text), variant, oracle, fuel)
  }

  /** `HandleCommand(command, programStr)` for a command typed by the user. */
  function HandleCommand(m: Machine, command: string, programStr: string,
                         variant: Variant, oracle: Oracle, fuel: nat): Outcome {
    if Words(command)[0] == "run" then ProgramWindowCommand(m, programStr, variant, oracle, fuel)
    else Command(m, command, variant)
  }
}
