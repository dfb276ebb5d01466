# Two drawing-command interpreters, modelled in Dafny

The repository holds two small interpreters. Each turns lines of text into pen moves and shape drawings.

* **`CommandParser` with `Form1`** (namespace `GraphicalCommandInterpreter`).
  * `CommandParser.HandleCommand` splits a batch into lines at CR and LF, and each line into tokens at spaces and commas, dropping empty pieces.
  * It matches the keyword case-insensitively and checks the number of arguments and that they are integers.
  * It then sets the pen fields of `Form1` (`penX`, `penY`, `penColor`, `fillEnabled`) and calls one of its drawing methods.
  * The first invalid line raises an `InvalidCommandException` naming that line, and the rest of the batch is not run.
  * `Form1` keeps the pen state, computes the geometry of circles, rectangles and triangles in unchecked `int` arithmetic, and switches fill off before running a script.
* **`Commands`** (namespace `ProgrammingLanguageAssignment`).
  * `HandleCommand` picks a handler from the exact first space-separated word: `moveto`, `drawto`, `rect`, `circle`, `triangle`, `fill`, `pen`, `clear`, `reset`, or `run`.
  * The handlers read operands that are variable names or `Int32` literals, change the current position, the fill flag and the pen and brush colours, and ask a shape factory to draw.
  * `ProgramWindowCommand` interprets a program line by line, with assignments, `if`/`endif` and `while`/`endwhile`. Each line goes through a fixed order of tests.

Modules:

* `Wrappers`: `Option` and `Result`.
* `Int32`: the C# `int` range, unchecked wrap-around, truncating halving, and the integer square root.
* `Text`: the .NET string operations used: `Split` with and without empty entries, ASCII `ToLower`, `Trim` over the `Char.IsWhiteSpace` characters, and decimal `Int32.Parse` / `int.TryParse`.
* `Drawing`: the colours.
* `GraphicalForm`: the class `Form1`, with its state as a value `FormState`, the pure transitions its methods make, and the geometry.
* `CommandParser`:
  * the validator `ParseLine`;
  * the effect `Execute` of one command;
  * the batch semantics `Run`;
  * the method `HandleCommand`, proved to do what `Run` says on a `Form1`.
* `FormEvents`: the Enter key and Run button handlers.
* `ProgramSemantics`: `Commands` as functions of a value `Machine` that holds all its fields.
* `ProgramLaws`: the properties of those functions.
* `Commands`: the class `Commands`. It has the fields of the C# class, and each method is proved against the `ProgramSemantics` function named after it.

The helper classes `Variable`, `Conditional`, `Loop`, `ShapesFactory` and `Shapes` are not part of this model. An `Oracle` value stands for them:

* the variable store is a sequence of name/value bindings, looked up by first index as `Array.IndexOf` does; an assignment writes the slot of the line's assignment counter, which is a reading of the unseen `checkVariableValue` (see Left out);
* the value an assignment stores, and the comparisons `checkIfLogic` and `checkLoopLogic`, are functions of the oracle with no further assumptions;
* a shape drawn by the factory is a request naming its kind, the current position, the pen and brush colours and the argument list.

Three slips in `Commands.cs` are listed under Findings. The `Variant` parameter selects between two versions of the code:

* `AsWritten` keeps the slips as the code has them;
* `Corrected` puts them right, and the Findings lemmas prove the intended behaviour of that version.

The class `Commands` takes the variant as a constructor argument.

## Model

| member | source | states |
|---|---|---|
| Int32.Wrap | Form1.cs:120 | the result is an `int`, congruent to the exact value modulo 2^32, and equal to it when the exact value fits |
| Int32.Half | Form1.cs:138-139 | `a / 2` truncates toward zero: the remainder `a - 2q` is 0 or 1 for non-negative `a` and 0 or -1 for negative `a` |
| Int32.ISqrt | Form1.cs:164 | the result is the integer square root: `r*r <= n < (r+1)*(r+1)` |
| Text.Split | Commands.cs:62 | `String.Split` keeps empty pieces: one more piece than separators, and no piece contains a separator |
| Text.JoinSplit | Commands.cs:62 | splitting at one character and joining the pieces with it gives the text back |
| Text.SplitNonEmpty | CommandParser.cs:39 | `RemoveEmptyEntries`: every piece is non-empty and free of separators |
| Text.SeparatorRun | CommandParser.cs:44 | any non-empty run of separators between two texts yields the tokens of the two texts, concatenated |
| Text.OnlySeparators | CommandParser.cs:47-51 | a text made only of separators has no tokens |
| Text.SplitJoinCrLf | Commands.cs:204-209 | rejoining lines with CR LF and splitting again at CR and LF gives the same non-empty lines in the same order |
| Text.ToLower | CommandParser.cs:53 | same length; each upper-case ASCII letter becomes its lower-case letter and every other character stays, so no upper-case letter is left |
| Text.LowerIdempotent | CommandParser.cs:53 | lower-casing twice is lower-casing once |
| Text.SplitNonEmptyLower | CommandParser.cs:53 | splitting at case-free separators and lower-casing can be done in either order |
| Text.Trim | Form1.cs:208 | the text is the result with white space only before and after it, and the result neither starts nor ends with white space; `Char.IsWhiteSpace` for `Trim()`, the six ASCII spaces for `Int32.Parse` |
| Text.TrimLower | Form1.cs:208 | trimming a set of white space free of letters and lower-casing commute |
| Text.TryParse | CommandParser.cs:60 | `int.TryParse` succeeds exactly when `Int32.Parse` gives a value, and then gives that value, which is in the `int` range |
| Text.ParseIgnoresCase | CommandParser.cs:60 | parsing an integer gives the same result on the lower-cased token |
| Text.ParseFormat | CommandParser.cs:60 | every `int` written in decimal parses back to itself |
| GraphicalForm.Form1.constructor | Form1.cs:13-29 | the field initialisers, then `Reset()`: pen at (0, 0), black, fill off, marker size 10, with a refresh and the marker drawn |
| GraphicalForm.Form1.SetPenColor | Form1.cs:50-53 | only the pen colour changes, to the argument |
| GraphicalForm.Form1.SetFillStatus | Form1.cs:55-58 | only the fill flag changes, to the argument |
| GraphicalForm.Form1.Reset | Form1.cs:65-77 | the pen returns to (0, 0), black, fill off; a refresh and a marker at (0, 0) are drawn |
| GraphicalForm.Form1.MoveTo | Form1.cs:83-93 | a refresh and a marker at the pen position; no field changes |
| GraphicalForm.Form1.DrawTo | Form1.cs:98-105 | a transparent ellipse of the marker size at the pen; no field changes |
| GraphicalForm.Form1.ClearDrawingArea | Form1.cs:110-114 | the area is invalidated and the marker size becomes 0 |
| GraphicalForm.Form1.DrawCircle | Form1.cs:118-131 | the fill (when enabled) and the outline of the circle box, in the pen colour |
| GraphicalForm.Form1.DrawRectangle | Form1.cs:136-151 | the fill (when enabled) and the outline of the rectangle box, in the pen colour |
| GraphicalForm.Form1.DrawTriangle | Form1.cs:156-182 | the filled polygon (when enabled) and the three sides joining the triangle's corners |
| GraphicalForm.ResetRestoresInitialPen | Form1.cs:65-77 | after `Reset` the pen is the initial pen whatever it was before, so a second `Reset` changes nothing; the marker size is kept |
| GraphicalForm.SettersChangeOneField | Form1.cs:50-58 | `SetPenColor` and `SetFillStatus` each change their own field to the argument and nothing else |
| GraphicalForm.DrawingKeepsPen | Form1.cs:83-182 | `MoveTo`, `DrawTo`, `ClearDrawingArea` and the three shapes never change a pen field; clearing makes the marker size 0 |
| GraphicalForm.CircleCentred | Form1.cs:118-131 | without wrap-around the circle's box has side `2r` and is centred on the pen |
| GraphicalForm.RectangleCentred | Form1.cs:136-151 | without wrap-around the box is `width` by `height` and off-centre by at most half a unit, because `/ 2` truncates; an even width is exactly centred |
| GraphicalForm.TriangleShape | Form1.cs:156-167 | the corners are the pen, the pen moved by `adj` along x, and the pen moved by `base`; the last corner's height above the pen is the integer square root of `hyp² - (base/2)²` |
| GraphicalForm.FillOnlyWhenEnabled | Form1.cs:118-151 | a circle or rectangle adds one request, or two when fill is on; the fill comes first exactly when fill is on, and the last is the outline in the pen colour |
| CommandParser.HandleCommand | CommandParser.cs:35-227 | the loop over lines leaves the form in the state `Run` gives for the batch, and returns the exception of the first invalid line, if any |
| CommandParser.Perform | CommandParser.cs:56-215 | the pen assignments and the `Form1` call of one valid command change the form exactly as `Execute` says |
| CommandParser.SeparatorsInterchangeable | CommandParser.cs:44 | any two runs of spaces and commas separate tokens alike |
| CommandParser.ThreeTokens | CommandParser.cs:44 | `moveto 10,20`, `moveto 10 20` and `moveto  10,,20` give the same three tokens |
| CommandParser.BlankLineSkipped | CommandParser.cs:47-51 | a line of only spaces and commas is skipped without an error |
| CommandParser.DecodeIgnoresCase | CommandParser.cs:53 | validation decides the same on lower-cased tokens |
| CommandParser.ArgumentsIgnoreCase | CommandParser.cs:104 | the `pen` and `fill` words and the integer arguments read the same from lower-cased tokens |
| CommandParser.LineIgnoresCase | CommandParser.cs:53 | a line and its lower-cased copy are accepted alike, as the same command, or rejected with the same message |
| CommandParser.MoveDrawValidation | CommandParser.cs:57-96 | `moveto`/`drawto` is accepted if and only if there are exactly three tokens and both arguments parse; it then carries those values; otherwise the line is rejected with the arity or the coordinates message |
| CommandParser.PenValidation | CommandParser.cs:101-124 | `pen` is accepted if and only if it has one argument among red, green and black in any case (there is no blue), and the command carries the colour named; otherwise the exception names the line, with the colour message for one argument and the parameter message for any other count |
| CommandParser.FillValidation | CommandParser.cs:129-149 | `fill` is accepted if and only if it has one argument `on` or `off` in any case, and sets the flag to whether it was `on`; otherwise the exception names the line, with the status message for one argument and the parameter message for any other count |
| CommandParser.CircleValidation | CommandParser.cs:160-177 | `circle` is accepted if and only if it has one integer argument, which becomes the radius; otherwise the radius or parameter message |
| CommandParser.RectangleValidation | CommandParser.cs:179-196 | `rectangle` is accepted if and only if it has two integer arguments, which become width and height; otherwise the dimensions or parameters message |
| CommandParser.TriangleValidation | CommandParser.cs:198-215 | `triangle` is accepted if and only if it has three integer arguments, passed on in order; otherwise the dimensions or parameters message |
| CommandParser.OtherKeywords | CommandParser.cs:152-218 | `clear` and `reset` ignore any further tokens; a keyword outside the nine is always rejected with the list of valid commands |
| CommandParser.ExecuteTouches | CommandParser.cs:56-215 | `moveto`/`drawto` set exactly the pen position, `pen` only the colour, `fill` only the flag, `reset` restores the initial pen, and the shapes and `clear` keep the pen |
| CommandParser.ValidBatchCompletes | CommandParser.cs:41-220 | a batch of valid lines runs to its end without an exception |
| CommandParser.FirstInvalidLineAborts | CommandParser.cs:222-226 | the first invalid line ends the batch: the effects of the lines before it persist, nothing after it runs, and the exception names that line |
| CommandParser.ErrorNamesInvalidLine | CommandParser.cs:222-226 | whenever a batch fails, the exception names one of its lines, which is rejected on its own with that exception |
| FormEvents.SubmitLine | Form1.cs:204-212 | Enter handles the trimmed text as a batch, as `Run` says |
| FormEvents.RunScript | Form1.cs:214-220 | the Run button turns fill off, then handles the trimmed script as a batch |
| FormEvents.ScriptStart | Form1.cs:216 | the script starts from the form as it was, with only fill switched off |
| FormEvents.StaysUnfilled | Form1.cs:214-218 | starting with fill off, fill stays off through any batch with no `fill on` line |
| FormEvents.ScriptWithoutFillOnIsUnfilled | Form1.cs:214-218 | a script without `fill on` leaves fill off, whatever fill was before the click |
| ProgramSemantics.Words | Commands.cs:62 | `Split(' ')` always has a first word, so `CommandStr[0]` exists |
| ProgramSemantics.IndexOf | Commands.cs:147 | `Array.IndexOf`: -1 exactly when the name is absent, otherwise the first index holding it |
| ProgramSemantics.Assign | Commands.cs:135 | the slot of the counter now binds the name to the value (added at the end when the counter is past it); every other binding is kept; this is a reading of the unseen `checkVariableValue` |
| ProgramSemantics.One | Commands.cs:490-508 | an operand read in its own `try` block yields its value when it was read, the handler's message exactly on a format error, and lets an overflow or a bad index escape |
| ProgramSemantics.Two | Commands.cs:296-333 | two operands read in two `try` blocks yield both values exactly when both are read; otherwise the outcome of the first failing read, the second operand being read only when the first succeeded |
| ProgramSemantics.FirstAfterWhile | Commands.cs:203 | the regular expression's start: the first position right after `while ` |
| ProgramSemantics.LastEndwhile | Commands.cs:203 | the greedy star's end: the last position where `endwhile` starts |
| Commands.Commands.constructor | Commands.cs:39-52 | the given position, pen and brush, fill off, an empty store and cleared `if` and loop flags |
| Commands.Commands.HandleCommand | Commands.cs:60-111 | dispatch on the exact first word; with no program text (a nested call) `run` ends with a null-reference exception |
| Commands.Commands.ProgramWindowCommand | Commands.cs:118-281 | the loop over the program's lines ends in the state and status of the line-by-line scan `ProgramSemantics.ProgramWindowCommand` |
| Commands.Commands.Line | Commands.cs:127-278 | one line goes through the branches in the source's order, with the slot counter stepped only by an assignment |
| Commands.Commands.LoopOrCommand | Commands.cs:201-278 | the loop replay, loop skip, `endwhile`, drawing-keyword and error branches for one line |
| Commands.Commands.IfHeader | Commands.cs:139-159 | an `if` header sets `If` and sets `IfLogic` to the comparison, or lets the parse exception escape |
| Commands.Commands.WhileHeader | Commands.cs:176-198 | a `while` header sets the loop flag, variable, value, operator and guard, or lets the parse exception escape |
| Commands.Commands.Replay | Commands.cs:206-246 | whole passes over the body while the guard holds, up to the pass bound |
| Commands.Commands.Pass | Commands.cs:209-243 | one pass: assignments with the pass's own slot counter, drawing keywords handed to `HandleCommand`, other lines passed over |
| Commands.Commands.NextPass | Commands.cs:244-245 | after a pass the loop's variable goes up by one and the guard is recomputed |
| Commands.Commands.MoveTo | Commands.cs:354-412 | the fields end as `ProgramSemantics.MoveTo` gives them: a missing argument escapes, a wrong arity or format only reports, and otherwise the shape is drawn from the old position and the position moves |
| Commands.Commands.DrawTo | Commands.cs:288-347 | the fields end as `ProgramSemantics.DrawTo` gives them: a shape from the current position to the operands, or the message, or the escaping exception |
| Commands.Commands.DrawRectangle | Commands.cs:419-476 | the fields end as `ProgramSemantics.DrawRectangle` gives them: a rect shape of width and height, or the message, or the escaping exception |
| Commands.Commands.DrawCircle | Commands.cs:483-520 | the fields end as `ProgramSemantics.DrawCircle` gives them: a circle shape of the radius, or the message, or the escaping exception |
| Commands.Commands.DrawTriangle | Commands.cs:527-560 | the fields end as `ProgramSemantics.DrawTriangle` gives them: a triangle shape of the side, or the message, or the escaping exception |
| Commands.Commands.ResetPenPosition | Commands.cs:566-572 | a moveto shape with arguments 5, 5 is drawn; the position stays |
| Commands.Commands.FillShape | Commands.cs:579-604 | the fields end as `ProgramSemantics.FillShape` gives them: the fill flag flipped, then the brush set by `on` or `off` |
| Commands.Commands.PenColor | Commands.cs:611-641 | the fields end as `ProgramSemantics.PenColor` gives them: the named colour, or the colour kept, or the usage message |
| Commands.Commands.Clear | Commands.cs:647-651 | the pen becomes black and the canvas is cleared to gray |
| ProgramLaws.CommandKeepsControl | Commands.cs:60-111 | no command handed to `HandleCommand` touches the variables or the `if` and loop state |
| ProgramLaws.MoveCommandsKeepControl | Commands.cs:66-72 | the same for `moveto` and `drawto` |
| ProgramLaws.ShapeCommandsKeepControl | Commands.cs:82-92 | the same for `rect`, `circle` and `triangle` |
| ProgramLaws.OtherCommandsKeepControl | Commands.cs:74-108 | the same for every other first word |
| ProgramLaws.FillKeepsControl | Commands.cs:579-604 | the same for `FillShape` |
| ProgramLaws.PenKeepsControl | Commands.cs:611-641 | the same for `PenColor` |
| ProgramLaws.PlainCommandsKeepControl | Commands.cs:74-108 | the same for `clear`, `reset`, `run` and unknown words |
| ProgramLaws.UnknownWordOnlyReports | Commands.cs:106-108 | a first word that is not one of the exact lower-case keywords only adds the not-a-valid-command message; no other state changes |
| ProgramLaws.MoveWithCases | Commands.cs:400-405 | with both operands read, the moveto shape starts at the old position and the position becomes the operands; a format error only reports, an escaping exception changes nothing |
| ProgramLaws.MoveToMovesOnlyOnSuccess | Commands.cs:354-412 | `moveto` either keeps the position or completes with the shape from the old position to the new one |
| ProgramLaws.MoveToKeepsControl | Commands.cs:354-412 | a `moveto` that does not complete changes nothing, and no `moveto` touches the variables or flags |
| ProgramLaws.DrawWithStays | Commands.cs:336-339 | a shape drawing keeps position, colours and flags; it adds exactly the shape, the message, or nothing on an exception |
| ProgramLaws.DrawToStays | Commands.cs:288-347 | `drawto` never changes the position, the pen colour, the variables or the flags |
| ProgramLaws.ResetStays | Commands.cs:566-572 | `reset` only adds a moveto shape from the current position with arguments 5, 5 |
| ProgramLaws.FillAlwaysToggles | Commands.cs:579-604 | `fill` always flips the fill flag; `on` copies the pen colour to the brush, `off` makes it transparent, and anything else keeps it |
| ProgramLaws.PenColourWords | Commands.cs:611-641 | an unknown colour word changes nothing; only the pen colour can change; the wrong arity only reports |
| ProgramLaws.NamedPenColours | Commands.cs:616-633 | the pen becomes blue, black, green or red exactly when that word is given, or when it already was that colour and the word names no colour |
| ProgramLaws.ClearMakesPenBlack | Commands.cs:647-651 | `clear` makes the pen black, keeps the position and clears the canvas to gray |
| ProgramLaws.RectangleStays | Commands.cs:419-476 | `rect` keeps position, pen colour, variables and flags |
| ProgramLaws.CircleStays | Commands.cs:483-520 | `circle` keeps position, pen colour, variables and flags, and with a readable radius draws a circle of it |
| ProgramLaws.TriangleStays | Commands.cs:527-560 | `triangle` keeps position, pen colour, variables and flags |
| ProgramLaws.ResolveFirstIndex | Commands.cs:145-149 | an operand that names a variable reads the value at that name's first index |
| ProgramLaws.ResolveLiteral | Commands.cs:150-153 | an operand that names no variable is parsed as an integer |
| ProgramLaws.AssignFreshThenResolve | Commands.cs:130-137 | a new name assigned at the end of the store then reads as its value |
| ProgramLaws.ReassignThenResolve | Commands.cs:130-137 | in the model's reading of `checkVariableValue`, an assignment that lands on a name's first slot makes it read as the new value |
| ProgramLaws.LaterSlotIsShadowed | Commands.cs:130-137 | in the model's reading of `checkVariableValue`, an assignment that lands after a name's first slot leaves the name reading as before |
| ProgramLaws.SecondAssignmentShadowed | Commands.cs:130-137 | in that reading, `n = 5` followed by `n = 6` in a fresh program leaves `n` reading as 5 |
| ProgramLaws.AssignmentComesFirst | Commands.cs:130-137 | a three-word line with `=` in the middle is an assignment whatever the `if` and loop state, even inside a false `if`, and steps the slot counter |
| ProgramLaws.HeaderRightIsLiteral | Commands.cs:142 | the right operand of an `if` or `while` header is always parsed, never looked up: a name there raises a format exception |
| ProgramLaws.IfHeaderSetsLogic | Commands.cs:139-159 | an `if` header with readable operands sets `If` and sets `IfLogic` to the comparison of its operands |
| ProgramLaws.TrueIfDispatches | Commands.cs:161-164 | after a true `if`, every plain line goes to `HandleCommand` |
| ProgramLaws.FalseIfSkipsBlock | Commands.cs:166-167 | after a false `if`, any run of plain lines leaves the state unchanged |
| ProgramLaws.EndifClears | Commands.cs:169-173 | `endif` clears both `If` and `IfLogic` |
| ProgramLaws.PassKeepsLoop | Commands.cs:209-243 | a pass never changes the `if` or loop state and never runs out of passes |
| ProgramLaws.PassIgnoresOtherLines | Commands.cs:229-241 | within a pass a line that is neither an assignment nor a drawing keyword has no effect |
| ProgramLaws.PassSkipsEmpty | Commands.cs:209-215 | empty lines have no effect in a pass |
| ProgramLaws.LoopLinesActAsBlock | Commands.cs:203-209 | the lines a pass replays act as the block's non-empty lines after its first |
| ProgramLaws.PassKeepsStore | Commands.cs:209-243 | a pass over a body without assignments keeps the store |
| ProgramLaws.ReplayKeepsStore | Commands.cs:244-246 | the per-pass increment is made on the loop's copy of the variable, not on the store |
| ProgramLaws.ReplayEndsWithGuardFalse | Commands.cs:206-246 | a replay that completes ends with the guard false and the loop flag unchanged |
| ProgramLaws.CountedReplay | Commands.cs:244-245 | with a `<` comparison and enough passes, the replay finishes with the loop variable at the bound (or unchanged when the guard was false) |
| ProgramLaws.FinishedLoopSkipsRest | Commands.cs:250-258 | as written, once a loop is finished every later line, `endwhile` included, is skipped |
| ProgramLaws.EndwhileClosesLoop | Commands.cs:254-258 | corrected, `endwhile` clears the loop flags and the next drawing line is handled |
| ProgramLaws.CorrectedEndwhileStep | Commands.cs:254-258 | corrected, `endwhile` clears both loop flags |
| ProgramLaws.ClosedDrawingStep | Commands.cs:261-272 | in either variant, outside `if` and loop, a drawing keyword line goes to `HandleCommand` |
| ProgramLaws.DrawToReadsYFromX | Commands.cs:325 | as written, `drawto p,q` with two literals draws to `(p, p)` |
| ProgramLaws.DrawToReadsBoth | Commands.cs:316-326 | corrected, `drawto a,b` draws to the values of `a` and `b` |
| ProgramLaws.MoveToLooksUpYByX | Commands.cs:383-386 | as written, `moveto a,b` with `a` a variable and `b` not one raises an index-out-of-range exception |
| ProgramLaws.MoveToReadsBoth | Commands.cs:381-392 | corrected, `moveto a,b` moves to the values of `a` and `b` |
| ProgramLaws.MoveToVariantsAgree | Commands.cs:381-392 | the slip in `moveto` shows only when exactly one of the two words is a variable: otherwise both variants do the same |
| ProgramLaws.DrawToVariantsAgree | Commands.cs:316-326 | the slip in `drawto` shows only when the Y word is a literal different from the X word: otherwise both variants do the same |

## Left out

- Windows Forms and GDI+. Painting, pens, brushes and `Graphics` become recorded requests. A `MessageBox.Show` becomes a message in the state or the exception value. The `PictureBox1_Paint` and `Form_Load` handlers are not modelled, because they only repaint.
- Clearing text boxes: `commandLine.Text = ""` in the `Commands` handlers and `textBox1.Clear()` in `Form1` are not modelled. They touch only the window.
- The message box in the `CommandParser` catch block is not modelled: the rethrown exception becomes the returned `InvalidCommand` value.
- `ExecuteSingleCommand` and `ExecuteMultiLineCommands` are folded into `FormEvents.SubmitLine` and `FormEvents.RunScript`, because they only forward to the parser.
- File I/O: `button1_Click`, `button2_Click`, `SaveFile` and `LoadFile` in `Form1.cs`, `Program.cs` and `FileOperationException.cs` are not part of this model.
- `Variable`, `Conditional`, `Loop`, `ShapesFactory` and `Shapes` are not part of this model; the `Oracle` stands for them.
  - The value an assignment stores is `Oracle.stored`.
  - The comparisons are `Oracle.ifHolds` and `Oracle.loopHolds`, with no operator semantics assumed.
  - `ProgramLaws.CountedReplay` adds the assumption that the loop comparison is `<`.
- ProgramSemantics.Assign: `checkVariableValue(varLoop, name, words)` is not part of this model, and the model reads it as writing slot `varLoop` (appending past the end), never failing. Under this reading a name assigned twice on different lines has two bindings, and because reads go through `Array.IndexOf`, it goes on reading as its first value (`ProgramLaws.LaterSlotIsShadowed`, `ProgramLaws.SecondAssignmentShadowed`). The model does not claim that the real `Variable` class behaves so; it may overwrite the existing binding or throw.
- ProgramSemantics.FirstName: the radius message of `DrawCircle` shows `getVariableName()[0]`. With no variable defined, this model shows an empty name. It cannot say whether the unseen `Variable` class would throw there instead.
- `Math.Sqrt` and the cast in `Form1.DrawTriangle` are floating point.
  - A non-negative radicand gives the integer square root. For every `int` the correctly rounded double root truncates to it, but this is assumed, not proved.
  - A negative radicand gives the platform's `(int)double.NaN`, which is a constructor parameter `nanToInt`.
- Commands.Commands.Replay: the source repeats `while (loopInstance.loopLogic)` for as long as the oracle's guard holds, possibly forever. The model allows at most `passLimit` passes per replay and then ends with the status `OutOfFuel`.
- Culture and platform:
  - `ToLower` lower-cases ASCII letters only.
  - `Int32.Parse` and `int.TryParse` accept optional white space (U+0009 to U+000D and U+0020), one optional sign, and decimal digits. The trailing NUL characters that newer .NET versions also accept after a number are not modelled.
  - `Environment.NewLine` is CR LF.
- Exceptions in `Commands` that no handler catches become a `Threw` status that ends the run. These are an overflow, a bad index, a format error in an `if`/`while` header, and the null program of a nested `run`.
- The top-level program text passed to `Commands.HandleCommand` is never null, because the window always passes its text. A nested call passes none.
- Unchecked `int` arithmetic in the `Form1` geometry is modelled exactly, as wrap-around. The centring lemmas assume no wrap-around, rather than bounding the inputs of the operations themselves.
- The `while` body is found with the regular expression's own positions, on the characters of the program: from just after the first `while ` to the last `endwhile`. It is not computed from the line sequence.

## Findings

| source | as written | input that shows it | evidently intended | confidence | as-written member | corrected member |
|---|---|---|---|---|---|---|
| Commands.cs:250-258 | the loop-skip branch (loop flag set, guard false) is tested before `endwhile`, so it swallows `endwhile` too, and the loop flag is never cleared | `while 1 < 0`, `endwhile`, `circle 10`, with a guard false at the header: the circle is never drawn | `endwhile` clears the loop flags and the lines after it run | not executed | ProgramLaws.FinishedLoopSkipsRest | ProgramLaws.EndwhileClosesLoop |
| Commands.cs:325 | a literal Y of `drawto` is parsed from the X word | `drawto 10,20` with no variables draws to (10, 10) | Y is parsed from the second word | not executed | ProgramLaws.DrawToReadsYFromX | ProgramLaws.DrawToReadsBoth |
| Commands.cs:383-385 | `moveto` tests whether the X word is a variable before looking up the Y word | with `a` defined and `b` not, `moveto a,b` indexes the values at -1 and raises an uncaught `IndexOutOfRangeException` | the Y word is tested itself | not executed | ProgramLaws.MoveToLooksUpYByX | ProgramLaws.MoveToReadsBoth |
