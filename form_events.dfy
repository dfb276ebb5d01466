/**
 * The two `Form1` event handlers that feed text to `CommandParser.HandleCommand`: pressing
 * Enter in the single-line box (`textBox1_KeyDown`) and the Run button for the script box
 * (`button3_Click`), which first turns fill off. Both trim the text first.
 */
module FormEvents {
  import opened Wrappers
  import opened Int32
  import opened Text
  import opened GraphicalForm
  import opened CommandParser

  /** `textBox1_KeyDown` on Enter: the trimmed line is handled as a batch of its own. */
  method SubmitLine(form: Form1, text: string) returns (error: Option<InvalidCommand>)
    modifies form
    ensures Outcome(form.State(), error) == Run(old(form.State()), Lines(Trim(text, WhiteSpace)), form.nanToInt)
  {
    error := HandleCommand(form, Trim(text, WhiteSpace));
  }

  /** `button3_Click`: fill is switched off, then the trimmed script is handled. */
  method RunScript(form: Form1, text: string) returns (error: Option<InvalidCommand>)
    modifies form
    ensures Outcome(form.State(), error) == Run(ScriptStart(old(form.State())), Lines(Trim(text, WhiteSpace)), form.nanToInt)
  {
    var script := Trim(text, WhiteSpace);
    form.fillEnabled := false;
    error := HandleCommand(form, script);
  }

  /** The form a script starts from: as it was, with fill off. */
  function ScriptStart(s: FormState): (t: FormState)
    ensures !t.pen.fill && t.pen.(fill := s.pen.fill) == s.pen
    ensures t.markerSize == s.markerSize && t.drawn == s.drawn
  {
    s.(pen := s.pen.(fill := false))
  }

  /** No line of the batch is `fill on` (in any spelling). */
  predicate NoFillOn(lines: seq<string>) {
    forall j :: 0 <= j < |lines| ==> ParseLine(lines[j]) != Ok(Some(Fill(true)))
  }

  /** Starting with fill off, fill stays off through every line that is not `fill on`. */
  lemma {:induction false} StaysUnfilled(s: FormState, lines: seq<string>, nanToInt: int32)
    requires !s.pen.fill && NoFillOn(lines)
    ensures !Run(s, lines, nanToInt).state.pen.fill
    decreases |lines|
  {
    if lines != [] {
      var p := ParseLine(lines[0]);
      if p.Ok? {
        var next := if p.value.Some? then Execute(s, p.value.value, nanToInt) else s;
        if p.value.Some? {
          ExecuteTouches(s, p.value.value, nanToInt);
        }
        assert NoFillOn(lines[1..]) by {
          forall j | 0 <= j < |lines[1..]| ensures ParseLine(lines[1..][j]) != Ok(Some(Fill(true))) {
            assert lines[1..][j] == lines[j + 1];
          }
        }
        StaysUnfilled(next, lines[1..], nanToInt);
      }
    }
  }

  /** A script without `fill on` leaves fill off, whatever the form's fill was before the click. */
  lemma ScriptWithoutFillOnIsUnfilled(s: FormState, text: string, nanToInt: int32)
    requires NoFillOn(Lines(Trim(text, WhiteSpace)))
    ensures !Run(ScriptStart(s), Lines(Trim(text, WhiteSpace)), nanToInt).state.pen.fill
  {
    StaysUnfilled(ScriptStart(s), Lines(Trim(text, WhiteSpace)), nanToInt);
  }
}
