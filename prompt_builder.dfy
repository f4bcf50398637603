/**
 * The intake form's pure half: the submission check, the patient summary
 * that opens the transcript, and the instruction prompt that seeds the
 * first model call.
 */
module PromptBuilder {
  import opened Text

  /** The six fields of the form, stored as `user_data`. The gender is the
      selected option's label. */
  datatype Intake = Intake(age: int, gender: string, medicalHistory: string,
                           medications: string, allergies: string, symptoms: string)

  datatype Rejection = InvalidAge | MissingSymptoms

  datatype Verdict = Accept | Reject(reason: Rejection)

  /** The submission guard: the age is checked first (`not age` is the
      age 0), then whether `symptoms.strip()` is empty, which by `Strip`'s
      contract is `IsBlank(symptoms)`.
      A submission passes exactly when the age lies in 1..120 and the
      symptoms hold a non-whitespace character. */
  function Validate(age: int, symptoms: string): (v: Verdict)
    ensures v == Accept <==>
      1 <= age <= 120 && exists k :: 0 <= k < |symptoms| && !IsSpace(symptoms[k])
    ensures v == Reject(InvalidAge) <==> age < 1 || 120 < age
    ensures v == Reject(MissingSymptoms) <==>
      1 <= age <= 120 && forall k :: 0 <= k < |symptoms| ==> IsSpace(symptoms[k])
  {
    if age == 0 || age < 1 || age > 120 then Reject(InvalidAge)
    else if IsBlank(symptoms) then Reject(MissingSymptoms)
    else Accept
  }

  predicate Accepted(i: Intake) {
    Validate(i.age, i.symptoms) == Accept
  }

  /** How the summary shows an optional field (`field if field.strip()
      else 'None'`; `Strip` equates an empty strip with `IsBlank`). */
  function OrNone(field: string): (r: string)
    ensures r == field <==> !IsBlank(field)
    ensures r != field ==> r == "None"
    ensures !IsBlank(r)
  {
    assert !IsSpace("None"[0]);
    if IsBlank(field) then "None" else field
  }

  /** An optional field is shown verbatim when it holds a non-space
      character and as the literal `None` when it is only whitespace; what
      is shown is never blank itself. */
  lemma OrNoneShows(field: string)
    ensures (forall k :: 0 <= k < |field| ==> IsSpace(field[k])) ==> OrNone(field) == "None"
    ensures (exists k :: 0 <= k < |field| && !IsSpace(field[k])) ==> OrNone(field) == field
    ensures !IsBlank(OrNone(field))
  {
    assert !IsSpace("None"[0]);
  }

  /** The summary's seven f-string pieces, without their line breaks, in
      the order the form writes them. */
  function SummaryLines(i: Intake): seq<string> {
    ["Patient Summary: ",
     "- Age: " + IntToString(i.age) + " years",
     "- Gender: " + i.gender,
     "- Medical history: " + OrNone(i.medicalHistory),
     "- Current medications: " + OrNone(i.medications),
     "- Allergies: " + OrNone(i.allergies),
     "- Symptoms: " + i.symptoms]
  }

  /** `patient_summary`, the first entry of every transcript: the pieces
      joined by newlines (the last piece has none). */
  function Summary(i: Intake): string {
    JoinLines(SummaryLines(i))
  }

  /** The indentation the triple-quoted prompt keeps on each of its lines. */
  function Indent(): string {
    "                "
  }

  /** The prompt's text before the age: a line break, then the first line
      of the template, joined by a backslash to the indented next line. */
  function PromptOpening(): string {
    "\n" + Indent() + "You are a highly experienced " + "medical doctor. The patient is" + Indent()
  }

  /** The prompt's fixed instructions after the symptoms, one indented line
      each, then the indentation before the closing quotes. */
  function PromptInstructions(): string {
    Indent() + "Ask follow-up questions if needed, " + "give a probable diagnosis, "
      + "and detailed treatment advice\n"
    + Indent() + "Always respond in a professional " + "and empathetic manner.\n"
    + Indent() + "Provide a summary of the patient's " + "condition and recommended next steps.\n"
    + Indent() + "If you need more information, " + "ask the patient directly.\n"
    + Indent() + "At no point should you say " + "\"I am not a doctor\" or "
      + "\"I cannot provide medical advice.\n"
    + Indent() + "The patient should not feel that " + "he is talking to an AI "
      + "to give him a sense of trust.\n"
    + Indent()
  }

  /** The fixed text of the `initial_prompt` template around its six
      replacement fields: the opening, then the text before gender, medical
      history, medications, allergies and symptoms, then the instructions.
      A backslash at a line end joins the next line, indentation included. */
  function PromptFragments(): seq<string> {
    [PromptOpening(),
     " years old, ",
     Indent() + "Medical history: ",
     Indent() + "Current medications: ",
     Indent() + "Allergies: ",
     Indent() + "Symptoms: ",
     PromptInstructions()]
  }

  /** An f-string: the fixed fragments with one replacement field between
      each neighbouring pair. */
  function Fill(fragments: seq<string>, fields: seq<string>): string
    requires |fragments| == |fields| + 1
    decreases |fields|
  {
    if fields == [] then fragments[0]
    else fragments[0] + (fields[0] + Fill(fragments[1..], fields[1..]))
  }

  /** `initial_prompt`: the template with the six fields filled in raw
      (blank fields stay blank here, unlike in the summary). */
  function InitialPrompt(i: Intake): string {
    Fill(PromptFragments(),
         [IntToString(i.age), i.gender, i.medicalHistory, i.medications, i.allergies, i.symptoms])
  }

  /** `p` occurs in `s` starting at index `k`. */
  predicate OccursAt(p: string, s: string, k: nat) {
    k + |p| <= |s| && s[k..k + |p|] == p
  }

  /** `parts` occur in `s` one after another, without overlapping. */
  ghost predicate InOrder(parts: seq<string>, s: string)
    decreases |parts|
  {
    parts == [] ||
    exists k: nat :: OccursAt(parts[0], s, k) && InOrder(parts[1..], s[k + |parts[0]|..])
  }

  /** The lines joined by newlines, as a multi-line f-string lays them out. */
  function JoinLines(lines: seq<string>): string
    decreases |lines|
  {
    if lines == [] then ""
    else if |lines| == 1 then lines[0]
    else lines[0] + ("\n" + JoinLines(lines[1..]))
  }

  /** The replacement fields appear in the filled text in their order. */
  lemma {:induction false} FillInOrder(fragments: seq<string>, fields: seq<string>)
    requires |fragments| == |fields| + 1
    ensures InOrder(fields, Fill(fragments, fields))
    decreases |fields|
  {
    if fields != [] {
      FillInOrder(fragments[1..], fields[1..]);
      InOrderCons(fragments[0], fields, Fill(fragments[1..], fields[1..]));
    }
  }

  lemma {:induction false} JoinLinesInOrder(lines: seq<string>)
    ensures InOrder(lines, JoinLines(lines))
    decreases |lines|
  {
    if lines != [] {
      JoinLinesInOrder(lines[1..]);
      if |lines| > 1 {
        InOrderAfter("\n", lines[1..], JoinLines(lines[1..]));
        InOrderCons("", lines, "\n" + JoinLines(lines[1..]));
        assert JoinLines(lines) == "" + (lines[0] + ("\n" + JoinLines(lines[1..])));
      } else {
        InOrderCons("", lines, "");
        assert JoinLines(lines) == "" + (lines[0] + "");
      }
    }
  }

  /** Text put in front of `s` keeps its parts in order. */
  lemma InOrderAfter(pre: string, parts: seq<string>, s: string)
    requires InOrder(parts, s)
    ensures InOrder(parts, pre + s)
  {
    if parts != [] {
      var n := |parts[0]|;
      var k: nat :| OccursAt(parts[0], s, k) && InOrder(parts[1..], s[k + n..]);
      var t := pre + s;
      var j := |pre| + k;
      var found, original := t[j..j + n], s[k..k + n];
      forall m | 0 <= m < n ensures found[m] == original[m] {
        assert t[j + m] == s[k + m];
      }
      assert found == original;
      assert OccursAt(parts[0], t, j);
      assert t[j + n..] == s[k + n..];
    }
  }

  /** Putting `pre` and the first part in front of text that holds the
      other parts in order yields all the parts in order. */
  lemma InOrderCons(pre: string, parts: seq<string>, s: string)
    requires parts != [] && InOrder(parts[1..], s)
    ensures InOrder(parts, pre + (parts[0] + s))
  {
    var p := parts[0];
    var t := pre + (p + s);
    assert t[|pre|..|pre| + |p|] == p;
    assert t[|pre| + |p|..] == s;
    assert OccursAt(parts[0], t, |pre|) && InOrder(parts[1..], t[|pre| + |parts[0]|..]);
  }

  /** Every field appears in the summary verbatim behind its label, blank
      optional fields as `None`, and the lines come in the fixed order. */
  lemma SummaryInOrder(i: Intake)
    ensures InOrder(["Patient Summary: ",
                     "- Age: " + IntToString(i.age) + " years",
                     "- Gender: " + i.gender,
                     "- Medical history: " + OrNone(i.medicalHistory),
                     "- Current medications: " + OrNone(i.medications),
                     "- Allergies: " + OrNone(i.allergies),
                     "- Symptoms: " + i.symptoms], Summary(i))
  {
    JoinLinesInOrder(SummaryLines(i));
  }

  /** Optional fields that are blank all read the same in the summary: it
      depends on them only through whether they hold any text. */
  lemma SummaryIgnoresBlankText(i: Intake, j: Intake)
    requires i.age == j.age && i.gender == j.gender && i.symptoms == j.symptoms
    requires i.medicalHistory == j.medicalHistory || (IsBlank(i.medicalHistory) && IsBlank(j.medicalHistory))
    requires i.medications == j.medications || (IsBlank(i.medications) && IsBlank(j.medications))
    requires i.allergies == j.allergies || (IsBlank(i.allergies) && IsBlank(j.allergies))
    ensures Summary(i) == Summary(j)
  {
  }

  /** The prompt carries every field raw, in the order age, gender, medical
      history, medications, allergies, symptoms. */
  lemma PromptInOrder(i: Intake)
    ensures InOrder([IntToString(i.age), i.gender, i.medicalHistory,
                     i.medications, i.allergies, i.symptoms], InitialPrompt(i))
  {
    FillInOrder(PromptFragments(),
                [IntToString(i.age), i.gender, i.medicalHistory, i.medications, i.allergies, i.symptoms]);
  }

  /** The instruction prompt and the summary are different texts, so the
      message that seeds the first call is not the one the transcript keeps. */
  lemma SummaryIsNotPrompt(i: Intake)
    ensures Summary(i) != InitialPrompt(i)
  {
    assert Summary(i)[0] == 'P';
    assert InitialPrompt(i)[0] == '\n';
  }
}
