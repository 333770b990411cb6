/**
 * The test-case generator's main step: build the two chat messages from a
 * requirement, ask the model once, parse its reply as JSON, and on a parse
 * failure parse once more with a fixed reminder appended; if that fails
 * too, raise with the first failure. Rows are built and the CSV written
 * only after a successful parse.
 *
 * The model call (chat), the JSON parser (parse_json_safely) and the row
 * conversion (to_rows) are parameters; reading the requirement file is
 * replaced by its text, and the calls made are returned as a log.
 */
module TestcaseAgent {
  import opened Optional
  import opened PyText

  /** One chat message. */
  datatype Message = Message(role: string, content: string)

  /** The system prompt, line by line. */
  const SystemPrompt: string :=
    "You are a senior QA assistant.\n" +
    "Think step-by-step about the requirement and produce ONLY a JSON array of\n" +
    "test cases using this schema:\n" +
    "\n" +
    "[\n" +
    "  {\n" +
    "    \"id\": \"TC-001\",\n" +
    "    \"title\": \"Short test title\",\n" +
    "    \"steps\": [\"step 1\", \"step 2\"],\n" +
    "    \"expected\": \"Expected result\",\n" +
    "    \"priority\": \"High|Medium|Low\"\n" +
    "  }\n" +
    "]\n" +
    "\n" +
    "Rules:\n" +
    "- Return JSON ONLY (no prose, no fences).\n" +
    "- Provide 5 test cases for a typical requirement.\n" +
    "- Steps should be short, imperative, and precise.\n"

  /** The user template `Requirement:\n"""{requirement_text}"""`, as its pieces. */
  const UserTemplate: seq<Piece> :=
    [Text("Requirement:\n\"\"\""), Field("requirement_text"), Text("\"\"\"")]

  /** The reminder appended to the model's reply before the second parse. */
  const Reminder: string := "\n\nREMINDER: Return a pure JSON array only, matching the schema."

  /**
   * The message list: the system prompt first, then the requirement wrapped
   * in triple quotes by the user template.
   */
  function BuildMessages(requirementText: string): (m: seq<Message>)
    ensures |m| == 2
    ensures m[0] == Message("system", SystemPrompt)
    ensures m[1] == Message("user", "Requirement:\n\"\"\"" + requirementText + "\"\"\"")
  {
    var args := map["requirement_text" := requirementText];
    var user := Format(UserTemplate, args).value;
    FormatParts(requirementText);
    [Message("system", SystemPrompt), Message("user", user)]
  }

  /** The template renders as its opening text, the requirement verbatim, and its closing quotes. */
  lemma FormatParts(requirementText: string)
    ensures Format(UserTemplate, map["requirement_text" := requirementText])
      == Some("Requirement:\n\"\"\"" + requirementText + "\"\"\"")
  {
    var args := map["requirement_text" := requirementText];
    var opening, closing := "Requirement:\n\"\"\"", "\"\"\"";
    var last := [UserTemplate[2]];
    FormatPiece(UserTemplate[2], args);
    assert Format(last, args) == Some(closing);
    assert UserTemplate[1..][1..] == last;
    assert Format(UserTemplate[1..], args) == Some(requirementText + closing);
    assert Format(UserTemplate, args) == Some(opening + (requirementText + closing));
    assert opening + (requirementText + closing) == opening + requirementText + closing;
  }

  /** The model's reply with the reminder appended: the reply is kept whole, in front. */
  function Nudge(raw: string): (r: string)
    ensures |r| == |raw| + |Reminder|
    ensures r[..|raw|] == raw && r[|raw|..] == Reminder
  {
    raw + Reminder
  }

  /** What the JSON parser returns: the test cases, or the message of the exception it raised. */
  datatype Result<T> = Ok(value: T) | Err(message: string)

  /** A foreign call made by the generator, in the order made. */
  datatype Effect<R> = Chat(messages: seq<Message>) | ParseCall(input: string) | WriteCsv(rows: R)

  /** How the generator ends: rows written, or a RuntimeError with its message. */
  datatype Outcome<R> = Wrote(rows: R) | Raised(message: string)

  /** The opening of the RuntimeError message. */
  const FailureLead: string := "Could not parse model output as JSON. See "

  /**
   * The RuntimeError message: the fixed lead, then where the raw reply was
   * saved, then `.`, a new line and `Error: `, then the first parse error,
   * which ends the message.
   */
  function FailureMessage(lastRawPath: string, firstError: string): (m: string)
    ensures |FailureLead| + |lastRawPath| + |firstError| <= |m|
    ensures m[..|FailureLead|] == FailureLead
    ensures m[|FailureLead|..|FailureLead| + |lastRawPath|] == lastRawPath
    ensures m[|FailureLead| + |lastRawPath|..|m| - |firstError|] == ".\nError: "
    ensures m[|m| - |firstError|..] == firstError
  {
    FailureLead + lastRawPath + ".\nError: " + firstError
  }

  /** Number of model calls in a log. */
  function ChatCalls<R>(log: seq<Effect<R>>): nat
  {
    if log == [] then 0 else (if log[0].Chat? then 1 else 0) + ChatCalls(log[1..])
  }

  /** Number of parser calls in a log. */
  function ParseCalls<R>(log: seq<Effect<R>>): nat
  {
    if log == [] then 0 else (if log[0].ParseCall? then 1 else 0) + ParseCalls(log[1..])
  }

  /** Appending one call to a log adds it to the count of its kind. */
  lemma {:induction false} CallsSnoc<R>(log: seq<Effect<R>>, e: Effect<R>)
    ensures ChatCalls(log + [e]) == ChatCalls(log) + (if e.Chat? then 1 else 0)
    ensures ParseCalls(log + [e]) == ParseCalls(log) + (if e.ParseCall? then 1 else 0)
  {
    if log == [] {
      assert [e][1..] == [];
    } else {
      assert (log + [e])[1..] == log[1..] + [e];
      CallsSnoc(log[1..], e);
    }
  }

  /**
   * main, from the requirement file's text on. The reply of the single model
   * call is parsed unchanged; only if that fails is it parsed once more with
   * the reminder appended; if both fail the RuntimeError names the saved raw
   * reply and carries the FIRST parse error. The CSV is written, last, exactly
   * when one of the two parses succeeded, with the rows of that parse.
   */
  method GenerateTestCases<C, R>(
    fileText: string,
    lastRawPath: string,
    chat: seq<Message> -> string,
    parseJson: string -> Result<C>,
    toRows: C -> R)
    returns (outcome: Outcome<R>, log: seq<Effect<R>>)
    ensures var messages := BuildMessages(Strip(fileText));
      var raw := chat(messages);
      var first, second := parseJson(raw), parseJson(Nudge(raw));
      && |log| >= 3
      && log[0] == Chat(messages)
      && log[1] == ParseCall(raw)
      && (first.Ok? ==>
            log == [Chat(messages), ParseCall(raw), WriteCsv(toRows(first.value))]
            && outcome == Wrote(toRows(first.value)))
      && (first.Err? ==> log[2] == ParseCall(raw + Reminder))
      && (first.Err? && second.Ok? ==>
            log == [Chat(messages), ParseCall(raw), ParseCall(raw + Reminder), WriteCsv(toRows(second.value))]
            && outcome == Wrote(toRows(second.value)))
      && (first.Err? && second.Err? ==>
            log == [Chat(messages), ParseCall(raw), ParseCall(raw + Reminder)]
            && outcome == Raised(FailureMessage(lastRawPath, first.message)))
    ensures ChatCalls(log) == 1 && 1 <= ParseCalls(log) <= 2
    ensures outcome.Wrote? <==> (exists i :: 0 <= i < |log| && log[i].WriteCsv?)
    ensures outcome.Wrote? ==> log[|log| - 1] == WriteCsv(outcome.rows)
  {
    var requirementText := Strip(fileText);
    var messages := BuildMessages(requirementText);
    var raw := chat(messages);
    log := [Chat(messages)];
    assert ChatCalls(log) == 1 && ParseCalls(log) == 0 by {
      assert log[1..] == [];
    }

    CallsSnoc(log, ParseCall(raw));
    log := log + [ParseCall(raw)];
    var first := parseJson(raw);
    var cases: C;
    if first.Ok? {
      cases := first.value;
    } else {
      var nudge := Nudge(raw);
      CallsSnoc(log, ParseCall(nudge));
      log := log + [ParseCall(nudge)];
      var second := parseJson(nudge);
      if second.Err? {
        outcome := Raised(FailureMessage(lastRawPath, first.message));
        assert forall i :: 0 <= i < |log| ==> !log[i].WriteCsv?;
        return;
      }
      cases := second.value;
    }
    var rows := toRows(cases);
    CallsSnoc(log, WriteCsv(rows));
    log := log + [WriteCsv(rows)];
    outcome := Wrote(rows);
    assert log[|log| - 1].WriteCsv?;
  }
}
