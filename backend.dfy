/** The server of backend/index.js: a process-wide registry of test sessions keyed by id, the
    start handler that opens a session on the configured test, and the speech handler that
    stores one transcript per submission and, once as many submissions as the test has parts
    have arrived, asks the assessor for a verdict and forgets the session. */
module Backend {
  import opened Wrappers
  import opened Text

  /** The `pictures` field of a stored part: missing, an array, or some other JSON value. */
  datatype PictureField = NoPictures | PictureList(items: seq<string>) | NotAList

  /** A part's payload as the tests file holds it. A field is None when it is missing or falsy.
      `stringified` is the text JSON.stringify produces for the payload, taken as given. */
  datatype StoredPayload = StoredPayload(
    questions: Option<seq<string>>,
    question: Option<string>,
    forList: Option<seq<string>>,
    against: Option<seq<string>>,
    pictures: PictureField,
    stringified: string)

  /** A test: an optional title and its parts as (name, payload) entries, in enumeration order. */
  datatype StoredTest = StoredTest(title: Option<string>, parts: seq<(string, StoredPayload)>)

  /** The test the server serves: its key in the tests file and its contents. */
  datatype FixedTest = FixedTest(key: string, test: StoredTest)

  /** A part as the start handler sends it to the client. */
  datatype Payload = Payload(
    questions: seq<string>,
    question: Option<string>,
    forList: seq<string>,
    against: seq<string>,
    pictures: seq<string>)

  datatype Part = Part(name: string, payload: Payload)

  datatype Started = Started(sessionId: string, testTitle: string, parts: seq<Part>)

  /** One test-taker's attempt: the latest transcript per part name and the submission count. */
  datatype Session = Session(answers: map<string, string>, received: nat, total: nat, createdAt: int)

  /** The fields of a speech upload; `qIndex` is sent by the client and never read here. */
  datatype SpeechRequest = SpeechRequest(
    sessionId: Option<string>,
    part: Option<string>,
    qIndex: Option<string>,
    hasAudio: bool)

  /** The `final` object: what JSON.parse builds from the extracted span, or the fallback. */
  datatype Verdict = Parsed(json: string) | Fallback(level: string, explanation: string, tip: string)

  datatype SpeechReply =
    | BadRequest(error: string)              // status 400
    | TranscriptionFailed(detail: string)    // status 500, "Deepgram transcription failed"
    | Transcribed(transcription: string)     // { ok: true, transcription }
    | AssessorFailed(detail: string)         // status 500, "OpenAI error"
    | Final(verdict: Verdict, raw: string)   // { final, raw }
    | Crashed                                // status 500 from the handler's outer catch

  const NoTestsError := "No tests available on server."
  const MissingFieldsError := "sessionId and part are required"
  const InvalidSessionError := "Invalid sessionId"
  const MissingAudioError := "Audio file is required"
  const SystemPrompt := "You are an experienced English teacher and CEFR rater.\nYou will receive the student's answers to a multi-part speaking test.\nProvide a JSON object with EXACT fields: level, explanation, tip."
  const SectionSeparator := "\n\n"

  /** A request field that JavaScript treats as present: there and not the empty string. */
  predicate Given(field: Option<string>) {
    field.Some? && field.value != ""
  }

  /** The first entry of the tests file, unless there is none or its key is the empty string. */
  function SelectFixedTest(tests: seq<(string, StoredTest)>): Option<FixedTest> {
    if |tests| > 0 && tests[0].0 != "" then Some(FixedTest(tests[0].0, tests[0].1)) else None
  }

  /** `FIXED_TEST.title || TEST_KEY`. */
  function TestTitle(f: FixedTest): string {
    if Given(f.test.title) then f.test.title.value else f.key
  }

  /** The client's view of one payload: missing lists become empty, a missing or empty
      question becomes null, and pictures survive only when they are an array. */
  function NormalizePayload(p: StoredPayload): (r: Payload)
    ensures r.questions == (if p.questions.Some? then p.questions.value else [])
    ensures r.forList == (if p.forList.Some? then p.forList.value else [])
    ensures r.against == (if p.against.Some? then p.against.value else [])
    ensures r.question.Some? <==> Given(p.question)
    ensures r.question.Some? ==> r.question == p.question
    ensures r.question != Some("")
    ensures r.pictures == (if p.pictures.PictureList? then p.pictures.items else [])
  {
    Payload(
      p.questions.GetOr([]),
      if Given(p.question) then p.question else None,
      p.forList.GetOr([]),
      p.against.GetOr([]),
      match p.pictures
      case PictureList(items) => items
      case _ => [])
  }

  /** The parts the start handler returns: one per stored entry, same names, same order. */
  function NormalizeParts(entries: seq<(string, StoredPayload)>): (r: seq<Part>)
    ensures |r| == |entries|
    ensures forall i :: 0 <= i < |entries| ==>
      r[i].name == entries[i].0 && r[i].payload == NormalizePayload(entries[i].1)
  {
    seq(|entries|, i requires 0 <= i < |entries| => Part(entries[i].0, NormalizePayload(entries[i].1)))
  }

  /** `answers[name] || ""`. */
  function AnswerFor(answers: map<string, string>, name: string): string {
    if name in answers then answers[name] else ""
  }

  /** The block for one part in the assessor's prompt. */
  function Section(name: string, stored: StoredPayload, answer: string): string {
    "--- " + name + " ---\nQuestion(s): " + stored.stringified + "\nAnswer: " + answer
  }

  function Sections(parts: seq<(string, StoredPayload)>, answers: map<string, string>): (r: seq<string>)
    ensures |r| == |parts|
    ensures forall i :: 0 <= i < |parts| ==> r[i] == Section(parts[i].0, parts[i].1, AnswerFor(answers, parts[i].0))
  {
    seq(|parts|, i requires 0 <= i < |parts| => Section(parts[i].0, parts[i].1, AnswerFor(answers, parts[i].0)))
  }

  /** All parts' blocks, in the test's part order, separated by blank lines. */
  function Combined(parts: seq<(string, StoredPayload)>, answers: map<string, string>): string {
    Join(SectionSeparator, Sections(parts, answers))
  }

  function UserPrompt(parts: seq<(string, StoredPayload)>, answers: map<string, string>): string {
    "Student responses:\n\n" + Combined(parts, answers)
  }

  /** Every part of the test has its block in the combined text, at its place in the part
      order, with its recorded answer or "" when none arrived; the blocks do not overlap, and
      each block but the last is followed by the blank line that separates it from the next. */
  lemma CombinedListsEveryPartInOrder(parts: seq<(string, StoredPayload)>, answers: map<string, string>, i: nat, j: nat)
    requires i < j < |parts|
    ensures var c, xs := Combined(parts, answers), Sections(parts, answers);
      && Offset(SectionSeparator, xs, i) + |xs[i]| + |SectionSeparator| <= Offset(SectionSeparator, xs, j)
      && Offset(SectionSeparator, xs, j) + |xs[j]| <= |c|
      && c[Offset(SectionSeparator, xs, i)..Offset(SectionSeparator, xs, i) + |xs[i]|]
         == Section(parts[i].0, parts[i].1, AnswerFor(answers, parts[i].0))
      && c[Offset(SectionSeparator, xs, j)..Offset(SectionSeparator, xs, j) + |xs[j]|]
         == Section(parts[j].0, parts[j].1, AnswerFor(answers, parts[j].0))
      && c[Offset(SectionSeparator, xs, i) + |xs[i]|..Offset(SectionSeparator, xs, i) + |xs[i]| + |SectionSeparator|]
         == SectionSeparator
  {
    var xs := Sections(parts, answers);
    JoinAt(SectionSeparator, xs, i);
    JoinSeparatorAt(SectionSeparator, xs, i);
    JoinAt(SectionSeparator, xs, j);
    OffsetsIncrease(SectionSeparator, xs, i, j);
  }

  /** An answer stored under a name that is not one of the test's parts never reaches the assessor. */
  lemma CombinedIgnoresOtherNames(parts: seq<(string, StoredPayload)>, answers: map<string, string>, name: string, text: string)
    requires forall i :: 0 <= i < |parts| ==> parts[i].0 != name
    ensures Combined(parts, answers[name := text]) == Combined(parts, answers)
  {
    assert Sections(parts, answers[name := text]) == Sections(parts, answers);
  }

  /** `text.match(/\{[\s\S]*\}/)[0]`: from the first `{` to the last `}` that follows it. */
  function BraceSpan(text: string): (r: Option<string>)
    ensures r.Some? ==> 2 <= |r.value| && r.value[0] == '{' && r.value[|r.value| - 1] == '}'
  {
    match FirstIndexOf(text, '{')
    case None => None
    case Some(i) =>
      match LastIndexOf(text, '}')
      case None => None
      case Some(j) => if i < j then Some(text[i..j + 1]) else None
  }

  /** A `{` at i and a `}` at j after it: a match of the regular expression from i to j. */
  predicate SpanAt(text: string, i: int, j: int) {
    0 <= i < j < |text| && text[i] == '{' && text[j] == '}'
  }

  /** BraceSpan is the regular expression's match: there is one exactly when some `{` is followed
      by a `}`, and then it starts at the leftmost such `{` and ends at the rightmost `}`. */
  lemma BraceSpanIsLeftmostLongest(text: string)
    ensures BraceSpan(text).Some? <==> exists i, j :: SpanAt(text, i, j)
    ensures BraceSpan(text).Some? ==>
      exists i, j :: && SpanAt(text, i, j)
                     && BraceSpan(text).value == text[i..j + 1]
                     && forall i', j' :: SpanAt(text, i', j') ==> i <= i' && j' <= j
  {
    var first, last := FirstIndexOf(text, '{'), LastIndexOf(text, '}');
    if first.Some? && last.Some? && first.value < last.value {
      var i, j := first.value, last.value;
      assert SpanAt(text, i, j);
      forall i', j' | SpanAt(text, i', j') ensures i <= i' && j' <= j {
      }
    } else {
      assert forall i', j' :: !SpanAt(text, i', j');
    }
  }

  /** The reply parse: the parsed span when there is one and it parses, the fallback otherwise. */
  function ParseReply(aiText: string, parses: string -> bool): (r: Verdict)
    ensures r.Parsed? <==> BraceSpan(aiText).Some? && parses(BraceSpan(aiText).value)
    ensures r.Parsed? ==> r.json == BraceSpan(aiText).value
    ensures r.Fallback? ==> r == Fallback("Unknown", aiText, "")
  {
    match BraceSpan(aiText)
    case Some(span) => if parses(span) then Parsed(span) else Fallback("Unknown", aiText, "")
    case None => Fallback("Unknown", aiText, "")
  }

  /** The members an empty object literal inherits from Object.prototype. */
  const InheritedKeys: set<string> := {
    "constructor", "__proto__", "hasOwnProperty", "isPrototypeOf", "propertyIsEnumerable",
    "toString", "toLocaleString", "valueOf",
    "__defineGetter__", "__defineSetter__", "__lookupGetter__", "__lookupSetter__"}

  /** `sessions[id]` is truthy: a registered session, or an inherited member (all of which are
      functions or objects). */
  predicate Found(id: string, registered: set<string>) {
    id in registered || id in InheritedKeys
  }

  /** Every inherited member's name is at least five characters long. */
  lemma ShortIdsAreNotInherited(id: string)
    requires |id| < 5
    ensures id !in InheritedKeys
  {
  }

  /** The speech handler's checks, in order; the first that fails gives the error message. */
  function Validate(req: SpeechRequest, registered: set<string>): (r: Option<string>)
    ensures r == Some(MissingFieldsError) <==> !Given(req.sessionId) || !Given(req.part)
    ensures r == Some(InvalidSessionError) <==>
      Given(req.sessionId) && Given(req.part) && !Found(req.sessionId.value, registered)
    ensures r == Some(MissingAudioError) <==>
      Given(req.sessionId) && Given(req.part) && Found(req.sessionId.value, registered) && !req.hasAudio
    ensures r.None? <==>
      Given(req.sessionId) && Given(req.part) && Found(req.sessionId.value, registered) && req.hasAudio
  {
    if !Given(req.sessionId) || !Given(req.part) then Some(MissingFieldsError)
    else if !Found(req.sessionId.value, registered) then Some(InvalidSessionError)
    else if !req.hasAudio then Some(MissingAudioError)
    else None
  }

  /** `transcript || ""`: a missing transcript in the transcription reply counts as empty. */
  function TranscriptOf(found: Option<string>): string {
    found.GetOr("")
  }

  /** An accepted submission: the part's answer is replaced, not appended to, and the count
      goes up by one whatever the part. */
  function Accept(s: Session, part: string, transcript: string): (r: Session)
    ensures r.answers.Keys == s.answers.Keys + {part}
    ensures r.answers[part] == transcript
    ensures forall k :: k in s.answers && k != part ==> r.answers[k] == s.answers[k]
    ensures r.received == s.received + 1 && r.total == s.total && r.createdAt == s.createdAt
  {
    s.(answers := s.answers[part := transcript], received := s.received + 1)
  }

  /** The reply to the completing submission, given the assessor's outcome. */
  function Conclude(outcome: Result<Option<string>, string>, parses: string -> bool): (r: SpeechReply)
    ensures outcome.Failure? ==> r == AssessorFailed(outcome.error)
    ensures outcome.Success? ==>
      r.Final? && r.raw == outcome.value.GetOr("") && r.verdict == ParseReply(r.raw, parses)
  {
    match outcome
    case Failure(e) => AssessorFailed(e)
    case Success(content) => Final(ParseReply(content.GetOr(""), parses), content.GetOr(""))
  }

  /** A session that has not yet reached its total (a fresh session of a part-less test included). */
  predicate Open(s: Session) {
    s.received < s.total || s.received == 0
  }

  class Server {
    const fixed: Option<FixedTest>
    var sessions: map<string, Session>

    /** Every registered session was started on the served test, counts its parts and is still open. */
    predicate Valid()
      reads this
    {
      forall id :: id in sessions ==>
        fixed.Some? && sessions[id].total == |fixed.value.test.parts| && Open(sessions[id])
    }

    /** Process start-up: the first test of the tests file is served; no sessions yet. */
    constructor (tests: seq<(string, StoredTest)>)
      ensures fixed == SelectFixedTest(tests) && sessions == map[] && Valid()
    {
      fixed := SelectFixedTest(tests);
      sessions := map[];
    }

    /** GET /api/start with `freshId` as the new UUID and `now` as Date.now(). */
    method Start(freshId: string, now: int) returns (r: Result<Started, string>)
      requires Valid() && freshId != "" && freshId !in sessions
      modifies this`sessions
      ensures Valid()
      ensures fixed.None? ==> r == Failure(NoTestsError) && sessions == old(sessions)
      ensures fixed.Some? ==>
        && r == Success(Started(freshId, TestTitle(fixed.value), NormalizeParts(fixed.value.test.parts)))
        && sessions == old(sessions)[freshId := Session(map[], 0, |fixed.value.test.parts|, now)]
    {
      if fixed.None? {
        return Failure(NoTestsError);
      }
      var parts := NormalizeParts(fixed.value.test.parts);
      sessions := sessions[freshId := Session(map[], 0, |parts|, now)];
      r := Success(Started(freshId, TestTitle(fixed.value), parts));
    }

    /** POST /api/speech. `transcription` is the transcription service's outcome (the transcript
        it carries, if any), `assess` the assessor's reply to a system and a user prompt, and
        `parses` says which texts JSON.parse accepts. An id that names an inherited member passes
        the session check; once transcribed, storing the answer into that member throws, and the
        outer catch answers 500. */
    method Speech(req: SpeechRequest, transcription: Result<Option<string>, string>,
                  assess: (string, string) -> Result<Option<string>, string>, parses: string -> bool)
      returns (reply: SpeechReply)
      requires Valid()
      modifies this`sessions
      ensures Valid()
      ensures Validate(req, old(sessions).Keys).Some? ==>
        reply == BadRequest(Validate(req, old(sessions).Keys).value) && sessions == old(sessions)
      ensures Validate(req, old(sessions).Keys).None? && transcription.Failure? ==>
        reply == TranscriptionFailed(transcription.error) && sessions == old(sessions)
      ensures Validate(req, old(sessions).Keys).None? && transcription.Success? &&
              req.sessionId.value !in old(sessions) ==>
        reply == Crashed && sessions == old(sessions)
      ensures Validate(req, old(sessions).Keys).None? && transcription.Success? &&
              req.sessionId.value in old(sessions) ==>
        var id := req.sessionId.value;
        var s := Accept(old(sessions)[id], req.part.value, TranscriptOf(transcription.value));
        if s.received < s.total then
          reply == Transcribed(TranscriptOf(transcription.value)) && sessions == old(sessions)[id := s]
        else
          && fixed.Some?
          && reply == Conclude(assess(SystemPrompt, UserPrompt(fixed.value.test.parts, s.answers)), parses)
          && sessions == old(sessions) - {id}
    {
      var problem := Validate(req, sessions.Keys);
      if problem.Some? {
        return BadRequest(problem.value);
      }
      var id, part := req.sessionId.value, req.part.value;
      if transcription.Failure? {
        return TranscriptionFailed(transcription.error);
      }
      if id !in sessions {
        return Crashed;
      }
      var transcript := TranscriptOf(transcription.value);
      var s := Accept(sessions[id], part, transcript);
      sessions := sessions[id := s];
      if s.received < s.total {
        return Transcribed(transcript);
      }
      var outcome := assess(SystemPrompt, UserPrompt(fixed.value.test.parts, s.answers));
      if outcome.Failure? {
        sessions := sessions - {id};
        return AssessorFailed(outcome.error);
      }
      var aiText := outcome.value.GetOr("");
      var verdict := ParseReply(aiText, parses);
      sessions := sessions - {id};
      reply := Final(verdict, aiText);
    }
  }

  /** The two-part test of the scenario below: part 1.1 has two questions, part 2 one. */
  const ScenarioParts := [
    ("1.1", StoredPayload(Some(["Q1a", "Q1b"]), None, None, None, NoPictures, "P1")),
    ("2", StoredPayload(Some(["Q2"]), None, None, None, NoPictures, "P2"))]

  /** What the assessor is sent in the scenario below: both sections, the second with no answer. */
  const ScenarioPrompt := "Student responses:\n\n"
    + "--- " + "1.1" + " ---\nQuestion(s): " + "P1" + "\nAnswer: " + "two"
    + SectionSeparator
    + "--- " + "2" + " ---\nQuestion(s): " + "P2" + "\nAnswer: " + ""

  lemma ScenarioPromptText()
    ensures UserPrompt(ScenarioParts, map["1.1" := "two"]) == ScenarioPrompt
  {
    var answers := map["1.1" := "two"];
    var a := Section("1.1", ScenarioParts[0].1, "two");
    var b := Section("2", ScenarioParts[1].1, "");
    assert AnswerFor(answers, "2") == "" by { assert "2" != "1.1"; }
    assert Sections(ScenarioParts, answers) == [a, b];
    assert Join(SectionSeparator, [b]) == b;
    assert Join(SectionSeparator, [a, b]) == a + SectionSeparator + b;
  }

  /** A test of two parts, the first with two questions. The total counts parts, so the answer
      to the first part's SECOND question completes the session: the second part is sent to the
      assessor with an empty answer, the first answer to part 1.1 has been replaced, and the
      session is gone, so the upload for part 2 that follows is refused. The assessor here
      echoes its user prompt and no text parses, so the verdict carries the prompt. */
  method CompletionCountsParts() returns (first: SpeechReply, second: SpeechReply, late: SpeechReply)
    ensures first == Transcribed("one")
    ensures second == Final(Fallback("Unknown", ScenarioPrompt, ""), ScenarioPrompt)
    ensures late == BadRequest(InvalidSessionError)
  {
    var server := new Server([("demo", StoredTest(Some("Demo"), ScenarioParts))]);
    var started := server.Start("s", 0);
    assert server.sessions == map["s" := Session(map[], 0, 2, 0)];
    var echo := (system: string, user: string) => Success(Some(user));
    var never := (text: string) => false;
    var upload1 := SpeechRequest(Some("s"), Some("1.1"), Some("0"), true);
    assert Validate(upload1, server.sessions.Keys) == None;
    first := server.Speech(upload1, Success(Some("one")), echo, never);
    assert server.sessions == map["s" := Session(map["1.1" := "one"], 1, 2, 0)];
    var upload2 := SpeechRequest(Some("s"), Some("1.1"), Some("1"), true);
    assert Validate(upload2, server.sessions.Keys) == None;
    assert map["1.1" := "one"]["1.1" := "two"] == map["1.1" := "two"];
    ScenarioPromptText();
    second := server.Speech(upload2, Success(Some("two")), echo, never);
    assert server.sessions == map[];
    var upload3 := SpeechRequest(Some("s"), Some("2"), Some("0"), true);
    ShortIdsAreNotInherited("s");
    assert Validate(upload3, server.sessions.Keys) == Some(InvalidSessionError);
    late := server.Speech(upload3, Success(Some("three")), echo, never);
  }
}
