/** The page of frontend/src/App.js: it starts a session on mount, renders the recording
    component for the current part, uploads every answer with the session id, the part name
    and the question index, moves to the next part when one is complete, and shows the verdict
    as soon as a reply carries one. */
module App {
  import opened Wrappers
  import opened Text
  import Backend

  /** A part's payload as the page reads it from the start reply; any field may be missing. */
  datatype ClientPayload = ClientPayload(
    questions: Option<seq<string>>,
    pictures: Option<seq<string>>,
    question: Option<string>,
    forList: Option<seq<string>>,
    against: Option<seq<string>>)

  datatype ClientPart = ClientPart(name: string, payload: Option<ClientPayload>)

  /** The JSON body of the start reply, as far as the page reads it. */
  datatype StartBody = StartBody(sessionId: Option<string>, parts: Option<seq<ClientPart>>)

  /** The `sessionId` state: null before the start reply, undefined when the reply had none. */
  datatype SessionRef = Null | Undefined | Known(id: string)

  /** The props the page passes to the recording component. */
  datatype Props = Props(
    partName: string,
    questions: seq<string>,
    pictures: seq<string>,
    question: Option<string>,
    forList: seq<string>,
    againstList: seq<string>)

  datatype Screen = ResultScreen(result: Backend.Verdict) | Loading | TestScreen(props: Props)

  /** The multipart form of an answer upload: every field is text, the audio is a file. */
  datatype SpeechForm = SpeechForm(audio: seq<bv8>, sessionId: string, part: string, qIndex: string)

  /** The props for a part: a missing payload counts as empty, and so do missing lists. */
  function PropsOf(part: ClientPart): (p: Props)
    ensures p.partName == part.name
    ensures part.payload.None? ==>
      p == Props(part.name, [], [], None, [], [])
    ensures part.payload.Some? ==>
      && p.questions == part.payload.value.questions.GetOr([])
      && p.pictures == part.payload.value.pictures.GetOr([])
      && p.question == part.payload.value.question
      && p.forList == part.payload.value.forList.GetOr([])
      && p.againstList == part.payload.value.against.GetOr([])
  {
    var payload := part.payload.GetOr(ClientPayload(None, None, None, None, None));
    Props(part.name, payload.questions.GetOr([]), payload.pictures.GetOr([]), payload.question,
          payload.forList.GetOr([]), payload.against.GetOr([]))
  }

  /** What the page chooses to show: the verdict once there is one, whatever the part; the
      loading text while there are no parts; the current part otherwise. */
  function Render(finalResult: Option<Backend.Verdict>, parts: seq<ClientPart>, currentPart: nat): (s: Screen)
    requires parts == [] || currentPart < |parts|
    ensures finalResult.Some? ==> s == ResultScreen(finalResult.value)
    ensures finalResult.None? && parts == [] ==> s == Loading
    ensures finalResult.None? && parts != [] ==> s == TestScreen(PropsOf(parts[currentPart]))
  {
    if finalResult.Some? then ResultScreen(finalResult.value)
    else if |parts| == 0 then Loading
    else TestScreen(PropsOf(parts[currentPart]))
  }

  /** A part of the start reply as it arrives at the page: every payload field is there. */
  function Received(p: Backend.Part): ClientPart {
    ClientPart(p.name, Some(ClientPayload(Some(p.payload.questions), Some(p.payload.pictures),
                                          p.payload.question, Some(p.payload.forList), Some(p.payload.against))))
  }

  function ReceivedParts(parts: seq<Backend.Part>): (r: seq<ClientPart>)
    ensures |r| == |parts|
    ensures forall i :: 0 <= i < |parts| ==> r[i] == Received(parts[i])
  {
    seq(|parts|, i requires 0 <= i < |parts| => Received(parts[i]))
  }

  /** The body of the server's reply to the start request: an error reply has neither field. */
  function StartBodyOf(reply: Result<Backend.Started, string>): StartBody {
    match reply
    case Success(st) => StartBody(Some(st.sessionId), Some(ReceivedParts(st.parts)))
    case Failure(_) => StartBody(None, None)
  }

  /** The server's defaults leave the page nothing to default: a part's props are its normalised fields. */
  lemma ServerPartsNeedNoDefaults(p: Backend.Part)
    ensures PropsOf(Received(p)) == Props(p.name, p.payload.questions, p.payload.pictures,
                                          p.payload.question, p.payload.forList, p.payload.against)
  {
  }

  /** After the start reply Backend.Server.Start sends for the served test, the page has one
      part per stored part and shows the first stored part with its normalised lists, or the
      loading text for a test without parts. */
  lemma StartedTestShowsFirstPart(fixed: Backend.FixedTest, id: string)
    ensures var stored := fixed.test.parts;
      var reply := Backend.Started(id, Backend.TestTitle(fixed), Backend.NormalizeParts(stored));
      var parts := StartBodyOf(Success(reply)).parts.GetOr([]);
      && |parts| == |stored|
      && Render(None, parts, 0) ==
         if stored == [] then Loading
         else
           var p := Backend.NormalizePayload(stored[0].1);
           TestScreen(Props(stored[0].0, p.questions, p.pictures, p.question, p.forList, p.against))
  {
    var parts := Backend.NormalizeParts(fixed.test.parts);
    if parts != [] {
      ServerPartsNeedNoDefaults(parts[0]);
    }
  }

  /** `data.final`: only the completing reply carries a verdict. */
  function FinalOf(reply: Backend.SpeechReply): (r: Option<Backend.Verdict>)
    ensures r.Some? <==> reply.Final?
    ensures r.Some? ==> r.value == reply.verdict
  {
    if reply.Final? then Some(reply.verdict) else None
  }

  /** FormData.append turns null and undefined into the texts "null" and "undefined". */
  function FieldText(ref: SessionRef): string {
    match ref
    case Null => "null"
    case Undefined => "undefined"
    case Known(id) => id
  }

  /** The server's view of an upload: all three text fields and the audio file are present. */
  function RequestOf(form: SpeechForm): Backend.SpeechRequest {
    Backend.SpeechRequest(Some(form.sessionId), Some(form.part), Some(form.qIndex), true)
  }

  /** An upload made with the id of a registered session and a non-empty part name passes all
      of the server's checks; the question index plays no part in them. */
  lemma UploadForOpenSessionIsAccepted(id: string, registered: set<string>, audio: seq<bv8>, part: string, qIndex: nat)
    requires id != "" && id in registered && part != ""
    ensures Backend.Validate(RequestOf(SpeechForm(audio, FieldText(Known(id)), part, NatToString(qIndex))), registered) == None
  {
  }

  /** An upload made before a session id arrived carries "null" or "undefined" as the id and is
      refused as an unknown session (no registered id has either text). */
  lemma UploadWithoutSessionIsRefused(ref: SessionRef, registered: set<string>, audio: seq<bv8>, part: string, qIndex: nat)
    requires !ref.Known? && "null" !in registered && "undefined" !in registered && part != ""
    ensures Backend.Validate(RequestOf(SpeechForm(audio, FieldText(ref), part, NatToString(qIndex))), registered)
            == Some(Backend.InvalidSessionError)
  {
  }

  /** The page's React state. */
  class Page {
    var sessionId: SessionRef
    var parts: seq<ClientPart>
    var currentPart: nat
    var finalResult: Option<Backend.Verdict>

    /** The part cursor points at a part, or is 0 when there are none. */
    predicate Valid()
      reads this
    {
      (parts == [] && currentPart == 0) || currentPart < |parts|
    }

    constructor ()
      ensures sessionId == Null && parts == [] && currentPart == 0 && finalResult == None && Valid()
    {
      sessionId, parts, currentPart, finalResult := Null, [], 0, None;
    }

    /** The start request's outcome, which arrives once, before any part is shown: None when the
        request or its JSON failed (only logged), otherwise the body's id and parts. */
    method OnStartResponse(body: Option<StartBody>)
      requires Valid() && parts == []
      modifies this`sessionId, this`parts
      ensures Valid()
      ensures body.None? ==> sessionId == old(sessionId) && parts == old(parts)
      ensures body.Some? ==>
        && sessionId == (if body.value.sessionId.Some? then Known(body.value.sessionId.value) else Undefined)
        && parts == body.value.parts.GetOr([])
    {
      if body.Some? {
        sessionId := if body.value.sessionId.Some? then Known(body.value.sessionId.value) else Undefined;
        parts := body.value.parts.GetOr([]);
      }
    }

    /** handleAnswer's upload: the audio, the session id, the part name and the question index. */
    method AnswerForm(audio: seq<bv8>, partName: string, qIndex: nat) returns (form: SpeechForm)
      ensures form.audio == audio && form.part == partName
      ensures form.sessionId == FieldText(sessionId)
      ensures form.qIndex == NatToString(qIndex)
      ensures AllDigits(form.qIndex) && DigitsValue(form.qIndex) == qIndex
    {
      NatToStringRoundTrip(qIndex);
      form := SpeechForm(audio, FieldText(sessionId), partName, NatToString(qIndex));
    }

    /** handleAnswer's reply: None when the request or its JSON failed; a verdict is kept once it
        arrives, and any other reply leaves the state as it was. */
    method OnAnswerResponse(reply: Option<Backend.SpeechReply>)
      modifies this`finalResult
      ensures reply.Some? && reply.value.Final? ==> finalResult == Some(reply.value.verdict)
      ensures !(reply.Some? && reply.value.Final?) ==> finalResult == old(finalResult)
    {
      if reply.Some? {
        var final := FinalOf(reply.value);
        if final.Some? {
          finalResult := final;
        }
      }
    }

    /** handlePartComplete: the cursor moves to the next part when there is one, and otherwise stays. */
    method HandlePartComplete()
      requires Valid()
      modifies this`currentPart
      ensures Valid()
      ensures old(currentPart) + 1 < |parts| ==> currentPart == old(currentPart) + 1
      ensures old(currentPart) + 1 >= |parts| ==> currentPart == old(currentPart)
    {
      if currentPart < |parts| - 1 {
        currentPart := currentPart + 1;
      }
    }

    /** What the page renders now. */
    function Shown(): Screen
      reads this
      requires Valid()
    {
      Render(finalResult, parts, currentPart)
    }
  }
}
