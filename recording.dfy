/** What the two recording components (SpeechTestLogic.js and SpeechTest.js) have in common:
    the phases, the interval timer and its rounding, the recorder handle, the audio handed on
    after an answer, and the preparation and answer times, written once for both spellings of
    the part names. */
module Recording {

  datatype Phase = Idle | Prep | Answer

  /** What the timer does when it runs out: start recording the answer to a question, or stop the recorder. */
  datatype Callback = BeginRecording(index: nat) | StopRecorder

  /** The timer ref: no interval, or an interval that runs out at `endMs` and then runs `onDone`. */
  datatype Timer = NoTimer | Armed(endMs: int, onDone: Callback)

  /** The media recorder ref: none yet, or the recorder made for answer `index`, still recording or stopped. */
  datatype Recorder = NoRecorder | MediaRecorder(index: nat, recording: bool)

  /** What a component hands to onAnswerComplete: the recorded audio, the part name and the question index. */
  datatype Submission = Submission(audio: seq<bv8>, partName: string, index: nat)

  /** How a component spells the parts that get special times. */
  datatype Naming = Naming(firstFollowUp: string, monologue: string, debate: string)

  /** SpeechTestLogic.js. */
  const PrefixedNames := Naming("Part 1.2", "Part 2", "Part 3")

  /** SpeechTest.js. */
  const BareNames := Naming("1.2", "2", "3")

  predicate IsLongPart(names: Naming, partName: string) {
    partName == names.monologue || partName == names.debate
  }

  predicate IsFirstFollowUp(names: Naming, partName: string, index: nat) {
    partName == names.firstFollowUp && index == 0
  }

  /** Preparation time in seconds: a minute for the long parts, whatever the index; ten seconds
      before the first question of the follow-up part; five otherwise. */
  function PrepSeconds(names: Naming, partName: string, index: nat): (r: nat)
    ensures r == 60 <==> IsLongPart(names, partName)
    ensures r == 10 <==> !IsLongPart(names, partName) && IsFirstFollowUp(names, partName, index)
    ensures r == 5 <==> !IsLongPart(names, partName) && !IsFirstFollowUp(names, partName, index)
  {
    if IsLongPart(names, partName) then 60
    else if IsFirstFollowUp(names, partName, index) then 10
    else 5
  }

  /** Answer time in seconds: two minutes for the long parts; 45 seconds for the first question
      of the follow-up part; 30 otherwise. */
  function AnswerSeconds(names: Naming, partName: string, index: nat): (r: nat)
    ensures r == 120 <==> IsLongPart(names, partName)
    ensures r == 45 <==> !IsLongPart(names, partName) && IsFirstFollowUp(names, partName, index)
    ensures r == 30 <==> !IsLongPart(names, partName) && !IsFirstFollowUp(names, partName, index)
  {
    if IsLongPart(names, partName) then 120
    else if IsFirstFollowUp(names, partName, index) then 45
    else 30
  }

  lemma PrefixInjective(prefix: string, a: string, b: string)
    requires prefix + a == prefix + b
    ensures a == b
  {
    assert a == (prefix + a)[|prefix|..];
    assert b == (prefix + b)[|prefix|..];
  }

  /** The two components give a part the same times when one calls it "Part n" and the other "n". */
  lemma VariantsAgreeOnTimes(name: string, index: nat)
    ensures PrepSeconds(PrefixedNames, "Part " + name, index) == PrepSeconds(BareNames, name, index)
    ensures AnswerSeconds(PrefixedNames, "Part " + name, index) == AnswerSeconds(BareNames, name, index)
  {
    assert "Part 2" == "Part " + "2" && "Part 3" == "Part " + "3" && "Part 1.2" == "Part " + "1.2";
    if "Part " + name == "Part 2" { PrefixInjective("Part ", name, "2"); }
    if "Part " + name == "Part 3" { PrefixInjective("Part ", name, "3"); }
    if "Part " + name == "Part 1.2" { PrefixInjective("Part ", name, "1.2"); }
  }

  /** `Math.round((endMs - nowMs) / 1000)`: the whole seconds left, halves rounded up. */
  function SecondsLeft(endMs: int, nowMs: int): (r: int)
    ensures 1000 * r - 500 <= endMs - nowMs < 1000 * r + 500
    ensures r <= 0 <==> endMs - nowMs < 500
  {
    (endMs - nowMs + 500) / 1000
  }

  /** The blob built from the recorded chunks. */
  function Concat(chunks: seq<seq<bv8>>): seq<bv8> {
    if chunks == [] then [] else Concat(chunks[..|chunks| - 1]) + chunks[|chunks| - 1]
  }
}
