/** The recording component of frontend/src/SpeechTestLogic.js: one part at a time, each
    question goes idle -> prep -> answer -> idle; after an answer the next question starts by
    itself, except in "Part 2", which always ends after its first answer. Part names carry the
    "Part " prefix here. */
module SpeechTestLogic {
  import opened Wrappers
  import opened Text
  import opened Recording

  const ServerOrigin := "http://localhost:5000"

  predicate IsAbsolute(url: string) {
    StartsWith(url, "http://") || StartsWith(url, "https://")
  }

  function AbsolutePicture(url: string): (r: string)
    ensures IsAbsolute(r)
    ensures IsAbsolute(url) ==> r == url
    ensures !IsAbsolute(url) ==> r == ServerOrigin + url
  {
    if IsAbsolute(url) then url
    else
      assert StartsWith(ServerOrigin + url, "http://") by { PrefixOfConcat("http://", ServerOrigin, url); }
      ServerOrigin + url
  }

  /** Picture addresses as the component shows them: same number, same order; absolute
      addresses untouched, everything else placed under the server's origin. */
  function AbsolutePictures(pictures: seq<string>): (r: seq<string>)
    ensures |r| == |pictures|
    ensures forall i :: 0 <= i < |r| ==> IsAbsolute(r[i])
    ensures forall i :: 0 <= i < |r| && IsAbsolute(pictures[i]) ==> r[i] == pictures[i]
    ensures forall i :: 0 <= i < |r| && !IsAbsolute(pictures[i]) ==> r[i] == ServerOrigin + pictures[i]
  {
    seq(|pictures|, i requires 0 <= i < |pictures| => AbsolutePicture(pictures[i]))
  }

  /** The countdown text: minutes and two-digit seconds on the long parts, plain seconds otherwise. */
  function FormatTime(partName: string, seconds: nat): string {
    if IsLongPart(PrefixedNames, partName) then
      NatToString(seconds / 60) + ":" + PadStart(NatToString(seconds % 60), 2, '0')
    else
      NatToString(seconds) + "s"
  }

  /** The number of seconds a countdown text stands for: "m:ss" with ss two digits below 60 on
      the long parts, digits followed by "s" on the others. */
  function ReadTime(partName: string, text: string): Option<nat> {
    if IsLongPart(PrefixedNames, partName) then
      match FirstIndexOf(text, ':')
      case None => None
      case Some(k) =>
        var m, s := text[..k], text[k + 1..];
        if 1 <= |m| && AllDigits(m) && |s| == 2 && AllDigits(s) && DigitsValue(s) < 60
        then Some(60 * DigitsValue(m) + DigitsValue(s))
        else None
    else if 2 <= |text| && text[|text| - 1] == 's' && AllDigits(text[..|text| - 1])
    then Some(DigitsValue(text[..|text| - 1]))
    else None
  }

  lemma TwoDigitsAtMost(n: nat)
    requires n < 100
    ensures |NatToString(n)| <= 2
  {
    if n >= 10 {
      assert NatToString(n) == NatToString(n / 10) + [DigitChar(n % 10)];
    }
  }

  /** The seconds field of a long-part countdown: two digits that read back as the value. */
  lemma {:induction false} PaddedSeconds(x: nat)
    requires x < 60
    ensures var s := PadStart(NatToString(x), 2, '0'); |s| == 2 && AllDigits(s) && DigitsValue(s) == x
  {
    var secs := NatToString(x);
    var s := PadStart(secs, 2, '0');
    TwoDigitsAtMost(x);
    NatToStringRoundTrip(x);
    if |secs| == 1 {
      assert s == ['0'] + secs;
      assert s[..1] == ['0'] && s[1] == secs[0];
      assert DigitsValue(['0']) == 0 by { assert ['0'][..0] == []; }
      assert DigitsValue(secs) == DigitValue(secs[0]) by { assert secs[..0] == []; }
    } else {
      assert s == secs;
    }
  }

  /** In "m:s" with m all digits, the first colon is the one after m. */
  lemma {:induction false} SplitAtColon(m: string, s: string)
    requires AllDigits(m)
    ensures FirstIndexOf(m + ":" + s, ':') == Some(|m|)
    ensures (m + ":" + s)[..|m|] == m && (m + ":" + s)[|m| + 1..] == s
  {
    var text := m + ":" + s;
    assert text[|m|] == ':';
    assert forall k :: 0 <= k < |m| ==> text[k] == m[k];
  }

  lemma {:induction false} ReadClock(partName: string, m: string, s: string)
    requires IsLongPart(PrefixedNames, partName)
    requires 1 <= |m| && AllDigits(m) && |s| == 2 && AllDigits(s) && DigitsValue(s) < 60
    ensures ReadTime(partName, m + ":" + s) == Some(60 * DigitsValue(m) + DigitsValue(s))
  {
    SplitAtColon(m, s);
  }

  /** Reading a rendered countdown back gives the seconds it was made from: on the long parts
      the minutes and the two-digit seconds field (below 60) make up the total. */
  lemma {:induction false} FormatTimeRoundTrip(partName: string, seconds: nat)
    ensures ReadTime(partName, FormatTime(partName, seconds)) == Some(seconds)
  {
    if IsLongPart(PrefixedNames, partName) {
      ClockRoundTrip(partName, seconds);
    } else {
      PlainSecondsRoundTrip(partName, seconds);
    }
  }

  lemma {:induction false} ClockRoundTrip(partName: string, seconds: nat)
    requires IsLongPart(PrefixedNames, partName)
    ensures ReadTime(partName, FormatTime(partName, seconds)) == Some(seconds)
  {
    var q, r := seconds / 60, seconds % 60;
    var m := NatToString(q);
    var s := PadStart(NatToString(r), 2, '0');
    PaddedSeconds(r);
    NatToStringRoundTrip(q);
    ReadClock(partName, m, s);
    assert 60 * DigitsValue(m) + DigitsValue(s) == seconds by {
      assert DigitsValue(m) == q && DigitsValue(s) == r;
    }
    assert FormatTime(partName, seconds) == m + ":" + s;
  }

  lemma {:induction false} PlainSecondsRoundTrip(partName: string, seconds: nat)
    requires !IsLongPart(PrefixedNames, partName)
    ensures ReadTime(partName, FormatTime(partName, seconds)) == Some(seconds)
  {
    var digits := NatToString(seconds);
    var text := digits + "s";
    assert FormatTime(partName, seconds) == text;
    assert text[..|text| - 1] == digits;
    NatToStringRoundTrip(seconds);
  }

  /** The component's state: its props, its React state and the refs it updates in place. */
  class Component {
    var partName: string
    var questions: seq<string>
    var pictures: seq<string>
    var currentIndex: nat
    var phase: Phase
    var timeLeft: nat
    var totalTime: nat
    var timer: Timer
    var recorder: Recorder
    var micOpen: bool
    var chunks: seq<seq<bv8>>

    /** The question index stays inside the part's questions (or at 0 when there are none).
        Mounting and a change of part establish it and OnStop keeps it. It is what the handlers
        maintain, not what any of them needs: new questions under the same part name can leave
        the index outside them, and then the next stop only ends the part. */
    predicate IndexInRange()
      reads this
    {
      currentIndex == 0 || currentIndex < |questions|
    }

    /** Mounting: first question, idle, no timer, no recorder. */
    constructor (partName: string, questions: seq<string>, pictures: seq<string>)
      ensures this.partName == partName && this.questions == questions && this.pictures == pictures
      ensures currentIndex == 0 && phase == Idle && timeLeft == 0 && totalTime == 0
      ensures timer == NoTimer && recorder == NoRecorder && !micOpen && chunks == []
      ensures IndexInRange()
    {
      this.partName, this.questions, this.pictures := partName, questions, pictures;
      currentIndex, phase, timeLeft, totalTime := 0, Idle, 0, 0;
      timer, recorder, micOpen, chunks := NoTimer, NoRecorder, false, [];
    }

    /** clearTimer followed by a new interval that runs out `seconds` from `nowMs`. */
    method StartTimer(seconds: nat, onDone: Callback, nowMs: int)
      modifies this`timer, this`totalTime, this`timeLeft
      ensures timer == Armed(nowMs + seconds * 1000, onDone)
      ensures totalTime == seconds && timeLeft == seconds
    {
      timer := NoTimer;
      timer := Armed(nowMs + seconds * 1000, onDone);
      totalTime := seconds;
      timeLeft := seconds;
    }

    /** One tick of the interval at `nowMs`. When the time is up the interval is cleared and the
        callback that is now due is returned; the caller runs it (StartRecording or StopIfRecording). */
    method Tick(nowMs: int) returns (due: Option<Callback>)
      modifies this`timer, this`timeLeft
      ensures old(timer).NoTimer? ==> due == None && timer == NoTimer && timeLeft == old(timeLeft)
      ensures old(timer).Armed? && SecondsLeft(old(timer).endMs, nowMs) <= 0 ==>
        due == Some(old(timer).onDone) && timer == NoTimer && timeLeft == 0
      ensures old(timer).Armed? && SecondsLeft(old(timer).endMs, nowMs) > 0 ==>
        due == None && timer == old(timer) && timeLeft == SecondsLeft(old(timer).endMs, nowMs)
    {
      due := None;
      if timer.Armed? {
        var diff := SecondsLeft(timer.endMs, nowMs);
        if diff <= 0 {
          due := Some(timer.onDone);
          timer := NoTimer;
          timeLeft := 0;
        } else {
          timeLeft := diff;
        }
      }
    }

    /** Start preparing for question `index`: ignored unless idle; otherwise the phase becomes
        prep and a countdown of the preparation time starts, after which recording begins. */
    method StartPreparation(index: nat, nowMs: int)
      modifies this`phase, this`timer, this`totalTime, this`timeLeft
      ensures old(phase) != Idle ==>
        phase == old(phase) && timer == old(timer) && totalTime == old(totalTime) && timeLeft == old(timeLeft)
      ensures old(phase) == Idle ==>
        && phase == Prep
        && totalTime == timeLeft == PrepSeconds(PrefixedNames, partName, index)
        && timer == Armed(nowMs + totalTime * 1000, BeginRecording(index))
    {
      if phase != Idle {
        return;
      }
      phase := Prep;
      var prepTime := 5;
      if partName == "Part 1.2" && index == 0 {
        prepTime := 10;
      }
      if partName == "Part 2" || partName == "Part 3" {
        prepTime := 60;
      }
      StartTimer(prepTime, BeginRecording(index), nowMs);
    }

    /** Start recording the answer to question `index`. `micGranted` is whether the browser gave
        a microphone stream and a recorder; without one the phase falls back to idle. */
    method StartRecording(index: nat, micGranted: bool, nowMs: int)
      modifies this`phase, this`chunks, this`micOpen, this`recorder, this`timer, this`totalTime, this`timeLeft
      ensures chunks == []
      ensures micGranted ==>
        && phase == Answer && micOpen && recorder == MediaRecorder(index, true)
        && totalTime == timeLeft == AnswerSeconds(PrefixedNames, partName, index)
        && timer == Armed(nowMs + totalTime * 1000, StopRecorder)
      ensures !micGranted ==>
        && phase == Idle && !micOpen && timer == NoTimer && recorder == old(recorder)
        && totalTime == old(totalTime) && timeLeft == old(timeLeft)
    {
      phase := Answer;
      chunks := [];
      if micGranted {
        micOpen := true;
        recorder := MediaRecorder(index, true);
        var answerTime := 30;
        if partName == "Part 1.2" && index == 0 {
          answerTime := 45;
        }
        if partName == "Part 2" || partName == "Part 3" {
          answerTime := 120;
        }
        StartTimer(answerTime, StopRecorder, nowMs);
      } else {
        phase := Idle;
        micOpen := false;
        timer := NoTimer;
      }
    }

    /** The recorder delivers a chunk of audio; empty chunks are dropped. */
    method OnDataAvailable(data: seq<bv8>)
      modifies this`chunks
      ensures chunks == if |data| > 0 then old(chunks) + [data] else old(chunks)
    {
      if |data| > 0 {
        chunks := chunks + [data];
      }
    }

    /** The answer timer's callback: stop the recorder if it is recording (its stop event follows). */
    method StopIfRecording()
      modifies this`recorder
      ensures old(recorder).MediaRecorder? && old(recorder).recording ==>
        recorder == old(recorder).(recording := false)
      ensures !(old(recorder).MediaRecorder? && old(recorder).recording) ==> recorder == old(recorder)
    {
      if recorder.MediaRecorder? && recorder.recording {
        recorder := recorder.(recording := false);
      }
    }

    /** The stop button: the timer is cleared; a recording recorder is stopped, and otherwise
        the phase goes straight back to idle. */
    method ManualStop()
      modifies this`timer, this`recorder, this`phase
      ensures timer == NoTimer
      ensures old(recorder).MediaRecorder? && old(recorder).recording ==>
        recorder == old(recorder).(recording := false) && phase == old(phase)
      ensures !(old(recorder).MediaRecorder? && old(recorder).recording) ==>
        recorder == old(recorder) && phase == Idle
    {
      timer := NoTimer;
      if recorder.MediaRecorder? && recorder.recording {
        recorder := recorder.(recording := false);
      } else {
        phase := Idle;
      }
    }

    /** The recorder's stop event for answer i: back to idle, microphone released, the audio
        handed on; then the next question of the part, unless this is "Part 2" or the last
        question, in which case the part is reported complete. */
    method OnStop() returns (answer: Submission, partComplete: bool)
      requires recorder.MediaRecorder?
      modifies this`phase, this`micOpen, this`currentIndex
      ensures phase == Idle && !micOpen
      ensures answer == Submission(Concat(chunks), partName, recorder.index)
      ensures partComplete <==> !(partName != "Part 2" && recorder.index + 1 < |questions|)
      ensures !partComplete ==> currentIndex == recorder.index + 1 && currentIndex < |questions|
      ensures partComplete ==> currentIndex == old(currentIndex)
      ensures old(IndexInRange()) ==> IndexInRange()
    {
      phase := Idle;
      micOpen := false;
      var index := recorder.index;
      answer := Submission(Concat(chunks), partName, index);
      var qLen := |questions|;
      if partName != "Part 2" && index < qLen - 1 {
        currentIndex := index + 1;
        partComplete := false;
      } else {
        partComplete := true;
      }
    }

    /** The effect on a new question index: when idle on a question after the first, its
        preparation starts by itself. */
    method OnIndexChange(nowMs: int)
      modifies this`phase, this`timer, this`totalTime, this`timeLeft
      ensures old(phase) == Idle && 0 < currentIndex < |questions| ==>
        && phase == Prep
        && totalTime == timeLeft == PrepSeconds(PrefixedNames, partName, currentIndex)
        && timer == Armed(nowMs + totalTime * 1000, BeginRecording(currentIndex))
      ensures !(old(phase) == Idle && 0 < currentIndex < |questions|) ==>
        phase == old(phase) && timer == old(timer) && totalTime == old(totalTime) && timeLeft == old(timeLeft)
    {
      if phase == Idle && currentIndex > 0 && currentIndex < |questions| {
        StartPreparation(currentIndex, nowMs);
      }
    }

    /** New props from the parent. When the part name changes the component starts the part
        afresh: first question, idle, zero times. The timer and the recorder are left alone. */
    method ReceiveProps(name: string, qs: seq<string>, pics: seq<string>)
      modifies this`partName, this`questions, this`pictures, this`currentIndex, this`phase, this`timeLeft, this`totalTime
      ensures partName == name && questions == qs && pictures == pics
      ensures name != old(partName) ==>
        currentIndex == 0 && phase == Idle && timeLeft == 0 && totalTime == 0 && IndexInRange()
      ensures name == old(partName) ==>
        && currentIndex == old(currentIndex) && phase == old(phase)
        && timeLeft == old(timeLeft) && totalTime == old(totalTime)
    {
      var changed := name != partName;
      partName, questions, pictures := name, qs, pics;
      if changed {
        currentIndex, phase, timeLeft, totalTime := 0, Idle, 0, 0;
      }
    }

    /** Unmounting: the timer is cleared, a recording recorder stopped, the microphone released. */
    method Unmount()
      modifies this`timer, this`recorder, this`micOpen
      ensures timer == NoTimer && !micOpen
      ensures old(recorder).MediaRecorder? ==> recorder == old(recorder).(recording := false)
      ensures old(recorder).NoRecorder? ==> recorder == NoRecorder
    {
      timer := NoTimer;
      StopIfRecording();
      micOpen := false;
    }
  }

  /** Answer both questions of "Part 1.1" (the second one's preparation starts by itself), then
      let the app switch to "Part 2" with two prompts: the index is back at 0, and the part ends
      after its first answer. */
  method PartChangeResetsAndPartTwoEndsEarly() returns (indexAfterSwitch: nat, submitted: Submission, done: bool)
    ensures indexAfterSwitch == 0
    ensures submitted.partName == "Part 2" && submitted.index == 0 && done
  {
    var c := new Component("Part 1.1", ["Q1", "Q2"], []);
    c.StartPreparation(0, 0);
    c.StartRecording(0, true, 5000);
    c.ManualStop();
    var answer, finished := c.OnStop();
    assert !finished && c.currentIndex == 1;
    c.OnIndexChange(40000);
    assert c.phase == Prep && c.timer == Armed(45000, BeginRecording(1));
    c.StartRecording(1, true, 45000);
    c.ManualStop();
    answer, finished := c.OnStop();
    assert finished;
    c.ReceiveProps("Part 2", ["Describe", "Follow-up"], []);
    indexAfterSwitch := c.currentIndex;
    c.StartPreparation(c.currentIndex, 80000);
    c.StartRecording(c.currentIndex, true, 140000);
    c.ManualStop();
    submitted, done := c.OnStop();
  }
}
