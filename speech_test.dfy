/** The recording component of frontend/src/SpeechTest.js, the one the app renders. Same
    phase machine as SpeechTestLogic.js, but part names are bare ("1.2", "2", "3"), every part
    moves on to its next question (no exception for part 2), the next preparation is scheduled
    by the stop handler itself, and nothing resets the question index when the part changes. */
module SpeechTest {
  import opened Wrappers
  import opened Recording

  const MissingQuestion := "Вопрос отсутствует"

  /** The heading text: the current question, or the placeholder when the index is outside the
      questions or the question is empty. */
  function QuestionText(questions: seq<string>, index: nat): (r: string)
    ensures index < |questions| && questions[index] != "" ==> r == questions[index]
    ensures !(index < |questions| && questions[index] != "") ==> r == MissingQuestion
    ensures r != ""
  {
    if index < |questions| && questions[index] != "" then questions[index] else MissingQuestion
  }

  /** The component's state: its props, its React state and the refs it updates in place. */
  class Component {
    var partName: string
    var questions: seq<string>
    var pictures: seq<string>
    var currentIndex: nat
    var phase: Phase
    var timeLeft: nat
    var totalTime: nat
    var timer: Timer
    var recorder: Recorder
    var micOpen: bool
    var chunks: seq<seq<bv8>>

    /** Mounting: first question, idle, no timer, no recorder. */
    constructor (partName: string, questions: seq<string>, pictures: seq<string>)
      ensures this.partName == partName && this.questions == questions && this.pictures == pictures
      ensures currentIndex == 0 && phase == Idle && timeLeft == 0 && totalTime == 0
      ensures timer == NoTimer && recorder == NoRecorder && !micOpen && chunks == []
    {
      this.partName, this.questions, this.pictures := partName, questions, pictures;
      currentIndex, phase, timeLeft, totalTime := 0, Idle, 0, 0;
      timer, recorder, micOpen, chunks := NoTimer, NoRecorder, false, [];
    }

    /** The question the component shows. */
    function ShownQuestion(): string
      reads this
    {
      QuestionText(questions, currentIndex)
    }

    /** clearTimer followed by a new interval that runs out `seconds` from `nowMs`. */
    method StartTimer(seconds: nat, onDone: Callback, nowMs: int)
      modifies this`timer, this`totalTime, this`timeLeft
      ensures timer == Armed(nowMs + seconds * 1000, onDone)
      ensures totalTime == seconds && timeLeft == seconds
    {
      timer := NoTimer;
      timer := Armed(nowMs + seconds * 1000, onDone);
      totalTime := seconds;
      timeLeft := seconds;
    }

    /** One tick of the interval at `nowMs`. When the time is up the interval is cleared and the
        callback that is now due is returned; the caller runs it (StartRecording or StopIfRecording). */
    method Tick(nowMs: int) returns (due: Option<Callback>)
      modifies this`timer, this`timeLeft
      ensures old(timer).NoTimer? ==> due == None && timer == NoTimer && timeLeft == old(timeLeft)
      ensures old(timer).Armed? && SecondsLeft(old(timer).endMs, nowMs) <= 0 ==>
        due == Some(old(timer).onDone) && timer == NoTimer && timeLeft == 0
      ensures old(timer).Armed? && SecondsLeft(old(timer).endMs, nowMs) > 0 ==>
        due == None && timer == old(timer) && timeLeft == SecondsLeft(old(timer).endMs, nowMs)
    {
      due := None;
      if timer.Armed? {
        var diff := SecondsLeft(timer.endMs, nowMs);
        if diff <= 0 {
          due := Some(timer.onDone);
          timer := NoTimer;
          timeLeft := 0;
        } else {
          timeLeft := diff;
        }
      }
    }

    /** Start preparing for question `index`: ignored unless idle; otherwise the phase becomes
        prep and a countdown of the preparation time starts, after which recording begins. */
    method StartPreparation(index: nat, nowMs: int)
      modifies this`phase, this`timer, this`totalTime, this`timeLeft
      ensures old(phase) != Idle ==>
        phase == old(phase) && timer == old(timer) && totalTime == old(totalTime) && timeLeft == old(timeLeft)
      ensures old(phase) == Idle ==>
        && phase == Prep
        && totalTime == timeLeft == PrepSeconds(BareNames, partName, index)
        && timer == Armed(nowMs + totalTime * 1000, BeginRecording(index))
    {
      if phase != Idle {
        return;
      }
      phase := Prep;
      var prepTime := 5;
      if partName == "1.2" && index == 0 {
        prepTime := 10;
      }
      if partName == "2" || partName == "3" {
        prepTime := 60;
      }
      StartTimer(prepTime, BeginRecording(index), nowMs);
    }

    /** Start recording the answer to question `index`. `micGranted` is whether the browser gave
        a microphone stream and a recorder; without one the phase falls back to idle. */
    method StartRecording(index: nat, micGranted: bool, nowMs: int)
      modifies this`phase, this`chunks, this`micOpen, this`recorder, this`timer, this`totalTime, this`timeLeft
      ensures chunks == []
      ensures micGranted ==>
        && phase == Answer && micOpen && recorder == MediaRecorder(index, true)
        && totalTime == timeLeft == AnswerSeconds(BareNames, partName, index)
        && timer == Armed(nowMs + totalTime * 1000, StopRecorder)
      ensures !micGranted ==>
        && phase == Idle && !micOpen && timer == NoTimer && recorder == old(recorder)
        && totalTime == old(totalTime) && timeLeft == old(timeLeft)
    {
      phase := Answer;
      chunks := [];
      if micGranted {
        micOpen := true;
        recorder := MediaRecorder(index, true);
        var answerTime := 30;
        if partName == "1.2" && index == 0 {
          answerTime := 45;
        }
        if partName == "2" || partName == "3" {
          answerTime := 120;
        }
        StartTimer(answerTime, StopRecorder, nowMs);
      } else {
        phase := Idle;
        micOpen := false;
        timer := NoTimer;
      }
    }

    /** The recorder delivers a chunk of audio; empty chunks are dropped. */
    method OnDataAvailable(data: seq<bv8>)
      modifies this`chunks
      ensures chunks == if |data| > 0 then old(chunks) + [data] else old(chunks)
    {
      if |data| > 0 {
        chunks := chunks + [data];
      }
    }

    /** The answer timer's callback: stop the recorder if it is recording (its stop event follows). */
    method StopIfRecording()
      modifies this`recorder
      ensures old(recorder).MediaRecorder? && old(recorder).recording ==>
        recorder == old(recorder).(recording := false)
      ensures !(old(recorder).MediaRecorder? && old(recorder).recording) ==> recorder == old(recorder)
    {
      if recorder.MediaRecorder? && recorder.recording {
        recorder := recorder.(recording := false);
      }
    }

    /** The stop button: the timer is cleared; a recording recorder is stopped, and otherwise
        the phase goes straight back to idle. */
    method ManualStop()
      modifies this`timer, this`recorder, this`phase
      ensures timer == NoTimer
      ensures old(recorder).MediaRecorder? && old(recorder).recording ==>
        recorder == old(recorder).(recording := false) && phase == old(phase)
      ensures !(old(recorder).MediaRecorder? && old(recorder).recording) ==>
        recorder == old(recorder) && phase == Idle
    {
      timer := NoTimer;
      if recorder.MediaRecorder? && recorder.recording {
        recorder := recorder.(recording := false);
      } else {
        phase := Idle;
      }
    }

    /** The recorder's stop event for answer i: back to idle, microphone released, the audio
        handed on; then, if a question follows, the index moves to it and its preparation is
        scheduled (`nextPrep`); after the last question the part is reported complete. */
    method OnStop() returns (answer: Submission, nextPrep: Option<nat>, partComplete: bool)
      requires recorder.MediaRecorder?
      modifies this`phase, this`micOpen, this`currentIndex
      ensures phase == Idle && !micOpen
      ensures answer == Submission(Concat(chunks), partName, recorder.index)
      ensures partComplete <==> recorder.index + 1 >= |questions|
      ensures partComplete <==> nextPrep.None?
      ensures !partComplete ==>
        currentIndex == recorder.index + 1 && currentIndex < |questions| && nextPrep == Some(currentIndex)
      ensures partComplete ==> currentIndex == old(currentIndex)
    {
      phase := Idle;
      micOpen := false;
      var index := recorder.index;
      answer := Submission(Concat(chunks), partName, index);
      if index < |questions| - 1 {
        var next := index + 1;
        currentIndex := next;
        nextPrep, partComplete := Some(next), false;
      } else {
        nextPrep, partComplete := None, true;
      }
    }

    /** New props from the parent. Only the props change: the index, the phase and the times
        are kept, even when the part is a different one. */
    method ReceiveProps(name: string, qs: seq<string>, pics: seq<string>)
      modifies this`partName, this`questions, this`pictures
      ensures partName == name && questions == qs && pictures == pics
    {
      partName, questions, pictures := name, qs, pics;
    }

    /** Unmounting: the timer is cleared, a recording recorder stopped, the microphone released. */
    method Unmount()
      modifies this`timer, this`recorder, this`micOpen
      ensures timer == NoTimer && !micOpen
      ensures old(recorder).MediaRecorder? ==> recorder == old(recorder).(recording := false)
      ensures old(recorder).NoRecorder? ==> recorder == NoRecorder
    {
      timer := NoTimer;
      StopIfRecording();
      micOpen := false;
    }
  }

  /** Answer both questions of part 1.1, then let the app switch to part 1.2, which has one
      question. The index is not reset, so the heading shows the placeholder, and pressing
      Start records the new part's only answer under index 1 and ends the part at once. */
  method IndexCarriesIntoNextPart() returns (shown: string, submitted: Submission, done: bool)
    ensures shown == MissingQuestion
    ensures submitted.partName == "1.2" && submitted.index == 1 && done
  {
    var c := new Component("1.1", ["Q1", "Q2"], []);
    c.StartPreparation(0, 0);
    c.StartRecording(0, true, 5000);
    c.ManualStop();
    var answer, next, finished := c.OnStop();
    c.StartPreparation(next.value, 40000);
    c.StartRecording(next.value, true, 45000);
    c.ManualStop();
    answer, next, finished := c.OnStop();
    assert finished && c.currentIndex == 1;
    c.ReceiveProps("1.2", ["Q3"], []);
    shown := c.ShownQuestion();
    c.StartPreparation(c.currentIndex, 80000);
    c.StartRecording(c.currentIndex, true, 85000);
    c.ManualStop();
    submitted, next, done := c.OnStop();
  }
}
