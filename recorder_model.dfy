/** RecorderViewModel: the recording state machine. An AVAudioRecorder records into
    `<documents>/recording.m4a`, a repeating one-second timer counts the duration, and stopping
    moves the file to `<documents>/savedRecording.m4a`.

    The class `RecorderViewModel` keeps the source's fields and is proved against `Snapshot`
    and the transition functions below; the lemmas state what those transitions promise. */
module RecorderModel {
  import opened Wrappers
  import opened Seqs
  import opened Paths
  import opened Files

  /** `RecorderViewModel.RecordingState`. */
  datatype RecordingState = Idle | Recording | Paused

  /** What an AVAudioRecorder is doing: since `record()`, since `pause()`, since `stop()`. */
  datatype RecorderStatus = Capturing | Suspended | Stopped

  /** One AVAudioRecorder instance: `id` tells instances apart, `url` is the file it writes. */
  datatype Recorder = Recorder(id: nat, url: Url, status: RecorderStatus)

  /** A scheduled Timer, told apart from the others by its number. */
  type TimerId = nat

  /** The file every recording is written to (RecorderViewModel.swift, line 45). */
  const RecordingFile: Url := Url(Documents, "recording.m4a")

  /** Where a stopped recording is moved (RecorderViewModel.swift, line 96). */
  const SavedFile: Url := Url(Documents, "savedRecording.m4a")

  /** The view-model's state together with what it depends on outside itself: the timers the
      run loop still fires (`live`) and the documents directory (`files`). The two counters
      hand out fresh identities to new timers and recorders. */
  datatype Snapshot = Snapshot(
    state: RecordingState,
    duration: nat,
    recorder: Option<Recorder>,
    timer: Option<TimerId>,
    live: set<TimerId>,
    nextTimer: TimerId,
    nextRecorder: nat,
    files: seq<Url>)

  /** Identities in use were handed out already, the only recorder ever made writes
      `RecordingFile`, and the directory lists each file once. */
  predicate WellFormed(s: Snapshot) {
    && (forall t :: t in s.live ==> t < s.nextTimer)
    && (s.timer.Some? ==> s.timer.value < s.nextTimer)
    && (s.recorder.Some? ==> s.recorder.value.id < s.nextRecorder)
    && (s.recorder.Some? ==> s.recorder.value.url == RecordingFile)
    && Distinct(s.files)
  }

  /** The state the view-model is created in, over a documents directory listing `files`. */
  function Initial(files: seq<Url>): (s: Snapshot)
    requires Distinct(files)
    ensures WellFormed(s)
    ensures s.state == Idle && s.duration == 0
    ensures s.recorder.None? && s.timer.None? && s.live == {}
  {
    Snapshot(Idle, 0, None, None, {}, 0, 0, files)
  }

  /** Optional chaining on the recorder (`audioRecorder?.pause()` and the like). */
  function WithStatus(r: Option<Recorder>, st: RecorderStatus): Option<Recorder> {
    match r
    case None => None
    case Some(rec) => Some(rec.(status := st))
  }

  /** `startTimer()`: a new repeating timer is scheduled and the `timer` reference is pointed
      at it; the timer it pointed at before is not invalidated and keeps firing. */
  function ScheduleTimer(s: Snapshot): (r: Snapshot)
    requires WellFormed(s)
    ensures WellFormed(r)
    ensures r.timer.Some? && r.timer.value !in s.live && r.live == s.live + {r.timer.value}
    ensures r.state == s.state && r.duration == s.duration && r.recorder == s.recorder
    ensures r.files == s.files
  {
    s.(timer := Some(s.nextTimer), live := s.live + {s.nextTimer}, nextTimer := s.nextTimer + 1)
  }

  /** `timer?.invalidate()`: the timer the reference points at stops firing; the reference
      itself is kept. */
  function InvalidateTimer(s: Snapshot): (r: Snapshot)
    requires WellFormed(s)
    ensures WellFormed(r)
    ensures s.timer.Some? ==> s.timer.value !in r.live
    ensures forall t :: t in r.live <==> t in s.live && Some(t) != s.timer
    ensures r.state == s.state && r.duration == s.duration && r.recorder == s.recorder
    ensures r.timer == s.timer && r.files == s.files
  {
    match s.timer
    case None => s
    case Some(t) => s.(live := s.live - {t})
  }

  /** `startRecording()`. When the audio session or the recorder cannot be set up, nothing
      changes. Otherwise, from any state, a new recorder records into `RecordingFile`, the state
      is `Recording`, exactly one new timer is live, and the duration is not reset. */
  function Start(s: Snapshot, setupFails: bool): (r: Snapshot)
    requires WellFormed(s)
    ensures WellFormed(r)
    ensures setupFails ==> r == s
    ensures !setupFails ==> r.state == Recording && r.duration == s.duration
    ensures !setupFails ==> r.recorder.Some? && r.recorder.value.url == RecordingFile
    ensures !setupFails ==> r.recorder.value.status == Capturing
    ensures !setupFails ==> s.recorder.Some? ==> r.recorder.value.id != s.recorder.value.id
    ensures !setupFails ==> RecordingFile in r.files && r.files == Created(s.files, RecordingFile)
    ensures !setupFails ==> r.timer.Some? && r.timer.value !in s.live
    ensures !setupFails ==> r.live == s.live + {r.timer.value}
  {
    if setupFails then s
    else
      ScheduleTimer(s.(
        recorder := Some(Recorder(s.nextRecorder, RecordingFile, Capturing)),
        nextRecorder := s.nextRecorder + 1,
        files := Created(s.files, RecordingFile),
        state := Recording))
  }

  /** `audioRecorder?.pause()`: a recorder that records is suspended; one that is already
      suspended, or stopped and its file closed, has nothing to pause and stays as it is. */
  function Suspend(r: Option<Recorder>): Option<Recorder> {
    match r
    case None => None
    case Some(rec) => if rec.status == Capturing then Some(rec.(status := Suspended)) else r
  }

  /** `pauseRecording()`: from any state, the recorder (if any) pauses, the state is `Paused`
      and the timer the reference points at stops; every other timer keeps firing. */
  function Pause(s: Snapshot): (r: Snapshot)
    requires WellFormed(s)
    ensures WellFormed(r)
    ensures r.state == Paused && r.duration == s.duration
    ensures r.recorder.Some? <==> s.recorder.Some?
    ensures s.recorder.Some? ==>
              r.recorder.value == s.recorder.value.(status := if s.recorder.value.status == Stopped then Stopped else Suspended)
    ensures forall t :: t in r.live <==> t in s.live && Some(t) != s.timer
    ensures r.timer == s.timer && r.files == s.files
  {
    InvalidateTimer(s.(recorder := Suspend(s.recorder), state := Paused))
  }

  /** `resumeRecording()`: from any state, the recorder (if any) records again, the state is
      `Recording` and a new timer is started beside whatever timers are live. A recorder that
      was stopped prepares its file again when it records, so after a stop has moved
      `recording.m4a` away, resuming writes a new one. */
  function Resume(s: Snapshot): (r: Snapshot)
    requires WellFormed(s)
    ensures WellFormed(r)
    ensures r.state == Recording && r.duration == s.duration
    ensures r.recorder == WithStatus(s.recorder, Capturing)
    ensures r.timer.Some? && r.timer.value !in s.live && r.live == s.live + {r.timer.value}
    ensures s.recorder.Some? && s.recorder.value.status == Stopped ==>
              r.files == Created(s.files, s.recorder.value.url)
    ensures !(s.recorder.Some? && s.recorder.value.status == Stopped) ==> r.files == s.files
  {
    var files := if s.recorder.Some? && s.recorder.value.status == Stopped
      then Created(s.files, s.recorder.value.url) else s.files;
    ScheduleTimer(s.(recorder := WithStatus(s.recorder, Capturing), state := Recording, files := files))
  }

  /** `saveRecording()`: without a recorder, nothing happens. Otherwise the recorder stops and
      its file is moved to `SavedFile`; a failed move changes nothing more (it is only logged),
      and the recorder is kept either way. */
  function Save(s: Snapshot, moveFails: bool): (r: Snapshot)
    requires WellFormed(s)
    ensures WellFormed(r)
    ensures s.recorder.None? ==> r == s
    ensures r.state == s.state && r.duration == s.duration
    ensures r.timer == s.timer && r.live == s.live
    ensures r.recorder == WithStatus(s.recorder, Stopped)
    ensures s.recorder.Some? && CanMove(s.files, s.recorder.value.url, moveFails) ==>
              SavedFile in r.files && r.files == Moved(s.files, s.recorder.value.url, SavedFile)
    ensures !(s.recorder.Some? && CanMove(s.files, s.recorder.value.url, moveFails)) ==>
              r.files == s.files
  {
    match s.recorder
    case None => s
    case Some(rec) =>
      var stopped := s.(recorder := Some(rec.(status := Stopped)));
      if CanMove(s.files, rec.url, moveFails) then stopped.(files := Moved(s.files, rec.url, SavedFile))
      else stopped
  }

  /** `stopRecording()`: from any state, the recorder (if any) stops, the state is `Idle`, the
      timer the reference points at stops, and the recording is saved. */
  function Stop(s: Snapshot, moveFails: bool): (r: Snapshot)
    requires WellFormed(s)
    ensures WellFormed(r)
    ensures r.state == Idle && r.duration == s.duration
    ensures r.recorder == WithStatus(s.recorder, Stopped)
    ensures forall t :: t in r.live <==> t in s.live && Some(t) != s.timer
    ensures r.timer == s.timer
    ensures s.recorder.Some? && CanMove(s.files, s.recorder.value.url, moveFails) ==>
              SavedFile in r.files && r.files == Moved(s.files, s.recorder.value.url, SavedFile)
    ensures !(s.recorder.Some? && CanMove(s.files, s.recorder.value.url, moveFails)) ==>
              r.files == s.files
  {
    Save(InvalidateTimer(s.(recorder := WithStatus(s.recorder, Stopped), state := Idle)), moveFails)
  }

  /** One firing of the live timer `t`: the duration grows by one second, nothing else changes. */
  function Elapse(s: Snapshot, t: TimerId): (r: Snapshot)
    requires WellFormed(s) && t in s.live
    ensures WellFormed(r)
    ensures r.duration == s.duration + 1
    ensures r == s.(duration := r.duration)
  {
    s.(duration := s.duration + 1)
  }

  /** The state the recorder screen can keep the view-model in: exactly the current timer is
      live while recording and none otherwise, and the recorder does what the state says. */
  predicate Coherent(s: Snapshot) {
    && WellFormed(s)
    && (s.state == Recording ==>
          s.timer.Some? && s.live == {s.timer.value}
          && s.recorder.Some? && s.recorder.value.status == Capturing)
    && (s.state == Paused ==>
          s.live == {} && s.recorder.Some? && s.recorder.value.status == Suspended)
    && (s.state == Idle ==>
          s.live == {} && (s.recorder.None? || s.recorder.value.status == Stopped))
  }

  /** Ticks are the only writer of the duration: every other operation leaves it as it was. */
  lemma OnlyTicksChangeDuration(s: Snapshot, fails: bool)
    requires WellFormed(s)
    ensures Start(s, fails).duration == s.duration
    ensures Pause(s).duration == s.duration && Resume(s).duration == s.duration
    ensures Stop(s, fails).duration == s.duration && Save(s, fails).duration == s.duration
    ensures forall t :: t in s.live ==> Elapse(s, t).duration > s.duration
  {
  }

  /** Because `startTimer` overwrites the reference, resuming while already recording leaves
      the earlier timer out of reach: pause no longer stops it, and it keeps adding seconds to
      the duration while the recorder is paused. */
  lemma ResumeWhileRecordingLeaksTimer(s: Snapshot)
    requires Coherent(s) && s.state == Recording
    ensures var p := Pause(Resume(s));
      && p.state == Paused
      && s.timer.value in p.live
      && Elapse(p, s.timer.value).duration == s.duration + 1
      && !Coherent(p)
  {
    var t := s.timer.value;
    var q := Resume(s);
    assert t != q.timer.value;
    assert t in Pause(q).live;
  }

  /** The same leak through a second `startRecording()` while recording. */
  lemma RestartWhileRecordingLeaksTimer(s: Snapshot)
    requires Coherent(s) && s.state == Recording
    ensures var p := Stop(Start(s, false), true);
      && p.state == Idle
      && s.timer.value in p.live
      && !Coherent(p)
  {
    var t := s.timer.value;
    var q := Start(s, false);
    assert t != q.timer.value;
  }

  /** `startRecording()` from `Paused` does not resume: it creates a new recorder over the same
      file, so what was recorded before the pause is recorded over; `resumeRecording()` would
      have kept the paused recorder. */
  lemma StartWhilePausedReplacesRecorder(s: Snapshot)
    requires Coherent(s) && s.state == Paused
    ensures Start(s, false).recorder.value.id != s.recorder.value.id
    ensures Start(s, false).recorder.value.url == s.recorder.value.url
    ensures Resume(s).recorder.value.id == s.recorder.value.id
  {
  }

  /** Resuming after a stop records into `recording.m4a` again: the saved file stays, and the
      file the stop moved away is back, with the recorder capturing into it. */
  lemma ResumeAfterStopRecreatesFile(s: Snapshot)
    requires WellFormed(s) && s.recorder.Some? && RecordingFile in s.files
    ensures var p := Stop(s, false);
      && RecordingFile !in p.files && SavedFile in p.files
      && var q := Resume(p);
      && q.state == Recording && q.recorder.value.status == Capturing
      && q.recorder.value.url == RecordingFile
      && RecordingFile in q.files && SavedFile in q.files
  {
  }

  /** Pausing after a stop finds nothing to pause: the recorder stays stopped, so a resume
      that follows still writes `recording.m4a` anew. */
  lemma PauseAfterStopKeepsRecorderStopped(s: Snapshot)
    requires WellFormed(s) && s.recorder.Some? && RecordingFile in s.files
    ensures var p := Pause(Stop(s, false));
      && p.state == Paused && p.recorder.value.status == Stopped && RecordingFile !in p.files
      && var q := Resume(p);
      && q.recorder.value.status == Capturing
      && RecordingFile in q.files && SavedFile in q.files
  {
  }

  /** `RecorderViewModel` itself, over `FileManager.default`. */
  class RecorderViewModel {
    var recordingState: RecordingState
    /** Whole seconds; the source keeps a `TimeInterval` that only ever grows by 1.0. */
    var recordingDuration: nat
    var audioRecorder: Option<Recorder>
    var timer: Option<TimerId>
    /** The timers the run loop still fires. */
    ghost var liveTimers: set<TimerId>
    var nextTimerId: TimerId
    var nextRecorderId: nat
    const fileManager: FileStore

    ghost function Snap(): Snapshot
      reads this, fileManager
    {
      Snapshot(recordingState, recordingDuration, audioRecorder, timer, liveTimers,
               nextTimerId, nextRecorderId, fileManager.entries)
    }

    ghost predicate Valid()
      reads this, fileManager
    {
      WellFormed(Snap())
    }

    constructor (fm: FileStore)
      requires fm.Valid()
      ensures Valid() && fileManager == fm
      ensures Snap() == Initial(fm.entries)
    {
      recordingState, recordingDuration := Idle, 0;
      audioRecorder, timer := None, None;
      liveTimers := {};
      nextTimerId, nextRecorderId := 0, 0;
      fileManager := fm;
    }

    method StartRecording(setupFails: bool)
      requires Valid()
      modifies this, fileManager
      ensures Valid()
      ensures Snap() == Start(old(Snap()), setupFails)
    {
      if setupFails {
        // setCategory, setActive or the AVAudioRecorder initializer threw: only logged
        return;
      }
      audioRecorder := Some(Recorder(nextRecorderId, RecordingFile, Capturing));
      nextRecorderId := nextRecorderId + 1;
      fileManager.CreateFile(RecordingFile);
      recordingState := Recording;
      StartTimer();
    }

    method PauseRecording()
      requires Valid()
      modifies this
      ensures Valid()
      ensures Snap() == Pause(old(Snap()))
    {
      audioRecorder := Suspend(audioRecorder);
      recordingState := Paused;
      if timer.Some? {
        liveTimers := liveTimers - {timer.value};
      }
    }

    method ResumeRecording()
      requires Valid()
      modifies this, fileManager
      ensures Valid()
      ensures Snap() == Resume(old(Snap()))
    {
      if audioRecorder.Some? && audioRecorder.value.status == Stopped {
        fileManager.CreateFile(audioRecorder.value.url);
      }
      audioRecorder := WithStatus(audioRecorder, Capturing);
      recordingState := Recording;
      StartTimer();
    }

    method StopRecording(moveFails: bool)
      requires Valid()
      modifies this, fileManager
      ensures Valid()
      ensures Snap() == Stop(old(Snap()), moveFails)
    {
      audioRecorder := WithStatus(audioRecorder, Stopped);
      recordingState := Idle;
      if timer.Some? {
        liveTimers := liveTimers - {timer.value};
      }
      SaveRecording(moveFails);
    }

    method StartTimer()
      requires Valid()
      modifies this
      ensures Valid()
      ensures Snap() == ScheduleTimer(old(Snap()))
    {
      timer := Some(nextTimerId);
      liveTimers := liveTimers + {nextTimerId};
      nextTimerId := nextTimerId + 1;
    }

    /** The body of the timer's closure, run by the run loop each time the live timer `t` fires. */
    method Tick(t: TimerId)
      requires Valid() && t in liveTimers
      modifies this
      ensures Valid()
      ensures Snap() == Elapse(old(Snap()), t)
    {
      recordingDuration := recordingDuration + 1;
    }

    method SaveRecording(moveFails: bool)
      requires Valid()
      modifies this, fileManager
      ensures Valid()
      ensures Snap() == Save(old(Snap()), moveFails)
    {
      if audioRecorder.None? {
        return;
      }
      var rec := audioRecorder.value;
      audioRecorder := Some(rec.(status := Stopped));
      var moved := fileManager.MoveItem(rec.url, SavedFile, moveFails);
      // a failed move is only logged
    }

    /** `audioRecorderEncodeErrorDidOccur`: only logs. */
    method AudioRecorderEncodeErrorDidOccur()
      ensures Snap() == old(Snap())
    {
    }

    /** `audioRecorderDidFinishRecording(_:successfully:)`: does nothing with either flag. */
    method AudioRecorderDidFinishRecording(successfully: bool)
      ensures Snap() == old(Snap())
    {
    }
  }
}
