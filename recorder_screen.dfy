/** RecorderView: the status text, the two buttons and the duration label of the recording
    screen, and what a user of that screen can make the view-model do. */
module RecorderScreen {
  import opened Wrappers
  import opened RecorderModel
  import opened Seqs

  /** The view-model call the main button makes. */
  datatype MainAction = CallStartRecording | CallPauseRecording

  /** The main button pauses while recording and starts in every other state, `Paused`
      included; it never calls `resumeRecording()`. */
  function MainButtonAction(st: RecordingState): (a: MainAction)
    ensures a == CallPauseRecording <==> st == Recording
  {
    if st == Recording then CallPauseRecording else CallStartRecording
  }

  /** The status line above the duration. */
  function StatusText(st: RecordingState): (r: string)
    ensures r == "Recording..." <==> st == Recording
    ensures r != "Recording..." ==> r == "Tap to Record"
  {
    if st == Recording then "Recording..." else "Tap to Record"
  }

  /** The system image on the main button. */
  function MainButtonIcon(st: RecordingState): (r: string)
    ensures r == "pause.circle.fill" <==> st == Recording
    ensures r != "pause.circle.fill" ==> r == "circle.fill"
  {
    if st == Recording then "pause.circle.fill" else "circle.fill"
  }

  /** The label, the icon and the action of the main button agree: all three say "pause"
      exactly when the state is `Recording`. */
  lemma ButtonMatchesLabels(st: RecordingState)
    ensures StatusText(st) == "Recording..." <==> st == Recording
    ensures MainButtonIcon(st) == "pause.circle.fill" <==> st == Recording
    ensures MainButtonAction(st) == CallPauseRecording <==> StatusText(st) == "Recording..."
  {
  }

  /** The decimal digits of `n`, without leading zeros. */
  function Digits(n: nat): (r: string)
    ensures 1 <= |r|
    ensures forall i :: 0 <= i < |r| ==> '0' <= r[i] <= '9'
    ensures |r| == 1 <==> n < 10
    ensures n < 100 ==> |r| <= 2
    ensures 100 <= n ==> 3 <= |r|
    decreases n
  {
    if n < 10 then [DigitChar(n)] else Digits(n / 10) + [DigitChar(n % 10)]
  }

  function DigitChar(d: nat): char
    requires d < 10
  {
    ('0' as int + d) as char
  }

  /** `%02d`: at least two digits, padded on the left with '0'. */
  function ZeroPad2(n: nat): (r: string)
    ensures 2 <= |r| && (|r| == 2 <==> n < 100)
    ensures forall i :: 0 <= i < |r| ==> '0' <= r[i] <= '9'
  {
    if n < 10 then "0" + Digits(n) else Digits(n)
  }

  /** `formattedDuration()`: `String(format: "%02d:%02d", d / 60, d % 60)` with
      `d = Int(recordingDuration)`. The minutes are not capped. */
  function FormattedDuration(d: nat): (r: string)
    ensures 5 <= |r| && r[|r| - 3] == ':'
    ensures |r| == 5 <==> d < 6000
  {
    ZeroPad2(d / 60) + ":" + ZeroPad2(d % 60)
  }

  /** The number a string of decimal digits denotes (leading zeros allowed); None when the
      string is empty or holds anything else. */
  function ParseNat(s: string): Option<nat>
    decreases |s|
  {
    if s == [] then None
    else
      var last := s[|s| - 1];
      if !('0' <= last <= '9') then None
      else if |s| == 1 then Some(last as int - '0' as int)
      else match ParseNat(s[..|s| - 1])
        case None => None
        case Some(v) => Some(v * 10 + (last as int - '0' as int))
  }

  /** Reads a label "M:SS" back as seconds, or None when it is not one. */
  function ParseDuration(s: string): Option<nat> {
    if |s| < 4 || s[|s| - 3] != ':' then None
    else match (ParseNat(s[..|s| - 3]), ParseNat(s[|s| - 2..]))
      case (Some(m), Some(sec)) => if sec < 60 then Some(m * 60 + sec) else None
      case _ => None
  }

  lemma {:induction false} ParseDigits(n: nat)
    ensures ParseNat(Digits(n)) == Some(n)
    decreases n
  {
    if n >= 10 {
      ParseDigits(n / 10);
      var s := Digits(n);
      assert s[..|s| - 1] == Digits(n / 10);
    }
  }

  lemma {:induction false} ParseLeadingZero(t: string)
    requires ParseNat(t).Some?
    ensures ParseNat("0" + t) == ParseNat(t)
    decreases |t|
  {
    var s := "0" + t;
    assert s[|s| - 1] == t[|t| - 1];
    if |t| == 1 {
      assert s[..|s| - 1] == "0";
    } else {
      assert s[..|s| - 1] == "0" + t[..|t| - 1];
      ParseLeadingZero(t[..|t| - 1]);
    }
  }

  lemma ParseZeroPad2(n: nat)
    ensures ParseNat(ZeroPad2(n)) == Some(n)
  {
    ParseDigits(n);
    if n < 10 {
      ParseLeadingZero(Digits(n));
    }
  }

  /** The duration label loses nothing: the whole seconds can be read back from it, with the
      seconds field in 0..59 and `minutes * 60 + seconds` equal to the duration. */
  lemma FormattedDurationRoundTrip(d: nat)
    ensures ParseDuration(FormattedDuration(d)) == Some(d)
  {
    var m, sec := ZeroPad2(d / 60), ZeroPad2(d % 60);
    var s := FormattedDuration(d);
    assert s[..|s| - 3] == m;
    assert s[|s| - 2..] == sec;
    ParseZeroPad2(d / 60);
    ParseZeroPad2(d % 60);
  }

  /** Pressing the main button: while recording it pauses; in any other state, `Paused`
      included, it starts a new recording, or changes nothing when setup fails. */
  function TapMain(s: Snapshot, setupFails: bool): (r: Snapshot)
    requires WellFormed(s)
    ensures WellFormed(r)
    ensures s.state == Recording ==> r.state == Paused && r.files == s.files
    ensures s.state != Recording && setupFails ==> r == s
    ensures s.state != Recording && !setupFails ==>
              r.state == Recording && r.recorder.Some? && r.recorder.value.status == Capturing
              && (s.recorder.Some? ==> r.recorder.value.id != s.recorder.value.id)
  {
    match MainButtonAction(s.state)
    case CallPauseRecording => Pause(s)
    case CallStartRecording => Start(s, setupFails)
  }

  /** What can happen on the recording screen: either button is pressed (the environment
      deciding whether setup or the move fails), or a timer fires. */
  datatype UiEvent = MainTapped(setupFails: bool) | StopTapped(moveFails: bool) | TimerFired(t: TimerId)

  /** One event; a timer that was invalidated never fires again. */
  function Step(s: Snapshot, e: UiEvent): (r: Snapshot)
    requires WellFormed(s)
    ensures WellFormed(r)
    ensures r.duration >= s.duration
  {
    match e
    case MainTapped(f) => TapMain(s, f)
    case StopTapped(f) => Stop(s, f)
    case TimerFired(t) => if t in s.live then Elapse(s, t) else s
  }

  /** A sequence of events, in order. */
  function Run(s: Snapshot, events: seq<UiEvent>): (r: Snapshot)
    requires WellFormed(s)
    ensures WellFormed(r)
    decreases |events|
  {
    if events == [] then s else Run(Step(s, events[0]), events[1..])
  }

  lemma StepKeepsCoherent(s: Snapshot, e: UiEvent)
    requires Coherent(s)
    ensures Coherent(Step(s, e))
  {
  }

  /** Whatever the user does on this screen, the view-model stays coherent: while recording
      exactly the current timer is live, and no timer is live while paused or idle. The timer
      leak `startTimer` allows is out of the screen's reach. */
  lemma {:induction false} RunKeepsCoherent(s: Snapshot, events: seq<UiEvent>)
    requires Coherent(s)
    ensures Coherent(Run(s, events))
    decreases |events|
  {
    if events != [] {
      StepKeepsCoherent(s, events[0]);
      RunKeepsCoherent(Step(s, events[0]), events[1..]);
    }
  }

  /** The duration never decreases. */
  lemma {:induction false} RunNeverShortensDuration(s: Snapshot, events: seq<UiEvent>)
    requires WellFormed(s)
    ensures Run(s, events).duration >= s.duration
    decreases |events|
  {
    if events != [] {
      RunNeverShortensDuration(Step(s, events[0]), events[1..]);
    }
  }

  /** From a coherent state that is not recording, the passing of time changes nothing: the
      duration is frozen while paused (and while idle). */
  lemma {:induction false} FrozenUnlessRecording(s: Snapshot, events: seq<UiEvent>)
    requires Coherent(s) && s.state != Recording
    requires forall i :: 0 <= i < |events| ==> events[i].TimerFired?
    ensures Run(s, events) == s
    decreases |events|
  {
    if events != [] {
      FrozenUnlessRecording(s, events[1..]);
    }
  }

  /** `k` firings of the current timer. */
  function Firings(t: TimerId, k: nat): (r: seq<UiEvent>)
    ensures |r| == k && forall i :: 0 <= i < k ==> r[i] == TimerFired(t)
  {
    seq(k, _ => TimerFired(t))
  }

  /** While recording, every second of the current timer adds one to the duration, which
      carries on from whatever value it had. */
  lemma {:induction false} RecordingCountsSeconds(s: Snapshot, k: nat)
    requires Coherent(s) && s.state == Recording
    ensures Run(s, Firings(s.timer.value, k)) == s.(duration := s.duration + k)
    decreases k
  {
    if k > 0 {
      var evs := Firings(s.timer.value, k);
      var s' := Elapse(s, s.timer.value);
      assert evs[1..] == Firings(s'.timer.value, k - 1);
      RecordingCountsSeconds(s', k - 1);
    }
  }

  /** Pausing and then resuming through the view-model (the screen itself never resumes):
      the duration is frozen at its value while paused, and after `resumeRecording()` the new
      timer carries it on from there, one second per firing. */
  lemma {:induction false} PauseResumeContinues(s: Snapshot, idle: nat, k: nat)
    requires Coherent(s) && s.state == Recording
    ensures var p := Pause(s);
      && Coherent(p) && p.state == Paused
      && Run(p, Firings(s.timer.value, idle)) == p
      && var q := Resume(p);
      && Coherent(q) && q.state == Recording && q.duration == s.duration
      && Run(q, Firings(q.timer.value, k)).duration == s.duration + k
  {
    var p := Pause(s);
    FrozenUnlessRecording(p, Firings(s.timer.value, idle));
    var q := Resume(p);
    RecordingCountsSeconds(q, k);
  }

  /** Record for two seconds, pause (the paused timer's firing is lost), tap the main button
      again for one more second and stop: the screen is idle, the duration label shows three
      seconds, and the directory holds just the saved file. That file holds only the last
      second: the tap from `Paused` starts a new recorder that writes `recording.m4a` afresh
      (`StartWhilePausedReplacesRecorder`). */
  lemma RecordPauseRecordStop()
    ensures var s := Run(Initial([]), [
        MainTapped(false), TimerFired(0), TimerFired(0),
        MainTapped(false), TimerFired(0),
        MainTapped(false), TimerFired(1),
        StopTapped(false)]);
      s.state == Idle && s.duration == 3 && s.files == [SavedFile] && s.live == {}
  {
    var s0 := Initial([]);
    var s1 := Start(s0, false);
    assert s1.files == [RecordingFile];
    var s3 := Elapse(Elapse(s1, 0), 0);
    var s4 := Pause(s3);
    var s6 := Start(s4, false);
    assert s6.files == [RecordingFile];
    var s7 := Elapse(s6, 1);
    var s8 := Stop(s7, false);
    assert Without([RecordingFile], SavedFile) == [RecordingFile] by {
      WithoutAbsent([RecordingFile], SavedFile);
    }
    assert s8.files == [SavedFile];
  }
}
