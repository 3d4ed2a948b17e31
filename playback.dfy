/** PlayerViewModel: a flag saying whether the recording at `audioURL` is playing, kept beside
    the player object it last created. Creating a player can fail; the finish callback comes
    from the player itself. */
module Playback {
  import opened Wrappers
  import opened Paths

  /** An `AVAudioPlayer` instance, reduced to the file it plays and whether it is playing;
      `id` tells instances apart (a new instance plays from the start of the file). */
  datatype AudioPlayer = AudioPlayer(id: nat, url: Url, playing: bool)

  /** The view-model's fields, and how many players it has created so far. */
  datatype PlayerState = PlayerState(
    isPlaying: bool,
    audioURL: Option<Url>,
    audioPlayer: Option<AudioPlayer>,
    created: nat)

  /** The published flag tells the truth about the player, the player plays `audioURL`, and
      it is one of the players created so far. */
  predicate InSync(p: PlayerState) {
    && (p.isPlaying <==> p.audioPlayer.Some? && p.audioPlayer.value.playing)
    && (p.audioPlayer.Some? ==> p.audioURL == Some(p.audioPlayer.value.url))
    && (p.audioPlayer.Some? ==> p.audioPlayer.value.id < p.created)
  }

  /** `init(audioURL:)`: nothing is playing and there is no player yet. */
  function Opened(u: Url): (r: PlayerState)
    ensures !r.isPlaying && r.audioURL == Some(u) && r.audioPlayer.None?
    ensures InSync(r)
  {
    PlayerState(false, Some(u), None, 0)
  }

  /** `playAudio()`: without a URL nothing happens; when creating the player throws, the error
      is only logged and the old player and flag stay; otherwise a new player for the URL is
      started, replacing the old one, and the flag is set. */
  function Play(p: PlayerState, openFails: bool): (r: PlayerState)
    ensures r.audioURL == p.audioURL
    ensures p.audioURL.None? || openFails ==> r == p
    ensures p.audioURL.Some? && !openFails ==>
      && r.isPlaying && r.audioPlayer == Some(AudioPlayer(p.created, p.audioURL.value, true))
      && r.created == p.created + 1
    ensures p.audioURL.Some? && !openFails && InSync(p) && p.audioPlayer.Some? ==>
      r.audioPlayer.value.id != p.audioPlayer.value.id
  {
    match p.audioURL
    case None => p
    case Some(u) =>
      if openFails then p
      else p.(audioPlayer := Some(AudioPlayer(p.created, u, true)), isPlaying := true, created := p.created + 1)
  }

  /** `pauseAudio()`: the player, if any, is paused, and the flag is cleared in every state. */
  function Pause(p: PlayerState): (r: PlayerState)
    ensures !r.isPlaying && r.audioURL == p.audioURL
    ensures r.audioPlayer.Some? <==> p.audioPlayer.Some?
    ensures r.audioPlayer.Some? ==> r.audioPlayer.value == p.audioPlayer.value.(playing := false)
  {
    p.(audioPlayer := if p.audioPlayer.Some? then Some(p.audioPlayer.value.(playing := false)) else None,
       isPlaying := false)
  }

  /** The player reaches the end of the file (or fails while decoding) and stops, then calls
      `audioPlayerDidFinishPlaying(_:successfully:)`, which clears the flag whatever `flag`
      says. */
  function Finish(p: PlayerState, flag: bool): (r: PlayerState)
    requires p.audioPlayer.Some?
    ensures !r.isPlaying && r.audioURL == p.audioURL
    ensures r.audioPlayer == Some(p.audioPlayer.value.(playing := false))
  {
    p.(audioPlayer := Some(p.audioPlayer.value.(playing := false)), isPlaying := false)
  }

  /** Play after a pause does not resume the paused player: it opens a new one, so playback
      starts again from the beginning of the file. */
  lemma PlayAfterPauseRestarts(p: PlayerState)
    requires InSync(p) && p.audioPlayer.Some?
    ensures var q := Play(Pause(p), false);
      && q.isPlaying && q.audioPlayer.value.playing
      && q.audioPlayer.value.id != p.audioPlayer.value.id
      && q.audioPlayer.value.url == p.audioPlayer.value.url
  {
    assert InSync(Pause(p));
  }

  /** Pausing twice is pausing once. */
  lemma PauseIdempotent(p: PlayerState)
    ensures Pause(Pause(p)) == Pause(p)
  {
  }

  /** What can happen to a player: taps on Play and Pause, and the player finishing. */
  datatype PlayerEvent = PlayTapped(openFails: bool) | PauseTapped | Finished(flag: bool)

  /** One event. A finish can only come from a player that exists. */
  function Apply(p: PlayerState, e: PlayerEvent): (r: PlayerState)
    ensures r.audioURL == p.audioURL
  {
    match e
    case PlayTapped(openFails) => Play(p, openFails)
    case PauseTapped => Pause(p)
    case Finished(flag) => if p.audioPlayer.Some? then Finish(p, flag) else p
  }

  function Run(p: PlayerState, events: seq<PlayerEvent>): (r: PlayerState)
    ensures r.audioURL == p.audioURL
    decreases |events|
  {
    if events == [] then p else Run(Apply(p, events[0]), events[1..])
  }

  /** Every event keeps the flag truthful. */
  lemma ApplyKeepsInSync(p: PlayerState, e: PlayerEvent)
    requires InSync(p)
    ensures InSync(Apply(p, e))
  {
  }

  /** Whatever happens after `init`, `isPlaying` is true exactly when the current player is
      playing, and that player plays the URL the view-model was opened with. */
  lemma {:induction false} RunKeepsInSync(p: PlayerState, events: seq<PlayerEvent>)
    requires InSync(p)
    ensures InSync(Run(p, events))
    decreases |events|
  {
    if events != [] {
      ApplyKeepsInSync(p, events[0]);
      RunKeepsInSync(Apply(p, events[0]), events[1..]);
    }
  }

  /** After a pause or a finish, nothing plays until Play is tapped and the player opens. */
  lemma {:induction false} SilentUntilPlayOpens(p: PlayerState, events: seq<PlayerEvent>)
    requires InSync(p) && !p.isPlaying
    requires forall i :: 0 <= i < |events| ==> events[i] != PlayTapped(false)
    ensures !Run(p, events).isPlaying
    ensures Run(p, events).audioPlayer.Some? ==> !Run(p, events).audioPlayer.value.playing
    decreases |events|
  {
    if events != [] {
      ApplyKeepsInSync(p, events[0]);
      SilentUntilPlayOpens(Apply(p, events[0]), events[1..]);
    }
  }

  /** `PlayerViewModel` itself. */
  class PlayerViewModel {
    var isPlaying: bool
    var audioURL: Option<Url>
    var audioPlayer: Option<AudioPlayer>
    /** How many players `playAudio()` has created; it hands each new player its identity. */
    var playersCreated: nat

    ghost function State(): PlayerState
      reads this
    {
      PlayerState(isPlaying, audioURL, audioPlayer, playersCreated)
    }

    ghost predicate Valid()
      reads this
    {
      InSync(State())
    }

    constructor (u: Url)
      ensures Valid() && State() == Opened(u)
    {
      isPlaying := false;
      audioURL := Some(u);
      audioPlayer := None;
      playersCreated := 0;
    }

    method PlayAudio(openFails: bool)
      requires Valid()
      modifies this
      ensures Valid() && State() == Play(old(State()), openFails)
    {
      if audioURL.None? {
        return;
      }
      var u := audioURL.value;
      if !openFails {
        audioPlayer := Some(AudioPlayer(playersCreated, u, true));
        playersCreated := playersCreated + 1;
        isPlaying := true;
      }
      // a failed open is only logged
    }

    method PauseAudio()
      requires Valid()
      modifies this
      ensures Valid() && State() == Pause(old(State()))
    {
      if audioPlayer.Some? {
        audioPlayer := Some(audioPlayer.value.(playing := false));
      }
      isPlaying := false;
    }

    /** The current player stops by itself and reports it. */
    method AudioPlayerDidFinishPlaying(flag: bool)
      requires Valid() && audioPlayer.Some?
      modifies this
      ensures Valid() && State() == Finish(old(State()), flag)
    {
      audioPlayer := Some(audioPlayer.value.(playing := false));
      isPlaying := false;
    }
  }
}
