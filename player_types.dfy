/** The value types the player exchanges with its collaborators and listeners. */
module PlayerTypes {
  import opened Wrappers
  import Text

  datatype TrackSource = Spotify | Youtube

  /** A playable track; immutable once built. */
  datatype Track = Track(
    title: string,
    url: string,
    thumbnail: Option<string>,
    description: Option<string>,
    publishedAt: Option<string>,
    source: TrackSource,
    trackID: string)

  /** The four kinds of message the player publishes. */
  datatype MessageType = Status | Info | Error | Debug

  /** The optional payload of a message. */
  datatype Payload = NoData | SongData(song: Option<Track>) | QueueData(tracks: seq<Track>)

  /**
    The text of a message, kept structured; `Render` gives the string the
    listeners receive. The fixed status words, the announcements built around a
    track title, and `Raw` for the text of an error the player passes on.
  */
  datatype MessageText =
    | CurrentSong | CurrentQueue | NowPlayingStatus | PausedStatus | ResumedStatus
    | NowPlaying(title: string)
    | Played(title: string)
    | StartFailed(title: string, error: string)
    | Farewell
    | Stopping
    | Raw(text: string)

  /** One message on the player's outbound stream. */
  datatype Message = Message(messageType: MessageType, text: MessageText, data: Payload)

  /** An end reason text other than the two the player tests for. */
  type OtherReason = s: string | s != "forceStop" && s != "skip" witness ""

  /** Why a dispatcher ended: natural completion, a forced stop (`"forceStop"`), a skip (`"skip"`), or any other reason text. */
  datatype EndReason = Natural | ForceStop | Skip | Other(reason: OtherReason)

  /**
    A call the player makes on the stream backend, in the order it makes them.
    `playTrack` can be handed `undefined` (`PlayTrack(None)`).
  */
  datatype BackendCall =
    | PlayTrack(track: Option<Track>)
    | Pause
    | Resume
    | Stop
    | Disconnect
    | SkipCurrent
    | ChangeVolume(volume: int)

  /** The string a listener receives for each message text. */
  function Render(m: MessageText): string {
    match m
    case CurrentSong => "currentSong"
    case CurrentQueue => "currentQueue"
    case NowPlayingStatus => "playing"
    case PausedStatus => "paused"
    case ResumedStatus => "resumed"
    case NowPlaying(title) => ":raised_hands: Let me see your hands while I play *" + title + "* :raised_hands:"
    case Played(title) => "Played: *" + title + "*"
    case StartFailed(title, error) => "Could not start stream for track '" + title + "': " + error
    case Farewell => "That's it for now... Later bitches! :metal:"
    case Stopping => "Stopping stream."
    case Raw(text) => text
  }

  /** The announcements and the start-failure report name the track they are about. */
  lemma {:induction false} AnnouncementsNameTrack(title: string, error: string)
    ensures Text.Contains(Render(StartFailed(title, error)), title)
    ensures Text.Contains(Render(NowPlaying(title)), title)
    ensures Text.Contains(Render(Played(title)), title)
  {
    Text.ContainsMiddle("Could not start stream for track '", title, "': " + error);
    assert Render(StartFailed(title, error)) == "Could not start stream for track '" + title + ("': " + error);
    Text.ContainsMiddle(":raised_hands: Let me see your hands while I play *", title, "* :raised_hands:");
    Text.ContainsMiddle("Played: *", title, "*");
  }
}
