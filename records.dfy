/**
 * The records the pull command handles (the serde shapes of
 * src/vodbot_api.rs), the error value the program passes back to `main`,
 * and the value of the six per-user tables the pull command keeps.
 */
module Records {
  import opened Paths

  datatype VodChapter = VodChapter(position: string, duration: string, filepath: Path)

  /** A VOD, highlight, premiere or upload, as the pull command lists it. */
  datatype Vod = Vod(
    id: string,
    streamerId: string,
    streamerLogin: string,
    streamerName: string,
    gameId: string,
    gameName: string,
    title: string,
    createdAt: string,
    chapters: seq<VodChapter>,
    duration: nat,
    hasChat: bool)

  /** A clip. Its `slug` is what clip URLs and the on-disk meta files name it by. */
  datatype Clip = Clip(
    id: string,
    slug: string,
    streamerId: string,
    streamerLogin: string,
    streamerName: string,
    clipperId: string,
    clipperLogin: string,
    clipperName: string,
    gameId: string,
    gameName: string,
    title: string,
    createdAt: string,
    viewCount: nat,
    duration: nat,
    offset: nat,
    vodId: string)

  datatype ChatMessage = ChatMessage(userName: string, color: string, offset: nat, msg: string)

  /** The chat of one video: the video's id and its messages. */
  datatype ChatLog = ChatLog(videoId: string, messages: seq<ChatMessage>)

  datatype PlaybackAccessToken = PlaybackAccessToken(value: string, signature: string)

  /**
   * Exit codes. `CannotCreateDir` comes from `create_dir`, `PullCannotOpenMeta`
   * from the sidecar write; the network layer's codes are kept by name.
   */
  datatype ExitCode = CleanExit | CannotCreateDir | PullCannotOpenMeta | Upstream(name: string)

  datatype ExitMsg = ExitMsg(code: ExitCode, msg: string)

  /** Why the program panicked: an `unwrap` on a missing map entry or token. */
  datatype PanicReason = MissingEntry(user: string) | MissingToken(identifier: string)

  /** How a step ends early: an `Err` returned with `?`, or a panic. */
  datatype Stop = Exit(msg: ExitMsg) | Panic(reason: PanicReason)

  datatype Outcome = Done | Stopped(stop: Stop)

  /** The key the skip pass matches a video by. */
  function VodId(v: Vod): string { v.id }

  /** The key the skip pass matches a clip by. */
  function ClipSlug(c: Clip): string { c.slug }

  /** The per-user tables of the pull command, keyed by channel name. */
  datatype Catalogue = Catalogue(
    vods: map<string, seq<Vod>>,
    highlights: map<string, seq<Vod>>,
    premieres: map<string, seq<Vod>>,
    uploads: map<string, seq<Vod>>,
    clips: map<string, seq<Clip>>,
    chat: map<string, seq<ChatLog>>)
}
