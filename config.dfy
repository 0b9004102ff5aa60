/**
 * The configuration file's sections: channels to archive, pull settings and
 * the directory layout, with the defaults that fill in missing fields, the
 * username rule and the construction of the default directories under the
 * user's configuration directory.
 */
module Config {
  import opened Wrappers
  import opened Paths

  // ---------------------------------------------------------------- channels

  /** One entry of the `channels` list. */
  datatype Channel = Channel(
    username: string,
    saveVods: bool,
    saveHighlights: bool,
    saveUploads: bool,
    savePremieres: bool,
    saveClips: bool,
    saveChat: bool)

  /** All six kinds of content are to be saved. */
  predicate SavesEverything(c: Channel) {
    c.saveVods && c.saveHighlights && c.saveUploads && c.savePremieres && c.saveClips && c.saveChat
  }

  /** `ConfigChannel::default()`. */
  function DefaultChannel(): (c: Channel)
    ensures c.username == [] && SavesEverything(c)
  {
    Channel("", true, true, true, true, true, true)
  }

  const MinUsernameLength: nat := 3
  const MaxUsernameLength: nat := 24

  datatype ValidationError = UsernameTooShort(length: nat) | UsernameTooLong(length: nat)

  /**
   * The `min_length`/`max_length` validators on `username`: each failing
   * validator contributes one error; the channel is valid when none does.
   */
  function ValidateChannel(c: Channel): (errors: seq<ValidationError>)
    ensures errors == [] <==> MinUsernameLength <= |c.username| <= MaxUsernameLength
    ensures |errors| <= 1
    ensures forall e :: e in errors ==> e.length == |c.username|
  {
    var n := |c.username|;
    (if n < MinUsernameLength then [UsernameTooShort(n)] else [])
      + (if n > MaxUsernameLength then [UsernameTooLong(n)] else [])
  }

  /** The default channel has no username and so fails validation. */
  lemma DefaultChannelIsInvalid()
    ensures ValidateChannel(DefaultChannel()) == [UsernameTooShort(0)]
  {
  }

  /** A `channels` entry as it appears in the file: any field may be absent. */
  datatype ChannelFields = ChannelFields(
    username: Option<string>,
    saveVods: Option<bool>,
    saveHighlights: Option<bool>,
    saveUploads: Option<bool>,
    savePremieres: Option<bool>,
    saveClips: Option<bool>,
    saveChat: Option<bool>)

  /** Deserialising a channel: an absent field takes its value from the default channel. */
  function ChannelFrom(f: ChannelFields): Channel {
    var d := DefaultChannel();
    Channel(
      f.username.GetOr(d.username),
      f.saveVods.GetOr(d.saveVods),
      f.saveHighlights.GetOr(d.saveHighlights),
      f.saveUploads.GetOr(d.saveUploads),
      f.savePremieres.GetOr(d.savePremieres),
      f.saveClips.GetOr(d.saveClips),
      f.saveChat.GetOr(d.saveChat))
  }

  /** Serialising a channel writes every field. */
  function FieldsOf(c: Channel): ChannelFields {
    ChannelFields(Some(c.username), Some(c.saveVods), Some(c.saveHighlights), Some(c.saveUploads),
                  Some(c.savePremieres), Some(c.saveClips), Some(c.saveChat))
  }

  const NoChannelFields := ChannelFields(None, None, None, None, None, None, None)

  /** An entry with no fields at all is the default channel; one with every field is read back unchanged. */
  lemma ChannelDefaultsAndRoundTrip(c: Channel)
    ensures ChannelFrom(NoChannelFields) == DefaultChannel()
    ensures ChannelFrom(FieldsOf(c)) == c
  {
  }

  /** An entry that gives only the username saves everything for that user. */
  lemma UsernameOnlySavesEverything(name: string)
    ensures var c := ChannelFrom(NoChannelFields.(username := Some(name)));
      c.username == name && SavesEverything(c)
  {
  }

  // ---------------------------------------------------------------- pull

  /** The `pull` section. */
  datatype PullSettings = PullSettings(
    saveVods: bool,
    saveHighlights: bool,
    saveUploads: bool,
    savePremieres: bool,
    saveClips: bool,
    saveChat: bool,
    gqlClientId: string,
    maxDownloadWorkers: nat,
    downloadChunkSize: nat,
    connectionRetries: nat,
    connectionTimeout: nat)

  const DefaultClientId: string := "kd1unb4b3q4t58fwlpcbzcbnm76a8fp"

  /** `ConfigPull::default()`; `cpuCount` is what the host reports as its number of CPUs. */
  function DefaultPull(cpuCount: nat): (p: PullSettings)
    ensures p.saveVods && p.saveHighlights && p.saveUploads && p.savePremieres && p.saveClips && p.saveChat
    ensures p.gqlClientId == DefaultClientId
    ensures p.maxDownloadWorkers == cpuCount
    ensures p.downloadChunkSize == 1024 && p.connectionRetries == 5 && p.connectionTimeout == 5
  {
    PullSettings(true, true, true, true, true, true, DefaultClientId, cpuCount, 1024, 5, 5)
  }

  /** A `pull` section as it appears in the file. */
  datatype PullFields = PullFields(
    saveVods: Option<bool>,
    saveHighlights: Option<bool>,
    saveUploads: Option<bool>,
    savePremieres: Option<bool>,
    saveClips: Option<bool>,
    saveChat: Option<bool>,
    gqlClientId: Option<string>,
    maxDownloadWorkers: Option<nat>,
    downloadChunkSize: Option<nat>,
    connectionRetries: Option<nat>,
    connectionTimeout: Option<nat>)

  function PullFrom(f: PullFields, cpuCount: nat): PullSettings {
    var d := DefaultPull(cpuCount);
    PullSettings(
      f.saveVods.GetOr(d.saveVods),
      f.saveHighlights.GetOr(d.saveHighlights),
      f.saveUploads.GetOr(d.saveUploads),
      f.savePremieres.GetOr(d.savePremieres),
      f.saveClips.GetOr(d.saveClips),
      f.saveChat.GetOr(d.saveChat),
      f.gqlClientId.GetOr(d.gqlClientId),
      f.maxDownloadWorkers.GetOr(d.maxDownloadWorkers),
      f.downloadChunkSize.GetOr(d.downloadChunkSize),
      f.connectionRetries.GetOr(d.connectionRetries),
      f.connectionTimeout.GetOr(d.connectionTimeout))
  }

  const NoPullFields := PullFields(None, None, None, None, None, None, None, None, None, None, None)

  /** An empty `pull` section is the default one; a given client id replaces only the client id. */
  lemma PullDefaults(cpuCount: nat, clientId: string)
    ensures PullFrom(NoPullFields, cpuCount) == DefaultPull(cpuCount)
    ensures PullFrom(NoPullFields.(gqlClientId := Some(clientId)), cpuCount)
         == DefaultPull(cpuCount).(gqlClientId := clientId)
  {
  }

  // ---------------------------------------------------------------- directories

  /** The `directories` section. */
  datatype Directories = Directories(
    vods: Path,
    highlights: Path,
    uploads: Path,
    premieres: Path,
    clips: Path,
    temp: Path,
    stage: Path,
    thumbnail: Path)

  /** Name of the program's own directory inside the configuration directory. */
  const AppDir: string := "vodbot"

  /** What `from_vodbot_dir(parts)` denotes: the configuration directory, then "vodbot", then the parts in order. */
  function VodbotDir(configDir: Path, parts: seq<string>): Path {
    configDir + [AppDir] + parts
  }

  /**
   * `from_vodbot_dir`: starts from the configuration directory (given, as
   * the platform reports it) and pushes "vodbot" and then each part.
   */
  method FromVodbotDir(configDir: Path, parts: seq<string>) returns (path: Path)
    ensures path == VodbotDir(configDir, parts)
    ensures |path| == |configDir| + 1 + |parts| && path[..|configDir|] == configDir
    ensures path[|configDir|] == AppDir && path[|configDir| + 1..] == parts
  {
    path := configDir;
    path := Join(path, AppDir);
    for i := 0 to |parts|
      invariant path == configDir + [AppDir] + parts[..i]
    {
      path := Join(path, parts[i]);
      assert parts[..i + 1] == parts[..i] + [parts[i]];
    }
    assert parts[..|parts|] == parts;
  }

  /** `ConfigDirectories::default()` for a given configuration directory. */
  function DefaultDirectories(configDir: Path): (d: Directories)
    ensures d.vods == configDir + ["vodbot", "videos", "vods"]
    ensures d.highlights == configDir + ["vodbot", "videos", "highlights"]
    ensures d.uploads == configDir + ["vodbot", "videos", "uploads"]
    ensures d.premieres == configDir + ["vodbot", "videos", "premieres"]
    ensures d.clips == configDir + ["vodbot", "videos", "clips"]
    ensures d.temp == configDir + ["vodbot", "temp"]
    ensures d.stage == configDir + ["vodbot", "stage"]
    ensures d.thumbnail == configDir + ["vodbot", "thumbnail"]
  {
    Directories(
      VodbotDir(configDir, ["videos", "vods"]),
      VodbotDir(configDir, ["videos", "highlights"]),
      VodbotDir(configDir, ["videos", "uploads"]),
      VodbotDir(configDir, ["videos", "premieres"]),
      VodbotDir(configDir, ["videos", "clips"]),
      VodbotDir(configDir, ["temp"]),
      VodbotDir(configDir, ["stage"]),
      VodbotDir(configDir, ["thumbnail"]))
  }

  function AllDirectories(d: Directories): seq<Path> {
    [d.vods, d.highlights, d.uploads, d.premieres, d.clips, d.temp, d.stage, d.thumbnail]
  }

  /** The eight default directories are pairwise distinct, so no two kinds of file share a directory. */
  lemma DefaultDirectoriesDistinct(configDir: Path)
    ensures var all := AllDirectories(DefaultDirectories(configDir));
      forall i, j :: 0 <= i < j < |all| ==> all[i] != all[j]
  {
    var d := DefaultDirectories(configDir);
    var n := |configDir|;
    var all := AllDirectories(d);
    forall i, j | 0 <= i < j < |all| ensures all[i] != all[j] {
      if |all[i]| == |all[j]| {
        assert all[i][n + |all[i]| - n - 1] != all[j][n + |all[j]| - n - 1];
      }
    }
  }

  /** A `directories` section as it appears in the file. */
  datatype DirectoryFields = DirectoryFields(
    vods: Option<Path>,
    highlights: Option<Path>,
    uploads: Option<Path>,
    premieres: Option<Path>,
    clips: Option<Path>,
    temp: Option<Path>,
    stage: Option<Path>,
    thumbnail: Option<Path>)

  function DirectoriesFrom(f: DirectoryFields, configDir: Path): Directories {
    var d := DefaultDirectories(configDir);
    Directories(
      f.vods.GetOr(d.vods),
      f.highlights.GetOr(d.highlights),
      f.uploads.GetOr(d.uploads),
      f.premieres.GetOr(d.premieres),
      f.clips.GetOr(d.clips),
      f.temp.GetOr(d.temp),
      f.stage.GetOr(d.stage),
      f.thumbnail.GetOr(d.thumbnail))
  }

  /** A section that moves only the vods directory keeps every other default. */
  lemma DirectoriesOverrideOne(configDir: Path, vods: Path)
    ensures var d := DirectoriesFrom(DirectoryFields(Some(vods), None, None, None, None, None, None, None), configDir);
      d == DefaultDirectories(configDir).(vods := vods)
  {
  }

  // ---------------------------------------------------------------- whole file

  datatype Config = Config(channels: seq<Channel>, pull: PullSettings, directories: Directories)

  /** The top-level object as it appears in the file: its three sections may be absent. */
  datatype ConfigFields = ConfigFields(
    channels: Option<seq<ChannelFields>>,
    pull: Option<PullFields>,
    directories: Option<DirectoryFields>)

  /** The error serde reports for a missing top-level field. */
  datatype ConfigError = MissingField(name: string)

  function MapChannels(fs: seq<ChannelFields>): (cs: seq<Channel>)
    ensures |cs| == |fs| && forall i :: 0 <= i < |fs| ==> cs[i] == ChannelFrom(fs[i])
  {
    if fs == [] then [] else [ChannelFrom(fs[0])] + MapChannels(fs[1..])
  }

  /**
   * Deserialising the whole file. The top level has no field defaults:
   * the first missing section, in declaration order, is reported.
   */
  function ConfigFrom(f: ConfigFields, configDir: Path, cpuCount: nat): (r: Result<Config, ConfigError>)
    ensures r.Success? <==> f.channels.Some? && f.pull.Some? && f.directories.Some?
    ensures f.channels.None? ==> r == Failure(MissingField("channels"))
    ensures f.channels.Some? && f.pull.None? ==> r == Failure(MissingField("pull"))
    ensures f.channels.Some? && f.pull.Some? && f.directories.None? ==> r == Failure(MissingField("directories"))
    ensures r.Success? ==>
      && r.value.channels == MapChannels(f.channels.value)
      && r.value.pull == PullFrom(f.pull.value, cpuCount)
      && r.value.directories == DirectoriesFrom(f.directories.value, configDir)
  {
    if f.channels.None? then Failure(MissingField("channels"))
    else if f.pull.None? then Failure(MissingField("pull"))
    else if f.directories.None? then Failure(MissingField("directories"))
    else Success(Config(
      MapChannels(f.channels.value),
      PullFrom(f.pull.value, cpuCount),
      DirectoriesFrom(f.directories.value, configDir)))
  }

  /** `Config::default()`, which is what the init command writes out. */
  function DefaultConfig(configDir: Path, cpuCount: nat): Config {
    Config([], DefaultPull(cpuCount), DefaultDirectories(configDir))
  }

  /** A file with three empty sections reads back as the default configuration. */
  lemma EmptySectionsGiveDefaultConfig(configDir: Path, cpuCount: nat)
    ensures ConfigFrom(ConfigFields(Some([]), Some(NoPullFields), Some(DirectoryFields(None, None, None, None, None, None, None, None))),
                       configDir, cpuCount)
         == Success(DefaultConfig(configDir, cpuCount))
  {
    PullDefaults(cpuCount, "");
  }

  /** The channel names in configuration order. */
  function Usernames(c: Config): (users: seq<string>)
    ensures |users| == |c.channels|
    ensures forall i :: 0 <= i < |users| ==> users[i] == c.channels[i].username
  {
    seq(|c.channels|, i requires 0 <= i < |c.channels| => c.channels[i].username)
  }
}
