# VodBot pull, info and config, modelled in Dafny

VodBot archives a Twitch channel's videos, clips and chat to disk. This
project models three parts of it and proves what they promise.

- **The `pull` command** (`src/commands/pull.rs`), from the moment the
  per-user listings have been fetched:
  - the *skip pass* drops every video already archived on disk: vods,
    highlights, premieres and uploads are matched by `id`, clips by
    `slug`, and chat logs are not filtered;
  - the per-kind and per-user counts;
  - the user loop, which visits users in configuration order and stops
    for good (`break`) at the first user whose six counts add up to zero;
  - `download_stuff`, which takes one user's list out of a table, asks
    for playback tokens for all of it, then downloads each item and writes
    its `.meta.json` sidecar, stopping at the first error.
- **The `info` command's classifier** (`src/commands/info.rs`): seven
  anchored regular expressions tried in order. The first one that matches
  with an `id` capture decides the content type and the id. Inputs no
  pattern classifies are dropped.
- **The configuration** (`src/config.rs`): the default channel, pull
  settings and directories; the username length rule; `from_vodbot_dir`;
  and the field defaults used when reading the file.

Modules, in dependency order:

| module | file | what it holds |
|---|---|---|
| `Wrappers` | wrappers.dfy | `Option` and `Result` |
| `Paths` | paths.dfy | paths as component sequences; `join`, `set_extension` |
| `Records` | records.dfy | `Vod`, `Clip`, chat records, `ExitMsg`, how a step ends (`Outcome`), the six per-user tables (`Catalogue`) |
| `Retain` | retain.dfy | the `retain` filter as a function, and its laws |
| `Tables` | tables.dfy | `Table`, a class holding one per-user map, with the in-place `retain` pass and `remove` |
| `Counts` | counts.dfy | lengths, per-kind totals, per-user counts |
| `Download` | download.dfy | `download_stuff`: its specification and the methods that run it on a `Table` and a `Host` log |
| `Config` | config.dfy | the configuration sections, defaults, validation, `from_vodbot_dir` |
| `Patterns` | patterns.dfy | one recogniser per regular expression |
| `Info` | info.dfy | the ordered table, `find_map` and `filter_map`, and what the order decides |
| `Forms` | forms.dfy | the URL forms written out as strings, proved to be exactly what each URL pattern accepts |
| `Pull` | pull.dfy | the skip pass, the user loop and the whole command, as functions and as methods on the tables |

The pull command's state is modelled in place:

- each table is a `Table` object whose `entries` map the methods reassign;
- the calls the command makes to the outside world (token requests,
  directory creation, downloads, sidecar writes) are appended to a `Host`
  object's log.

Each method is proved against a specification function on the tables'
values. For example, `Pull.Run` leaves the tables and the log exactly as
`Pull.RunSpec` describes. The lemmas then state the properties of those
functions.

Where the source and its description disagree, the model follows the
source:

- `src/commands/pull.rs:56` scans `dir.chat`, but the directory section
  (`src/config.rs:84-94`) has no `chat` entry. The chat directory is
  therefore a separate parameter (`chatDir`).
- The download functions passed at `src/commands/pull.rs:132` do not have
  the signature `download_stuff` expects (`src/commands/pull.rs:181`).
  Downloads follow the signature `download_stuff` declares.

## Model

| member | source | states |
|---|---|---|
| Paths.Join | src/commands/pull.rs:193 | joining a plain component appends exactly that component and keeps the path before it |
| Paths.Trimmed | src/commands/pull.rs:193-199 | the path cut back to its last component that is neither empty nor "."; it is a prefix of the path and everything cut is empty or "." |
| Paths.FileName | src/commands/pull.rs:199 | `file_name`: always a proper name (not empty, "." or "..") taken from the path; the last component when that is a proper name; none when the path ends in ".." or holds only empty and "." components |
| Paths.LastDot | src/commands/pull.rs:199 | the index found holds a '.' and no later character is a '.'; `None` only when the name has no '.' |
| Paths.Stem | src/commands/pull.rs:199 | `file_stem` of a name: never empty for a non-empty name; `StemIsPrefix` states that it is the part before the last '.', kept whole when there is no '.' past the first character |
| Paths.StemIsPrefix | src/commands/pull.rs:199 | a file stem is a prefix of the name cut at its last '.': where they differ, the rest is a '.' followed by an extension with no '.'; a name kept whole is ".." or has no '.' past its first character |
| Paths.WithExtension | src/commands/pull.rs:199 | the renamed file name is the stem, a '.', then the extension (the stem alone for an empty extension); a proper name stays a proper name |
| Paths.SetExtension | src/commands/pull.rs:199 | `set_extension` on a whole path; what it does is stated by `SetExtensionRenames` and the lemmas after it |
| Paths.SetExtensionRenames | src/commands/pull.rs:199 | a path without a file name is left as it is; otherwise the components before the file name stay, the empty and "." components after it are dropped, and the file name gets the extension |
| Paths.NewFileName | src/commands/pull.rs:199 | with a non-empty extension, the renamed component is the new path's file name |
| Paths.SetExtensionOfName | src/commands/pull.rs:195-199 | for `dir/name` with a proper name, only the name changes |
| Paths.SetExtensionSkipsTrailing | src/commands/pull.rs:193-199 | for `dir/name/` and `dir/name/.` the trailing component is dropped and `name` gets the extension |
| Paths.SetExtensionOfParent | src/commands/pull.rs:199 | a path ending in ".." has no file name and is left as it is |
| Retain.Unarchived | src/commands/pull.rs:58-62 | filtering never lengthens a list |
| Retain.UnarchivedMembers | src/commands/pull.rs:58-62 | an item survives the skip pass exactly when it was in the list and its key was not found on disk |
| Retain.KeptPositions | src/commands/pull.rs:58-62 | the kept positions are positions of the original list |
| Retain.UnarchivedInOrder | src/commands/pull.rs:58-62 | the survivors are the items at strictly increasing kept positions: `retain` keeps the relative order |
| Retain.KeptPositionsExact | src/commands/pull.rs:58-62 | a position is kept exactly when its item's key is not archived, so nothing new is lost |
| Retain.UnarchivedAppend | src/commands/pull.rs:58-62 | filtering distributes over concatenation |
| Retain.UnarchivedTwice | src/commands/pull.rs:58-62 | removing one id set and then another equals removing their union, which is why one `retain` per id gives the set filter |
| Retain.UnarchivedIdempotent | src/commands/pull.rs:58-62 | a second skip pass with the same ids removes nothing more |
| Retain.NothingArchived | src/commands/pull.rs:58-62 | when no key was found on disk the list is unchanged |
| Tables.Table.constructor | src/commands/pull.rs:27-31 | a new table holds the given per-user lists |
| Tables.Table.RetainUnarchived | src/commands/pull.rs:58 | one table's `retain` calls for one user: succeeds exactly when the user has a list or there is nothing to remove; the user's list becomes the filtered list and no other entry changes |
| Tables.Table.Remove | src/commands/pull.rs:187 | `remove` returns the user's list when present and leaves the table without that user |
| Tables.OneMoreId | src/commands/pull.rs:58 | the next id's `retain` extends the set removed so far by that id |
| Tables.IdSetGrows | src/commands/pull.rs:58 | the id set of a longer prefix adds the next id |
| Counts.Total | src/commands/pull.rs:67-77 | the sum of a count map's values; `TotalWithout` states that the order of summation does not matter |
| Counts.CountsOf | src/commands/pull.rs:80-95 | one user's six counts; `NoneCounted` and `CountsTable` state what each holds |
| Counts.UserTotal | src/commands/pull.rs:120-121 | the sum of a user's six counts; `UserIdle` states when it is zero |
| Counts.GrandTotal | src/commands/pull.rs:78 | `total_total`, the sum of the six kind totals; `GrandTotalIsSumOfUserTotals` relates it to the users' totals |
| Counts.Lengths | src/commands/pull.rs:66-76 | the count map has the table's users as keys and each user's list length as value |
| Counts.TotalWithout | src/commands/pull.rs:67-77 | a map's total does not depend on summation order: any key can be taken out first |
| Counts.SumOverIgnores | src/commands/pull.rs:67-77 | a user outside the list does not affect the sum over the list |
| Counts.TotalIsSumOverUsers | src/commands/pull.rs:66-77 | for distinct users and a table holding only them, a kind's total equals the sum of those users' counts |
| Counts.KindTotal | src/commands/pull.rs:66-77 | one kind's total, equal to the sum over the configured users when they are distinct and the only keys |
| Counts.CountsTable | src/commands/pull.rs:80-95 | the `counts` map holds exactly the configured users, each with their six lengths (0 where a table lacks them) |
| Counts.UserIdle | src/commands/pull.rs:120-122 | a user's total is zero exactly when each of their six lists is empty or absent |
| Counts.NoneCounted | src/commands/pull.rs:86-91 | a zero count means the user's list is empty or missing, and conversely |
| Counts.SumOfUserTotalsByKind | src/commands/pull.rs:78-95 | adding the users' totals equals adding, kind by kind, the users' counts |
| Counts.GrandTotalIsSumOfUserTotals | src/commands/pull.rs:66-95 | `total_total` (the sum of the six kind totals) equals the sum of the users' totals, for distinct users who are the only keys |
| Download.Host.constructor | src/commands/pull.rs:115 | a new host has made no calls |
| Download.Host.Record | src/commands/pull.rs:188-204 | recording a call appends it to the log and changes nothing else |
| Download.SidecarNextToMedia | src/commands/pull.rs:195-199 | a media path ending in a proper name gets its sidecar in the same directory, the name's extension replaced by `meta.json` (the name is cut at its last '.', as `StemIsPrefix` states); a media path without a file name is its own sidecar path |
| Download.SidecarBesideUserDir | src/commands/pull.rs:193-199 | an item whose file name is empty or "." is downloaded to the user's directory path itself, and its sidecar goes next to that directory in `output_dir`, named `<user>.meta.json` |
| Download.SidecarOfParentName | src/commands/pull.rs:193-199 | an item whose file name is ".." has a sidecar path equal to its media path |
| Download.Identifiers | src/commands/pull.rs:188 | the identifiers asked for are those of the items, one per item, in list order |
| Download.ItemRun | src/commands/pull.rs:192-204 | one item's pass: its calls and error; `ItemPassSucceeds`, `ItemSidecars` and `ItemCalls` state what it does |
| Download.ItemsRun | src/commands/pull.rs:191-205 | the item loop's calls and outcome; `ItemsRunSidecars` and `ItemsRunCalls` state what it does |
| Download.ListRun | src/commands/pull.rs:188-205 | the token request, then the item loop; `ListRunFails` and `ListRunFetches` state both ways it goes |
| Download.DownloadStuffRun | src/commands/pull.rs:186-210 | `download_stuff` as a function of the tables; `DownloadStuffTakesUserEntry`, `DownloadStuffCalls`, `DownloadStuffOutcome` and `DownloadStuffSidecars` state what it does |
| Download.Passes | src/commands/pull.rs:191-205 | the loop's passes correspond one-to-one to the items, in order |
| Download.Leading | src/commands/pull.rs:191-205 | the count of leading passes without error; the pass after them, if any, fails |
| Download.LeadingSucceed | src/commands/pull.rs:191-205 | every pass before the first failing one ends without error |
| Download.ChainCallsStopAtFirstError | src/commands/pull.rs:191-205 | the loop makes the calls of each pass before the first failing one, then those of the failing pass, and none after |
| Download.ChainEndsAtFirstError | src/commands/pull.rs:191-205 | the loop ends with the first failing pass's error, or succeeds when no pass fails |
| Download.ItemSidecars | src/commands/pull.rs:193-204 | one item's pass writes its own sidecar when it ends without error, and none otherwise |
| Download.MediaSidecars | src/commands/pull.rs:195-199 | one sidecar path per item, in list order, each the `set_extension("meta.json")` of that item's media path; where it lands is stated by `SidecarNextToMedia`, `SidecarBesideUserDir` and `SidecarOfParentName` |
| Download.ChainSidecars | src/commands/pull.rs:191-205 | when each pass writes only its own sidecar, the loop writes those of the passes before the first failure, in order |
| Download.ItemsRunSidecars | src/commands/pull.rs:191-205 | the loop writes one sidecar per item, in list order, up to the first failing item; sidecars already written stay |
| Download.ItemPassSucceeds | src/commands/pull.rs:193-204 | a pass ends without error exactly when the directory is created, the item has a token, its download returns `Ok` and the sidecar file opens; a sidecar is written only after a download that returned `Ok` |
| Download.ItemCalls | src/commands/pull.rs:193-204 | one pass creates the user's directory first and writes the sidecar, if at all, right after the download, for every file name; for an item with a proper file name every call stays inside the user's directory |
| Download.ChainInOrder | src/commands/pull.rs:191-205 | passes whose sidecar writes each follow their download keep that order however far the loop gets |
| Download.ChainInside | src/commands/pull.rs:191-205 | passes that each stay inside the user's directory stay inside it however far the loop gets |
| Download.ItemsRunCalls | src/commands/pull.rs:191-205 | each sidecar write of the loop directly follows its download, for every file name; when every item has a proper file name, every call stays inside `output_dir/user` |
| Download.DownloadStuffTakesUserEntry | src/commands/pull.rs:187 | `download_stuff` removes exactly the user's entry and leaves every other user's list; a missing entry panics before any call |
| Download.DownloadStuffCalls | src/commands/pull.rs:188-205 | tokens are requested once, first, for exactly the user's item identifiers in order, and each sidecar write directly follows its download, for every file name; when every item has a proper file name, every later call is inside the user's directory |
| Download.DownloadStuffOutcome | src/commands/pull.rs:186-210 | the call succeeds exactly when the user has an entry, the tokens arrive and no item's pass fails |
| Download.DownloadStuffSidecars | src/commands/pull.rs:191-205 | once tokens arrive, sidecars are written for the items before the first failing one, and the call ends with that item's error |
| Download.DownloadItem | src/commands/pull.rs:192-204 | the loop body on the host makes the calls, and returns the error, that `ItemRun` describes |
| Download.ChainTurn | src/commands/pull.rs:191-205 | one loop turn: a failing pass ends the loop; a succeeding pass is followed by the rest |
| Download.DownloadItems | src/commands/pull.rs:191-205 | the item loop on the host leaves the log and outcome that the passes' chain describes |
| Download.DownloadStuff | src/commands/pull.rs:186-210 | `download_stuff` on a table and host: the new table, the calls logged and the outcome are those of `DownloadStuffRun` |
| Download.ListRunFails | src/commands/pull.rs:188 | a failed token request is the only call made, and its error ends the call |
| Download.ListRunFetches | src/commands/pull.rs:188-205 | a successful token request is followed by the item loop with those tokens |
| Download.DownloadList | src/commands/pull.rs:188-205 | the token request and item loop on the host produce the calls and outcome `ListRun` describes |
| Config.ChannelFrom | src/config.rs:8 | a channel entry read with `#[serde(default)]`; `ChannelDefaultsAndRoundTrip` and `UsernameOnlySavesEverything` state its defaults |
| Config.DefaultChannel | src/config.rs:21-32 | the default channel has an empty username and all six save flags set |
| Config.ValidateChannel | src/config.rs:10-12 | a channel validates exactly when its username is 3 to 24 characters; at most one error, which carries the length |
| Config.DefaultChannelIsInvalid | src/config.rs:10-24 | the default channel fails validation as too short, with length 0 |
| Config.ChannelDefaultsAndRoundTrip | src/config.rs:7-33 | a channel entry with no fields is the default channel; one with every field reads back unchanged |
| Config.UsernameOnlySavesEverything | src/config.rs:8-32 | an entry giving only the username saves all six kinds for that user |
| Config.PullFrom | src/config.rs:36 | the pull section read with `#[serde(default)]`; `PullDefaults` states its defaults |
| Config.DefaultPull | src/config.rs:53-69 | default pull settings: six save flags set, the fixed client id, one worker per CPU, chunk size 1024, 5 retries, timeout 5 |
| Config.PullDefaults | src/config.rs:35-69 | an empty pull section is the default; giving only a client id replaces only the client id |
| Config.FromVodbotDir | src/config.rs:117-124 | the loop builds the base directory, then "vodbot", then the parts in order, with nothing else added |
| Config.DirectoriesFrom | src/config.rs:83 | the directory section read with `#[serde(default)]`; `DirectoriesOverrideOne` states its defaults |
| Config.DefaultDirectories | src/config.rs:95-107 | the five video kinds sit under `vodbot/videos/<kind>`; temp, stage and thumbnail directly under `vodbot` |
| Config.DefaultDirectoriesDistinct | src/config.rs:95-107 | the eight default directories are pairwise distinct |
| Config.DirectoriesOverrideOne | src/config.rs:82-107 | a section giving only the vods directory keeps every other default |
| Config.MapChannels | src/config.rs:112 | each channel entry is read with its field defaults, one channel per entry, in order |
| Config.ConfigFrom | src/config.rs:110-115 | the whole file reads only when all three sections are present (no top-level defaults); the first missing one is reported by name; on success each section is read with its own field defaults |
| Config.DefaultConfig | src/config.rs:110-115 | the configuration of three empty sections: `EmptySectionsGiveDefaultConfig` states that it is what reading them gives |
| Config.EmptySectionsGiveDefaultConfig | src/config.rs:110-115 | three empty sections read back as the default configuration |
| Config.Usernames | src/commands/pull.rs:19-20 | the users are the channel names in configuration order |
| Patterns.RunEnd | src/commands/info.rs:44-50 | a greedy run ends at the input's end or at the first character outside the class |
| Patterns.RunChars | src/commands/info.rs:44-50 | every character of a run belongs to its class |
| Patterns.AfterScheme | src/commands/info.rs:45 | the optional `https?://` skips 0, 7 or 8 characters |
| Patterns.AfterWww | src/commands/info.rs:45 | the optional `www.` skips 0 or 4 characters |
| Patterns.ChannelIdEnd | src/commands/info.rs:46-47 | a channel id is an alphanumeric followed by a run of 3 to 24 word characters, and ends where that run ends |
| Patterns.ClipIdEnd | src/commands/info.rs:48-50 | a clip id exists exactly when an alphanumeric run starts there, and ends inside the input |
| Patterns.ClipIdChars | src/commands/info.rs:48-50 | a clip id consists only of slug characters |
| Patterns.BareVideo | src/commands/info.rs:44 | matches exactly the all-digit strings, including the empty one; captures an id, the whole input, exactly when non-empty |
| Patterns.VideoUrl | src/commands/info.rs:45 | a match always captures an id inside the input |
| Patterns.BareChannel | src/commands/info.rs:46 | matches exactly the strings of 4 to 25 word characters starting with an alphanumeric, with the whole input as id |
| Patterns.ChannelUrl | src/commands/info.rs:47 | a match always captures an id inside the input |
| Patterns.BareClip | src/commands/info.rs:48 | a match captures the whole non-empty input, made of slug characters |
| Patterns.ClipUrl | src/commands/info.rs:49 | a match always captures an id inside the input |
| Patterns.ClipsHostUrl | src/commands/info.rs:50 | a match always captures an id inside the input |
| Info.Classify | src/commands/info.rs:58-62 | one input's classification; `ClassifyIsFirstMatch` states that it is the first entry yielding an id |
| Info.ClassifyAll | src/commands/info.rs:57 | the classification of all inputs; `FilterMapAppend`, `FilterMapSingle` and `FilterMapMembers` state that it keeps order and drops only unclassified inputs |
| Info.FirstFrom | src/commands/info.rs:58-62 | `find_map` returns an index of the table at or after the starting entry |
| Info.FirstFromFinds | src/commands/info.rs:58-62 | the entry `find_map` stops at yields an id and no earlier entry does; with no result, no entry yields |
| Info.FirstFromIs | src/commands/info.rs:58-62 | the first entry that yields an id is the one `find_map` stops at |
| Info.ClassifyIsFirstMatch | src/commands/info.rs:43-62 | an input is classified exactly when some entry yields an id; the first such entry decides the type, later ones are not consulted, and the id is a contiguous slice of the input |
| Info.FilterMap | src/commands/info.rs:57 | `filter_map` never produces more outputs than inputs |
| Info.FilterMapAppend | src/commands/info.rs:57-63 | the classification of concatenated inputs is the concatenation of classifications: input order is kept |
| Info.FilterMapSingle | src/commands/info.rs:57-63 | a single input gives one output when classified and none when dropped |
| Info.FilterMapMembers | src/commands/info.rs:57-63 | every output comes from some input, and every classified input gives an output |
| Info.RunEndAt | src/commands/info.rs:44-50 | a run from `i` ends at `j` when `[i, j)` is in the class and `j` is not |
| Info.UrlPatternsNeedSlash | src/commands/info.rs:45-50 | every URL pattern needs a '/' in the input |
| Info.EmptyInputDropped | src/commands/info.rs:44 | the empty string matches the first pattern without an id and is dropped |
| Info.DigitsAreVideos | src/commands/info.rs:44-46 | a non-empty digit string is a video with itself as id, although digit strings of 4 to 25 also fit the channel pattern |
| Info.ChannelNamesAreChannels | src/commands/info.rs:44-46 | a channel-shaped string that is not all digits is a channel with itself as id |
| Info.SlugsAreClips | src/commands/info.rs:44-48 | an alphanumeric run, a hyphen and sixteen slug characters is a clip with itself as id |
| Info.SlugHasNoSlash | src/commands/info.rs:48 | such a slug contains no '/' |
| Info.SlugNotBareVideoOrChannel | src/commands/info.rs:44-46 | the hyphen rules out the bare video and bare channel patterns |
| Info.SlugYields | src/commands/info.rs:48 | the bare clip pattern takes such a slug whole |
| Info.NoSlashNoUrl | src/commands/info.rs:45-50 | without a '/', no URL pattern yields |
| Info.AlnumNonChannelsAreClips | src/commands/info.rs:44-48 | an alphanumeric string that is neither all digits nor of channel length (so any of 1 to 3 characters) is a clip |
| Info.ClassifyFirst | src/commands/info.rs:58-62 | the entry that yields first decides the classification |
| Info.SlashNotBare | src/commands/info.rs:44-48 | an input containing '/' matches none of the three bare patterns |
| Forms.VideoUrlAccepted | src/commands/info.rs:45 | every video URL (optional scheme, optional `www.`, any character for the dot, digits, optional query) matches, with the digits as id |
| Forms.VideoUrlOnlyForm | src/commands/info.rs:45 | every string the video URL pattern matches is such a URL, and its id is the number |
| Forms.ChannelUrlAccepted | src/commands/info.rs:47 | every channel URL (escaped dot) matches, with the channel name as id |
| Forms.ChannelUrlOnlyForm | src/commands/info.rs:47 | every string the channel URL pattern matches is such a URL, and its id is the name |
| Forms.ClipUrlAccepted | src/commands/info.rs:49 | every `twitch.tv/<user>/clip/<slug>` URL matches, with the slug as id |
| Forms.ClipUrlOnlyForm | src/commands/info.rs:49 | every string the clip URL pattern matches is such a URL, and its id is the slug |
| Forms.ClipsHostUrlAccepted | src/commands/info.rs:50 | every `clips.twitch.tv/<slug>` URL matches, with the slug as id |
| Forms.ClipsHostUrlOnlyForm | src/commands/info.rs:50 | every string the clips-host pattern matches is such a URL, and its id is the slug |
| Forms.ChannelNotVideo | src/commands/info.rs:45-47 | no string matches both the channel URL and the video URL patterns |
| Forms.ClipNotVideo | src/commands/info.rs:45-49 | no string matches both the clip URL and the video URL patterns, even with `videos` as the user |
| Forms.ClipNotChannel | src/commands/info.rs:47-49 | no string matches both the clip URL and the channel URL patterns |
| Forms.ClipsHostNotOthers | src/commands/info.rs:45-50 | a clips-host URL matches none of the other URL patterns |
| Forms.VideoUrlClassified | src/commands/info.rs:43-62 | whatever the video URL pattern matches is classified as a video with the captured id |
| Forms.ChannelUrlClassified | src/commands/info.rs:43-62 | whatever the channel URL pattern matches is classified as a channel with the captured id |
| Forms.ClipUrlClassified | src/commands/info.rs:43-62 | whatever the clip URL pattern matches is classified as a clip with the captured id |
| Forms.ClipsHostUrlClassified | src/commands/info.rs:43-62 | whatever the clips-host pattern matches is classified as a clip with the captured id |
| Forms.VideoUrlsAreVideos | src/commands/info.rs:45 | a video URL is classified as a video with its number as id |
| Forms.ChannelUrlsAreChannels | src/commands/info.rs:47 | a channel URL is classified as a channel with its name as id |
| Forms.ClipUrlsAreClips | src/commands/info.rs:49 | a clip URL is classified as a clip with its slug as id |
| Forms.ClipsHostUrlsAreClips | src/commands/info.rs:50 | a clips-host URL is classified as a clip with its slug as id |
| Pull.UserDirs | src/commands/pull.rs:49-57 | six directories are scanned per user |
| Pull.ScanAll | src/commands/pull.rs:50-57 | a successful scan gives one id list per directory |
| Pull.ScanAllSucceeds | src/commands/pull.rs:50-57 | the scan succeeds exactly when every directory can be read, and then holds what each gave |
| Pull.ScanAllFails | src/commands/pull.rs:50-57 | a failed scan reports the error of the first unreadable directory, after all earlier ones were read |
| Pull.UserSkip | src/commands/pull.rs:58-62 | one user's `retain` calls on the five video tables; `UserSkipResult` states what it does |
| Pull.RetainStep | src/commands/pull.rs:58-62 | one table's pass panics exactly when there is an id to remove and the user has no list; otherwise the same users, the user's list filtered, others unchanged |
| Pull.UserSkipResult | src/commands/pull.rs:58-62 | one user's skip: completes exactly when every table's pass gets through; then each table is its `retain` result; chat untouched; a stop is always the `unwrap` panic |
| Pull.SkipHighlightsResult | src/commands/pull.rs:59-62 | the stages from highlights on leave vods and chat, and complete exactly when each of their tables gets through |
| Pull.SkipPremieresResult | src/commands/pull.rs:60-62 | the stages from premieres on leave the earlier tables and chat, and complete exactly when each of their tables gets through |
| Pull.SkipUploadsResult | src/commands/pull.rs:61-62 | the uploads and clips stages leave the earlier tables and chat, and complete exactly when both tables get through |
| Pull.SkipClipsResult | src/commands/pull.rs:62 | the clips stage filters clips by slug only and completes exactly when it gets through |
| Pull.SkippedStep | src/commands/pull.rs:48-62 | one user's `retain`, then the pass over the rest, is the pass over all of them, even when a user appears twice |
| Pull.SkippedNone | src/commands/pull.rs:48-62 | a table is its own skip result over no users |
| Pull.SkipRun | src/commands/pull.rs:48-64 | the skip pass over the configured users; `SkipRunDone`, `SkipRunCompletes` and `SkipKeepsChat` state what it does |
| Pull.SkipRunDone | src/commands/pull.rs:48-64 | a completed skip pass keeps each table's users, filters each configured user's lists by what was found on disk (videos by id, clips by slug), leaves other lists and the chat logs |
| Pull.SkipLeavesOnlyNew | src/commands/pull.rs:58-62 | after the pass, a configured user's vods are exactly the earlier ones whose id is not on disk, and clips exactly those whose slug is not |
| Pull.SamePasses | src/commands/pull.rs:58-62 | whether a user gets through depends on the tables only through their sets of users |
| Pull.SkipRunCompletes | src/commands/pull.rs:48-64 | the skip pass completes exactly when every configured user's scan succeeds and no `unwrap` panics |
| Pull.SkipKeepsChat | src/commands/pull.rs:63 | however the skip pass ends, the chat logs are as fetched |
| Pull.WithVideosChanges | src/commands/pull.rs:128-158 | replacing one video table changes that table only |
| Pull.RunVideos | src/commands/pull.rs:128-165 | one user's `download_stuff` calls over the video tables, then clips; `RunVideosTakesAtMostUser` and `RunVideosTakesUser` state what they change |
| Pull.RunVideosTakesAtMostUser | src/commands/pull.rs:128-165 | however a user's calls end, each table is unchanged or has lost exactly that user, other tables are untouched, chat is untouched |
| Pull.RunVideosTakesUser | src/commands/pull.rs:128-165 | when a user's calls complete, the user is gone from every table they visited |
| Pull.UserRun | src/commands/pull.rs:126-165 | one user's downloads; `UserRunTakesUser` states what they change |
| Pull.UserRunTakesUser | src/commands/pull.rs:126-165 | a user's five `download_stuff` calls take at most that user out of each table; on success the user is gone from all five |
| Pull.TotalFor | src/commands/pull.rs:120-121 | `user_total` for one user; `TotalForDefault` states its value |
| Pull.TotalForDefault | src/commands/pull.rs:120-121 | the total compared with zero is the sum of the six counts `unwrap_or` gives, 0 for a user without counts |
| Pull.FirstIdle | src/commands/pull.rs:119-124 | the first idle position is within the list, and the user there has total zero |
| Pull.BeforeFirstIdle | src/commands/pull.rs:119-124 | every user before the first idle one has something to pull |
| Pull.PullUsersRun | src/commands/pull.rs:119-166 | the user loop; `StopsAtIdle`, `PullUsersKeeps`, `NotPulledAfterIdle` and `DuplicateUserPanics` state what it does |
| Pull.StopsAtIdle | src/commands/pull.rs:119-124 | the loop over all users equals the loop over the users before the first idle one: `break`, not `continue` |
| Pull.PullUsersKeeps | src/commands/pull.rs:119-166 | the loop never changes the lists of a user it does not visit, nor the chat logs |
| Pull.NotPulledAfterIdle | src/commands/pull.rs:119-124 | a user who appears only after the first idle user keeps all their lists, whatever they have |
| Pull.DuplicateUserPanics | src/commands/pull.rs:129-134 | a user listed twice whose first visit completes makes the second visit panic on the missing vods entry, with no further call |
| Pull.IdleMeansNothingLeft | src/commands/pull.rs:66-124 | the user the loop breaks at has nothing left in any table after the skip pass |
| Pull.SkipUser | src/commands/pull.rs:58-62 | the skip pass for one user on the tables: the effect and outcome of `UserSkip` |
| Pull.SkipHighlightsOn | src/commands/pull.rs:59-62 | the highlights stage and the later ones on the tables, touching only those tables |
| Pull.SkipPremieresOn | src/commands/pull.rs:60-62 | the premieres stage and the later ones on the tables, touching only those tables |
| Pull.SkipUploadsOn | src/commands/pull.rs:61-62 | the uploads and clips stages on the tables, touching only those tables |
| Pull.SkipTurn | src/commands/pull.rs:48-64 | one turn of the skip loop: a scan error or a panic ends it, otherwise it goes on to the next user |
| Pull.SkipArchived | src/commands/pull.rs:48-64 | the skip loop on the tables leaves them as `SkipRun` describes and returns its outcome |
| Pull.RunVideosOn | src/commands/pull.rs:128-165 | the video tables' calls, then the clips', on the tables and host: the effect of `RunVideos` |
| Pull.DownloadUser | src/commands/pull.rs:128-165 | one user's downloads on the tables and the host: the effect of `UserRun` |
| Pull.PullTurn | src/commands/pull.rs:119-166 | one turn of the user loop: break on zero total, end on an error, otherwise continue with the next user |
| Pull.PullUsers | src/commands/pull.rs:119-166 | the user loop on the tables and the host: the tables, log and outcome `PullUsersRun` describes |
| Pull.RunSpec | src/commands/pull.rs:48-166 | the skip pass, then the user loop when it completes; `IdleMeansNothingLeft` ties the two together |
| Pull.Run | src/commands/pull.rs:48-166 | `run` from the skip pass on: the tables, log and outcome `RunSpec` describes |

## Left out

- Fetching the listings, chat logs and tokens over the network (`src/commands/pull.rs:15-46`). The tables the listing produced are the starting state. Token requests and downloads are functions given to the model, so they are deterministic in it.
- `get_meta_ids`, `VodBotData`, `ChatLog` and `PlaybackAccessToken` are not defined in the files modelled. The scan, the `identifier`/`filename` accessors and the token map are parameters.
- `dirs::config_dir()` and `num_cpus::get()` (`src/config.rs:64, 118`) are parameters. The `unwrap` on a missing configuration directory is not modelled.
- Paths are sequences of components. Empty, "." and ".." components are modelled where `file_name` and `set_extension` look at them; separators inside a component, absolute components and the root are not.
- Download.ItemsRunCalls: the placement of every call inside `output_dir/user` is proved only for items whose `filename()` is a proper name. For an empty or "." name the sidecar is written beside the user's directory (`SidecarBesideUserDir`), and for ".." the sidecar path is the media path (`SidecarOfParentName`). The same hypothesis bounds the placement clause of `Download.ItemCalls` and `Download.DownloadStuffCalls`; their ordering clauses hold for every name.
- All `println!` output is left out: the user summary, the totals, the "Pulling" line and the blank line after a user's items (`has_content`).
- Message texts of `ExitMsg` are carried as the strings the disk functions return; they are not formatted.
- `serde_json::to_writer(..).unwrap()` is treated as always succeeding, once the sidecar file has been opened.
- Regular expressions are hand-written recognisers. `\d` and `\w` are read as ASCII classes, whereas the regex crate's classes are Unicode-aware.
- The info command's I/O tail (`src/commands/info.rs:53, 65-90`): loading the configuration, the network test probe and the queries for each classified input.
- The chat count comes from the fetched chat map, which the skip pass does not filter. No chat download exists in the loop (`src/commands/pull.rs:135-136`).
- The on-disk scan itself is not recorded in the `Host` log. Only the pull command's writes and network calls are.
- Counts.Total: the sums are unbounded naturals; `usize` overflow of the totals is not modelled.
- Pull.TotalFor: `user_total` is summed without `usize` overflow.
- Pull.RunVideos: the four video tables are walked as a list of table names (`VideoOrder`) rather than as four written-out calls. The calls, their order and their arguments are the same.
- Config.ValidateChannel: the username length is counted in `char`s. This is a modelling choice: how `serde_valid` measures a string's length is not part of this model.
