/**
 * The pull command after the listings have been fetched: the skip pass that
 * drops every item already archived on disk, the per-user counts, and the
 * loop that downloads each configured user's items in configuration order,
 * stopping at the first user with nothing to pull.
 *
 * The tables the network listing produced, the on-disk scan for meta ids,
 * the token requests, the downloads and the disk are given; the tables are
 * `Table` objects updated in place, and the calls to the outside world are
 * recorded in a `Host` log.
 */
module Pull {
  import opened Wrappers
  import opened Paths
  import opened Records
  import opened Retain
  import opened Tables
  import opened Counts
  import opened Download
  import Config

  // ---------------------------------------------------------------- the outside world

  /** `get_meta_ids`: the ids of the meta files in a directory, or the error reading it. */
  type Scan = Path -> Result<seq<string>, ExitMsg>

  /**
   * The functions `run` hands to `download_stuff`: the token requests and
   * downloads of the network layer, the `VodBotData` accessors of the two
   * record types, and the disk.
   */
  datatype Services = Services(
    vodTokens: seq<string> -> Result<map<string, PlaybackAccessToken>, ExitMsg>,
    clipTokens: seq<string> -> Result<map<string, PlaybackAccessToken>, ExitMsg>,
    downloadVod: (Vod, PlaybackAccessToken, Path, string) -> Result<Vod, ExitMsg>,
    downloadClip: (Clip, PlaybackAccessToken, Path, string) -> Result<Clip, ExitMsg>,
    vodIdentifier: Vod -> string,
    vodFilename: Vod -> string,
    clipIdentifier: Clip -> string,
    clipFilename: Clip -> string,
    disk: Disk)

  /** The four kinds of video share the video token request and download; only the noun differs. */
  function VodKind(s: Services, noun: string): Kind<Vod> {
    Kind(noun, s.vodIdentifier, s.vodFilename, (v: Vod) => VodMeta(v), s.vodTokens, s.downloadVod)
  }

  function ClipKind(s: Services): Kind<Clip> {
    Kind("Clip", s.clipIdentifier, s.clipFilename, (c: Clip) => ClipMeta(c), s.clipTokens, s.downloadClip)
  }

  // ---------------------------------------------------------------- the skip pass

  /**
   * The six directories scanned for a user, in the order they are scanned:
   * vods, highlights, premieres, uploads, clips, chat. The chat directory is
   * given on its own, since the directory layout has no chat entry.
   */
  function UserDirs(d: Config.Directories, chatDir: Path, k: string): (ps: seq<Path>)
    ensures |ps| == 6
  {
    [Join(d.vods, k), Join(d.highlights, k), Join(d.premieres, k), Join(d.uploads, k), Join(d.clips, k), Join(chatDir, k)]
  }

  /** Scanning the directories in order; the first error ends the scan with that error. */
  function ScanAll(scan: Scan, paths: seq<Path>): (r: Result<seq<seq<string>>, ExitMsg>)
    ensures r.Success? ==> |r.value| == |paths|
  {
    if paths == [] then Success([])
    else
      match scan(paths[0])
      case Failure(e) => Failure(e)
      case Success(ids) =>
        match ScanAll(scan, paths[1..])
        case Failure(e) => Failure(e)
        case Success(rest) => Success([ids] + rest)
  }

  /** The scan succeeds exactly when every directory can be read, and then holds what each one gave. */
  lemma {:induction false} ScanAllSucceeds(scan: Scan, paths: seq<Path>)
    ensures ScanAll(scan, paths).Success? <==> forall i :: 0 <= i < |paths| ==> scan(paths[i]).Success?
    ensures ScanAll(scan, paths).Success? ==>
      forall i :: 0 <= i < |paths| ==> scan(paths[i]) == Success(ScanAll(scan, paths).value[i])
    decreases |paths|
  {
    if paths != [] {
      ScanAllSucceeds(scan, paths[1..]);
      assert forall i :: 1 <= i < |paths| ==> paths[i] == paths[1..][i - 1];
    }
  }

  /** A failing scan reports the error of the first directory that cannot be read. */
  lemma {:induction false} ScanAllFails(scan: Scan, paths: seq<Path>) returns (i: nat)
    requires ScanAll(scan, paths).Failure?
    ensures i < |paths| && scan(paths[i]) == Failure(ScanAll(scan, paths).error)
    ensures forall j :: 0 <= j < i ==> scan(paths[j]).Success?
    decreases |paths|
  {
    if scan(paths[0]).Failure? {
      i := 0;
    } else {
      var n := ScanAllFails(scan, paths[1..]);
      i := n + 1;
      assert forall j :: 1 <= j < i ==> paths[j] == paths[1..][j - 1];
    }
  }

  /** What the scan of user `k` found for kind `n` (0 vods, ..., 4 clips), or nothing when it failed. */
  function FoundIds(scan: Scan, d: Config.Directories, chatDir: Path, k: string, n: nat): seq<string>
    requires n < 6
  {
    match ScanAll(scan, UserDirs(d, chatDir, k))
    case Success(f) => f[n]
    case Failure(_) => []
  }

  /**
   * One table's `retain` pass for one user, on the table's value. `None` is
   * the panic of `unwrap`: an id to remove for a user the table lacks.
   */
  function RetainStep<T(!new)>(m: map<string, seq<T>>, k: string, key: T -> string, ids: seq<string>)
    : (r: Option<map<string, seq<T>>>)
    ensures r.None? <==> k !in m && ids != []
    ensures r.Some? ==> r.value.Keys == m.Keys && forall u :: u in m && u != k ==> r.value[u] == m[u]
    ensures r.Some? && k in m ==> r.value[k] == Unarchived(m[k], key, IdSet(ids))
  {
    if k in m then Some(m[k := Unarchived(m[k], key, IdSet(ids))])
    else if ids == [] then Some(m)
    else None
  }

  /** A table's `retain` pass for `k` gets through: `k` has a list, or the scan found nothing to remove. */
  predicate CanRetain<T>(m: map<string, seq<T>>, k: string, ids: seq<string>) {
    k in m || ids == []
  }

  /**
   * The skip pass for user `k`, given what the scan found: vods, highlights,
   * premieres and uploads lose the items whose `id` was found, clips those
   * whose `slug` was found; the chat logs are left alone. A panic ends it
   * with the tables updated so far. Each table's pass is one stage, and
   * each stage hands the tables on to the next.
   */
  function UserSkip(cat: Catalogue, k: string, f: seq<seq<string>>): (Catalogue, Outcome)
    requires |f| == 6
  {
    match RetainStep(cat.vods, k, VodId, f[0])
    case None => (cat, Stopped(Panic(MissingEntry(k))))
    case Some(vods) => SkipHighlights(cat.(vods := vods), k, f)
  }

  /** The highlights stage of `UserSkip` and the ones after it. */
  function SkipHighlights(cat: Catalogue, k: string, f: seq<seq<string>>): (Catalogue, Outcome)
    requires |f| == 6
  {
    match RetainStep(cat.highlights, k, VodId, f[1])
    case None => (cat, Stopped(Panic(MissingEntry(k))))
    case Some(highlights) => SkipPremieres(cat.(highlights := highlights), k, f)
  }

  /** The premieres stage of `UserSkip` and the ones after it. */
  function SkipPremieres(cat: Catalogue, k: string, f: seq<seq<string>>): (Catalogue, Outcome)
    requires |f| == 6
  {
    match RetainStep(cat.premieres, k, VodId, f[2])
    case None => (cat, Stopped(Panic(MissingEntry(k))))
    case Some(premieres) => SkipUploads(cat.(premieres := premieres), k, f)
  }

  /** The uploads stage of `UserSkip` and the clips stage after it. */
  function SkipUploads(cat: Catalogue, k: string, f: seq<seq<string>>): (Catalogue, Outcome)
    requires |f| == 6
  {
    match RetainStep(cat.uploads, k, VodId, f[3])
    case None => (cat, Stopped(Panic(MissingEntry(k))))
    case Some(uploads) => SkipClips(cat.(uploads := uploads), k, f)
  }

  /** The clips stage of `UserSkip`: filtered by `slug`, the last table of the pass. */
  function SkipClips(cat: Catalogue, k: string, f: seq<seq<string>>): (Catalogue, Outcome)
    requires |f| == 6
  {
    match RetainStep(cat.clips, k, ClipSlug, f[4])
    case None => (cat, Stopped(Panic(MissingEntry(k))))
    case Some(clips) => (cat.(clips := clips), Done)
  }

  /**
   * `UserSkip` keeps every table's users and the chat logs; it gets through
   * exactly when every table's pass does, and then each table is that pass's
   * result; otherwise it is the panic of `unwrap`.
   */
  lemma UserSkipResult(cat: Catalogue, k: string, f: seq<seq<string>>)
    requires |f| == 6
    ensures var r := UserSkip(cat, k, f);
      && r.0.vods.Keys == cat.vods.Keys && r.0.highlights.Keys == cat.highlights.Keys
      && r.0.premieres.Keys == cat.premieres.Keys && r.0.uploads.Keys == cat.uploads.Keys
      && r.0.clips.Keys == cat.clips.Keys && r.0.chat == cat.chat
      && (r.1 == Done <==>
           && CanRetain(cat.vods, k, f[0]) && CanRetain(cat.highlights, k, f[1]) && CanRetain(cat.premieres, k, f[2])
           && CanRetain(cat.uploads, k, f[3]) && CanRetain(cat.clips, k, f[4]))
      && (r.1 != Done ==> r.1 == Stopped(Panic(MissingEntry(k))))
      && (r.1 == Done ==>
           && RetainStep(cat.vods, k, VodId, f[0]) == Some(r.0.vods)
           && RetainStep(cat.highlights, k, VodId, f[1]) == Some(r.0.highlights)
           && RetainStep(cat.premieres, k, VodId, f[2]) == Some(r.0.premieres)
           && RetainStep(cat.uploads, k, VodId, f[3]) == Some(r.0.uploads)
           && RetainStep(cat.clips, k, ClipSlug, f[4]) == Some(r.0.clips))
  {
    var step := RetainStep(cat.vods, k, VodId, f[0]);
    if step.Some? {
      SkipHighlightsResult(cat.(vods := step.value), k, f);
    }
  }

  /** The same for the stages from highlights on; the vods table is not touched. */
  lemma SkipHighlightsResult(cat: Catalogue, k: string, f: seq<seq<string>>)
    requires |f| == 6
    ensures var r := SkipHighlights(cat, k, f);
      && r.0.vods == cat.vods && r.0.chat == cat.chat
      && r.0.highlights.Keys == cat.highlights.Keys && r.0.premieres.Keys == cat.premieres.Keys
      && r.0.uploads.Keys == cat.uploads.Keys && r.0.clips.Keys == cat.clips.Keys
      && (r.1 == Done <==>
           && CanRetain(cat.highlights, k, f[1]) && CanRetain(cat.premieres, k, f[2])
           && CanRetain(cat.uploads, k, f[3]) && CanRetain(cat.clips, k, f[4]))
      && (r.1 != Done ==> r.1 == Stopped(Panic(MissingEntry(k))))
      && (r.1 == Done ==>
           && RetainStep(cat.highlights, k, VodId, f[1]) == Some(r.0.highlights)
           && RetainStep(cat.premieres, k, VodId, f[2]) == Some(r.0.premieres)
           && RetainStep(cat.uploads, k, VodId, f[3]) == Some(r.0.uploads)
           && RetainStep(cat.clips, k, ClipSlug, f[4]) == Some(r.0.clips))
  {
    var step := RetainStep(cat.highlights, k, VodId, f[1]);
    if step.Some? {
      SkipPremieresResult(cat.(highlights := step.value), k, f);
    }
  }

  /** The same for the stages from premieres on. */
  lemma SkipPremieresResult(cat: Catalogue, k: string, f: seq<seq<string>>)
    requires |f| == 6
    ensures var r := SkipPremieres(cat, k, f);
      && r.0.vods == cat.vods && r.0.highlights == cat.highlights && r.0.chat == cat.chat
      && r.0.premieres.Keys == cat.premieres.Keys && r.0.uploads.Keys == cat.uploads.Keys
      && r.0.clips.Keys == cat.clips.Keys
      && (r.1 == Done <==>
           CanRetain(cat.premieres, k, f[2]) && CanRetain(cat.uploads, k, f[3]) && CanRetain(cat.clips, k, f[4]))
      && (r.1 != Done ==> r.1 == Stopped(Panic(MissingEntry(k))))
      && (r.1 == Done ==>
           && RetainStep(cat.premieres, k, VodId, f[2]) == Some(r.0.premieres)
           && RetainStep(cat.uploads, k, VodId, f[3]) == Some(r.0.uploads)
           && RetainStep(cat.clips, k, ClipSlug, f[4]) == Some(r.0.clips))
  {
    var step := RetainStep(cat.premieres, k, VodId, f[2]);
    if step.Some? {
      SkipUploadsResult(cat.(premieres := step.value), k, f);
    }
  }

  /** The same for the uploads and clips stages. */
  lemma SkipUploadsResult(cat: Catalogue, k: string, f: seq<seq<string>>)
    requires |f| == 6
    ensures var r := SkipUploads(cat, k, f);
      && r.0.vods == cat.vods && r.0.highlights == cat.highlights && r.0.premieres == cat.premieres
      && r.0.chat == cat.chat
      && r.0.uploads.Keys == cat.uploads.Keys && r.0.clips.Keys == cat.clips.Keys
      && (r.1 == Done <==> CanRetain(cat.uploads, k, f[3]) && CanRetain(cat.clips, k, f[4]))
      && (r.1 != Done ==> r.1 == Stopped(Panic(MissingEntry(k))))
      && (r.1 == Done ==>
           && RetainStep(cat.uploads, k, VodId, f[3]) == Some(r.0.uploads)
           && RetainStep(cat.clips, k, ClipSlug, f[4]) == Some(r.0.clips))
  {
    var step := RetainStep(cat.uploads, k, VodId, f[3]);
    if step.Some? {
      SkipClipsResult(cat.(uploads := step.value), k, f);
    }
  }

  /** The clips stage changes the clips table alone, and keeps its users. */
  lemma SkipClipsResult(cat: Catalogue, k: string, f: seq<seq<string>>)
    requires |f| == 6
    ensures var r := SkipClips(cat, k, f);
      && r.0 == cat.(clips := r.0.clips) && r.0.clips.Keys == cat.clips.Keys
      && (r.1 == Done <==> CanRetain(cat.clips, k, f[4]))
      && (r.1 != Done ==> r.1 == Stopped(Panic(MissingEntry(k))))
      && (r.1 == Done ==> RetainStep(cat.clips, k, ClipSlug, f[4]) == Some(r.0.clips))
  {
  }

  /** The skip pass over the users in order; a scan error or a panic ends it. */
  function SkipRun(scan: Scan, d: Config.Directories, chatDir: Path, cat: Catalogue, users: seq<string>)
    : (Catalogue, Outcome)
    decreases |users|
  {
    if users == [] then (cat, Done)
    else
      match ScanAll(scan, UserDirs(d, chatDir, users[0]))
      case Failure(e) => (cat, Stopped(Exit(e)))
      case Success(f) =>
        var r := UserSkip(cat, users[0], f);
        if r.1.Stopped? then r else SkipRun(scan, d, chatDir, r.0, users[1..])
  }

  /**
   * Table `after` is `before` with the skip pass done for `users`: the
   * same users, each listed user's list without the items whose key the
   * scan found for that user, every other list unchanged.
   */
  predicate SkippedTable<T(==,!new)>(before: map<string, seq<T>>, after: map<string, seq<T>>, key: T -> string,
                                  users: seq<string>, scan: Scan, d: Config.Directories, chatDir: Path, n: nat)
    requires n < 6
  {
    && after.Keys == before.Keys
    && forall k :: k in before ==>
         after[k] == if k in users then Unarchived(before[k], key, IdSet(FoundIds(scan, d, chatDir, k, n))) else before[k]
  }

  /** One user's `retain`, followed by the pass over the others, is the pass over all of them. */
  lemma SkippedStep<T(!new)>(before: map<string, seq<T>>, mid: map<string, seq<T>>, after: map<string, seq<T>>,
                             key: T -> string, u: string, rest: seq<string>,
                             scan: Scan, d: Config.Directories, chatDir: Path, n: nat)
    requires n < 6
    requires RetainStep(before, u, key, FoundIds(scan, d, chatDir, u, n)) == Some(mid)
    requires SkippedTable(mid, after, key, rest, scan, d, chatDir, n)
    ensures SkippedTable(before, after, key, [u] + rest, scan, d, chatDir, n)
  {
    var users := [u] + rest;
    forall k | k in before
      ensures after[k] == if k in users then Unarchived(before[k], key, IdSet(FoundIds(scan, d, chatDir, k, n))) else before[k]
    {
      if k == u {
        UnarchivedIdempotent(before[k], key, IdSet(FoundIds(scan, d, chatDir, k, n)));
      }
    }
  }

  /** A table the skip pass has not yet touched is its own result over no users. */
  lemma SkippedNone<T(!new)>(m: map<string, seq<T>>, key: T -> string, scan: Scan, d: Config.Directories, chatDir: Path, n: nat)
    requires n < 6
    ensures SkippedTable(m, m, key, [], scan, d, chatDir, n)
  {
  }

  /**
   * A completed skip pass leaves every table with the same users, each
   * configured user's list without the items found on disk for that user
   * (by `id`, clips by `slug`), every other list as it was, and the chat
   * logs untouched. A user listed twice changes nothing more.
   */
  lemma {:induction false} SkipRunDone(scan: Scan, d: Config.Directories, chatDir: Path, cat: Catalogue, users: seq<string>)
    requires SkipRun(scan, d, chatDir, cat, users).1 == Done
    ensures var r := SkipRun(scan, d, chatDir, cat, users).0;
      && SkippedTable(cat.vods, r.vods, VodId, users, scan, d, chatDir, 0)
      && SkippedTable(cat.highlights, r.highlights, VodId, users, scan, d, chatDir, 1)
      && SkippedTable(cat.premieres, r.premieres, VodId, users, scan, d, chatDir, 2)
      && SkippedTable(cat.uploads, r.uploads, VodId, users, scan, d, chatDir, 3)
      && SkippedTable(cat.clips, r.clips, ClipSlug, users, scan, d, chatDir, 4)
      && r.chat == cat.chat
    decreases |users|
  {
    if users == [] {
      SkippedNone(cat.vods, VodId, scan, d, chatDir, 0);
      SkippedNone(cat.highlights, VodId, scan, d, chatDir, 1);
      SkippedNone(cat.premieres, VodId, scan, d, chatDir, 2);
      SkippedNone(cat.uploads, VodId, scan, d, chatDir, 3);
      SkippedNone(cat.clips, ClipSlug, scan, d, chatDir, 4);
    } else {
      var u := users[0];
      var f := ScanAll(scan, UserDirs(d, chatDir, u)).value;
      var mid := UserSkip(cat, u, f).0;
      var r := SkipRun(scan, d, chatDir, cat, users).0;
      UserSkipResult(cat, u, f);
      SkipRunDone(scan, d, chatDir, mid, users[1..]);
      assert users == [u] + users[1..];
      SkippedStep(cat.vods, mid.vods, r.vods, VodId, u, users[1..], scan, d, chatDir, 0);
      SkippedStep(cat.highlights, mid.highlights, r.highlights, VodId, u, users[1..], scan, d, chatDir, 1);
      SkippedStep(cat.premieres, mid.premieres, r.premieres, VodId, u, users[1..], scan, d, chatDir, 2);
      SkippedStep(cat.uploads, mid.uploads, r.uploads, VodId, u, users[1..], scan, d, chatDir, 3);
      SkippedStep(cat.clips, mid.clips, r.clips, ClipSlug, u, users[1..], scan, d, chatDir, 4);
    }
  }

  /**
   * After a completed skip pass, a configured user's video list holds
   * exactly the items it held before whose id was not found on disk, and
   * the clip list exactly those whose slug was not found.
   */
  lemma SkipLeavesOnlyNew(scan: Scan, d: Config.Directories, chatDir: Path, cat: Catalogue, users: seq<string>, k: string)
    requires SkipRun(scan, d, chatDir, cat, users).1 == Done
    requires k in users
    ensures var r := SkipRun(scan, d, chatDir, cat, users).0;
      && (k in cat.vods ==> k in r.vods && forall v :: v in r.vods[k] <==>
            v in cat.vods[k] && v.id !in FoundIds(scan, d, chatDir, k, 0))
      && (k in cat.clips ==> k in r.clips && forall c :: c in r.clips[k] <==>
            c in cat.clips[k] && c.slug !in FoundIds(scan, d, chatDir, k, 4))
  {
    SkipRunDone(scan, d, chatDir, cat, users);
    if k in cat.vods {
      UnarchivedMembers(cat.vods[k], VodId, IdSet(FoundIds(scan, d, chatDir, k, 0)));
    }
    if k in cat.clips {
      UnarchivedMembers(cat.clips[k], ClipSlug, IdSet(FoundIds(scan, d, chatDir, k, 4)));
    }
  }

  /** What user `k` needs for the skip pass to get past them: a readable scan and no panicking `retain`. */
  predicate UserPasses(scan: Scan, d: Config.Directories, chatDir: Path, cat: Catalogue, k: string) {
    && ScanAll(scan, UserDirs(d, chatDir, k)).Success?
    && CanRetain(cat.vods, k, FoundIds(scan, d, chatDir, k, 0))
    && CanRetain(cat.highlights, k, FoundIds(scan, d, chatDir, k, 1))
    && CanRetain(cat.premieres, k, FoundIds(scan, d, chatDir, k, 2))
    && CanRetain(cat.uploads, k, FoundIds(scan, d, chatDir, k, 3))
    && CanRetain(cat.clips, k, FoundIds(scan, d, chatDir, k, 4))
  }

  /** Whether a user passes depends on the tables only through their sets of users. */
  lemma SamePasses(scan: Scan, d: Config.Directories, chatDir: Path, a: Catalogue, b: Catalogue)
    requires a.vods.Keys == b.vods.Keys && a.highlights.Keys == b.highlights.Keys
    requires a.premieres.Keys == b.premieres.Keys && a.uploads.Keys == b.uploads.Keys && a.clips.Keys == b.clips.Keys
    ensures forall k :: UserPasses(scan, d, chatDir, a, k) == UserPasses(scan, d, chatDir, b, k)
  {
  }

  /** The skip pass completes exactly when every configured user passes. */
  lemma {:induction false} SkipRunCompletes(scan: Scan, d: Config.Directories, chatDir: Path, cat: Catalogue, users: seq<string>)
    ensures SkipRun(scan, d, chatDir, cat, users).1 == Done <==>
      forall k :: k in users ==> UserPasses(scan, d, chatDir, cat, k)
    decreases |users|
  {
    if users != [] {
      var u := users[0];
      var found := ScanAll(scan, UserDirs(d, chatDir, u));
      if found.Success? {
        var f := found.value;
        var mid := UserSkip(cat, u, f).0;
        UserSkipResult(cat, u, f);
        SkipRunCompletes(scan, d, chatDir, mid, users[1..]);
        SamePasses(scan, d, chatDir, cat, mid);
        assert FoundIds(scan, d, chatDir, u, 0) == f[0] && FoundIds(scan, d, chatDir, u, 1) == f[1];
        assert FoundIds(scan, d, chatDir, u, 2) == f[2] && FoundIds(scan, d, chatDir, u, 3) == f[3];
        assert FoundIds(scan, d, chatDir, u, 4) == f[4];
        assert UserPasses(scan, d, chatDir, cat, u) <==> UserSkip(cat, u, f).1 == Done;
        assert SkipRun(scan, d, chatDir, cat, users) ==
          if UserSkip(cat, u, f).1.Stopped? then UserSkip(cat, u, f) else SkipRun(scan, d, chatDir, mid, users[1..]);
        assert (forall k :: k in users[1..] ==> UserPasses(scan, d, chatDir, mid, k)) <==>
          (forall k :: k in users[1..] ==> UserPasses(scan, d, chatDir, cat, k));
      } else {
        assert !UserPasses(scan, d, chatDir, cat, u);
      }
      assert forall k :: k in users <==> k == u || k in users[1..];
    }
  }


  /** Whatever way the skip pass ends, the chat logs are as fetched. */
  lemma {:induction false} SkipKeepsChat(scan: Scan, d: Config.Directories, chatDir: Path, cat: Catalogue, users: seq<string>)
    ensures SkipRun(scan, d, chatDir, cat, users).0.chat == cat.chat
    decreases |users|
  {
    if users != [] {
      match ScanAll(scan, UserDirs(d, chatDir, users[0]))
      case Failure(_) =>
      case Success(f) =>
        UserSkipResult(cat, users[0], f);
        SkipKeepsChat(scan, d, chatDir, UserSkip(cat, users[0], f).0, users[1..]);
    }
  }

  // ---------------------------------------------------------------- the download loop

  /** A later stage's result, after the calls an earlier one made. */
  function Then(e: seq<Effect>, r: (Catalogue, seq<Effect>, Outcome)): (Catalogue, seq<Effect>, Outcome) {
    (r.0, e + r.1, r.2)
  }

  /**
   * The four tables of videos. They share the video token request and the
   * video download; only the noun and the directory differ.
   */
  datatype VideoTable = Vods | Highlights | Premieres | Uploads

  /** The order in which a user's video tables are downloaded. */
  const VideoOrder := [Vods, Highlights, Premieres, Uploads]

  function Noun(t: VideoTable): string {
    match t
    case Vods => "Vod"
    case Highlights => "Highlight"
    case Premieres => "Premiere"
    case Uploads => "Upload"
  }

  function VideoDir(d: Config.Directories, t: VideoTable): Path {
    match t
    case Vods => d.vods
    case Highlights => d.highlights
    case Premieres => d.premieres
    case Uploads => d.uploads
  }

  function Videos(cat: Catalogue, t: VideoTable): map<string, seq<Vod>> {
    match t
    case Vods => cat.vods
    case Highlights => cat.highlights
    case Premieres => cat.premieres
    case Uploads => cat.uploads
  }

  function WithVideos(cat: Catalogue, t: VideoTable, m: map<string, seq<Vod>>): Catalogue {
    match t
    case Vods => cat.(vods := m)
    case Highlights => cat.(highlights := m)
    case Premieres => cat.(premieres := m)
    case Uploads => cat.(uploads := m)
  }

  /** Replacing one video table changes that table alone. */
  lemma WithVideosChanges(cat: Catalogue, t: VideoTable, m: map<string, seq<Vod>>)
    ensures forall u :: Videos(WithVideos(cat, t, m), u) == if u == t then m else Videos(cat, u)
    ensures WithVideos(cat, t, m).clips == cat.clips && WithVideos(cat, t, m).chat == cat.chat
  {
  }

  /** The `download_stuff` call of user `k` on video table `t`. */
  function VideoJob(s: Services, d: Config.Directories, k: string, t: VideoTable): Job<Vod> {
    Job(VodKind(s, Noun(t)), s.disk, VideoDir(d, t), k)
  }

  /** The `download_stuff` call of user `k` on the clips table. */
  function ClipJob(s: Services, d: Config.Directories, k: string): Job<Clip> {
    Job(ClipKind(s), s.disk, d.clips, k)
  }

  /**
   * The video tables `ts` in order, then the clips, each a `download_stuff`
   * call on its table; the first error ends them.
   */
  function RunVideos(s: Services, d: Config.Directories, cat: Catalogue, k: string, ts: seq<VideoTable>)
    : (Catalogue, seq<Effect>, Outcome)
    decreases |ts|
  {
    if ts == [] then
      var c := DownloadStuffRun(ClipJob(s, d, k), cat.clips);
      (cat.(clips := c.0), c.1, c.2)
    else
      var v := DownloadStuffRun(VideoJob(s, d, k, ts[0]), Videos(cat, ts[0]));
      var next := WithVideos(cat, ts[0], v.0);
      if v.2.Stopped? then (next, v.1, v.2)
      else Then(v.1, RunVideos(s, d, next, k, ts[1..]))
  }

  /** One user's downloads: vods, highlights, premieres, uploads, then clips. */
  function UserRun(s: Services, d: Config.Directories, cat: Catalogue, k: string): (Catalogue, seq<Effect>, Outcome) {
    RunVideos(s, d, cat, k, VideoOrder)
  }

  /** Table `after` is `before`, or `before` without user `k`. */
  predicate AtMostTaken<T(==)>(before: map<string, seq<T>>, after: map<string, seq<T>>, k: string) {
    after == before || after == before - {k}
  }

  /**
   * The calls on tables `ts` and the clips, whatever way they end, take out
   * at most user `k`'s entry of each of those tables, touch no other video
   * table and leave the chat logs alone.
   */
  lemma {:induction false} RunVideosTakesAtMostUser(s: Services, d: Config.Directories, cat: Catalogue, k: string,
                                                    ts: seq<VideoTable>)
    ensures var r := RunVideos(s, d, cat, k, ts).0;
      && r.chat == cat.chat && AtMostTaken(cat.clips, r.clips, k)
      && (forall t :: t !in ts ==> Videos(r, t) == Videos(cat, t))
      && (forall t :: t in ts ==> AtMostTaken(Videos(cat, t), Videos(r, t), k))
    decreases |ts|
  {
    if ts == [] {
      DownloadStuffTakesUserEntry(ClipJob(s, d, k), cat.clips);
    } else {
      var t := ts[0];
      var v := DownloadStuffRun(VideoJob(s, d, k, t), Videos(cat, t));
      var next := WithVideos(cat, t, v.0);
      DownloadStuffTakesUserEntry(VideoJob(s, d, k, t), Videos(cat, t));
      WithVideosChanges(cat, t, v.0);
      assert forall u :: u in ts <==> u == t || u in ts[1..];
      if v.2.Stopped? {
        assert RunVideos(s, d, cat, k, ts).0 == next;
      } else {
        RunVideosTakesAtMostUser(s, d, next, k, ts[1..]);
        assert RunVideos(s, d, cat, k, ts).0 == RunVideos(s, d, next, k, ts[1..]).0;
        assert Videos(cat, t) - {k} - {k} == Videos(cat, t) - {k};
      }
    }
  }

  /** When the calls on tables `ts` and the clips complete, user `k` is gone from all of them. */
  lemma {:induction false} RunVideosTakesUser(s: Services, d: Config.Directories, cat: Catalogue, k: string, ts: seq<VideoTable>)
    requires RunVideos(s, d, cat, k, ts).2 == Done
    ensures var r := RunVideos(s, d, cat, k, ts).0;
      && r.clips == cat.clips - {k}
      && forall t :: t in ts ==> Videos(r, t) == Videos(cat, t) - {k}
    decreases |ts|
  {
    if ts == [] {
      DownloadStuffTakesUserEntry(ClipJob(s, d, k), cat.clips);
    } else {
      var t := ts[0];
      var v := DownloadStuffRun(VideoJob(s, d, k, t), Videos(cat, t));
      var next := WithVideos(cat, t, v.0);
      assert v.2 == Done && RunVideos(s, d, cat, k, ts) == Then(v.1, RunVideos(s, d, next, k, ts[1..]));
      DownloadStuffTakesUserEntry(VideoJob(s, d, k, t), Videos(cat, t));
      WithVideosChanges(cat, t, v.0);
      RunVideosTakesUser(s, d, next, k, ts[1..]);
      RunVideosTakesAtMostUser(s, d, next, k, ts[1..]);
      assert forall u :: u in ts <==> u == t || u in ts[1..];
      assert Videos(cat, t) - {k} - {k} == Videos(cat, t) - {k};
    }
  }

  /**
   * Whatever way a user's downloads end, each table is as it was or has
   * lost exactly the user's entry, and the chat logs are untouched; when
   * they complete, the user is gone from all five tables.
   */
  lemma UserRunTakesUser(s: Services, d: Config.Directories, cat: Catalogue, k: string)
    ensures var r := UserRun(s, d, cat, k).0;
      && r.chat == cat.chat && AtMostTaken(cat.clips, r.clips, k)
      && forall t :: AtMostTaken(Videos(cat, t), Videos(r, t), k)
    ensures UserRun(s, d, cat, k).2 == Done ==>
      var r := UserRun(s, d, cat, k).0;
      && r.clips == cat.clips - {k}
      && forall t :: Videos(r, t) == Videos(cat, t) - {k}
  {
    RunVideosTakesAtMostUser(s, d, cat, k, VideoOrder);
    if UserRun(s, d, cat, k).2 == Done {
      RunVideosTakesUser(s, d, cat, k, VideoOrder);
    }
    assert forall t :: t in VideoOrder;
  }

  /** `counts.get(k).unwrap_or(&(0, 0, 0, 0, 0, 0))`. */
  function CountsFor(counts: map<string, UserCounts>, k: string): UserCounts {
    if k in counts then counts[k] else NoCounts
  }

  /** `user_total`: the six counts of `k` added up, 0 for a user the map lacks. */
  function TotalFor(counts: map<string, UserCounts>, k: string): nat {
    if k in counts then UserTotal(counts[k]) else 0
  }

  /** The total the loop tests is the sum of the counts `unwrap_or` gives. */
  lemma TotalForDefault(counts: map<string, UserCounts>, k: string)
    ensures TotalFor(counts, k) == UserTotal(CountsFor(counts, k))
    ensures k !in counts ==> TotalFor(counts, k) == 0
  {
  }

  /** The user loop: users in order, stopping for good at the first whose total is zero. */
  function PullUsersRun(s: Services, d: Config.Directories, counts: map<string, UserCounts>, cat: Catalogue, users: seq<string>)
    : (Catalogue, seq<Effect>, Outcome)
    decreases |users|
  {
    if users == [] || TotalFor(counts, users[0]) == 0 then (cat, [], Done)
    else
      var r := UserRun(s, d, cat, users[0]);
      if r.2.Stopped? then r
      else
        var rest := PullUsersRun(s, d, counts, r.0, users[1..]);
        (rest.0, r.1 + rest.1, rest.2)
  }

  /** The position of the first user whose total is zero, or the number of users when there is none. */
  function FirstIdle(counts: map<string, UserCounts>, users: seq<string>): (n: nat)
    ensures n <= |users|
    ensures n < |users| ==> TotalFor(counts, users[n]) == 0
  {
    if users == [] || TotalFor(counts, users[0]) == 0 then 0
    else 1 + FirstIdle(counts, users[1..])
  }

  /** Every user before the first idle one has something to pull. */
  lemma {:induction false} BeforeFirstIdle(counts: map<string, UserCounts>, users: seq<string>)
    ensures forall i :: 0 <= i < FirstIdle(counts, users) ==> TotalFor(counts, users[i]) > 0
    decreases |users|
  {
    if users != [] && TotalFor(counts, users[0]) > 0 {
      BeforeFirstIdle(counts, users[1..]);
      assert forall i :: 1 <= i < |users| ==> users[i] == users[1..][i - 1];
    }
  }

  /**
   * The loop breaks rather than skipping: the run over all users is the run
   * over the users before the first idle one, so no user after it is
   * downloaded, whatever they have.
   */
  lemma {:induction false} StopsAtIdle(s: Services, d: Config.Directories, counts: map<string, UserCounts>,
                                       cat: Catalogue, users: seq<string>)
    ensures PullUsersRun(s, d, counts, cat, users) == PullUsersRun(s, d, counts, cat, users[..FirstIdle(counts, users)])
    decreases |users|
  {
    var n := FirstIdle(counts, users);
    if n == 0 {
      assert users[..n] == [];
    } else {
      var r := UserRun(s, d, cat, users[0]);
      assert users[..n][0] == users[0] && users[..n][1..] == users[1..][..n - 1];
      if r.2.Done? {
        StopsAtIdle(s, d, counts, r.0, users[1..]);
      }
    }
  }

  /** The user's lists in every table are the ones they had. */
  predicate KeepsUser(before: Catalogue, after: Catalogue, u: string) {
    && (forall t :: u in Videos(before, t) ==> u in Videos(after, t) && Videos(after, t)[u] == Videos(before, t)[u])
    && (u in before.clips ==> u in after.clips && after.clips[u] == before.clips[u])
  }

  /** The user loop never touches the lists of a user it does not visit, nor the chat logs. */
  lemma {:induction false} PullUsersKeeps(s: Services, d: Config.Directories, counts: map<string, UserCounts>,
                                          cat: Catalogue, users: seq<string>, u: string)
    requires u !in users
    ensures KeepsUser(cat, PullUsersRun(s, d, counts, cat, users).0, u)
    ensures PullUsersRun(s, d, counts, cat, users).0.chat == cat.chat
    decreases |users|
  {
    if users != [] && TotalFor(counts, users[0]) > 0 {
      var r := UserRun(s, d, cat, users[0]);
      UserRunTakesUser(s, d, cat, users[0]);
      assert u != users[0];
      if r.2.Done? {
        PullUsersKeeps(s, d, counts, r.0, users[1..], u);
      }
    }
  }

  /**
   * A user who only comes after the first idle user keeps all of their
   * lists: the loop never reaches them.
   */
  lemma NotPulledAfterIdle(s: Services, d: Config.Directories, counts: map<string, UserCounts>,
                           cat: Catalogue, users: seq<string>, u: string)
    requires u !in users[..FirstIdle(counts, users)]
    ensures KeepsUser(cat, PullUsersRun(s, d, counts, cat, users).0, u)
  {
    StopsAtIdle(s, d, counts, cat, users);
    PullUsersKeeps(s, d, counts, cat, users[..FirstIdle(counts, users)], u);
  }

  /**
   * A user listed twice, with something to pull, whose first visit completes:
   * the second visit finds the vods entry gone and panics on `unwrap` before
   * making any call.
   */
  lemma DuplicateUserPanics(s: Services, d: Config.Directories, counts: map<string, UserCounts>, cat: Catalogue, k: string)
    requires TotalFor(counts, k) > 0
    requires UserRun(s, d, cat, k).2 == Done
    ensures PullUsersRun(s, d, counts, cat, [k, k]).2 == Stopped(Panic(MissingEntry(k)))
    ensures PullUsersRun(s, d, counts, cat, [k, k]).1 == UserRun(s, d, cat, k).1
  {
    var r := UserRun(s, d, cat, k);
    UserRunTakesUser(s, d, cat, k);
    DownloadStuffTakesUserEntry(VideoJob(s, d, k, Vods), r.0.vods);
    assert [k, k][1..] == [k];
    assert PullUsersRun(s, d, counts, r.0, [k]) == UserRun(s, d, r.0, k);
  }

  // ---------------------------------------------------------------- the whole command

  /**
   * `run` from the skip pass on: the skip pass, the counts of what is left,
   * then the user loop. The tables, their users and the chat logs come from
   * the network listing and are given.
   */
  function RunSpec(scan: Scan, d: Config.Directories, chatDir: Path, s: Services, cat: Catalogue, users: seq<string>)
    : (Catalogue, seq<Effect>, Outcome)
  {
    var skip := SkipRun(scan, d, chatDir, cat, users);
    if skip.1.Stopped? then (skip.0, [], skip.1)
    else PullUsersRun(s, d, CountsTable(skip.0, users), skip.0, users)
  }

  /**
   * The loop breaks at a user whose lists the skip pass emptied: a
   * configured user whose total is zero has nothing left in any table.
   */
  lemma IdleMeansNothingLeft(scan: Scan, d: Config.Directories, chatDir: Path, cat: Catalogue, users: seq<string>)
    requires SkipRun(scan, d, chatDir, cat, users).1 == Done
    ensures var skipped := SkipRun(scan, d, chatDir, cat, users).0;
      var counts := CountsTable(skipped, users);
      FirstIdle(counts, users) < |users| ==>
        var k := users[FirstIdle(counts, users)];
        && (k in skipped.vods ==> skipped.vods[k] == [])
        && (k in skipped.highlights ==> skipped.highlights[k] == [])
        && (k in skipped.premieres ==> skipped.premieres[k] == [])
        && (k in skipped.uploads ==> skipped.uploads[k] == [])
        && (k in skipped.clips ==> skipped.clips[k] == [])
        && (k in skipped.chat ==> skipped.chat[k] == [])
  {
    var skipped := SkipRun(scan, d, chatDir, cat, users).0;
    var counts := CountsTable(skipped, users);
    var n := FirstIdle(counts, users);
    if n < |users| {
      UserIdle(skipped, users[n]);
    }
  }

  // ---------------------------------------------------------------- the tables, in place

  /** The five tables `run` keeps, as the objects the methods update. */
  datatype Store = Store(vods: Table<Vod>, highlights: Table<Vod>, premieres: Table<Vod>, uploads: Table<Vod>, clips: Table<Clip>) {
    /** The four video tables are four different maps. */
    predicate Separate() {
      && vods != highlights && vods != premieres && vods != uploads
      && highlights != premieres && highlights != uploads && premieres != uploads
    }

    /** The table object of video table `t`. */
    function Table(t: VideoTable): Table<Vod> {
      match t
      case Vods => vods
      case Highlights => highlights
      case Premieres => premieres
      case Uploads => uploads
    }

    function Objects(): set<object> {
      {vods, highlights, premieres, uploads, clips}
    }

    /** The tables' current values, with the chat logs. */
    function Contents(chat: map<string, seq<ChatLog>>): Catalogue
      reads Objects()
    {
      Catalogue(vods.entries, highlights.entries, premieres.entries, uploads.entries, clips.entries, chat)
    }
  }

  /** The skip pass for one user, on the tables: the effect `UserSkip` describes. */
  method SkipUser(st: Store, chat: map<string, seq<ChatLog>>, k: string, f: seq<seq<string>>) returns (o: Outcome)
    requires st.Separate() && |f| == 6
    modifies st.Objects()
    ensures st.Contents(chat) == UserSkip(old(st.Contents(chat)), k, f).0
    ensures o == UserSkip(old(st.Contents(chat)), k, f).1
  {
    var ok := st.vods.RetainUnarchived(k, VodId, f[0]);
    if !ok {
      return Stopped(Panic(MissingEntry(k)));
    }
    o := SkipHighlightsOn(st, chat, k, f);
  }

  /** The highlights stage and the ones after it, on the tables. */
  method SkipHighlightsOn(st: Store, chat: map<string, seq<ChatLog>>, k: string, f: seq<seq<string>>) returns (o: Outcome)
    requires st.Separate() && |f| == 6
    modifies st.highlights, st.premieres, st.uploads, st.clips
    ensures st.Contents(chat) == SkipHighlights(old(st.Contents(chat)), k, f).0
    ensures o == SkipHighlights(old(st.Contents(chat)), k, f).1
  {
    var ok := st.highlights.RetainUnarchived(k, VodId, f[1]);
    if !ok {
      return Stopped(Panic(MissingEntry(k)));
    }
    o := SkipPremieresOn(st, chat, k, f);
  }

  /** The premieres stage and the ones after it, on the tables. */
  method SkipPremieresOn(st: Store, chat: map<string, seq<ChatLog>>, k: string, f: seq<seq<string>>) returns (o: Outcome)
    requires st.Separate() && |f| == 6
    modifies st.premieres, st.uploads, st.clips
    ensures st.Contents(chat) == SkipPremieres(old(st.Contents(chat)), k, f).0
    ensures o == SkipPremieres(old(st.Contents(chat)), k, f).1
  {
    var ok := st.premieres.RetainUnarchived(k, VodId, f[2]);
    if !ok {
      return Stopped(Panic(MissingEntry(k)));
    }
    o := SkipUploadsOn(st, chat, k, f);
  }

  /** The uploads and clips stages, on the tables. */
  method SkipUploadsOn(st: Store, chat: map<string, seq<ChatLog>>, k: string, f: seq<seq<string>>) returns (o: Outcome)
    requires st.Separate() && |f| == 6
    modifies st.uploads, st.clips
    ensures st.Contents(chat) == SkipUploads(old(st.Contents(chat)), k, f).0
    ensures o == SkipUploads(old(st.Contents(chat)), k, f).1
  {
    var ok := st.uploads.RetainUnarchived(k, VodId, f[3]);
    if !ok {
      return Stopped(Panic(MissingEntry(k)));
    }
    ok := st.clips.RetainUnarchived(k, ClipSlug, f[4]);
    o := if ok then Done else Stopped(Panic(MissingEntry(k)));
  }

  /** One turn of the skip loop, stated on the remaining users. */
  lemma SkipTurn(scan: Scan, d: Config.Directories, chatDir: Path, cat: Catalogue, users: seq<string>, i: nat)
    requires i < |users|
    ensures var found := ScanAll(scan, UserDirs(d, chatDir, users[i]));
      SkipRun(scan, d, chatDir, cat, users[i..]) ==
        if found.Failure? then (cat, Stopped(Exit(found.error)))
        else if UserSkip(cat, users[i], found.value).1.Stopped? then UserSkip(cat, users[i], found.value)
        else SkipRun(scan, d, chatDir, UserSkip(cat, users[i], found.value).0, users[i + 1..])
  {
    assert users[i..][0] == users[i] && users[i..][1..] == users[i + 1..];
  }

  /** The skip pass on the tables: users in order, each scanned, then filtered table by table. */
  method SkipArchived(st: Store, chat: map<string, seq<ChatLog>>, scan: Scan, d: Config.Directories, chatDir: Path,
                      users: seq<string>) returns (o: Outcome)
    requires st.Separate()
    modifies st.Objects()
    ensures st.Contents(chat) == SkipRun(scan, d, chatDir, old(st.Contents(chat)), users).0
    ensures o == SkipRun(scan, d, chatDir, old(st.Contents(chat)), users).1
  {
    var i := 0;
    while i < |users|
      invariant 0 <= i <= |users|
      invariant SkipRun(scan, d, chatDir, old(st.Contents(chat)), users) == SkipRun(scan, d, chatDir, st.Contents(chat), users[i..])
    {
      SkipTurn(scan, d, chatDir, st.Contents(chat), users, i);
      var found := ScanAll(scan, UserDirs(d, chatDir, users[i]));
      if found.Failure? {
        return Stopped(Exit(found.error));
      }
      o := SkipUser(st, chat, users[i], found.value);
      if o.Stopped? {
        return;
      }
      i := i + 1;
    }
    assert users[i..] == [];
    o := Done;
  }

  /** The calls on video tables `ts`, then on the clips, on the tables and the host: the effect `RunVideos` describes. */
  method RunVideosOn(st: Store, host: Host, chat: map<string, seq<ChatLog>>, s: Services, d: Config.Directories,
                     k: string, ts: seq<VideoTable>) returns (o: Outcome)
    requires st.Separate()
    modifies st.Objects(), host
    ensures st.Contents(chat) == RunVideos(s, d, old(st.Contents(chat)), k, ts).0
    ensures host.log == old(host.log) + RunVideos(s, d, old(st.Contents(chat)), k, ts).1
    ensures o == RunVideos(s, d, old(st.Contents(chat)), k, ts).2
    decreases |ts|
  {
    if ts == [] {
      o := DownloadStuff(st.clips, host, ClipJob(s, d, k));
      return;
    }
    ghost var before, log0 := st.Contents(chat), host.log;
    ghost var v := DownloadStuffRun(VideoJob(s, d, k, ts[0]), Videos(before, ts[0]));
    o := DownloadStuff(st.Table(ts[0]), host, VideoJob(s, d, k, ts[0]));
    assert st.Contents(chat) == WithVideos(before, ts[0], v.0);
    if o.Stopped? {
      return;
    }
    ghost var log1 := host.log;
    o := RunVideosOn(st, host, chat, s, d, k, ts[1..]);
    ghost var rest := RunVideos(s, d, WithVideos(before, ts[0], v.0), k, ts[1..]);
    AppendAssoc(log0, v.1, rest.1);
  }

  lemma AppendAssoc<X>(a: seq<X>, b: seq<X>, c: seq<X>)
    ensures (a + b) + c == a + (b + c)
  {
  }

  /** One user's downloads on the tables and the host: the effect `UserRun` describes. */
  method DownloadUser(st: Store, host: Host, chat: map<string, seq<ChatLog>>, s: Services, d: Config.Directories, k: string)
      returns (o: Outcome)
    requires st.Separate()
    modifies st.Objects(), host
    ensures st.Contents(chat) == UserRun(s, d, old(st.Contents(chat)), k).0
    ensures host.log == old(host.log) + UserRun(s, d, old(st.Contents(chat)), k).1
    ensures o == UserRun(s, d, old(st.Contents(chat)), k).2
  {
    o := RunVideosOn(st, host, chat, s, d, k, VideoOrder);
  }

  /** One turn of the user loop, stated on the remaining users. */
  lemma PullTurn(s: Services, d: Config.Directories, counts: map<string, UserCounts>, cat: Catalogue, users: seq<string>, i: nat)
    requires i < |users|
    ensures PullUsersRun(s, d, counts, cat, users[i..]) ==
      if TotalFor(counts, users[i]) == 0 then (cat, [], Done)
      else if UserRun(s, d, cat, users[i]).2.Stopped? then UserRun(s, d, cat, users[i])
      else
        var rest := PullUsersRun(s, d, counts, UserRun(s, d, cat, users[i]).0, users[i + 1..]);
        (rest.0, UserRun(s, d, cat, users[i]).1 + rest.1, rest.2)
  {
    assert users[i..][0] == users[i] && users[i..][1..] == users[i + 1..];
  }

  /** The user loop on the tables and the host. */
  method PullUsers(st: Store, host: Host, chat: map<string, seq<ChatLog>>, s: Services, d: Config.Directories,
                   counts: map<string, UserCounts>, users: seq<string>) returns (o: Outcome)
    requires st.Separate()
    modifies st.Objects(), host
    ensures st.Contents(chat) == PullUsersRun(s, d, counts, old(st.Contents(chat)), users).0
    ensures host.log == old(host.log) + PullUsersRun(s, d, counts, old(st.Contents(chat)), users).1
    ensures o == PullUsersRun(s, d, counts, old(st.Contents(chat)), users).2
  {
    ghost var full := PullUsersRun(s, d, counts, st.Contents(chat), users);
    ghost var log0 := host.log;
    var i := 0;
    while i < |users|
      invariant 0 <= i <= |users|
      invariant full.0 == PullUsersRun(s, d, counts, st.Contents(chat), users[i..]).0
      invariant log0 + full.1 == host.log + PullUsersRun(s, d, counts, st.Contents(chat), users[i..]).1
      invariant full.2 == PullUsersRun(s, d, counts, st.Contents(chat), users[i..]).2
    {
      ghost var cat, log := st.Contents(chat), host.log;
      ghost var turn := UserRun(s, d, cat, users[i]);
      PullTurn(s, d, counts, cat, users, i);
      var count := if users[i] in counts then counts[users[i]] else NoCounts;
      TotalForDefault(counts, users[i]);
      if UserTotal(count) == 0 {
        break;
      }
      o := DownloadUser(st, host, chat, s, d, users[i]);
      if o.Stopped? {
        return;
      }
      ghost var rest := PullUsersRun(s, d, counts, turn.0, users[i + 1..]);
      AppendAssoc(log, turn.1, rest.1);
      i := i + 1;
    }
    if i == |users| {
      assert users[i..] == [];
    }
    o := Done;
  }

  /**
   * `run` from the skip pass on, on the tables and the host: the effect
   * `RunSpec` describes.
   */
  method Run(st: Store, host: Host, chat: map<string, seq<ChatLog>>, scan: Scan, d: Config.Directories, chatDir: Path,
             s: Services, users: seq<string>) returns (o: Outcome)
    requires st.Separate()
    modifies st.Objects(), host
    ensures st.Contents(chat) == RunSpec(scan, d, chatDir, s, old(st.Contents(chat)), users).0
    ensures host.log == old(host.log) + RunSpec(scan, d, chatDir, s, old(st.Contents(chat)), users).1
    ensures o == RunSpec(scan, d, chatDir, s, old(st.Contents(chat)), users).2
  {
    o := SkipArchived(st, chat, scan, d, chatDir, users);
    if o.Stopped? {
      return;
    }
    var counts := CountsTable(st.Contents(chat), users);
    o := PullUsers(st, host, chat, s, d, counts, users);
  }
}
