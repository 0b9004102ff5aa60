/**
 * `download_stuff`: takes one user's list out of a per-user table, asks
 * for playback tokens for all of its items at once, then for each item in
 * turn creates the user's output directory, downloads the item next to it
 * and writes the returned record to a `.meta.json` sidecar. The first
 * error ends the call and is passed back; what was written stays.
 *
 * The network, the directory creation, the download and the opening of
 * the sidecar file are given as functions (`Kind`, `Disk`); the calls made
 * to them are recorded, in order, in a `Host` log.
 */
module Download {
  import opened Wrappers
  import opened Paths
  import opened Records
  import opened Tables

  /** What a sidecar holds: the record the download returned. */
  datatype Meta = VodMeta(vod: Vod) | ClipMeta(clip: Clip)

  /** A call the pull command makes to the outside world. */
  datatype Effect =
    | FetchTokens(identifiers: seq<string>)
    | CreateDir(path: Path)
    | Fetch(item: Meta, path: Path)
    | WriteSidecar(path: Path, meta: Meta)

  /** The log of calls made so far. */
  class Host {
    var log: seq<Effect>

    constructor ()
      ensures log == []
    {
      log := [];
    }

    method Record(e: Effect)
      modifies this
      ensures log == old(log) + [e]
    {
      log := log + [e];
    }
  }

  /**
   * One kind of content: the noun it is announced with, the `VodBotData`
   * accessors of its records, how a record is written to its sidecar, and
   * the token request and download functions passed to `download_stuff`.
   */
  datatype Kind<!T> = Kind(
    noun: string,
    identifier: T -> string,
    filename: T -> string,
    meta: T -> Meta,
    tokens: seq<string> -> Result<map<string, PlaybackAccessToken>, ExitMsg>,
    download: (T, PlaybackAccessToken, Path, string) -> Result<T, ExitMsg>)

  /** `create_dir` and `File::create`: `None` when they succeed, the OS's reason when they fail. */
  datatype Disk = Disk(createDir: Path -> Option<string>, createFile: Path -> Option<string>)

  /** The arguments of one `download_stuff` call besides the table. */
  datatype Job<!T> = Job(kind: Kind<T>, disk: Disk, dir: Path, user: string)

  /** `output_dir.join(user_id)`. */
  function OutputDir<T>(j: Job<T>): Path {
    Join(j.dir, j.user)
  }

  /** Where an item is downloaded to: the user's directory, then the item's file name. */
  function MediaPath<T>(j: Job<T>, c: T): Path {
    Join(OutputDir(j), j.kind.filename(c))
  }

  /** `set_extension("meta.json")` on the path of a downloaded file. */
  function SidecarPath(p: Path): Path {
    SetExtension(p, "meta.json")
  }

  /**
   * A media file with a proper file name gets its sidecar next to it, in the
   * same directory; a path without a file name (ending in "..") is left as it is.
   */
  lemma SidecarNextToMedia(p: Path)
    ensures p != [] && IsFileName(p[|p| - 1]) ==> SidecarPath(p) == p[..|p| - 1] + [WithExtension(p[|p| - 1], "meta.json")]
    ensures FileName(p).None? ==> SidecarPath(p) == p
  {
    SetExtensionRenames(p, "meta.json");
    if p != [] && IsFileName(p[|p| - 1]) {
      SetExtensionOfName(p[..|p| - 1], p[|p| - 1], "meta.json");
      assert p[..|p| - 1] + [p[|p| - 1]] == p;
    }
  }

  function Identifiers<T>(k: Kind<T>, items: seq<T>): (ids: seq<string>)
    ensures |ids| == |items| && forall i :: 0 <= i < |items| ==> ids[i] == k.identifier(items[i])
  {
    seq(|items|, i requires 0 <= i < |items| => k.identifier(items[i]))
  }

  /** One pass of the loop: the calls it makes, and the error that ends the loop, if any. */
  type Pass = (seq<Effect>, Option<Stop>)

  /** The loop body for item `c`. */
  function ItemRun<T>(j: Job<T>, tokens: map<string, PlaybackAccessToken>, c: T): Pass {
    var out := OutputDir(j);
    match j.disk.createDir(out)
    case Some(why) => ([CreateDir(out)], Some(Exit(ExitMsg(CannotCreateDir, why))))
    case None =>
      var p := MediaPath(j, c);
      var id := j.kind.identifier(c);
      if id !in tokens then ([CreateDir(out)], Some(Panic(MissingToken(id))))
      else
        var e := [CreateDir(out), Fetch(j.kind.meta(c), p)];
        match j.kind.download(c, tokens[id], p, j.kind.noun)
        case Failure(m) => (e, Some(Exit(m)))
        case Success(got) =>
          var s := SidecarPath(p);
          match j.disk.createFile(s)
          case Some(why) => (e, Some(Exit(ExitMsg(PullCannotOpenMeta, why))))
          case None => (e + [WriteSidecar(s, j.kind.meta(got))], None)
  }

  /** Running passes one after the other: each pass's calls in turn, up to and including the first error. */
  function Chain(passes: seq<Pass>): (seq<Effect>, Outcome) {
    if passes == [] then ([], Done)
    else
      match passes[0].1
      case Some(s) => (passes[0].0, Stopped(s))
      case None =>
        var rest := Chain(passes[1..]);
        (passes[0].0 + rest.0, rest.1)
  }

  /** The passes the loop would make over all of the items. */
  function Passes<T>(j: Job<T>, tokens: map<string, PlaybackAccessToken>, items: seq<T>): (ps: seq<Pass>)
    ensures |ps| == |items| && forall i :: 0 <= i < |items| ==> ps[i] == ItemRun(j, tokens, items[i])
  {
    seq(|items|, i requires 0 <= i < |items| => ItemRun(j, tokens, items[i]))
  }

  /** The loop of `download_stuff` over the user's items. */
  function ItemsRun<T>(j: Job<T>, tokens: map<string, PlaybackAccessToken>, items: seq<T>): (seq<Effect>, Outcome) {
    Chain(Passes(j, tokens, items))
  }

  /** The whole call, on the value of the table: the new table, the calls made, and how it ended. */
  function DownloadStuffRun<T>(j: Job<T>, content: map<string, seq<T>>): (map<string, seq<T>>, seq<Effect>, Outcome) {
    if j.user !in content then (content, [], Stopped(Panic(MissingEntry(j.user))))
    else
      var r := ListRun(j, content[j.user]);
      (content - {j.user}, r.0, r.1)
  }

  /** What the call does with the user's list once it has it: the token request, then the loop. */
  function ListRun<T>(j: Job<T>, items: seq<T>): (seq<Effect>, Outcome) {
    var ids := Identifiers(j.kind, items);
    match j.kind.tokens(ids)
    case Failure(m) => ([FetchTokens(ids)], Stopped(Exit(m)))
    case Success(tokens) =>
      var r := ItemsRun(j, tokens, items);
      ([FetchTokens(ids)] + r.0, r.1)
  }

  // ---------------------------------------------------------------- stopping at the first error

  /** How many passes, from the front, end without an error. */
  function Leading(passes: seq<Pass>): (n: nat)
    ensures n <= |passes|
    ensures n < |passes| ==> passes[n].1.Some?
  {
    if passes == [] || passes[0].1.Some? then 0 else 1 + Leading(passes[1..])
  }

  /** Every pass before the first failing one ends without error. */
  lemma {:induction false} LeadingSucceed(passes: seq<Pass>)
    ensures forall i :: 0 <= i < Leading(passes) ==> passes[i].1.None?
    decreases |passes|
  {
    if passes != [] && passes[0].1.None? {
      LeadingSucceed(passes[1..]);
      forall i | 0 < i < Leading(passes)
        ensures passes[i].1.None?
      {
        assert passes[i] == passes[1..][i - 1];
      }
    }
  }

  /** All the calls of the given passes, in order. */
  function Flatten(passes: seq<Pass>): seq<Effect> {
    if passes == [] then [] else passes[0].0 + Flatten(passes[1..])
  }

  /**
   * The loop makes the calls of every pass before the first failing one,
   * then those of the failing pass, and nothing after it.
   */
  lemma {:induction false} ChainCallsStopAtFirstError(passes: seq<Pass>)
    ensures Chain(passes).0 == Flatten(passes[..Leading(passes)])
      + (if Leading(passes) < |passes| then passes[Leading(passes)].0 else [])
    decreases |passes|
  {
    if passes != [] {
      var n := Leading(passes);
      if passes[0].1.Some? {
        assert passes[..0] == [];
      } else {
        var rest := passes[1..];
        ChainCallsStopAtFirstError(rest);
        assert passes[..n][1..] == rest[..n - 1];
        if n < |passes| {
          assert rest[n - 1] == passes[n];
        }
      }
    }
  }

  /** The loop ends with the first failing pass's error, or `Done` when no pass fails. */
  lemma {:induction false} ChainEndsAtFirstError(passes: seq<Pass>)
    ensures Chain(passes).1 == if Leading(passes) < |passes| then Stopped(passes[Leading(passes)].1.value) else Done
    decreases |passes|
  {
    if passes != [] && passes[0].1.None? {
      ChainEndsAtFirstError(passes[1..]);
    }
  }

  // ---------------------------------------------------------------- sidecars

  /** The paths of the sidecars written, in order. */
  function Sidecars(e: seq<Effect>): seq<Path> {
    if e == [] then []
    else (if e[0].WriteSidecar? then [e[0].path] else []) + Sidecars(e[1..])
  }

  lemma {:induction false} SidecarsAppend(a: seq<Effect>, b: seq<Effect>)
    ensures Sidecars(a + b) == Sidecars(a) + Sidecars(b)
    decreases |a|
  {
    if a != [] {
      assert (a + b)[1..] == a[1..] + b;
      SidecarsAppend(a[1..], b);
    } else {
      assert a + b == b;
    }
  }

  /** An item's pass writes the sidecar of its media file when it ends without error, and nothing otherwise. */
  lemma ItemSidecars<T>(j: Job<T>, tokens: map<string, PlaybackAccessToken>, c: T)
    ensures Sidecars(ItemRun(j, tokens, c).0) ==
      if ItemRun(j, tokens, c).1.None? then [SidecarPath(MediaPath(j, c))] else []
  {
    var out := OutputDir(j);
    var p := MediaPath(j, c);
    assert Sidecars([CreateDir(out)]) == [];
    assert Sidecars([Fetch(j.kind.meta(c), p)]) == [];
    assert [CreateDir(out), Fetch(j.kind.meta(c), p)][1..] == [Fetch(j.kind.meta(c), p)];
    assert Sidecars([CreateDir(out), Fetch(j.kind.meta(c), p)]) == [];
    if ItemRun(j, tokens, c).1.None? {
      var e := [CreateDir(out), Fetch(j.kind.meta(c), p)];
      var w := WriteSidecar(SidecarPath(p), j.kind.meta(j.kind.download(c, tokens[j.kind.identifier(c)], p, j.kind.noun).value));
      SidecarsAppend(e, [w]);
    }
  }

  /** Where the sidecars of the items go, in list order. */
  function MediaSidecars<T>(j: Job<T>, items: seq<T>): (paths: seq<Path>)
    ensures |paths| == |items| && forall i :: 0 <= i < |items| ==> paths[i] == SidecarPath(MediaPath(j, items[i]))
  {
    seq(|items|, i requires 0 <= i < |items| => SidecarPath(MediaPath(j, items[i])))
  }

  /** The pass writes the sidecar at `path` when it ends without error, and none otherwise. */
  predicate WritesOwnSidecar(p: Pass, path: Path) {
    Sidecars(p.0) == if p.1.None? then [path] else []
  }

  /**
   * When each pass writes its own sidecar if it ends without error and none
   * otherwise, the loop writes those of the passes before the first failing one.
   */
  lemma {:induction false} ChainSidecars(passes: seq<Pass>, paths: seq<Path>)
    requires |paths| == |passes|
    requires forall k :: 0 <= k < |passes| ==> WritesOwnSidecar(passes[k], paths[k])
    ensures Sidecars(Chain(passes).0) == paths[..Leading(passes)]
    decreases |passes|
  {
    if passes != [] && passes[0].1.None? {
      var rest := passes[1..];
      forall k | 0 <= k < |rest|
        ensures WritesOwnSidecar(rest[k], paths[1..][k])
      {
        assert rest[k] == passes[k + 1] && paths[1..][k] == paths[k + 1];
      }
      ChainSidecars(rest, paths[1..]);
      assert Sidecars(passes[0].0) == [paths[0]] by {
        assert WritesOwnSidecar(passes[0], paths[0]);
      }
      SidecarsAppend(passes[0].0, Chain(rest).0);
      PrefixAfterHead(paths, Leading(rest));
    }
  }

  lemma PrefixAfterHead<X>(xs: seq<X>, n: nat)
    requires n < |xs|
    ensures xs[..n + 1] == [xs[0]] + xs[1..][..n]
  {
  }

  /**
   * One sidecar is written for each item before the first failing one, in
   * list order, at that item's media path with the extension replaced;
   * none for the failing item or any after it.
   */
  lemma ItemsRunSidecars<T>(j: Job<T>, tokens: map<string, PlaybackAccessToken>, items: seq<T>)
    ensures Sidecars(ItemsRun(j, tokens, items).0) == MediaSidecars(j, items)[..Leading(Passes(j, tokens, items))]
  {
    var ps := Passes(j, tokens, items);
    var paths := MediaSidecars(j, items);
    forall k | 0 <= k < |ps|
      ensures WritesOwnSidecar(ps[k], paths[k])
    {
      ItemSidecars(j, tokens, items[k]);
    }
    ChainSidecars(ps, paths);
  }

  // ---------------------------------------------------------------- where the calls go

  /** In a run of calls, a sidecar write comes right after the download of the file it describes. */
  predicate SidecarsFollowDownloads(e: seq<Effect>) {
    forall i :: 0 <= i < |e| && e[i].WriteSidecar? ==> SidecarFollows(e, i)
  }

  predicate SidecarFollows(e: seq<Effect>, i: nat)
    requires i < |e| && e[i].WriteSidecar?
  {
    0 < i && e[i - 1].Fetch? && e[i].path == SidecarPath(e[i - 1].path)
  }

  /** Every call is inside the user's output directory, and none is a token request. */
  predicate InsideUserDir(e: seq<Effect>, out: Path) {
    forall i :: 0 <= i < |e| ==> Inside(e[i], out)
  }

  predicate Inside(e: Effect, out: Path) {
    && !e.FetchTokens?
    && (e.CreateDir? ==> e.path == out)
    && (e.Fetch? || e.WriteSidecar? ==> |e.path| == |out| + 1 && e.path[..|out|] == out)
  }

  /** A run of calls that could be a whole number of passes: each sidecar write follows its download, and none comes first. */
  predicate InOrder(e: seq<Effect>) {
    SidecarsFollowDownloads(e) && (e != [] ==> !e[0].WriteSidecar?)
  }

  /** Every item of the list has a proper file name (not empty, "." or ".."). */
  predicate ProperNames<T>(k: Kind<T>, items: seq<T>) {
    forall i :: 0 <= i < |items| ==> IsFileName(k.filename(items[i]))
  }

  /**
   * Each pass first creates the user's directory, and writes the sidecar,
   * if at all, right after the download; for an item with a proper file
   * name every call stays inside the user's directory.
   */
  lemma ItemCalls<T>(j: Job<T>, tokens: map<string, PlaybackAccessToken>, c: T)
    ensures var e := ItemRun(j, tokens, c).0;
      e != [] && e[0] == CreateDir(OutputDir(j)) && InOrder(e)
    ensures IsFileName(j.kind.filename(c)) ==> InsideUserDir(ItemRun(j, tokens, c).0, OutputDir(j))
  {
  }

  /**
   * A pass ends without error, and so writes its sidecar, exactly when the
   * directory is created, the item has a token, its download returns `Ok`
   * and the sidecar file can be created: a failed download writes nothing.
   */
  lemma ItemPassSucceeds<T>(j: Job<T>, tokens: map<string, PlaybackAccessToken>, c: T)
    ensures ItemRun(j, tokens, c).1.None? <==>
      (&& j.disk.createDir(OutputDir(j)).None?
       && j.kind.identifier(c) in tokens
       && j.kind.download(c, tokens[j.kind.identifier(c)], MediaPath(j, c), j.kind.noun).Success?
       && j.disk.createFile(SidecarPath(MediaPath(j, c))).None?)
    ensures Sidecars(ItemRun(j, tokens, c).0) != [] ==>
      j.kind.identifier(c) in tokens && j.kind.download(c, tokens[j.kind.identifier(c)], MediaPath(j, c), j.kind.noun).Success?
  {
    ItemSidecars(j, tokens, c);
  }

  /**
   * An item whose file name is empty or "." is downloaded to the user's
   * directory itself, and its sidecar lands beside that directory: the
   * user's name with the new extension, directly in `output_dir`.
   */
  lemma SidecarBesideUserDir<T>(j: Job<T>, c: T)
    requires IsFileName(j.user) && (j.kind.filename(c) == "" || j.kind.filename(c) == ".")
    ensures SidecarPath(MediaPath(j, c)) == j.dir + [WithExtension(j.user, "meta.json")]
  {
    SetExtensionSkipsTrailing(j.dir, j.user, j.kind.filename(c), "meta.json");
    assert MediaPath(j, c) == j.dir + [j.user, j.kind.filename(c)];
  }

  /** An item named ".." has no file name: its sidecar path is its media path, the parent directory. */
  lemma SidecarOfParentName<T>(j: Job<T>, c: T)
    requires j.kind.filename(c) == ".."
    ensures SidecarPath(MediaPath(j, c)) == MediaPath(j, c)
  {
    SetExtensionOfParent(OutputDir(j), "meta.json");
  }

  lemma ConcatFollows(a: seq<Effect>, b: seq<Effect>)
    requires SidecarsFollowDownloads(a) && SidecarsFollowDownloads(b)
    requires b != [] ==> !b[0].WriteSidecar?
    ensures SidecarsFollowDownloads(a + b)
  {
    var e := a + b;
    forall i | 0 <= i < |e| && e[i].WriteSidecar?
      ensures SidecarFollows(e, i)
    {
      if i >= |a| {
        assert SidecarFollows(b, i - |a|);
        assert e[i - 1] == b[i - |a| - 1];
      } else {
        assert SidecarFollows(a, i);
        assert e[i - 1] == a[i - 1];
      }
    }
  }

  lemma ConcatInside(a: seq<Effect>, b: seq<Effect>, out: Path)
    requires InsideUserDir(a, out) && InsideUserDir(b, out)
    ensures InsideUserDir(a + b, out)
  {
    var e := a + b;
    forall i | 0 <= i < |e|
      ensures Inside(e[i], out)
    {
      if i < |a| { assert e[i] == a[i]; } else { assert e[i] == b[i - |a|]; }
    }
  }

  lemma ConcatInOrder(a: seq<Effect>, b: seq<Effect>)
    requires InOrder(a) && InOrder(b)
    ensures InOrder(a + b)
  {
    ConcatFollows(a, b);
    if a == [] {
      assert a + b == b;
    }
  }

  /** Passes whose calls are each in order stay in order however far the loop gets. */
  lemma {:induction false} ChainInOrder(passes: seq<Pass>)
    requires forall k :: 0 <= k < |passes| ==> InOrder(passes[k].0)
    ensures InOrder(Chain(passes).0)
    decreases |passes|
  {
    if passes != [] && passes[0].1.None? {
      ChainInOrder(passes[1..]);
      ConcatInOrder(passes[0].0, Chain(passes[1..]).0);
    }
  }

  /** Passes that each stay inside `out` stay inside it however far the loop gets. */
  lemma {:induction false} ChainInside(passes: seq<Pass>, out: Path)
    requires forall k :: 0 <= k < |passes| ==> InsideUserDir(passes[k].0, out)
    ensures InsideUserDir(Chain(passes).0, out)
    decreases |passes|
  {
    if passes != [] && passes[0].1.None? {
      ChainInside(passes[1..], out);
      ConcatInside(passes[0].0, Chain(passes[1..]).0, out);
    }
  }

  /**
   * Every sidecar write in the loop directly follows the download of its
   * media file; when every item has a proper file name, every call stays
   * inside `output_dir/user`.
   */
  lemma ItemsRunCalls<T>(j: Job<T>, tokens: map<string, PlaybackAccessToken>, items: seq<T>)
    ensures InOrder(ItemsRun(j, tokens, items).0)
    ensures ProperNames(j.kind, items) ==> InsideUserDir(ItemsRun(j, tokens, items).0, OutputDir(j))
  {
    var ps := Passes(j, tokens, items);
    forall k | 0 <= k < |ps|
      ensures InOrder(ps[k].0)
      ensures ProperNames(j.kind, items) ==> InsideUserDir(ps[k].0, OutputDir(j))
    {
      ItemCalls(j, tokens, items[k]);
    }
    ChainInOrder(ps);
    if ProperNames(j.kind, items) {
      ChainInside(ps, OutputDir(j));
    }
  }

  // ---------------------------------------------------------------- the call

  /**
   * `download_stuff` takes out exactly the user's entry and leaves every
   * other entry as it was; a missing entry is the panic of `unwrap`, with
   * no call made.
   */
  lemma DownloadStuffTakesUserEntry<T>(j: Job<T>, content: map<string, seq<T>>)
    ensures DownloadStuffRun(j, content).0 == content - {j.user}
    ensures forall u :: u != j.user && u in content ==>
      (u in DownloadStuffRun(j, content).0 && DownloadStuffRun(j, content).0[u] == content[u])
    ensures j.user !in content ==>
      (DownloadStuffRun(j, content).1 == [] && DownloadStuffRun(j, content).2 == Stopped(Panic(MissingEntry(j.user))))
  {
  }

  /**
   * Tokens are requested once, first, for exactly the identifiers of the
   * user's items in list order; every sidecar write directly follows its
   * download; when every item has a proper file name, every later call is
   * inside `output_dir/user`.
   */
  lemma DownloadStuffCalls<T>(j: Job<T>, content: map<string, seq<T>>)
    requires j.user in content
    ensures var e := DownloadStuffRun(j, content).1;
      && e != [] && e[0] == FetchTokens(Identifiers(j.kind, content[j.user]))
      && InOrder(e[1..])
      && SidecarsFollowDownloads(e)
    ensures ProperNames(j.kind, content[j.user]) ==>
      InsideUserDir(DownloadStuffRun(j, content).1[1..], OutputDir(j))
  {
    var items := content[j.user];
    var ids := Identifiers(j.kind, items);
    var e := DownloadStuffRun(j, content).1;
    if j.kind.tokens(ids).Success? {
      var tokens := j.kind.tokens(ids).value;
      ItemsRunCalls(j, tokens, items);
      var rest := ItemsRun(j, tokens, items).0;
      assert e == [FetchTokens(ids)] + rest;
      assert e[1..] == rest;
      forall i | 0 <= i < |e| && e[i].WriteSidecar?
        ensures SidecarFollows(e, i)
      {
        assert SidecarFollows(rest, i - 1);
        assert e[i] == rest[i - 1];
      }
    } else {
      assert e == [FetchTokens(ids)];
    }
  }

  /**
   * The call returns `Ok` exactly when the user has an entry, the tokens
   * arrive and no item's pass fails.
   */
  lemma DownloadStuffOutcome<T>(j: Job<T>, content: map<string, seq<T>>)
    ensures DownloadStuffRun(j, content).2 == Done <==>
      (&& j.user in content
       && j.kind.tokens(Identifiers(j.kind, content[j.user])).Success?
       && forall i :: 0 <= i < |content[j.user]| ==>
            ItemRun(j, j.kind.tokens(Identifiers(j.kind, content[j.user])).value, content[j.user][i]).1.None?)
  {
    if j.user in content {
      var items := content[j.user];
      var ids := Identifiers(j.kind, items);
      if j.kind.tokens(ids).Success? {
        var ps := Passes(j, j.kind.tokens(ids).value, items);
        ChainEndsAtFirstError(ps);
        LeadingSucceed(ps);
      }
    }
  }

  /**
   * Once the tokens arrive, the call writes one sidecar per item, in list
   * order, up to the first item whose pass fails; it then ends with that
   * item's error.
   */
  lemma DownloadStuffSidecars<T>(j: Job<T>, content: map<string, seq<T>>)
    requires j.user in content && j.kind.tokens(Identifiers(j.kind, content[j.user])).Success?
    ensures Sidecars(DownloadStuffRun(j, content).1) ==
      MediaSidecars(j, content[j.user])[..Leading(Passes(j, j.kind.tokens(Identifiers(j.kind, content[j.user])).value, content[j.user]))]
    ensures var tokens := j.kind.tokens(Identifiers(j.kind, content[j.user])).value;
      Leading(Passes(j, tokens, content[j.user])) < |content[j.user]| ==>
        DownloadStuffRun(j, content).2 == Stopped(ItemRun(j, tokens, content[j.user][Leading(Passes(j, tokens, content[j.user]))]).1.value)
  {
    var items := content[j.user];
    var ids := Identifiers(j.kind, items);
    var tokens := j.kind.tokens(ids).value;
    ChainEndsAtFirstError(Passes(j, tokens, items));
    ItemsRunSidecars(j, tokens, items);
    SidecarsAppend([FetchTokens(ids)], ItemsRun(j, tokens, items).0);
    assert Sidecars([FetchTokens(ids)]) == [];
  }

  // ---------------------------------------------------------------- the methods

  /** The body of the loop for item `c`, on the host: its calls are those `ItemRun` describes. */
  method DownloadItem<T>(host: Host, j: Job<T>, tokens: map<string, PlaybackAccessToken>, c: T, ghost p: Pass) returns (stop: Option<Stop>)
    requires p == ItemRun(j, tokens, c)
    modifies host
    ensures host.log == old(host.log) + p.0
    ensures stop == p.1
  {
    var out := Join(j.dir, j.user);
    host.Record(CreateDir(out));
    var dirError := j.disk.createDir(out);
    if dirError.Some? {
      return Some(Exit(ExitMsg(CannotCreateDir, dirError.value)));
    }
    var path := Join(out, j.kind.filename(c));
    var id := j.kind.identifier(c);
    if id !in tokens {
      return Some(Panic(MissingToken(id)));
    }
    var token := tokens[id];
    host.Record(Fetch(j.kind.meta(c), path));
    var got := j.kind.download(c, token, path, j.kind.noun);
    if got.Failure? {
      return Some(Exit(got.error));
    }
    var sidecar := SidecarPath(path);
    var fileError := j.disk.createFile(sidecar);
    if fileError.Some? {
      return Some(Exit(ExitMsg(PullCannotOpenMeta, fileError.value)));
    }
    host.Record(WriteSidecar(sidecar, j.kind.meta(got.value)));
    stop := None;
  }

  /** One turn of a loop that runs the passes in order, stated on the remaining passes. */
  lemma ChainTurn(passes: seq<Pass>, i: nat)
    requires i < |passes|
    ensures passes[i].1.Some? ==> Chain(passes[i..]) == (passes[i].0, Stopped(passes[i].1.value))
    ensures passes[i].1.None? ==> Chain(passes[i..]) == (passes[i].0 + Chain(passes[i + 1..]).0, Chain(passes[i + 1..]).1)
  {
    assert passes[i..][0] == passes[i] && passes[i..][1..] == passes[i + 1..];
  }

  /** The loop of `download_stuff` over the user's items, on the host, given the pass each item makes. */
  method DownloadItems<T>(host: Host, j: Job<T>, tokens: map<string, PlaybackAccessToken>, items: seq<T>, ghost ps: seq<Pass>)
      returns (o: Outcome)
    requires |ps| == |items|
    requires forall k {:trigger items[k]} :: 0 <= k < |items| ==> ps[k] == ItemRun(j, tokens, items[k])
    modifies host
    ensures host.log == old(host.log) + Chain(ps).0
    ensures o == Chain(ps).1
  {
    var i := 0;
    while i < |items|
      invariant 0 <= i <= |items|
      invariant old(host.log) + Chain(ps).0 == host.log + Chain(ps[i..]).0
      invariant Chain(ps).1 == Chain(ps[i..]).1
    {
      ChainTurn(ps, i);
      var stop := DownloadItem(host, j, tokens, items[i], ps[i]);
      if stop.Some? {
        return Stopped(stop.value);
      }
      i := i + 1;
    }
    assert ps[i..] == [];
    o := Done;
  }

  /**
   * `download_stuff`, on a table and the host: its effect on both is the
   * one `DownloadStuffRun` describes.
   */
  method DownloadStuff<T(!new)>(table: Table<T>, host: Host, j: Job<T>) returns (o: Outcome)
    modifies table, host
    ensures table.entries == DownloadStuffRun(j, old(table.entries)).0
    ensures host.log == old(host.log) + DownloadStuffRun(j, old(table.entries)).1
    ensures o == DownloadStuffRun(j, old(table.entries)).2
  {
    var removed := table.Remove(j.user);
    if removed.None? {
      return Stopped(Panic(MissingEntry(j.user)));
    }
    o := DownloadList(host, j, removed.value);
  }

  /** The token request fails: only the request was made, and its error ends the call. */
  lemma ListRunFails<T>(j: Job<T>, items: seq<T>)
    requires j.kind.tokens(Identifiers(j.kind, items)).Failure?
    ensures ListRun(j, items).0 == [FetchTokens(Identifiers(j.kind, items))]
    ensures ListRun(j, items).1 == Stopped(Exit(j.kind.tokens(Identifiers(j.kind, items)).error))
  {
  }

  /** The token request succeeds: the request, then the loop over the items with those tokens. */
  lemma ListRunFetches<T>(j: Job<T>, items: seq<T>, tokens: map<string, PlaybackAccessToken>)
    requires j.kind.tokens(Identifiers(j.kind, items)) == Success(tokens)
    ensures ListRun(j, items).0 == [FetchTokens(Identifiers(j.kind, items))] + Chain(Passes(j, tokens, items)).0
    ensures ListRun(j, items).1 == Chain(Passes(j, tokens, items)).1
  {
  }

  /** The token request and the loop, on the host: the calls and the outcome `ListRun` describes. */
  method DownloadList<T>(host: Host, j: Job<T>, items: seq<T>) returns (o: Outcome)
    modifies host
    ensures host.log == old(host.log) + ListRun(j, items).0
    ensures o == ListRun(j, items).1
  {
    var ids := Identifiers(j.kind, items);
    host.Record(FetchTokens(ids));
    var fetched := j.kind.tokens(ids);
    if fetched.Failure? {
      ListRunFails(j, items);
      return Stopped(Exit(fetched.error));
    }
    o := DownloadItems(host, j, fetched.value, items, Passes(j, fetched.value, items));
    ListRunFetches(j, items, fetched.value);
    assert host.log == old(host.log) + ([FetchTokens(ids)] + Chain(Passes(j, fetched.value, items)).0);
  }
}
