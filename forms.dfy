/**
 * The URL forms the info command recognises, written out as the strings
 * they are made of. For each URL pattern: every string of the form is
 * accepted with the expected id, and every accepted string is of the form.
 * Then the order of the table decides how each form is classified.
 */
module Forms {
  import opened Wrappers
  import opened Patterns
  import opened Info

  predicate IsScheme(p: string) { p == "" || p == "http://" || p == "https://" }

  predicate IsWww(w: string) { w == "" || w == "www." }

  /** `(\?.*)?`: nothing, or a '?' and then anything but a line feed. */
  predicate IsQuery(q: string) {
    q == [] || (q[0] == '?' && forall k :: 1 <= k < |q| ==> q[k] != '\n')
  }

  predicate IsDigits(d: string) { d != [] && AllIn(d, Digit) }

  /** `[a-zA-Z0-9][\w]{3,24}` */
  predicate IsChannelName(n: string) {
    4 <= |n| <= 25 && In(Alnum, n[0]) && forall k :: 1 <= k < |n| ==> In(Word, n[k])
  }

  /** `\w+` */
  predicate IsWordRun(w: string) { w != [] && AllIn(w, Word) }

  /** `[A-Za-z0-9]+(?:-[A-Za-z0-9_-]{16})?` */
  predicate IsClipSlug(x: string) {
    (x != [] && AllIn(x, Alnum))
    || (|x| >= 18 && x[|x| - 17] == '-'
        && (forall k :: 0 <= k < |x| - 17 ==> In(Alnum, x[k]))
        && (forall k :: |x| - 16 <= k < |x| ==> In(SlugChar, x[k])))
  }

  /** `twitch`, one separator character, then `tv/` and the rest of the URL. */
  function HostText(sep: char, rest: string): string {
    "twitch" + ([sep] + ("tv/" + rest))
  }

  function VideoUrlText(scheme: string, www: string, sep: char, id: string, query: string): string {
    scheme + (www + HostText(sep, "videos/" + (id + query)))
  }

  function ChannelUrlText(scheme: string, www: string, name: string, query: string): string {
    scheme + (www + HostText('.', name + query))
  }

  function ClipUrlText(scheme: string, www: string, sep: char, user: string, slug: string, query: string): string {
    scheme + (www + HostText(sep, user + ("/clip/" + (slug + query))))
  }

  function ClipsHostUrlText(scheme: string, sep: char, slug: string, query: string): string {
    scheme + ("clips." + HostText(sep, slug + query))
  }

  // ------------------------------------------------------------ moving along a string

  lemma LitAtFront(lit: string, rest: string)
    ensures LitAt(lit + rest, 0, lit)
  {
    assert (lit + rest)[0..|lit|] == lit;
  }

  /** Facts about a suffix `t` of `s == p + t` carry over to `s`, shifted by the prefix. */
  lemma LitAtShift(s: string, p: string, t: string, j: nat, k: nat, lit: string)
    requires s == p + t && j <= |t| && k == |p| + j
    ensures LitAt(s, k, lit) <==> LitAt(t, j, lit)
  {
    if k + |lit| <= |s| {
      assert s[k..k + |lit|] == t[j..j + |lit|];
    }
  }

  lemma {:induction false} RunEndShift(s: string, p: string, t: string, j: nat, k: nat, cls: CharClass)
    requires s == p + t && j <= |t| && k == |p| + j
    ensures RunEnd(s, k, cls) == |p| + RunEnd(t, j, cls)
    decreases |t| - j
  {
    if j < |t| {
      assert s[k] == t[j];
      if In(cls, t[j]) {
        RunEndShift(s, p, t, j + 1, k + 1, cls);
      }
    }
  }

  lemma QueryTailShift(s: string, p: string, t: string, j: nat, k: nat)
    requires s == p + t && j <= |t| && k == |p| + j
    ensures QueryTail(s, k) <==> QueryTail(t, j)
  {
    if j < |t| {
      assert s[k] == t[j];
      if QueryTail(t, j) {
        forall m | k < m < |s| ensures s[m] != '\n' {
          assert s[m] == t[m - |p|];
        }
      }
      if QueryTail(s, k) {
        forall m | j < m < |t| ensures t[m] != '\n' {
          assert s[|p| + m] == t[m];
        }
      }
    }
  }

  lemma QueryTailOfQuery(q: string)
    requires IsQuery(q)
    ensures QueryTail(q, 0)
  {
  }

  /** A literal found at `j` splits the rest of the string. */
  lemma SplitLit(s: string, j: nat, lit: string)
    requires LitAt(s, j, lit)
    ensures s[j..] == lit + s[j + |lit|..]
  {
    assert s[j..] == s[j..j + |lit|] + s[j + |lit|..];
  }

  lemma SplitAt(s: string, j: nat, k: nat)
    requires j <= k <= |s|
    ensures s[j..] == s[j..k] + s[k..]
  {
  }

  /** After an optional scheme and an optional "www.", the host starts where the two end. */
  lemma PrefixEnds(s: string, scheme: string, www: string, rest: string)
    requires IsScheme(scheme) && IsWww(www) && s == scheme + (www + rest)
    requires rest != [] && (rest[0] == 't' || rest[0] == 'c')
    ensures AfterScheme(s) == |scheme|
    ensures AfterWww(s, |scheme|) == |scheme| + |www|
  {
    SchemeEnds(s, scheme, www + rest);
    WwwEnds(s, scheme, www, rest);
  }

  /** The scheme step stops after the scheme when a 't', 'c' or 'w' follows it. */
  lemma SchemeEnds(s: string, scheme: string, t: string)
    requires IsScheme(scheme) && s == scheme + t
    requires t != [] && (t[0] == 't' || t[0] == 'c' || t[0] == 'w')
    ensures AfterScheme(s) == |scheme|
  {
    if scheme == "https://" {
      LitAtFront(scheme, t);
    } else if scheme == "http://" {
      LitAtFront(scheme, t);
      assert !LitAt(s, 0, "https://") by { assert s[4] == ':'; }
    } else {
      assert s[0] == t[0];
      assert !LitAt(s, 0, "https://") && !LitAt(s, 0, "http://") by { assert s[0] != 'h'; }
    }
  }

  /** The "www." step after the scheme stops after "www." when a 't' or 'c' follows it. */
  lemma WwwEnds(s: string, scheme: string, www: string, rest: string)
    requires IsWww(www) && s == scheme + (www + rest)
    requires rest != [] && (rest[0] == 't' || rest[0] == 'c')
    ensures AfterWww(s, |scheme|) == |scheme| + |www|
  {
    if www == "www." {
      LitAtFront(www, rest);
      LitAtShift(s, scheme, www + rest, 0, |scheme|, "www.");
    } else {
      assert s[|scheme|] == rest[0];
      assert !LitAt(s, |scheme|, "www.") by { assert s[|scheme|] != 'w'; }
    }
  }

  /** The recognisers' scheme and "www." steps only ever skip one of the allowed prefixes. */
  lemma PrefixIsForm(s: string)
    ensures IsScheme(s[..AfterScheme(s)])
    ensures IsWww(s[AfterScheme(s)..AfterWww(s, AfterScheme(s))])
  {
    var a := AfterScheme(s);
    if a == 8 { assert s[..8] == "https://"; }
    else if a == 7 { assert s[..7] == "http://"; }
    var i := AfterWww(s, a);
    if i == a + 4 { assert s[a..a + 4] == "www."; }
  }

  lemma QueryTailIsQuery(s: string, j: nat)
    requires j <= |s| && QueryTail(s, j)
    ensures IsQuery(s[j..])
  {
  }

  // ------------------------------------------------------------ the host part

  /** The host part is ten characters long and is followed by the rest of the URL. */
  lemma HostSplits(sep: char, rest: string)
    ensures HostText(sep, rest) == ("twitch" + [sep] + "tv/") + rest
    ensures |"twitch" + [sep] + "tv/"| == 10
  {
  }

  /** The host part is recognised, with a literal dot when the separator is one. */
  lemma HostRecognised(h: string, sep: char, escapedDot: bool, rest: string)
    requires if escapedDot then sep == '.' else sep != '\n'
    requires h == HostText(sep, rest)
    ensures TwitchTvAt(h, 0, escapedDot)
  {
    LitAtFront("twitch", [sep] + ("tv/" + rest));
    LitAtFront("tv/", rest);
    LitAtShift([sep] + ("tv/" + rest), [sep], "tv/" + rest, 0, 1, "tv/");
    LitAtShift(h, "twitch", [sep] + ("tv/" + rest), 1, 7, "tv/");
  }

  /** The host part of a URL is recognised wherever it follows the scheme and `www`. */
  lemma UrlHost(s: string, scheme: string, www: string, sep: char, escapedDot: bool, rest: string)
    requires if escapedDot then sep == '.' else sep != '\n'
    requires s == scheme + (www + HostText(sep, rest))
    ensures TwitchTvAt(s, |scheme| + |www|, escapedDot)
  {
    HostRecognised(HostText(sep, rest), sep, escapedDot, rest);
    assert s == (scheme + www) + HostText(sep, rest);
    LitAtShift(s, scheme + www, HostText(sep, rest), 0, |scheme| + |www|, "twitch");
    LitAtShift(s, scheme + www, HostText(sep, rest), 7, |scheme| + |www| + 7, "tv/");
    assert s[|scheme| + |www| + 6] == HostText(sep, rest)[6];
  }

  /** A URL whose host part follows the scheme and "www.": where each part starts. */
  lemma UrlPrefix(s: string, scheme: string, www: string, sep: char, escapedDot: bool, rest: string)
    requires IsScheme(scheme) && IsWww(www)
    requires if escapedDot then sep == '.' else sep != '\n'
    requires s == scheme + (www + HostText(sep, rest))
    ensures AfterScheme(s) == |scheme| && AfterWww(s, |scheme|) == |scheme| + |www|
    ensures TwitchTvAt(s, |scheme| + |www|, escapedDot)
  {
    PrefixEnds(s, scheme, www, HostText(sep, rest));
    UrlHost(s, scheme, www, sep, escapedDot, rest);
  }

  /** Everything in a URL before what follows its host part. */
  function UrlHead(scheme: string, www: string, sep: char): string {
    scheme + www + ("twitch" + [sep] + "tv/")
  }

  lemma UrlSplits(s: string, scheme: string, www: string, sep: char, rest: string)
    requires s == scheme + (www + HostText(sep, rest))
    ensures s == UrlHead(scheme, www, sep) + rest
    ensures |UrlHead(scheme, www, sep)| == |scheme| + |www| + 10
  {
    HostSplits(sep, rest);
  }

  /** A literal after the host part of a URL is seen `|scheme| + |www| + 10` characters on. */
  lemma UrlRestLit(s: string, scheme: string, www: string, sep: char, rest: string, j: nat, k: nat, lit: string)
    requires s == scheme + (www + HostText(sep, rest))
    requires j <= |rest| && k == |scheme| + |www| + 10 + j
    ensures LitAt(s, k, lit) <==> LitAt(rest, j, lit)
  {
    UrlSplits(s, scheme, www, sep, rest);
    LitAtShift(s, UrlHead(scheme, www, sep), rest, j, k, lit);
  }

  /** A run after the host part of a URL ends `|scheme| + |www| + 10` characters on. */
  lemma UrlRestRun(s: string, scheme: string, www: string, sep: char, rest: string, j: nat, k: nat, cls: CharClass)
    requires s == scheme + (www + HostText(sep, rest))
    requires j <= |rest| && k == |scheme| + |www| + 10 + j
    ensures k <= |s| && RunEnd(s, k, cls) == |scheme| + |www| + 10 + RunEnd(rest, j, cls)
  {
    UrlSplits(s, scheme, www, sep, rest);
    RunEndShift(s, UrlHead(scheme, www, sep), rest, j, k, cls);
  }

  /** A query after the host part of a URL. */
  lemma UrlRestQuery(s: string, scheme: string, www: string, sep: char, rest: string, j: nat, k: nat)
    requires s == scheme + (www + HostText(sep, rest))
    requires j <= |rest| && k == |scheme| + |www| + 10 + j
    ensures QueryTail(s, k) <==> QueryTail(rest, j)
  {
    UrlSplits(s, scheme, www, sep, rest);
    QueryTailShift(s, UrlHead(scheme, www, sep), rest, j, k);
  }

  /** A character after the host part of a URL. */
  lemma UrlRestChar(s: string, scheme: string, www: string, sep: char, rest: string, j: nat, k: nat)
    requires s == scheme + (www + HostText(sep, rest))
    requires j < |rest| && k == |scheme| + |www| + 10 + j
    ensures k < |s| && s[k] == rest[j]
  {
    UrlSplits(s, scheme, www, sep, rest);
  }

  /** A slice after the host part of a URL. */
  lemma UrlRestSlice(s: string, scheme: string, www: string, sep: char, rest: string, j: nat, k: nat, a: nat, b: nat)
    requires s == scheme + (www + HostText(sep, rest))
    requires j <= k <= |rest| && a == |scheme| + |www| + 10 + j && b == |scheme| + |www| + 10 + k
    ensures b <= |s| && s[a..b] == rest[j..k]
  {
    UrlSplits(s, scheme, www, sep, rest);
    assert s[|scheme| + |www| + 10..] == rest;
    assert s[a..b] == s[|scheme| + |www| + 10..][j..k];
  }

  // ------------------------------------------------------------ video URLs

  /** The number at the end of a video URL runs up to its query. */
  lemma VideoTailRun(id: string, query: string)
    requires IsDigits(id) && IsQuery(query)
    ensures RunEnd("videos/" + (id + query), 7, Digit) == 7 + |id|
  {
    Info.RunEndAt(id + query, 0, |id|, Digit);
    RunEndShift("videos/" + (id + query), "videos/", id + query, 0, 7, Digit);
  }

  /** The query at the end of a video URL. */
  lemma VideoTailQuery(id: string, query: string)
    requires IsQuery(query)
    ensures QueryTail("videos/" + (id + query), 7 + |id|)
  {
    QueryTailOfQuery(query);
    QueryTailShift(id + query, id, query, 0, |id|);
    QueryTailShift("videos/" + (id + query), "videos/", id + query, |id|, 7 + |id|);
  }

  /** The parts the video URL pattern looks for: the host at `i`, the number up to `b`. */
  predicate VideoUrlHas(s: string, i: nat, b: nat) {
    AfterScheme(s) <= |s| && AfterWww(s, AfterScheme(s)) == i
    && TwitchTvAt(s, i, false) && LitAt(s, i + 10, "videos/")
    && RunEnd(s, i + 17, Digit) == b && b > i + 17 && QueryTail(s, b)
  }

  /** The video URL pattern matches once each of its parts has been found. */
  lemma VideoUrlFrom(s: string, i: nat, b: nat)
    requires VideoUrlHas(s, i, b)
    ensures VideoUrl(s) == Match(Some(Span(i + 17, b)))
  {
  }

  /** Where the parts of a video URL start. */
  lemma VideoParts(s: string, scheme: string, www: string, sep: char, id: string, query: string)
    requires IsScheme(scheme) && IsWww(www) && sep != '\n'
    requires s == VideoUrlText(scheme, www, sep, id, query)
    ensures AfterScheme(s) == |scheme| && AfterWww(s, |scheme|) == |scheme| + |www|
    ensures TwitchTvAt(s, |scheme| + |www|, false) && LitAt(s, |scheme| + |www| + 10, "videos/")
  {
    UrlPrefix(s, scheme, www, sep, false, "videos/" + (id + query));
    LitAtFront("videos/", id + query);
    UrlRestLit(s, scheme, www, sep, "videos/" + (id + query), 0, |scheme| + |www| + 10, "videos/");
  }

  /** The number of a video URL runs up to its query. */
  lemma VideoNumber(s: string, scheme: string, www: string, sep: char, id: string, query: string)
    requires s == VideoUrlText(scheme, www, sep, id, query)
    requires RunEnd("videos/" + (id + query), 7, Digit) == 7 + |id|
    ensures RunEnd(s, |scheme| + |www| + 17, Digit) == |scheme| + |www| + 17 + |id|
  {
    UrlRestRun(s, scheme, www, sep, "videos/" + (id + query), 7, |scheme| + |www| + 17, Digit);
  }

  /** The number of a video URL is followed by its query. */
  lemma VideoQuery(s: string, scheme: string, www: string, sep: char, id: string, query: string)
    requires s == VideoUrlText(scheme, www, sep, id, query)
    requires QueryTail("videos/" + (id + query), 7 + |id|)
    ensures QueryTail(s, |scheme| + |www| + 17 + |id|)
  {
    UrlRestQuery(s, scheme, www, sep, "videos/" + (id + query), 7 + |id|, |scheme| + |www| + 17 + |id|);
  }

  /** The number of a video URL is where the pattern's id group lies. */
  lemma VideoNumberSlice(s: string, scheme: string, www: string, sep: char, id: string, query: string)
    requires s == VideoUrlText(scheme, www, sep, id, query)
    ensures |scheme| + |www| + 17 + |id| <= |s|
    ensures s[|scheme| + |www| + 17..|scheme| + |www| + 17 + |id|] == id
  {
    assert ("videos/" + (id + query))[7..7 + |id|] == id;
    UrlRestSlice(s, scheme, www, sep, "videos/" + (id + query), 7, 7 + |id|,
      |scheme| + |www| + 17, |scheme| + |www| + 17 + |id|);
  }

  /** The video URL pattern matches at the positions of a video URL's parts. */
  lemma VideoUrlMatches(s: string, scheme: string, www: string, id: string)
    requires VideoUrlHas(s, |scheme| + |www|, |scheme| + |www| + 17 + |id|)
    ensures VideoUrl(s) == Match(Some(Span(|scheme| + |www| + 17, |scheme| + |www| + 17 + |id|)))
  {
    VideoUrlFrom(s, |scheme| + |www|, |scheme| + |www| + 17 + |id|);
  }

  /** A video URL has every part the video URL pattern looks for. */
  lemma VideoHas(s: string, scheme: string, www: string, sep: char, id: string, query: string)
    requires IsScheme(scheme) && IsWww(www) && sep != '\n' && IsDigits(id) && IsQuery(query)
    requires s == VideoUrlText(scheme, www, sep, id, query)
    ensures VideoUrlHas(s, |scheme| + |www|, |scheme| + |www| + 17 + |id|)
  {
    VideoParts(s, scheme, www, sep, id, query);
    VideoTailRun(id, query);
    VideoNumber(s, scheme, www, sep, id, query);
    VideoTailQuery(id, query);
    VideoQuery(s, scheme, www, sep, id, query);
  }

  /** Every video URL is accepted by the video URL pattern, with the number as its id. */
  lemma VideoUrlAccepted(s: string, scheme: string, www: string, sep: char, id: string, query: string)
    requires IsScheme(scheme) && IsWww(www) && sep != '\n' && IsDigits(id) && IsQuery(query)
    requires s == VideoUrlText(scheme, www, sep, id, query)
    ensures VideoUrl(s) == Match(Some(Span(|scheme| + |www| + 17, |scheme| + |www| + 17 + |id|)))
    ensures |scheme| + |www| + 17 + |id| <= |s| && s[|scheme| + |www| + 17..|scheme| + |www| + 17 + |id|] == id
  {
    VideoHas(s, scheme, www, sep, id, query);
    VideoUrlMatches(s, scheme, www, id);
    VideoNumberSlice(s, scheme, www, sep, id, query);
  }

  /** A URL splits into the text before `twitch`, the host part and the rest. */
  lemma HostAt(s: string, i: nat, escapedDot: bool)
    requires TwitchTvAt(s, i, escapedDot)
    ensures s[i..] == HostText(s[i + 6], s[i + 10..])
  {
    SplitLit(s, i, "twitch");
    SplitLit(s, i + 7, "tv/");
    assert s[i + 6..] == [s[i + 6]] + s[i + 7..];
  }

  /** A string is what comes before `a`, what lies between `a` and `i`, and the rest. */
  lemma ThreeWay(s: string, a: nat, i: nat)
    requires a <= i <= |s|
    ensures s == s[..a] + (s[a..i] + s[i..])
  {
    assert s[a..] == s[a..i] + s[i..];
    assert s == s[..a] + s[a..];
  }

  /** The characters of a maximal run all belong to its class. */
  lemma RunSlice(s: string, i: nat, cls: CharClass)
    requires i <= |s|
    ensures AllIn(s[i..RunEnd(s, i, cls)], cls)
  {
    var t := s[i..RunEnd(s, i, cls)];
    RunChars(s, i, cls);
    forall k | 0 <= k < |t| ensures In(cls, t[k]) {
      assert t[k] == s[i + k];
    }
  }

  /** A string with the host and the `videos/` where the video URL pattern looks for them. */
  lemma VideoShape(s: string, a: nat, i: nat, b: nat)
    requires a <= i && TwitchTvAt(s, i, false) && LitAt(s, i + 10, "videos/") && i + 17 <= b <= |s|
    ensures s == VideoUrlText(s[..a], s[a..i], s[i + 6], s[i + 17..b], s[b..])
  {
    ThreeWay(s, a, i);
    HostAt(s, i, false);
    SplitLit(s, i + 10, "videos/");
    SplitAt(s, i + 17, b);
  }

  /** What a match of the video URL pattern has found, and where. */
  lemma VideoUrlFound(s: string)
    requires VideoUrl(s).Match?
    ensures var a := AfterScheme(s); var i := AfterWww(s, a); var b := VideoUrl(s).id.value.end;
      && a <= i && TwitchTvAt(s, i, false) && LitAt(s, i + 10, "videos/")
      && VideoUrl(s).id.value.start == i + 17 && i + 17 < b <= |s|
      && RunEnd(s, i + 17, Digit) == b && QueryTail(s, b)
  {
  }

  lemma VideoFormIntro(s: string, scheme: string, www: string, sep: char, id: string, query: string)
    requires IsScheme(scheme) && IsWww(www) && sep != '\n' && IsDigits(id) && IsQuery(query)
    requires s == VideoUrlText(scheme, www, sep, id, query)
    ensures exists scheme, www, sep, id', query ::
      IsScheme(scheme) && IsWww(www) && sep != '\n' && IsDigits(id') && IsQuery(query)
      && s == VideoUrlText(scheme, www, sep, id', query) && id' == id
  {
  }

  /** Each piece the video URL pattern finds has the form its part of a video URL has. */
  lemma VideoPieces(s: string, a: nat, i: nat, b: nat)
    requires a == AfterScheme(s) && i == AfterWww(s, a)
    requires i + 17 < b <= |s| && RunEnd(s, i + 17, Digit) == b && QueryTail(s, b)
    ensures IsScheme(s[..a]) && IsWww(s[a..i]) && IsDigits(s[i + 17..b]) && IsQuery(s[b..])
  {
    PrefixIsForm(s);
    QueryTailIsQuery(s, b);
    RunSlice(s, i + 17, Digit);
  }

  /** The parts of a string laid out as the video URL pattern wants them. */
  lemma VideoFormAt(s: string, a: nat, i: nat, b: nat)
    requires a == AfterScheme(s) && i == AfterWww(s, a)
    requires TwitchTvAt(s, i, false) && LitAt(s, i + 10, "videos/")
    requires i + 17 < b <= |s| && RunEnd(s, i + 17, Digit) == b && QueryTail(s, b)
    ensures exists scheme, www, sep, id, query ::
      IsScheme(scheme) && IsWww(www) && sep != '\n' && IsDigits(id) && IsQuery(query)
      && s == VideoUrlText(scheme, www, sep, id, query) && id == s[i + 17..b]
  {
    VideoPieces(s, a, i, b);
    VideoShape(s, a, i, b);
    VideoFormIntro(s, s[..a], s[a..i], s[i + 6], s[i + 17..b], s[b..]);
  }

  /** Every string the video URL pattern accepts is a video URL, and the id is its number. */
  lemma VideoUrlOnlyForm(s: string)
    requires VideoUrl(s).Match?
    ensures exists scheme, www, sep, id, query ::
      IsScheme(scheme) && IsWww(www) && sep != '\n' && IsDigits(id) && IsQuery(query)
      && s == VideoUrlText(scheme, www, sep, id, query)
      && id == s[VideoUrl(s).id.value.start..VideoUrl(s).id.value.end]
  {
    VideoUrlFound(s);
    VideoFormAt(s, AfterScheme(s), AfterWww(s, AfterScheme(s)), VideoUrl(s).id.value.end);
  }

  // ------------------------------------------------------------ channel URLs

  /** A channel name followed by a query: the name is what the channel id group takes. */
  lemma ChannelTail(name: string, query: string)
    requires IsChannelName(name) && IsQuery(query)
    ensures RunEnd(name + query, 1, Word) == |name|
  {
    Info.RunEndAt(name + query, 1, |name|, Word);
  }

  /** The query after a channel name. */
  lemma ChannelTailQuery(name: string, query: string)
    requires IsQuery(query)
    ensures QueryTail(name + query, |name|)
  {
    QueryTailOfQuery(query);
    QueryTailShift(name + query, name, query, 0, |name|);
  }

  /** The parts the channel URL pattern looks for: the host at `i`, the name up to `e`. */
  predicate ChannelUrlHas(s: string, i: nat, e: nat) {
    AfterScheme(s) <= |s| && AfterWww(s, AfterScheme(s)) == i
    && TwitchTvAt(s, i, true) && i + 10 < |s| && In(Alnum, s[i + 10])
    && RunEnd(s, i + 11, Word) == e && 3 <= e - (i + 11) <= 24 && QueryTail(s, e)
  }

  /** The channel URL pattern matches once each of its parts has been found. */
  lemma ChannelUrlFrom(s: string, i: nat, e: nat)
    requires ChannelUrlHas(s, i, e)
    ensures ChannelUrl(s) == Match(Some(Span(i + 10, e)))
  {
  }

  /** Where the parts of a channel URL start. */
  lemma ChannelParts(s: string, scheme: string, www: string, name: string, query: string)
    requires IsScheme(scheme) && IsWww(www) && name != []
    requires s == ChannelUrlText(scheme, www, name, query)
    ensures AfterScheme(s) == |scheme| && AfterWww(s, |scheme|) == |scheme| + |www|
    ensures TwitchTvAt(s, |scheme| + |www|, true)
    ensures |scheme| + |www| + 10 < |s| && s[|scheme| + |www| + 10] == name[0]
  {
    UrlPrefix(s, scheme, www, '.', true, name + query);
    UrlRestChar(s, scheme, www, '.', name + query, 0, |scheme| + |www| + 10);
  }

  /** The name of a channel URL is one run of word characters after its first character. */
  lemma ChannelNameEnd(s: string, scheme: string, www: string, name: string, query: string)
    requires s == ChannelUrlText(scheme, www, name, query)
    requires 1 <= |name| && RunEnd(name + query, 1, Word) == |name|
    ensures RunEnd(s, |scheme| + |www| + 11, Word) == |scheme| + |www| + 10 + |name|
  {
    UrlRestRun(s, scheme, www, '.', name + query, 1, |scheme| + |www| + 11, Word);
  }

  /** The name of a channel URL is followed by its query. */
  lemma ChannelQuery(s: string, scheme: string, www: string, name: string, query: string)
    requires s == ChannelUrlText(scheme, www, name, query)
    requires QueryTail(name + query, |name|)
    ensures QueryTail(s, |scheme| + |www| + 10 + |name|)
  {
    UrlRestQuery(s, scheme, www, '.', name + query, |name|, |scheme| + |www| + 10 + |name|);
  }

  /** The name of a channel URL is where the pattern's id group lies. */
  lemma ChannelNameSlice(s: string, scheme: string, www: string, name: string, query: string)
    requires s == ChannelUrlText(scheme, www, name, query)
    ensures |scheme| + |www| + 10 + |name| <= |s|
    ensures s[|scheme| + |www| + 10..|scheme| + |www| + 10 + |name|] == name
  {
    assert (name + query)[0..|name|] == name;
    UrlRestSlice(s, scheme, www, '.', name + query, 0, |name|,
      |scheme| + |www| + 10, |scheme| + |www| + 10 + |name|);
  }

  /** The channel URL pattern matches at the positions of a channel URL's parts. */
  lemma ChannelUrlMatches(s: string, scheme: string, www: string, name: string)
    requires ChannelUrlHas(s, |scheme| + |www|, |scheme| + |www| + 10 + |name|)
    ensures ChannelUrl(s) == Match(Some(Span(|scheme| + |www| + 10, |scheme| + |www| + 10 + |name|)))
  {
    ChannelUrlFrom(s, |scheme| + |www|, |scheme| + |www| + 10 + |name|);
  }

  /** A channel URL has every part the channel URL pattern looks for. */
  lemma ChannelHas(s: string, scheme: string, www: string, name: string, query: string)
    requires IsScheme(scheme) && IsWww(www) && IsChannelName(name) && IsQuery(query)
    requires s == ChannelUrlText(scheme, www, name, query)
    ensures ChannelUrlHas(s, |scheme| + |www|, |scheme| + |www| + 10 + |name|)
  {
    ChannelParts(s, scheme, www, name, query);
    ChannelTail(name, query);
    ChannelNameEnd(s, scheme, www, name, query);
    ChannelTailQuery(name, query);
    ChannelQuery(s, scheme, www, name, query);
  }

  /** Every channel URL is accepted by the channel URL pattern, with the name as its id. */
  lemma ChannelUrlAccepted(s: string, scheme: string, www: string, name: string, query: string)
    requires IsScheme(scheme) && IsWww(www) && IsChannelName(name) && IsQuery(query)
    requires s == ChannelUrlText(scheme, www, name, query)
    ensures ChannelUrl(s) == Match(Some(Span(|scheme| + |www| + 10, |scheme| + |www| + 10 + |name|)))
    ensures |scheme| + |www| + 10 + |name| <= |s| && s[|scheme| + |www| + 10..|scheme| + |www| + 10 + |name|] == name
  {
    ChannelHas(s, scheme, www, name, query);
    ChannelUrlMatches(s, scheme, www, name);
    ChannelNameSlice(s, scheme, www, name, query);
  }

  /** What a match of the channel URL pattern has found, and where. */
  lemma ChannelUrlFound(s: string)
    requires ChannelUrl(s).Match?
    ensures var a := AfterScheme(s); var i := AfterWww(s, a); var e := ChannelUrl(s).id.value.end;
      && a <= i && TwitchTvAt(s, i, true) && i + 10 < |s| && In(Alnum, s[i + 10])
      && ChannelUrl(s).id.value.start == i + 10 && i + 14 <= e <= |s|
      && RunEnd(s, i + 11, Word) == e && QueryTail(s, e)
  {
  }

  /** Each piece the channel URL pattern finds has the form its part of a channel URL has. */
  lemma ChannelPieces(s: string, a: nat, i: nat, e: nat)
    requires a == AfterScheme(s) && i == AfterWww(s, a)
    requires i + 10 < |s| && In(Alnum, s[i + 10])
    requires i + 14 <= e <= i + 35 && e <= |s| && RunEnd(s, i + 11, Word) == e && QueryTail(s, e)
    ensures IsScheme(s[..a]) && IsWww(s[a..i]) && IsChannelName(s[i + 10..e]) && IsQuery(s[e..])
  {
    PrefixIsForm(s);
    QueryTailIsQuery(s, e);
    var name := s[i + 10..e];
    RunChars(s, i + 11, Word);
    forall k | 1 <= k < |name| ensures In(Word, name[k]) {
      assert name[k] == s[i + 10 + k];
    }
  }

  /** A string with the host where the channel URL pattern looks for it. */
  lemma ChannelShape(s: string, a: nat, i: nat, e: nat)
    requires a <= i && TwitchTvAt(s, i, true) && i + 10 <= e <= |s|
    ensures s == ChannelUrlText(s[..a], s[a..i], s[i + 10..e], s[e..])
  {
    ThreeWay(s, a, i);
    HostAt(s, i, true);
    SplitAt(s, i + 10, e);
  }

  lemma ChannelFormIntro(s: string, scheme: string, www: string, name: string, query: string)
    requires IsScheme(scheme) && IsWww(www) && IsChannelName(name) && IsQuery(query)
    requires s == ChannelUrlText(scheme, www, name, query)
    ensures exists scheme, www, name', query ::
      IsScheme(scheme) && IsWww(www) && IsChannelName(name') && IsQuery(query)
      && s == ChannelUrlText(scheme, www, name', query) && name' == name
  {
  }

  /** The parts of a string laid out as the channel URL pattern wants them. */
  lemma ChannelFormAt(s: string, a: nat, i: nat, e: nat)
    requires a == AfterScheme(s) && i == AfterWww(s, a)
    requires TwitchTvAt(s, i, true) && i + 10 < |s| && In(Alnum, s[i + 10])
    requires i + 14 <= e <= i + 35 && e <= |s| && RunEnd(s, i + 11, Word) == e && QueryTail(s, e)
    ensures exists scheme, www, name, query ::
      IsScheme(scheme) && IsWww(www) && IsChannelName(name) && IsQuery(query)
      && s == ChannelUrlText(scheme, www, name, query) && name == s[i + 10..e]
  {
    ChannelPieces(s, a, i, e);
    ChannelShape(s, a, i, e);
    ChannelFormIntro(s, s[..a], s[a..i], s[i + 10..e], s[e..]);
  }

  /** Every string the channel URL pattern accepts is a channel URL, and the id is its name. */
  lemma ChannelUrlOnlyForm(s: string)
    requires ChannelUrl(s).Match?
    ensures exists scheme, www, name, query ::
      IsScheme(scheme) && IsWww(www) && IsChannelName(name) && IsQuery(query)
      && s == ChannelUrlText(scheme, www, name, query)
      && name == s[ChannelUrl(s).id.value.start..ChannelUrl(s).id.value.end]
  {
    ChannelUrlFound(s);
    ChannelFormAt(s, AfterScheme(s), AfterWww(s, AfterScheme(s)), ChannelUrl(s).id.value.end);
  }

  // ------------------------------------------------------------ clip slugs

  /** The clip id group seen from further along a longer string. */
  lemma ClipIdEndShift(s: string, p: string, t: string, j: nat, k: nat)
    requires s == p + t && j <= |t| && k == |p| + j
    ensures ClipIdEnd(s, k)
      == if ClipIdEnd(t, j).Some? then Some(|p| + ClipIdEnd(t, j).value) else None
  {
    RunEndShift(s, p, t, j, k, Alnum);
    var a := RunEnd(t, j, Alnum);
    if a < |t| {
      assert s[|p| + a] == t[a];
      RunEndShift(s, p, t, a + 1, |p| + a + 1, SlugChar);
    }
  }

  /** The clip id group seen after the host part of a URL. */
  lemma UrlRestClip(s: string, scheme: string, www: string, sep: char, rest: string, j: nat, k: nat)
    requires s == scheme + (www + HostText(sep, rest))
    requires j <= |rest| && k == |scheme| + |www| + 10 + j
    ensures ClipIdEnd(s, k)
      == if ClipIdEnd(rest, j).Some? then Some(|scheme| + |www| + 10 + ClipIdEnd(rest, j).value) else None
  {
    UrlSplits(s, scheme, www, sep, rest);
    ClipIdEndShift(s, UrlHead(scheme, www, sep), rest, j, k);
  }

  /** A run of `cls` characters from `i` to `j` ends no earlier than `j`. */
  lemma RunEndAtLeast(s: string, i: nat, j: nat, cls: CharClass)
    requires i <= j <= |s|
    requires forall k :: i <= k < j ==> In(cls, s[k])
    ensures RunEnd(s, i, cls) >= j
  {
    var r := RunEnd(s, i, cls);
    if r < j {
      assert false;
    }
  }

  /** A clip slug followed by a query: the slug is what the clip id group takes. */
  lemma ClipSlugEnd(x: string, q: string)
    requires IsClipSlug(x) && IsQuery(q)
    ensures ClipIdEnd(x + q, 0) == Some(|x|)
  {
    var s := x + q;
    if x != [] && AllIn(x, Alnum) {
      Info.RunEndAt(s, 0, |x|, Alnum);
      assert |x| < |s| ==> s[|x|] == '?';
    } else {
      var h := |x| - 17;
      assert s[h] == '-';
      Info.RunEndAt(s, 0, h, Alnum);
      RunEndAtLeast(s, h + 1, h + 17, SlugChar);
    }
  }

  /** What the clip id group takes is a clip slug. */
  lemma ClipIdEndSlug(s: string, j: nat, e: nat)
    requires j <= |s| && ClipIdEnd(s, j) == Some(e)
    ensures IsClipSlug(s[j..e])
  {
    var x := s[j..e];
    var a := RunEnd(s, j, Alnum);
    RunChars(s, j, Alnum);
    if e == a + 17 && a < |s| && s[a] == '-' {
      RunChars(s, a + 1, SlugChar);
      assert x[|x| - 17] == s[a];
      forall k | 0 <= k < |x| - 17 ensures In(Alnum, x[k]) {
        assert x[k] == s[j + k];
      }
      forall k | |x| - 16 <= k < |x| ensures In(SlugChar, x[k]) {
        assert x[k] == s[j + k];
      }
    } else {
      forall k | 0 <= k < |x| ensures In(Alnum, x[k]) {
        assert x[k] == s[j + k];
      }
    }
  }

  // ------------------------------------------------------------ clip URLs

  /** The parts the clip URL pattern looks for: the host at `i`, `/clip/` at `w`, the slug up to `e`. */
  predicate ClipUrlHas(s: string, i: nat, w: nat, e: nat) {
    AfterScheme(s) <= |s| && AfterWww(s, AfterScheme(s)) == i
    && TwitchTvAt(s, i, false) && RunEnd(s, i + 10, Word) == w && w > i + 10
    && LitAt(s, w, "/clip/") && ClipIdEnd(s, w + 6) == Some(e) && QueryTail(s, e)
  }

  /** The clip URL pattern matches once each of its parts has been found. */
  lemma ClipUrlFrom(s: string, i: nat, w: nat, e: nat)
    requires ClipUrlHas(s, i, w, e)
    ensures ClipUrl(s) == Match(Some(Span(w + 6, e)))
  {
  }

  /** What follows the host part of a clip URL: the user is one word run, then `/clip/`. */
  lemma ClipAfterHost(r: string, user: string, slug: string, query: string)
    requires IsWordRun(user) && r == user + ("/clip/" + (slug + query))
    ensures RunEnd(r, 0, Word) == |user| && LitAt(r, |user|, "/clip/")
  {
    Info.RunEndAt(r, 0, |user|, Word);
    LitAtFront("/clip/", slug + query);
    LitAtShift(r, user, "/clip/" + (slug + query), 0, |user|, "/clip/");
  }

  /** The user name of a clip URL is one word run, followed by `/clip/`. */
  lemma ClipUserPart(s: string, scheme: string, www: string, sep: char, user: string, slug: string, query: string)
    requires IsWordRun(user)
    requires s == ClipUrlText(scheme, www, sep, user, slug, query)
    ensures RunEnd(s, |scheme| + |www| + 10, Word) == |scheme| + |www| + 10 + |user|
    ensures LitAt(s, |scheme| + |www| + 10 + |user|, "/clip/")
  {
    ClipAfterHost(user + ("/clip/" + (slug + query)), user, slug, query);
    UrlRestRun(s, scheme, www, sep, user + ("/clip/" + (slug + query)), 0, |scheme| + |www| + 10, Word);
    UrlRestLit(s, scheme, www, sep, user + ("/clip/" + (slug + query)), |user|,
      |scheme| + |www| + 10 + |user|, "/clip/");
  }

  /** The slug seen after the user name and `/clip/`. */
  lemma ClipSlugAfterUser(r: string, user: string, slug: string, query: string)
    requires r == user + ("/clip/" + (slug + query))
    requires ClipIdEnd(slug + query, 0) == Some(|slug|)
    ensures ClipIdEnd(r, |user| + 6) == Some(|user| + 6 + |slug|)
  {
    assert r == (user + "/clip/") + (slug + query);
    ClipIdEndShift(r, user + "/clip/", slug + query, 0, |user| + 6);
  }

  /** The slug of a clip URL is what the clip id group takes. */
  lemma ClipSlugPart(s: string, scheme: string, www: string, sep: char, user: string, slug: string, query: string)
    requires s == ClipUrlText(scheme, www, sep, user, slug, query)
    requires ClipIdEnd(user + ("/clip/" + (slug + query)), |user| + 6) == Some(|user| + 6 + |slug|)
    ensures ClipIdEnd(s, |scheme| + |www| + 10 + |user| + 6) == Some(|scheme| + |www| + 10 + |user| + 6 + |slug|)
  {
    UrlRestClip(s, scheme, www, sep, user + ("/clip/" + (slug + query)), |user| + 6,
      |scheme| + |www| + 10 + |user| + 6);
  }

  /** The query after the user name, `/clip/` and the slug. */
  lemma ClipTailQuery(r: string, user: string, slug: string, query: string)
    requires IsQuery(query) && r == user + ("/clip/" + (slug + query))
    ensures QueryTail(r, |user| + 6 + |slug|)
  {
    QueryTailOfQuery(query);
    QueryTailShift(slug + query, slug, query, 0, |slug|);
    assert r == (user + "/clip/") + (slug + query);
    QueryTailShift(r, user + "/clip/", slug + query, |slug|, |user| + 6 + |slug|);
  }

  /** The slug of a clip URL is followed by its query. */
  lemma ClipQuery(s: string, scheme: string, www: string, sep: char, user: string, slug: string, query: string)
    requires s == ClipUrlText(scheme, www, sep, user, slug, query)
    requires QueryTail(user + ("/clip/" + (slug + query)), |user| + 6 + |slug|)
    ensures QueryTail(s, |scheme| + |www| + 10 + |user| + 6 + |slug|)
  {
    UrlRestQuery(s, scheme, www, sep, user + ("/clip/" + (slug + query)), |user| + 6 + |slug|,
      |scheme| + |www| + 10 + |user| + 6 + |slug|);
  }

  /** The slug of a clip URL is where the pattern's id group lies. */
  lemma ClipSlugSlice(s: string, scheme: string, www: string, sep: char, user: string, slug: string, query: string)
    requires s == ClipUrlText(scheme, www, sep, user, slug, query)
    ensures |scheme| + |www| + 10 + |user| + 6 + |slug| <= |s|
    ensures s[|scheme| + |www| + 10 + |user| + 6..|scheme| + |www| + 10 + |user| + 6 + |slug|] == slug
  {
    assert (user + ("/clip/" + (slug + query)))[|user| + 6..|user| + 6 + |slug|] == slug;
    UrlRestSlice(s, scheme, www, sep, user + ("/clip/" + (slug + query)), |user| + 6, |user| + 6 + |slug|,
      |scheme| + |www| + 10 + |user| + 6, |scheme| + |www| + 10 + |user| + 6 + |slug|);
  }

  /** A clip URL has every part the clip URL pattern looks for. */
  lemma ClipHas(s: string, scheme: string, www: string, sep: char, user: string, slug: string, query: string)
    requires IsScheme(scheme) && IsWww(www) && sep != '\n' && IsWordRun(user)
    requires IsClipSlug(slug) && IsQuery(query)
    requires s == ClipUrlText(scheme, www, sep, user, slug, query)
    ensures ClipUrlHas(s, |scheme| + |www|, |scheme| + |www| + 10 + |user|,
      |scheme| + |www| + 10 + |user| + 6 + |slug|)
  {
    UrlPrefix(s, scheme, www, sep, false, user + ("/clip/" + (slug + query)));
    ClipUserPart(s, scheme, www, sep, user, slug, query);
    ClipSlugEnd(slug, query);
    ClipSlugAfterUser(user + ("/clip/" + (slug + query)), user, slug, query);
    ClipSlugPart(s, scheme, www, sep, user, slug, query);
    ClipTailQuery(user + ("/clip/" + (slug + query)), user, slug, query);
    ClipQuery(s, scheme, www, sep, user, slug, query);
  }

  /** The clip URL pattern matches at the positions of a clip URL's parts. */
  lemma ClipUrlMatches(s: string, scheme: string, www: string, user: string, slug: string)
    requires ClipUrlHas(s, |scheme| + |www|, |scheme| + |www| + 10 + |user|, |scheme| + |www| + 10 + |user| + 6 + |slug|)
    ensures ClipUrl(s) == Match(Some(Span(|scheme| + |www| + 10 + |user| + 6, |scheme| + |www| + 10 + |user| + 6 + |slug|)))
  {
    ClipUrlFrom(s, |scheme| + |www|, |scheme| + |www| + 10 + |user|, |scheme| + |www| + 10 + |user| + 6 + |slug|);
  }

  /** Every clip URL is accepted by the clip URL pattern, with the slug as its id. */
  lemma ClipUrlAccepted(s: string, scheme: string, www: string, sep: char, user: string, slug: string, query: string)
    requires IsScheme(scheme) && IsWww(www) && sep != '\n' && IsWordRun(user)
    requires IsClipSlug(slug) && IsQuery(query)
    requires s == ClipUrlText(scheme, www, sep, user, slug, query)
    ensures ClipUrl(s)
      == Match(Some(Span(|scheme| + |www| + 10 + |user| + 6, |scheme| + |www| + 10 + |user| + 6 + |slug|)))
    ensures |scheme| + |www| + 10 + |user| + 6 + |slug| <= |s|
    ensures s[|scheme| + |www| + 10 + |user| + 6..|scheme| + |www| + 10 + |user| + 6 + |slug|] == slug
  {
    ClipHas(s, scheme, www, sep, user, slug, query);
    ClipUrlMatches(s, scheme, www, user, slug);
    ClipSlugSlice(s, scheme, www, sep, user, slug, query);
  }

  /** What a match of the clip URL pattern has found, and where. */
  lemma ClipUrlFound(s: string)
    requires ClipUrl(s).Match?
    ensures var a := AfterScheme(s); var i := AfterWww(s, a); var w := RunEnd(s, i + 10, Word);
      var e := ClipUrl(s).id.value.end;
      && a <= i && TwitchTvAt(s, i, false) && i + 10 < w && LitAt(s, w, "/clip/")
      && ClipUrl(s).id.value.start == w + 6 && ClipIdEnd(s, w + 6) == Some(e) && QueryTail(s, e)
  {
  }

  /** Each piece the clip URL pattern finds has the form its part of a clip URL has. */
  lemma ClipPieces(s: string, a: nat, i: nat, w: nat, e: nat)
    requires a == AfterScheme(s) && i == AfterWww(s, a)
    requires i + 10 < w && i + 10 <= |s| && w == RunEnd(s, i + 10, Word) && w + 6 <= |s|
    requires ClipIdEnd(s, w + 6) == Some(e) && QueryTail(s, e)
    ensures IsScheme(s[..a]) && IsWww(s[a..i]) && IsWordRun(s[i + 10..w])
    ensures IsClipSlug(s[w + 6..e]) && IsQuery(s[e..])
  {
    PrefixIsForm(s);
    RunSlice(s, i + 10, Word);
    ClipIdEndSlug(s, w + 6, e);
    QueryTailIsQuery(s, e);
  }

  /** What follows the host part of a clip URL: the user, `/clip/`, the slug and the query. */
  lemma ClipRest(s: string, j: nat, w: nat, e: nat)
    requires j <= w && LitAt(s, w, "/clip/") && w + 6 <= e <= |s|
    ensures s[j..] == s[j..w] + ("/clip/" + (s[w + 6..e] + s[e..]))
  {
    SplitAt(s, j, w);
    SplitLit(s, w, "/clip/");
    SplitAt(s, w + 6, e);
  }

  /** The parts of a string laid out as the clip URL pattern wants them. */
  lemma ClipFormAt(s: string, a: nat, i: nat, w: nat, e: nat)
      returns (scheme: string, www: string, sep: char, user: string, slug: string, query: string)
    requires a <= i && TwitchTvAt(s, i, false) && i + 10 <= w && LitAt(s, w, "/clip/") && w + 6 <= e <= |s|
    requires IsScheme(s[..a]) && IsWww(s[a..i]) && IsWordRun(s[i + 10..w])
    requires IsClipSlug(s[w + 6..e]) && IsQuery(s[e..])
    ensures IsScheme(scheme) && IsWww(www) && sep != '\n' && IsWordRun(user) && IsClipSlug(slug) && IsQuery(query)
    ensures slug == s[w + 6..e]
    ensures s == ClipUrlText(scheme, www, sep, user, slug, query)
  {
    scheme, www, sep, user, slug, query := s[..a], s[a..i], s[i + 6], s[i + 10..w], s[w + 6..e], s[e..];
    ThreeWay(s, a, i);
    HostAt(s, i, false);
    ClipRest(s, i + 10, w, e);
  }

  /** Every string the clip URL pattern accepts is a clip URL, and the id is its slug. */
  lemma ClipUrlOnlyForm(s: string)
    requires ClipUrl(s).Match?
    ensures exists scheme, www, sep, user, slug, query ::
      IsScheme(scheme) && IsWww(www) && sep != '\n' && IsWordRun(user) && IsClipSlug(slug) && IsQuery(query)
      && s == ClipUrlText(scheme, www, sep, user, slug, query)
      && slug == s[ClipUrl(s).id.value.start..ClipUrl(s).id.value.end]
  {
    ClipUrlFound(s);
    var a := AfterScheme(s);
    var i := AfterWww(s, a);
    var w := RunEnd(s, i + 10, Word);
    var e := ClipUrl(s).id.value.end;
    ClipPieces(s, a, i, w, e);
    var scheme, www, sep, user, slug, query := ClipFormAt(s, a, i, w, e);
  }

  // ------------------------------------------------------------ clips.twitch.tv URLs

  /** The parts the clips-host pattern looks for: `clips.` at `a`, the slug up to `e`. */
  predicate ClipsHostUrlHas(s: string, a: nat, e: nat) {
    AfterScheme(s) == a && LitAt(s, a, "clips.") && TwitchTvAt(s, a + 6, false)
    && ClipIdEnd(s, a + 16) == Some(e) && QueryTail(s, e)
  }

  /** The clips-host pattern matches once each of its parts has been found. */
  lemma ClipsHostUrlFrom(s: string, a: nat, e: nat)
    requires ClipsHostUrlHas(s, a, e)
    ensures ClipsHostUrl(s) == Match(Some(Span(a + 16, e)))
  {
  }

  /** A clips-host URL starts with its scheme and then `clips.`. */
  lemma ClipsHostStart(s: string, scheme: string, sep: char, slug: string, query: string)
    requires IsScheme(scheme)
    requires s == ClipsHostUrlText(scheme, sep, slug, query)
    ensures AfterScheme(s) == |scheme| && LitAt(s, |scheme|, "clips.")
  {
    assert s == scheme + ("" + ("clips." + HostText(sep, slug + query)));
    PrefixEnds(s, scheme, "", "clips." + HostText(sep, slug + query));
    LitAtFront("clips.", HostText(sep, slug + query));
    LitAtShift(s, scheme, "clips." + HostText(sep, slug + query), 0, |scheme|, "clips.");
  }

  /** The query after a clip slug. */
  lemma SlugTailQuery(slug: string, query: string)
    requires IsQuery(query)
    ensures QueryTail(slug + query, |slug|)
  {
    QueryTailOfQuery(query);
    QueryTailShift(slug + query, slug, query, 0, |slug|);
  }

  /** The slug of a clips-host URL is what the clip id group takes, and the query follows it. */
  lemma ClipsHostSlug(s: string, scheme: string, sep: char, slug: string, query: string)
    requires s == ClipsHostUrlText(scheme, sep, slug, query)
    requires ClipIdEnd(slug + query, 0) == Some(|slug|) && QueryTail(slug + query, |slug|)
    ensures ClipIdEnd(s, |scheme| + 16) == Some(|scheme| + 16 + |slug|)
    ensures QueryTail(s, |scheme| + 16 + |slug|)
  {
    UrlRestClip(s, scheme, "clips.", sep, slug + query, 0, |scheme| + 16);
    UrlRestQuery(s, scheme, "clips.", sep, slug + query, |slug|, |scheme| + 16 + |slug|);
  }

  /** The slug of a clips-host URL is where the pattern's id group lies. */
  lemma ClipsHostSlugSlice(s: string, scheme: string, sep: char, slug: string, query: string)
    requires s == ClipsHostUrlText(scheme, sep, slug, query)
    ensures |scheme| + 16 + |slug| <= |s| && s[|scheme| + 16..|scheme| + 16 + |slug|] == slug
  {
    assert (slug + query)[0..|slug|] == slug;
    UrlRestSlice(s, scheme, "clips.", sep, slug + query, 0, |slug|, |scheme| + 16, |scheme| + 16 + |slug|);
  }

  /** A clips-host URL has every part the clips-host pattern looks for. */
  lemma ClipsHostHas(s: string, scheme: string, sep: char, slug: string, query: string)
    requires IsScheme(scheme) && sep != '\n' && IsClipSlug(slug) && IsQuery(query)
    requires s == ClipsHostUrlText(scheme, sep, slug, query)
    ensures ClipsHostUrlHas(s, |scheme|, |scheme| + 16 + |slug|)
  {
    ClipsHostStart(s, scheme, sep, slug, query);
    UrlHost(s, scheme, "clips.", sep, false, slug + query);
    ClipSlugEnd(slug, query);
    SlugTailQuery(slug, query);
    ClipsHostSlug(s, scheme, sep, slug, query);
  }

  /** The clips-host pattern matches at the positions of a clips-host URL's parts. */
  lemma ClipsHostUrlMatches(s: string, scheme: string, slug: string)
    requires ClipsHostUrlHas(s, |scheme|, |scheme| + 16 + |slug|)
    ensures ClipsHostUrl(s) == Match(Some(Span(|scheme| + 16, |scheme| + 16 + |slug|)))
  {
    ClipsHostUrlFrom(s, |scheme|, |scheme| + 16 + |slug|);
  }

  /** Every clips-host URL is accepted by the clips-host pattern, with the slug as its id. */
  lemma ClipsHostUrlAccepted(s: string, scheme: string, sep: char, slug: string, query: string)
    requires IsScheme(scheme) && sep != '\n' && IsClipSlug(slug) && IsQuery(query)
    requires s == ClipsHostUrlText(scheme, sep, slug, query)
    ensures ClipsHostUrl(s) == Match(Some(Span(|scheme| + 16, |scheme| + 16 + |slug|)))
    ensures |scheme| + 16 + |slug| <= |s| && s[|scheme| + 16..|scheme| + 16 + |slug|] == slug
  {
    ClipsHostHas(s, scheme, sep, slug, query);
    ClipsHostUrlMatches(s, scheme, slug);
    ClipsHostSlugSlice(s, scheme, sep, slug, query);
  }

  /** What a match of the clips-host pattern has found, and where. */
  lemma ClipsHostUrlFound(s: string)
    requires ClipsHostUrl(s).Match?
    ensures ClipsHostUrlHas(s, AfterScheme(s), ClipsHostUrl(s).id.value.end)
    ensures ClipsHostUrl(s).id.value.start == AfterScheme(s) + 16
  {
  }

  /** A string with `clips.` and the host where the clips-host pattern looks for them. */
  lemma ClipsHostShape(s: string, a: nat, e: nat)
    requires LitAt(s, a, "clips.") && TwitchTvAt(s, a + 6, false) && a + 16 <= e <= |s|
    ensures s == ClipsHostUrlText(s[..a], s[a + 12], s[a + 16..e], s[e..])
  {
    assert s == s[..a] + s[a..];
    SplitLit(s, a, "clips.");
    HostAt(s, a + 6, false);
    SplitAt(s, a + 16, e);
  }

  lemma ClipsHostFormIntro(s: string, scheme: string, sep: char, slug: string, query: string)
    requires IsScheme(scheme) && sep != '\n' && IsClipSlug(slug) && IsQuery(query)
    requires s == ClipsHostUrlText(scheme, sep, slug, query)
    ensures exists scheme, sep, slug', query ::
      IsScheme(scheme) && sep != '\n' && IsClipSlug(slug') && IsQuery(query)
      && s == ClipsHostUrlText(scheme, sep, slug', query) && slug' == slug
  {
  }

  /** The parts of a string laid out as the clips-host pattern wants them. */
  lemma ClipsHostFormAt(s: string, a: nat, e: nat)
    requires ClipsHostUrlHas(s, a, e)
    ensures exists scheme, sep, slug, query ::
      IsScheme(scheme) && sep != '\n' && IsClipSlug(slug) && IsQuery(query)
      && s == ClipsHostUrlText(scheme, sep, slug, query) && slug == s[a + 16..e]
  {
    PrefixIsForm(s);
    ClipIdEndSlug(s, a + 16, e);
    QueryTailIsQuery(s, e);
    ClipsHostShape(s, a, e);
    ClipsHostFormIntro(s, s[..a], s[a + 12], s[a + 16..e], s[e..]);
  }

  /** Every string the clips-host pattern accepts is a clips-host URL, and the id is its slug. */
  lemma ClipsHostUrlOnlyForm(s: string)
    requires ClipsHostUrl(s).Match?
    ensures exists scheme, sep, slug, query ::
      IsScheme(scheme) && sep != '\n' && IsClipSlug(slug) && IsQuery(query)
      && s == ClipsHostUrlText(scheme, sep, slug, query)
      && slug == s[ClipsHostUrl(s).id.value.start..ClipsHostUrl(s).id.value.end]
  {
    ClipsHostUrlFound(s);
    ClipsHostFormAt(s, AfterScheme(s), ClipsHostUrl(s).id.value.end);
  }

  // ------------------------------------------------------------ how URLs are classified

  /** The '/' after `tv` in the host part. */
  lemma HostSlash(s: string, i: nat, escapedDot: bool)
    requires TwitchTvAt(s, i, escapedDot)
    ensures s[i + 9] == '/'
  {
    assert s[i + 7..i + 10][2] == s[i + 9];
  }

  /** The first character of a literal found in a string. */
  lemma LitHead(s: string, i: nat, lit: string)
    requires LitAt(s, i, lit) && lit != []
    ensures s[i] == lit[0]
  {
    assert s[i..i + |lit|][0] == s[i];
  }

  /** The characters a video URL match fixes after the prefix: `videos/`, then a digit. */
  lemma VideoUrlShape(s: string)
    ensures var i := AfterWww(s, AfterScheme(s));
      VideoUrl(s).Match? ==>
        && i + 18 <= |s| && s[i] == 't'
        && s[i + 10] == 'v' && s[i + 11] == 'i' && s[i + 12] == 'd' && s[i + 13] == 'e'
        && s[i + 14] == 'o' && s[i + 15] == 's' && s[i + 16] == '/' && In(Digit, s[i + 17])
  {
    if VideoUrl(s).Match? {
      VideoUrlFound(s);
      var i := AfterWww(s, AfterScheme(s));
      var v := s[i + 10..i + 17];
      assert s[i..i + 6][0] == s[i];
      assert v[0] == s[i + 10] && v[1] == s[i + 11] && v[2] == s[i + 12] && v[3] == s[i + 13];
      assert v[4] == s[i + 14] && v[5] == s[i + 15] && v[6] == s[i + 16];
    }
  }

  /** What a channel URL match fixes: a word run from the name's first character to a query or the end. */
  lemma ChannelUrlShape(s: string)
    ensures var i := AfterWww(s, AfterScheme(s));
      ChannelUrl(s).Match? ==>
        var e := ChannelUrl(s).id.value.end;
        && i + 14 <= e <= |s| && s[i] == 't'
        && In(Alnum, s[i + 10]) && RunEnd(s, i + 11, Word) == e && (e < |s| ==> s[e] == '?')
  {
    if ChannelUrl(s).Match? {
      ChannelUrlFound(s);
      LitHead(s, AfterWww(s, AfterScheme(s)), "twitch");
    }
  }

  /** What a clip URL match fixes: a word run, then `/clip/`. */
  lemma ClipUrlShape(s: string)
    ensures var i := AfterWww(s, AfterScheme(s));
      ClipUrl(s).Match? ==>
        var w := RunEnd(s, i + 10, Word);
        i + 10 < w && s[i] == 't' && LitAt(s, w, "/clip/")
  {
    if ClipUrl(s).Match? {
      ClipUrlFound(s);
      LitHead(s, AfterWww(s, AfterScheme(s)), "twitch");
    }
  }

  /** The first two characters of `/clip/`, wherever it occurs. */
  lemma ClipSlashAt(s: string, w: nat)
    ensures LitAt(s, w, "/clip/") ==> s[w] == '/' && s[w + 1] == 'c'
  {
    if LitAt(s, w, "/clip/") {
      assert s[w..w + 6][0] == s[w] && s[w..w + 6][1] == s[w + 1];
    }
  }

  /** The word run starting at `videos/` is `videos`. */
  lemma VideosRun(s: string, j: nat)
    requires j + 7 <= |s| && s[j] == 'v' && s[j + 1] == 'i' && s[j + 2] == 'd' && s[j + 3] == 'e'
    requires s[j + 4] == 'o' && s[j + 5] == 's' && s[j + 6] == '/'
    ensures RunEnd(s, j, Word) == j + 6
  {
    assert RunEnd(s, j + 6, Word) == j + 6;
    assert RunEnd(s, j + 4, Word) == RunEnd(s, j + 6, Word);
    assert RunEnd(s, j + 2, Word) == RunEnd(s, j + 4, Word);
    assert RunEnd(s, j, Word) == RunEnd(s, j + 2, Word);
  }

  /** No string is both a channel URL and a video URL. */
  lemma ChannelNotVideo(s: string)
    requires ChannelUrl(s).Match?
    ensures !VideoUrl(s).Match?
  {
    ChannelUrlShape(s);
    VideoUrlShape(s);
    var i := AfterWww(s, AfterScheme(s));
    var e := ChannelUrl(s).id.value.end;
    RunChars(s, i + 11, Word);
    assert e > i + 16 ==> In(Word, s[i + 16]);
  }

  /** No string is both a clip URL and a video URL, not even with `videos` as the user. */
  lemma ClipNotVideo(s: string)
    requires ClipUrl(s).Match?
    ensures !VideoUrl(s).Match?
  {
    ClipUrlShape(s);
    VideoUrlShape(s);
    var i := AfterWww(s, AfterScheme(s));
    var w := RunEnd(s, i + 10, Word);
    ClipSlashAt(s, w);
    if VideoUrl(s).Match? {
      VideosRun(s, i + 10);
    }
  }

  /** No string is both a clip URL and a channel URL. */
  lemma ClipNotChannel(s: string)
    requires ClipUrl(s).Match?
    ensures !ChannelUrl(s).Match?
  {
    ClipUrlShape(s);
    ChannelUrlShape(s);
    var i := AfterWww(s, AfterScheme(s));
    ClipSlashAt(s, RunEnd(s, i + 10, Word));
    assert i + 10 < |s| && In(Word, s[i + 10]) ==> RunEnd(s, i + 10, Word) == RunEnd(s, i + 11, Word);
  }

  /** A clips-host URL is none of the URLs whose host part comes right after the prefix. */
  lemma ClipsHostNotOthers(s: string)
    requires ClipsHostUrl(s).Match?
    ensures !VideoUrl(s).Match? && !ChannelUrl(s).Match? && !ClipUrl(s).Match?
  {
    ClipsHostUrlFound(s);
    var a := AfterScheme(s);
    assert s[a..a + 6][0] == s[a];
    assert AfterWww(s, a) == a;
    VideoUrlShape(s);
    ChannelUrlShape(s);
    ClipUrlShape(s);
  }

  /** Whatever the video URL pattern matches is classified as a video, with the `id` group as the id. */
  lemma VideoUrlClassified(s: string, p: nat, q: nat)
    requires VideoUrl(s) == Match(Some(Span(p, q)))
    ensures Classify(s) == Some(Classified(Video, s[p..q]))
  {
    VideoUrlFound(s);
    HostSlash(s, AfterWww(s, AfterScheme(s)), false);
    SlashNotBare(s, AfterWww(s, AfterScheme(s)) + 9);
    ClassifyFirst(s, 1);
  }

  /** Whatever the channel URL pattern matches is classified as a channel, with the group as the id. */
  lemma ChannelUrlClassified(s: string, p: nat, q: nat)
    requires ChannelUrl(s) == Match(Some(Span(p, q)))
    ensures Classify(s) == Some(Classified(Channel, s[p..q]))
  {
    ChannelUrlFound(s);
    HostSlash(s, AfterWww(s, AfterScheme(s)), true);
    SlashNotBare(s, AfterWww(s, AfterScheme(s)) + 9);
    ChannelNotVideo(s);
    ClassifyFirst(s, 3);
  }

  /** Whatever the clip URL pattern matches is classified as a clip, with the group as the id. */
  lemma ClipUrlClassified(s: string, p: nat, q: nat)
    requires ClipUrl(s) == Match(Some(Span(p, q)))
    ensures Classify(s) == Some(Classified(Clip, s[p..q]))
  {
    ClipUrlFound(s);
    HostSlash(s, AfterWww(s, AfterScheme(s)), false);
    SlashNotBare(s, AfterWww(s, AfterScheme(s)) + 9);
    ClipNotVideo(s);
    ClipNotChannel(s);
    ClassifyFirst(s, 5);
  }

  /** Whatever the clips-host pattern matches is classified as a clip, with the group as the id. */
  lemma ClipsHostUrlClassified(s: string, p: nat, q: nat)
    requires ClipsHostUrl(s) == Match(Some(Span(p, q)))
    ensures Classify(s) == Some(Classified(Clip, s[p..q]))
  {
    ClipsHostUrlFound(s);
    HostSlash(s, AfterScheme(s) + 6, false);
    SlashNotBare(s, AfterScheme(s) + 15);
    ClipsHostNotOthers(s);
    ClassifyFirst(s, 6);
  }

  /** A video URL match at the number of a video URL classifies the string as that video. */
  lemma VideoMatchClassified(s: string, scheme: string, www: string, id: string)
    requires VideoUrl(s) == Match(Some(Span(|scheme| + |www| + 17, |scheme| + |www| + 17 + |id|)))
    requires |scheme| + |www| + 17 + |id| <= |s| && s[|scheme| + |www| + 17..|scheme| + |www| + 17 + |id|] == id
    ensures Classify(s) == Some(Classified(Video, id))
  {
    VideoUrlClassified(s, |scheme| + |www| + 17, |scheme| + |www| + 17 + |id|);
  }

  /** A channel URL match at the name of a channel URL classifies the string as that channel. */
  lemma ChannelMatchClassified(s: string, scheme: string, www: string, name: string)
    requires ChannelUrl(s) == Match(Some(Span(|scheme| + |www| + 10, |scheme| + |www| + 10 + |name|)))
    requires |scheme| + |www| + 10 + |name| <= |s| && s[|scheme| + |www| + 10..|scheme| + |www| + 10 + |name|] == name
    ensures Classify(s) == Some(Classified(Channel, name))
  {
    ChannelUrlClassified(s, |scheme| + |www| + 10, |scheme| + |www| + 10 + |name|);
  }

  /** A clip URL match at the slug of a clip URL classifies the string as that clip. */
  lemma ClipMatchClassified(s: string, scheme: string, www: string, user: string, slug: string)
    requires ClipUrl(s) == Match(Some(Span(|scheme| + |www| + 10 + |user| + 6, |scheme| + |www| + 10 + |user| + 6 + |slug|)))
    requires |scheme| + |www| + 10 + |user| + 6 + |slug| <= |s|
    requires s[|scheme| + |www| + 10 + |user| + 6..|scheme| + |www| + 10 + |user| + 6 + |slug|] == slug
    ensures Classify(s) == Some(Classified(Clip, slug))
  {
    ClipUrlClassified(s, |scheme| + |www| + 10 + |user| + 6, |scheme| + |www| + 10 + |user| + 6 + |slug|);
  }

  /** A clips-host match at the slug of a clips-host URL classifies the string as that clip. */
  lemma ClipsHostMatchClassified(s: string, scheme: string, slug: string)
    requires ClipsHostUrl(s) == Match(Some(Span(|scheme| + 16, |scheme| + 16 + |slug|)))
    requires |scheme| + 16 + |slug| <= |s| && s[|scheme| + 16..|scheme| + 16 + |slug|] == slug
    ensures Classify(s) == Some(Classified(Clip, slug))
  {
    ClipsHostUrlClassified(s, |scheme| + 16, |scheme| + 16 + |slug|);
  }

  /** A video URL classifies as a video, with its number as the id. */
  lemma VideoUrlsAreVideos(s: string, scheme: string, www: string, sep: char, id: string, query: string)
    requires IsScheme(scheme) && IsWww(www) && sep != '\n' && IsDigits(id) && IsQuery(query)
    requires s == VideoUrlText(scheme, www, sep, id, query)
    ensures Classify(s) == Some(Classified(Video, id))
  {
    VideoUrlAccepted(s, scheme, www, sep, id, query);
    VideoMatchClassified(s, scheme, www, id);
  }

  /** A channel URL classifies as a channel, with its name as the id. */
  lemma ChannelUrlsAreChannels(s: string, scheme: string, www: string, name: string, query: string)
    requires IsScheme(scheme) && IsWww(www) && IsChannelName(name) && IsQuery(query)
    requires s == ChannelUrlText(scheme, www, name, query)
    ensures Classify(s) == Some(Classified(Channel, name))
  {
    ChannelUrlAccepted(s, scheme, www, name, query);
    ChannelMatchClassified(s, scheme, www, name);
  }

  /** A clip URL classifies as a clip, with its slug as the id. */
  lemma ClipUrlsAreClips(s: string, scheme: string, www: string, sep: char, user: string, slug: string, query: string)
    requires IsScheme(scheme) && IsWww(www) && sep != '\n' && IsWordRun(user)
    requires IsClipSlug(slug) && IsQuery(query)
    requires s == ClipUrlText(scheme, www, sep, user, slug, query)
    ensures Classify(s) == Some(Classified(Clip, slug))
  {
    ClipUrlAccepted(s, scheme, www, sep, user, slug, query);
    ClipMatchClassified(s, scheme, www, user, slug);
  }

  /** A clips-host URL classifies as a clip, with its slug as the id. */
  lemma ClipsHostUrlsAreClips(s: string, scheme: string, sep: char, slug: string, query: string)
    requires IsScheme(scheme) && sep != '\n' && IsClipSlug(slug) && IsQuery(query)
    requires s == ClipsHostUrlText(scheme, sep, slug, query)
    ensures Classify(s) == Some(Classified(Clip, slug))
  {
    ClipsHostUrlAccepted(s, scheme, sep, slug, query);
    ClipsHostMatchClassified(s, scheme, slug);
  }
}
