/**
 * The info command's classification of user-supplied strings: each string
 * is tried against an ordered table of seven patterns, and the first pattern
 * that matches with an `id` capture decides the content type and the id.
 * Strings no pattern classifies are dropped; the rest keep their order.
 */
module Info {
  import opened Wrappers
  import opened Patterns

  datatype ContentType = Channel | Video | Clip

  const PatternCount: nat := 7

  /** The content type of the table's entry `n`. */
  function KindOf(n: nat): ContentType
    requires n < PatternCount
  {
    if n < 2 then Video else if n < 4 then Channel else Clip
  }

  /** The table's entry `n`, applied to `s`. */
  function Pattern(n: nat, s: string): Captures
    requires n < PatternCount
  {
    match n
    case 0 => BareVideo(s)
    case 1 => VideoUrl(s)
    case 2 => BareChannel(s)
    case 3 => ChannelUrl(s)
    case 4 => BareClip(s)
    case 5 => ClipUrl(s)
    case _ => ClipsHostUrl(s)
  }

  /** Entry `n` matches `s` and captures an `id`. */
  predicate Yields(n: nat, s: string)
    requires n < PatternCount
  {
    HasId(Pattern(n, s), s)
  }

  /** The captured id of entry `n`, as text. */
  function IdText(n: nat, s: string): string
    requires n < PatternCount && Yields(n, s)
  {
    var sp := Pattern(n, s).id.value;
    s[sp.start..sp.end]
  }

  /** `find_map` over the table from entry `n` on: the first entry that yields an id. */
  function FirstFrom(s: string, n: nat): (r: Option<nat>)
    requires n <= PatternCount
    ensures r.Some? ==> n <= r.value < PatternCount
    decreases PatternCount - n
  {
    if n == PatternCount then None
    else if Yields(n, s) then Some(n)
    else FirstFrom(s, n + 1)
  }

  /** The entry `find_map` stops at yields an id, and no entry before it does. */
  lemma {:induction false} FirstFromFinds(s: string, n: nat)
    requires n <= PatternCount
    ensures var r := FirstFrom(s, n);
      && (r.Some? ==> Yields(r.value, s) && forall m :: n <= m < r.value ==> !Yields(m, s))
      && (r.None? ==> forall m :: n <= m < PatternCount ==> !Yields(m, s))
    decreases PatternCount - n
  {
    if n < PatternCount && !Yields(n, s) {
      FirstFromFinds(s, n + 1);
    }
  }

  /** The first entry that yields an id is the one `find_map` stops at. */
  lemma {:induction false} FirstFromIs(s: string, n: nat, k: nat)
    requires n <= k < PatternCount && Yields(k, s)
    requires forall m :: n <= m < k ==> !Yields(m, s)
    ensures FirstFrom(s, n) == Some(k)
    decreases k - n
  {
    if n < k {
      FirstFromIs(s, n + 1, k);
    }
  }

  datatype Classified = Classified(kind: ContentType, id: string)

  /**
   * One input's classification: the first entry, in table order, that
   * matches and captures an id decides; later entries are not consulted.
   */
  function Classify(s: string): Option<Classified> {
    match FirstFrom(s, 0)
    case Some(n) => Some(Classified(KindOf(n), IdText(n, s)))
    case None => None
  }

  /**
   * A string is classified exactly when some entry yields an id; then the
   * first such entry gives the content type, and the id is a slice of the
   * string.
   */
  lemma ClassifyIsFirstMatch(s: string)
    ensures var r := Classify(s);
      && (r.Some? ==>
            exists n :: (0 <= n < PatternCount && Yields(n, s)
                         && (forall m :: 0 <= m < n ==> !Yields(m, s))
                         && r.value == Classified(KindOf(n), IdText(n, s))))
      && (r.None? <==> forall n :: 0 <= n < PatternCount ==> !Yields(n, s))
      && (r.Some? ==> exists a, b :: 0 <= a <= b <= |s| && r.value.id == s[a..b])
  {
    FirstFromFinds(s, 0);
    match FirstFrom(s, 0)
    case Some(n) =>
      var sp := Pattern(n, s).id.value;
      assert IdText(n, s) == s[sp.start..sp.end];
    case None =>
  }

  /** `iter().filter_map(f)`: what `f` gives for each element, in order, with the `None`s dropped. */
  function FilterMap<A, B>(f: A -> Option<B>, xs: seq<A>): (r: seq<B>)
    ensures |r| <= |xs|
  {
    if xs == [] then []
    else
      (match f(xs[0]) case Some(y) => [y] case None => []) + FilterMap(f, xs[1..])
  }

  /** `ids.iter().filter_map(..)`: the classified inputs, in input order. */
  function ClassifyAll(ids: seq<string>): seq<Classified> {
    FilterMap(Classify, ids)
  }

  /** Filtering a concatenation filters each part in turn: order is kept, nothing is merged. */
  lemma {:induction false} FilterMapAppend<A, B>(f: A -> Option<B>, a: seq<A>, b: seq<A>)
    ensures FilterMap(f, a + b) == FilterMap(f, a) + FilterMap(f, b)
    decreases |a|
  {
    if a == [] {
      assert a + b == b;
    } else {
      var head := match f(a[0]) case Some(y) => [y] case None => [];
      assert (a + b)[0] == a[0];
      assert (a + b)[1..] == a[1..] + b;
      assert FilterMap(f, a + b) == head + FilterMap(f, a[1..] + b);
      FilterMapAppend(f, a[1..], b);
      assert FilterMap(f, a) == head + FilterMap(f, a[1..]);
    }
  }

  /** A single input yields one output when `f` keeps it and none when it is dropped. */
  lemma FilterMapSingle<A, B>(f: A -> Option<B>, x: A)
    ensures FilterMap(f, [x]) == (match f(x) case Some(y) => [y] case None => [])
  {
    assert [x][1..] == [];
  }

  /** Every output comes from some input, and every input `f` keeps gives an output. */
  lemma {:induction false} FilterMapMembers<A, B>(f: A -> Option<B>, xs: seq<A>, y: B)
    ensures y in FilterMap(f, xs) <==> exists i :: 0 <= i < |xs| && f(xs[i]) == Some(y)
    decreases |xs|
  {
    if xs != [] {
      FilterMapMembers(f, xs[1..], y);
      if exists i :: 0 <= i < |xs| && f(xs[i]) == Some(y) {
        var i :| 0 <= i < |xs| && f(xs[i]) == Some(y);
        if i > 0 {
          assert xs[1..][i - 1] == xs[i];
        }
      }
      if exists i :: 0 <= i < |xs| - 1 && f(xs[1..][i]) == Some(y) {
        var i :| 0 <= i < |xs| - 1 && f(xs[1..][i]) == Some(y);
        assert xs[i + 1] == xs[1..][i];
      }
    }
  }

  // ------------------------------------------------------------ consequences of the order

  /** Runs of characters in a class: the run from `i` ends at `j` when [i, j) is in the class and `j` is not. */
  lemma {:induction false} RunEndAt(s: string, i: nat, j: nat, cls: CharClass)
    requires i <= j <= |s|
    requires forall k :: i <= k < j ==> In(cls, s[k])
    requires j < |s| ==> !In(cls, s[j])
    ensures RunEnd(s, i, cls) == j
    decreases j - i
  {
    if i < j {
      RunEndAt(s, i + 1, j, cls);
    }
  }

  /** Every URL pattern needs a '/' in the input. */
  lemma UrlPatternsNeedSlash(s: string, n: nat)
    requires n == 1 || n == 3 || n == 5 || n == 6
    requires Yields(n, s)
    ensures exists k :: 0 <= k < |s| && s[k] == '/'
  {
    var i := if n == 6 then AfterScheme(s) + 6 else AfterWww(s, AfterScheme(s));
    if n == 1 {
      assert VideoUrl(s).Match?;
    } else if n == 3 {
      assert ChannelUrl(s).Match?;
    } else if n == 5 {
      assert ClipUrl(s).Match?;
    } else {
      assert ClipsHostUrl(s).Match?;
    }
    assert TwitchTvAt(s, i, n == 3);
    assert s[i + 7..i + 10] == "tv/";
    assert s[i + 7..i + 10][2] == s[i + 9];
  }

  /** The empty string matches the first pattern, but without an id, so it is dropped. */
  lemma EmptyInputDropped()
    ensures Pattern(0, "") == Match(None)
    ensures Classify("") == None
  {
  }

  /**
   * A non-empty string of digits is a video whose id is the whole string,
   * although strings of 4 to 25 digits fit the bare channel pattern too.
   */
  lemma DigitsAreVideos(s: string)
    requires s != [] && AllIn(s, Digit)
    ensures Classify(s) == Some(Classified(Video, s))
    ensures 4 <= |s| <= 25 ==> Yields(2, s)
  {
    assert Yields(0, s);
    assert s[0..|s|] == s;
  }

  /** A channel name that is not all digits is a channel, with the whole string as its id. */
  lemma ChannelNamesAreChannels(s: string)
    requires 4 <= |s| <= 25 && In(Alnum, s[0]) && forall k :: 1 <= k < |s| ==> In(Word, s[k])
    requires !AllIn(s, Digit)
    ensures Classify(s) == Some(Classified(Channel, s))
  {
    assert !Yields(0, s);
    if Yields(1, s) {
      UrlPatternsNeedSlash(s, 1);
      assert false;
    }
    assert Yields(2, s);
    assert s[0..|s|] == s;
  }

  /** An alphanumeric run, a hyphen and sixteen slug characters is a clip slug, whole. */
  lemma SlugsAreClips(a: string, t: string)
    requires a != [] && AllIn(a, Alnum)
    requires |t| == 16 && AllIn(t, SlugChar)
    ensures Classify(a + "-" + t) == Some(Classified(Clip, a + "-" + t))
  {
    var s := a + "-" + t;
    SlugHasNoSlash(a, t);
    NoSlashNoUrl(s, 1);
    NoSlashNoUrl(s, 3);
    SlugNotBareVideoOrChannel(a, t);
    SlugYields(a, t);
    ClassifyFirst(s, 4);
  }

  /** The characters of a slug of that shape are alphanumeric, a hyphen or slug characters. */
  lemma SlugHasNoSlash(a: string, t: string)
    requires AllIn(a, Alnum) && AllIn(t, SlugChar)
    ensures forall k :: 0 <= k < |a + "-" + t| ==> (a + "-" + t)[k] != '/'
  {
    var s := a + "-" + t;
    forall k | 0 <= k < |s| ensures s[k] != '/' {
      if k < |a| {
        assert s[k] == a[k] && In(Alnum, a[k]);
      } else if k > |a| {
        assert s[k] == t[k - |a| - 1] && In(SlugChar, t[k - |a| - 1]);
      }
    }
  }

  /** The hyphen rules out the bare video and bare channel patterns. */
  lemma SlugNotBareVideoOrChannel(a: string, t: string)
    ensures !Yields(0, a + "-" + t) && !Yields(2, a + "-" + t)
  {
    var s := a + "-" + t;
    var h := |a|;
    assert s[h] == '-';
    assert !In(Digit, s[h]) && !In(Word, s[h]);
  }

  /** The bare clip pattern takes the whole string. */
  lemma SlugYields(a: string, t: string)
    requires a != [] && AllIn(a, Alnum)
    requires |t| == 16 && AllIn(t, SlugChar)
    ensures Yields(4, a + "-" + t) && IdText(4, a + "-" + t) == a + "-" + t
  {
    var s := a + "-" + t;
    var h := |a|;
    assert s[h] == '-';
    RunEndAt(s, 0, h, Alnum);
    RunEndAt(s, h + 1, |s|, SlugChar);
    assert ClipIdEnd(s, 0) == Some(|s|);
    assert s[0..|s|] == s;
  }

  /** Without a '/', none of the URL patterns yields. */
  lemma NoSlashNoUrl(s: string, n: nat)
    requires n == 1 || n == 3 || n == 5 || n == 6
    requires forall k :: 0 <= k < |s| ==> s[k] != '/'
    ensures !Yields(n, s)
  {
    if Yields(n, s) {
      UrlPatternsNeedSlash(s, n);
      assert false;
    }
  }

  /**
   * An alphanumeric string that is neither all digits nor of a channel
   * name's length (so every string of 1 to 3 such characters) is a clip.
   */
  lemma AlnumNonChannelsAreClips(s: string)
    requires s != [] && AllIn(s, Alnum) && !AllIn(s, Digit)
    requires |s| < 4 || |s| > 25
    ensures Classify(s) == Some(Classified(Clip, s))
  {
    assert !Yields(0, s);
    if Yields(1, s) { UrlPatternsNeedSlash(s, 1); assert false; }
    assert !Yields(2, s);
    if Yields(3, s) { UrlPatternsNeedSlash(s, 3); assert false; }
    RunEndAt(s, 0, |s|, Alnum);
    assert Yields(4, s);
    assert s[0..|s|] == s;
  }

  /** The entry that yields first decides the classification. */
  lemma ClassifyFirst(s: string, n: nat)
    requires n < PatternCount && Yields(n, s)
    requires forall m :: 0 <= m < n ==> !Yields(m, s)
    ensures Classify(s) == Some(Classified(KindOf(n), IdText(n, s)))
  {
    FirstFromIs(s, 0, n);
  }

  /** A string with a '/' in it is none of the three bare forms. */
  lemma SlashNotBare(s: string, k: nat)
    requires k < |s| && s[k] == '/'
    ensures !Yields(0, s) && !Yields(2, s) && !Yields(4, s)
  {
    assert !In(Digit, s[k]) && !In(Word, s[k]) && !In(Alnum, s[k]) && !In(SlugChar, s[k]);
  }
}
