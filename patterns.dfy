/**
 * Hand-written recognisers for the seven anchored regular expressions the
 * info command tries, in the order it tries them. Each recogniser answers
 * what `Regex::captures(..).name("id")` answers: no match, a match without
 * an `id` group, or a match whose `id` group covers a span of the input.
 *
 * Character classes follow the ASCII reading: `\d` is [0-9], `\w` is
 * [A-Za-z0-9_]; an unescaped `.` is any character but a line feed; `$` is
 * the end of the input.
 */
module Patterns {
  import opened Wrappers

  datatype CharClass = Digit | Alnum | Word | SlugChar

  /** Membership in `\d`, `[A-Za-z0-9]`, `\w` and `[A-Za-z0-9_-]`. */
  predicate In(cls: CharClass, c: char) {
    match cls
    case Digit => '0' <= c <= '9'
    case Alnum => 'a' <= c <= 'z' || 'A' <= c <= 'Z' || '0' <= c <= '9'
    case Word => 'a' <= c <= 'z' || 'A' <= c <= 'Z' || '0' <= c <= '9' || c == '_'
    case SlugChar => 'a' <= c <= 'z' || 'A' <= c <= 'Z' || '0' <= c <= '9' || c == '_' || c == '-'
  }

  predicate AllIn(s: string, cls: CharClass) {
    forall k :: 0 <= k < |s| ==> In(cls, s[k])
  }

  /** `lit` occurs in `s` at position `i`. */
  predicate LitAt(s: string, i: nat, lit: string) {
    i + |lit| <= |s| && s[i..i + |lit|] == lit
  }

  /** End of the longest run of `cls` characters that starts at `i`. */
  function RunEnd(s: string, i: nat, cls: CharClass): (j: nat)
    requires i <= |s|
    ensures i <= j <= |s|
    ensures j < |s| ==> !In(cls, s[j])
    decreases |s| - i
  {
    if i < |s| && In(cls, s[i]) then RunEnd(s, i + 1, cls) else i
  }

  /** Every character of a run belongs to its class. */
  lemma {:induction false} RunChars(s: string, i: nat, cls: CharClass)
    requires i <= |s|
    ensures forall k :: i <= k < RunEnd(s, i, cls) ==> In(cls, s[k])
    decreases |s| - i
  {
    if i < |s| && In(cls, s[i]) {
      RunChars(s, i + 1, cls);
    }
  }

  /** The span of the `id` group. */
  datatype Span = Span(start: nat, end: nat)

  /** What matching one pattern against a whole input gives. */
  datatype Captures = NoMatch | Match(id: Option<Span>)

  predicate SpanIn(sp: Span, s: string) {
    sp.start <= sp.end <= |s|
  }

  /** A match whose `id` group was captured. */
  predicate HasId(c: Captures, s: string) {
    c.Match? && c.id.Some? && SpanIn(c.id.value, s)
  }

  // ------------------------------------------------------------ shared pieces

  /** Position after the optional `(https?://)?` at the start. */
  function AfterScheme(s: string): (i: nat)
    ensures i <= |s|
    ensures i == 0 || i == 7 || i == 8
  {
    if LitAt(s, 0, "https://") then 8
    else if LitAt(s, 0, "http://") then 7
    else 0
  }

  /** Position after the optional `(www\.)?` at `i`. */
  function AfterWww(s: string, i: nat): (j: nat)
    requires i <= |s|
    ensures j == i || j == i + 4
    ensures j <= |s|
  {
    if LitAt(s, i, "www.") then i + 4 else i
  }

  /**
   * `twitch.tv/` at `i`, ten characters; with `escapedDot` the dot is a
   * literal dot, otherwise (an unescaped `.`) any character but a line feed.
   */
  predicate TwitchTvAt(s: string, i: nat, escapedDot: bool) {
    LitAt(s, i, "twitch") && i + 6 < |s|
    && (if escapedDot then s[i + 6] == '.' else s[i + 6] != '\n')
    && LitAt(s, i + 7, "tv/")
  }

  /** `(\?.*)?$` at `j`: the input ends there, or a '?' starts a line-feed-free rest. */
  predicate QueryTail(s: string, j: nat) {
    j == |s| || (j < |s| && s[j] == '?' && forall k :: j < k < |s| ==> s[k] != '\n')
  }

  /** `[a-zA-Z0-9][\w]{3,24}` at `i`, ending where the run of word characters ends. */
  function ChannelIdEnd(s: string, i: nat): (r: Option<nat>)
    requires i <= |s|
    ensures r.Some? <==> i < |s| && In(Alnum, s[i]) && 3 <= RunEnd(s, i + 1, Word) - (i + 1) <= 24
    ensures r.Some? ==> r.value == RunEnd(s, i + 1, Word) && i + 4 <= r.value <= |s|
  {
    if i < |s| && In(Alnum, s[i]) then
      var e := RunEnd(s, i + 1, Word);
      if 3 <= e - (i + 1) <= 24 then Some(e) else None
    else None
  }

  /**
   * `[A-Za-z0-9]+(?:-[A-Za-z0-9_-]{16})?` at `i`: a run of alphanumerics,
   * then, when they follow, a hyphen and sixteen slug characters.
   */
  function ClipIdEnd(s: string, i: nat): (r: Option<nat>)
    requires i <= |s|
    ensures r.Some? <==> RunEnd(s, i, Alnum) > i
    ensures r.Some? ==> i < r.value <= |s|
  {
    var a := RunEnd(s, i, Alnum);
    if a == i then None
    else if a < |s| && s[a] == '-' && a + 17 <= |s| && RunEnd(s, a + 1, SlugChar) >= a + 17 then Some(a + 17)
    else Some(a)
  }

  /** What the clip id group takes is made of slug characters. */
  lemma ClipIdChars(s: string, i: nat)
    requires i <= |s| && ClipIdEnd(s, i).Some?
    ensures forall k :: i <= k < ClipIdEnd(s, i).value ==> In(SlugChar, s[k])
  {
    var a := RunEnd(s, i, Alnum);
    RunChars(s, i, Alnum);
    if a < |s| && s[a] == '-' && a + 17 <= |s| {
      RunChars(s, a + 1, SlugChar);
    }
  }

  // ------------------------------------------------------------ the seven patterns

  /** `^(?P<id>\d+)?$` */
  function BareVideo(s: string): (r: Captures)
    ensures r.Match? <==> AllIn(s, Digit)
    ensures HasId(r, s) <==> s != [] && AllIn(s, Digit)
    ensures r.Match? && r.id.Some? ==> r.id.value == Span(0, |s|)
  {
    RunChars(s, 0, Digit);
    if s == [] then Match(None)
    else if RunEnd(s, 0, Digit) == |s| then Match(Some(Span(0, |s|)))
    else NoMatch
  }

  /** `^(https?://)?(www\.)?twitch.tv/videos/(?P<id>\d+)(\?.*)?$` */
  function VideoUrl(s: string): (r: Captures)
    ensures r.Match? ==> HasId(r, s)
  {
    var i := AfterWww(s, AfterScheme(s));
    if TwitchTvAt(s, i, false) && LitAt(s, i + 10, "videos/") then
      var b := RunEnd(s, i + 17, Digit);
      if b > i + 17 && QueryTail(s, b) then Match(Some(Span(i + 17, b))) else NoMatch
    else NoMatch
  }

  /** `^(?P<id>[a-zA-Z0-9][\w]{3,24})$` */
  function BareChannel(s: string): (r: Captures)
    ensures r.Match? ==> HasId(r, s) && r.id.value == Span(0, |s|)
    ensures r.Match? <==> 4 <= |s| <= 25 && In(Alnum, s[0]) && forall k :: 1 <= k < |s| ==> In(Word, s[k])
  {
    match ChannelIdEnd(s, 0)
    case Some(e) => RunChars(s, 1, Word); if e == |s| then Match(Some(Span(0, |s|))) else NoMatch
    case None => NoMatch
  }

  /** `^(https?://)?(www\.)?twitch\.tv/(?P<id>[a-zA-Z0-9][\w]{3,24})(\?.*)?$` */
  function ChannelUrl(s: string): (r: Captures)
    ensures r.Match? ==> HasId(r, s)
  {
    var i := AfterWww(s, AfterScheme(s));
    if TwitchTvAt(s, i, true) then
      match ChannelIdEnd(s, i + 10)
      case Some(e) => if QueryTail(s, e) then Match(Some(Span(i + 10, e))) else NoMatch
      case None => NoMatch
    else NoMatch
  }

  /** `^(?P<id>[A-Za-z0-9]+(?:-[A-Za-z0-9_-]{16})?)$` */
  function BareClip(s: string): (r: Captures)
    ensures r.Match? ==> HasId(r, s) && r.id.value == Span(0, |s|) && s != [] && AllIn(s, SlugChar)
  {
    match ClipIdEnd(s, 0)
    case Some(e) => ClipIdChars(s, 0); if e == |s| then Match(Some(Span(0, |s|))) else NoMatch
    case None => NoMatch
  }

  /** `^(https?://)?(www\.)?twitch.tv/\w+/clip/(?P<id>[A-Za-z0-9]+(?:-[A-Za-z0-9_-]{16})?)(\?.*)?$` */
  function ClipUrl(s: string): (r: Captures)
    ensures r.Match? ==> HasId(r, s)
  {
    var i := AfterWww(s, AfterScheme(s));
    if TwitchTvAt(s, i, false) then
      var w := RunEnd(s, i + 10, Word);
      if w > i + 10 && LitAt(s, w, "/clip/") then
        match ClipIdEnd(s, w + 6)
        case Some(e) => if QueryTail(s, e) then Match(Some(Span(w + 6, e))) else NoMatch
        case None => NoMatch
      else NoMatch
    else NoMatch
  }

  /** `^(https?://)?clips\.twitch.tv/(?P<id>[A-Za-z0-9]+(?:-[A-Za-z0-9_-]{16})?)(\?.*)?$` */
  function ClipsHostUrl(s: string): (r: Captures)
    ensures r.Match? ==> HasId(r, s)
  {
    var i := AfterScheme(s);
    if LitAt(s, i, "clips.") && TwitchTvAt(s, i + 6, false) then
      match ClipIdEnd(s, i + 16)
      case Some(e) => if QueryTail(s, e) then Match(Some(Span(i + 16, e))) else NoMatch
      case None => NoMatch
    else NoMatch
  }
}
