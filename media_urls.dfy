/**
  The two media URL helpers of the projects view and the way the viewer panel uses them.
  Both helpers apply one fixed regular expression; the functions below follow the matching
  rules of ECMAScript regular expressions (ECMA-262, section 22.2, "RegExp Objects") for these
  two patterns: a greedy `.*` backtracks from its longest choice, `.` does not match a line
  terminator, and an unanchored pattern is tried at each start position from left to right.
*/
module MediaUrls {
  import opened Wrappers
  import opened MockApi
  import opened Decimal

  // ---- Character classes ----

  /** The characters `.` does not match (the pattern has no `s` flag). */
  predicate IsLineTerminator(c: char) {
    c == '\n' || c == '\r' || c == '\U{2028}' || c == '\U{2029}'
  }

  /** `\w` */
  predicate IsWordChar(c: char) {
    ('a' <= c <= 'z') || ('A' <= c <= 'Z') || ('0' <= c <= '9') || c == '_'
  }

  /** `[^#&?]`: the characters a YouTube video id is made of. */
  predicate InVideoId(c: char) {
    !(c == '#' || c == '&' || c == '?')
  }

  /** `[a-zA-Z0-9_-]`: the characters a Drive file id is made of, and those of a real YouTube id. */
  predicate IsUrlIdChar(c: char) {
    IsWordChar(c) || c == '-'
  }

  /** `e` ends the longest run of `ok` characters that starts at `i`. */
  ghost predicate IsMaximalRun(s: string, i: nat, e: nat, ok: char -> bool) {
    && i <= e <= |s|
    && (forall k :: i <= k < e ==> ok(s[k]))
    && (e < |s| ==> !ok(s[e]))
  }

  /** A greedy `[...]*` (or `[...]+`) starting at `i` ends where the run of `ok` characters ends. */
  function RunEnd(s: string, i: nat, ok: char -> bool): (e: nat)
    requires i <= |s|
    ensures IsMaximalRun(s, i, e, ok)
    decreases |s| - i
  {
    if i == |s| || !ok(s[i]) then i else RunEnd(s, i + 1, ok)
  }

  lemma MaximalRunIsUnique(s: string, i: nat, e: nat, ok: char -> bool)
    requires i <= |s| && IsMaximalRun(s, i, e, ok)
    ensures RunEnd(s, i, ok) == e
  {
  }

  // ---- getYouTubeId: /^.*(youtu.be\/|v\/|u\/\w\/|embed\/|watch\?v=|&v=)([^#&?]*).*/ ----

  /**
    Length of the alternative of `(youtu.be\/|v\/|u\/\w\/|embed\/|watch\?v=|&v=)` that matches
    at `p`, or 0 when none does. The `.` in `youtu.be` is the any-character wildcard. The
    alternatives begin with six different characters, so at most one matches at a position.
  */
  function MarkerLength(s: string, p: nat): (n: nat)
    ensures n > 0 ==> p + n <= |s|
  {
    if p + 9 <= |s| && s[p] == 'y' && s[p + 1] == 'o' && s[p + 2] == 'u' && s[p + 3] == 't' && s[p + 4] == 'u'
       && !IsLineTerminator(s[p + 5]) && s[p + 6] == 'b' && s[p + 7] == 'e' && s[p + 8] == '/' then 9
    else if p + 2 <= |s| && s[p] == 'v' && s[p + 1] == '/' then 2
    else if p + 4 <= |s| && s[p] == 'u' && s[p + 1] == '/' && IsWordChar(s[p + 2]) && s[p + 3] == '/' then 4
    else if p + 6 <= |s| && s[p] == 'e' && s[p + 1] == 'm' && s[p + 2] == 'b' && s[p + 3] == 'e' && s[p + 4] == 'd'
       && s[p + 5] == '/' then 6
    else if p + 8 <= |s| && s[p] == 'w' && s[p + 1] == 'a' && s[p + 2] == 't' && s[p + 3] == 'c' && s[p + 4] == 'h'
       && s[p + 5] == '?' && s[p + 6] == 'v' && s[p + 7] == '=' then 8
    else if p + 3 <= |s| && s[p] == '&' && s[p + 1] == 'v' && s[p + 2] == '=' then 3
    else 0
  }

  /** How far the anchored `^.*` can reach: the index of the first line terminator, or `|s|`. */
  function FirstLineEnd(s: string): (e: nat)
    ensures e <= |s|
    ensures forall k :: 0 <= k < e ==> !IsLineTerminator(s[k])
    ensures e < |s| ==> IsLineTerminator(s[e])
  {
    if |s| == 0 || IsLineTerminator(s[0]) then 0 else 1 + FirstLineEnd(s[1..])
  }

  /**
    The backtracking of the greedy `^.*`: it first consumes `k` characters, then `k - 1`, and so
    on, and stops at the first prefix after which the alternation matches.
  */
  function LastMarkerAtOrBelow(s: string, k: nat): (r: Option<nat>)
    ensures r.Some? ==> r.value <= k && MarkerLength(s, r.value) > 0
    ensures r.Some? ==> forall q :: r.value < q <= k ==> MarkerLength(s, q) == 0
    ensures r.None? ==> forall q :: 0 <= q <= k ==> MarkerLength(s, q) == 0
  {
    if MarkerLength(s, k) > 0 then Some(k)
    else if k == 0 then None
    else LastMarkerAtOrBelow(s, k - 1)
  }

  /**
    `getYouTubeId(url)`: group 2 of the match when it is exactly 11 characters long, otherwise
    `null`. The capture `[^#&?]*` can never fail, nor can the trailing `.*`, so the match exists
    exactly when the alternation matches after some prefix that `^.*` can consume.
  */
  function YouTubeId(url: string): (r: Option<string>)
    ensures r.Some? ==> |r.value| == 11 && forall c :: c in r.value ==> InVideoId(c)
  {
    match LastMarkerAtOrBelow(url, FirstLineEnd(url))
    case None => None
    case Some(p) =>
      var start := p + MarkerLength(url, p);
      var id := url[start..RunEnd(url, start, InVideoId)];
      if |id| == 11 then Some(id) else None
  }

  /** The leading `^.*` can consume the first `q` characters of `s`. */
  ghost predicate PrefixReachable(s: string, q: nat) {
    q <= |s| && forall k :: 0 <= k < q ==> !IsLineTerminator(s[k])
  }

  /**
    The alternative the match uses starts at `p`: after the longest consumable prefix followed
    by a marker. This is the right-most marker on the first line of `s`.
  */
  ghost predicate IsChosenMarker(s: string, p: nat) {
    && PrefixReachable(s, p)
    && MarkerLength(s, p) > 0
    && forall q :: p < q && PrefixReachable(s, q) ==> MarkerLength(s, q) == 0
  }

  lemma PrefixReachableUpToLineEnd(s: string, q: nat)
    ensures PrefixReachable(s, q) <==> q <= FirstLineEnd(s)
  {
  }

  /** When the pattern matches with the marker at `p`, the id is the maximal run after the marker, kept only at 11 characters. */
  lemma YouTubeIdOfMatch(url: string, p: nat, e: nat)
    requires IsChosenMarker(url, p)
    requires IsMaximalRun(url, p + MarkerLength(url, p), e, InVideoId)
    ensures var start := p + MarkerLength(url, p);
            YouTubeId(url) == if e - start == 11 then Some(url[start..e]) else None
  {
    var k := FirstLineEnd(url);
    PrefixReachableUpToLineEnd(url, p);
    forall q | p < q <= k ensures MarkerLength(url, q) == 0 {
      PrefixReachableUpToLineEnd(url, q);
    }
    assert LastMarkerAtOrBelow(url, k) == Some(p);
    MaximalRunIsUnique(url, p + MarkerLength(url, p), e, InVideoId);
  }

  /** Without a marker on the first line, there is no match and the result is `null`. */
  lemma YouTubeIdWithoutMarker(url: string)
    requires forall q :: PrefixReachable(url, q) ==> MarkerLength(url, q) == 0
    ensures YouTubeId(url) == None
  {
    var k := FirstLineEnd(url);
    var r := LastMarkerAtOrBelow(url, k);
    if r.Some? {
      PrefixReachableUpToLineEnd(url, r.value);
    }
  }

  /** Every alternative ends in `/` or `=`, characters no id contains. */
  lemma MarkerEndsInSeparator(s: string, q: nat)
    requires MarkerLength(s, q) > 0
    ensures s[q + MarkerLength(s, q) - 1] == '/' || s[q + MarkerLength(s, q) - 1] == '='
  {
  }

  /** A marker that lies inside `s` is still there, unchanged, once text is appended. */
  lemma MarkerSurvivesAppend(s: string, t: string, p: nat)
    requires MarkerLength(s, p) > 0
    ensures MarkerLength(s + t, p) == MarkerLength(s, p)
  {
    var n := MarkerLength(s, p);
    assert forall k :: p <= k < p + n ==> (s + t)[k] == s[k];
  }

  /**
    The pattern applied to `prefix + v`, where `prefix` ends with the marker at `p` and no other
    marker starts after `p` inside `prefix`, and `v` is made of `[a-zA-Z0-9_-]`: the id is `v`
    when it has 11 characters, and `null` otherwise.
  */
  lemma YouTubeIdAfterPrefix(prefix: string, p: nat, v: string)
    requires PrefixReachable(prefix, p) && MarkerLength(prefix, p) > 0 && p + MarkerLength(prefix, p) == |prefix|
    requires forall q :: p < q < |prefix| ==> MarkerLength(prefix + v, q) == 0
    requires forall c :: c in v ==> IsUrlIdChar(c)
    ensures YouTubeId(prefix + v) == if |v| == 11 then Some(v) else None
  {
    var url := prefix + v;
    MarkerSurvivesAppend(prefix, v, p);
    forall k | |prefix| <= k < |url| ensures IsUrlIdChar(url[k]) {
      assert url[k] in v;
    }
    forall q | p < q && PrefixReachable(url, q) ensures MarkerLength(url, q) == 0 {
      if q >= |prefix| && MarkerLength(url, q) > 0 {
        MarkerEndsInSeparator(url, q);
      }
    }
    assert p + MarkerLength(url, p) == |prefix| && url[|prefix|..|url|] == v;
    YouTubeIdOfMatch(url, p, |url|);
  }

  /** A `youtu.be` short link yields its id when the id has 11 characters. */
  lemma YouTubeIdOfShortLink(v: string)
    requires forall c :: c in v ==> IsUrlIdChar(c)
    ensures YouTubeId("https://youtu.be/" + v) == if |v| == 11 then Some(v) else None
  {
    var prefix := "https://youtu.be/";
    assert PrefixReachable(prefix, 8) && MarkerLength(prefix, 8) == 9;
    forall q | 8 < q < |prefix| ensures MarkerLength(prefix + v, q) == 0 {
      assert q in {9, 10, 11, 12, 13, 14, 15, 16};
    }
    YouTubeIdAfterPrefix(prefix, 8, v);
  }

  /** A `watch?v=` link yields its id when the id has 11 characters. */
  lemma YouTubeIdOfWatchLink(v: string)
    requires forall c :: c in v ==> IsUrlIdChar(c)
    ensures YouTubeId("https://www.youtube.com/watch?v=" + v) == if |v| == 11 then Some(v) else None
  {
    var prefix := "https://www.youtube.com/watch?v=";
    assert PrefixReachable(prefix, 24) && MarkerLength(prefix, 24) == 8;
    forall q | 24 < q < |prefix| ensures MarkerLength(prefix + v, q) == 0 {
      assert q in {25, 26, 27, 28, 29, 30, 31};
    }
    YouTubeIdAfterPrefix(prefix, 24, v);
  }

  /** The video of the first project's final stage gives its id. */
  lemma FixtureShortLinkId()
    ensures YouTubeId(MockProjects[0].stages[4].media[0].src) == Some("A6aRkhlqWuE")
  {
    var v := "A6aRkhlqWuE";
    assert forall c :: c in v ==> IsUrlIdChar(c);
    YouTubeIdOfShortLink(v);
    assert MockProjects[0].stages[4].media[0].src == "https://youtu.be/" + v;
  }

  /** The two video sources of the second project are watch links carrying placeholder text. */
  lemma FixturePlaceholderSources()
    ensures MockProjects[1].stages[4].media[0].src == "https://www.youtube.com/watch?v=" + "TU_VIDEO_ID_EVAL_BLANDY"
    ensures MockProjects[1].stages[5].media[0].src == "https://www.youtube.com/watch?v=" + "TU_VIDEO_ID_FINAL_BLANDY"
  {
  }

  /** A watch link whose text is too long for an id gives `null`. */
  lemma PlaceholderWatchLinkId(v: string)
    requires v == "TU_VIDEO_ID_EVAL_BLANDY" || v == "TU_VIDEO_ID_FINAL_BLANDY"
    ensures YouTubeId("https://www.youtube.com/watch?v=" + v) == None
  {
    assert forall c :: c in v ==> IsUrlIdChar(c);
    YouTubeIdOfWatchLink(v);
  }

  /** The placeholder video of the second project's evaluation stage gives `null`. */
  lemma FixtureEvaluationPlaceholderId()
    ensures YouTubeId(MockProjects[1].stages[4].media[0].src) == None
  {
    FixturePlaceholderSources();
    PlaceholderWatchLinkId("TU_VIDEO_ID_EVAL_BLANDY");
  }

  /** The same holds for the placeholder of its final-product stage. */
  lemma FixtureFinalPlaceholderId()
    ensures YouTubeId(MockProjects[1].stages[5].media[0].src) == None
  {
    FixturePlaceholderSources();
    PlaceholderWatchLinkId("TU_VIDEO_ID_FINAL_BLANDY");
  }

  // ---- getDrivePreviewUrl: /\/d\/([a-zA-Z0-9_-]+)/ ----

  /** The pattern can match starting at `p`: `/d/` followed by at least one id character. */
  predicate DriveMarkerAt(s: string, p: nat) {
    p + 4 <= |s| && s[p] == '/' && s[p + 1] == 'd' && s[p + 2] == '/' && IsUrlIdChar(s[p + 3])
  }

  /** The unanchored pattern is tried at `i`, `i + 1`, ...: the left-most start where it matches. */
  function FirstDriveMarkerFrom(s: string, i: nat): (r: Option<nat>)
    requires i <= |s|
    ensures r.Some? ==> i <= r.value && DriveMarkerAt(s, r.value)
    ensures r.Some? ==> forall q :: i <= q < r.value ==> !DriveMarkerAt(s, q)
    ensures r.None? ==> forall q :: i <= q ==> !DriveMarkerAt(s, q)
    decreases |s| - i
  {
    if DriveMarkerAt(s, i) then Some(i)
    else if i == |s| then None
    else FirstDriveMarkerFrom(s, i + 1)
  }

  const DrivePreviewPrefix := "https://drive.google.com/file/d/"
  const DrivePreviewSuffix := "/preview"

  /**
    `getDrivePreviewUrl(url)`: the preview address of the file whose id group 1 captures, or
    `url` itself when the pattern does not match. Group 1 is `+`, so it is never empty when the
    pattern matches and the `fileIdMatch[1]` test only fails with the match.
  */
  function DrivePreviewUrl(url: string): (r: string)
    ensures r == url || (|r| > |DrivePreviewPrefix| + |DrivePreviewSuffix|
                         && r[..|DrivePreviewPrefix|] == DrivePreviewPrefix
                         && r[|r| - |DrivePreviewSuffix|..] == DrivePreviewSuffix)
  {
    match FirstDriveMarkerFrom(url, 0)
    case None => url
    case Some(p) =>
      var id := url[p + 3..RunEnd(url, p + 3, IsUrlIdChar)];
      var r := DrivePreviewPrefix + id + DrivePreviewSuffix;
      assert r[..|DrivePreviewPrefix|] == DrivePreviewPrefix;
      assert r[|r| - |DrivePreviewSuffix|..] == DrivePreviewSuffix;
      r
  }

  /** When the left-most match starts at `p` and its id ends at `e`, the result is the preview address of that id. */
  lemma DrivePreviewUrlOfMatch(url: string, p: nat, e: nat)
    requires DriveMarkerAt(url, p)
    requires forall q :: 0 <= q < p ==> !DriveMarkerAt(url, q)
    requires IsMaximalRun(url, p + 3, e, IsUrlIdChar)
    ensures DrivePreviewUrl(url) == DrivePreviewPrefix + url[p + 3..e] + DrivePreviewSuffix
  {
    assert FirstDriveMarkerFrom(url, 0) == Some(p);
    MaximalRunIsUnique(url, p + 3, e, IsUrlIdChar);
  }

  /** Without `/d/` followed by an id character, the address is returned as it is. */
  lemma DrivePreviewUrlFallback(url: string)
    requires forall q :: !DriveMarkerAt(url, q)
    ensures DrivePreviewUrl(url) == url
  {
  }

  /** A non-empty id run ends exactly where the id ends when what follows cannot continue it. */
  lemma IdRunEndsAt(s: string, t: string, i: nat)
    requires i <= |s|
    requires forall k :: i <= k < |s| ==> IsUrlIdChar(s[k])
    requires |t| == 0 || !IsUrlIdChar(t[0])
    ensures IsMaximalRun(s + t, i, |s|, IsUrlIdChar)
  {
    if |t| > 0 {
      assert (s + t)[|s|] == t[0];
    }
  }

  /**
    A Drive address in the shape the preview address has: the preview prefix, a non-empty id, and
    anything that does not continue the id, becomes the preview address of that id.
  */
  lemma DrivePreviewUrlOfFileUrl(id: string, rest: string)
    requires |id| > 0 && forall c :: c in id ==> IsUrlIdChar(c)
    requires |rest| == 0 || !IsUrlIdChar(rest[0])
    ensures DrivePreviewUrl(DrivePreviewPrefix + id + rest) == DrivePreviewPrefix + id + DrivePreviewSuffix
  {
    var head := DrivePreviewPrefix + id;
    var url := head + rest;
    assert url == DrivePreviewPrefix + id + rest;
    forall q | 0 <= q < 29 ensures !DriveMarkerAt(url, q) {
      assert url[q] == DrivePreviewPrefix[q];
      if url[q] == '/' {
        assert q in {6, 7, 24};
        assert url[q + 2] == DrivePreviewPrefix[q + 2];
      }
    }
    assert url[32] == id[0];
    assert DriveMarkerAt(url, 29);
    forall k | 32 <= k < |head| ensures IsUrlIdChar(head[k]) {
      assert head[k] == id[k - 32];
    }
    IdRunEndsAt(head, rest, 32);
    assert url[32..|head|] == id;
    DrivePreviewUrlOfMatch(url, 29, |head|);
  }

  /** Applying `getDrivePreviewUrl` to its own result changes nothing. */
  lemma DrivePreviewUrlIdempotent(url: string)
    ensures DrivePreviewUrl(DrivePreviewUrl(url)) == DrivePreviewUrl(url)
  {
    match FirstDriveMarkerFrom(url, 0)
    case None =>
    case Some(p) =>
      var id := url[p + 3..RunEnd(url, p + 3, IsUrlIdChar)];
      assert forall c :: c in id ==> IsUrlIdChar(c);
      DrivePreviewUrlOfFileUrl(id, DrivePreviewSuffix);
  }

  /** The shared-link form of the fixtures' documents becomes the preview address of the same file. */
  lemma SharedDocumentPreview(id: string)
    requires id == "1NNFOFcSFLDV00SN5O8FN673S_p0sTojd"
    ensures DrivePreviewUrl(DrivePreviewPrefix + id + "/view?usp=sharing") == DrivePreviewPrefix + id + DrivePreviewSuffix
  {
    assert forall c :: c in id ==> IsUrlIdChar(c);
    DrivePreviewUrlOfFileUrl(id, "/view?usp=sharing");
  }

  /** The document of the first project's first stage is a shared-file link. */
  lemma FixtureDocumentSource()
    ensures MockProjects[0].stages[0].media[0].src
         == DrivePreviewPrefix + "1NNFOFcSFLDV00SN5O8FN673S_p0sTojd" + "/view?usp=sharing"
  {
    // The literal is compared in growing chunks; one comparison of the whole is too costly.
    assert DrivePreviewPrefix + "1NNFOFcSFL" == "https://drive.google.com/file/d/1NNFOFcSFL";
    assert DrivePreviewPrefix + "1NNFOFcSFLDV00SN5O8F" == "https://drive.google.com/file/d/1NNFOFcSFLDV00SN5O8F";
    assert DrivePreviewPrefix + "1NNFOFcSFLDV00SN5O8FN673S_p0sT" == "https://drive.google.com/file/d/1NNFOFcSFLDV00SN5O8FN673S_p0sT";
    assert DrivePreviewPrefix + "1NNFOFcSFLDV00SN5O8FN673S_p0sTojd" == "https://drive.google.com/file/d/1NNFOFcSFLDV00SN5O8FN673S_p0sTojd";
  }

  /** The document of the first project's first stage is framed at the preview address of its file. */
  lemma FixtureDocumentPreview()
    ensures DrivePreviewUrl(MockProjects[0].stages[0].media[0].src)
         == DrivePreviewPrefix + "1NNFOFcSFLDV00SN5O8FN673S_p0sTojd" + DrivePreviewSuffix
  {
    FixtureDocumentSource();
    SharedDocumentPreview("1NNFOFcSFLDV00SN5O8FN673S_p0sTojd");
  }

  // ---- The media viewer of the current stage ----

  const YouTubeEmbedPrefix := "https://www.youtube.com/embed/"

  /** How a template literal writes an id that may be `null`: the id itself, or the text `null`. */
  function TemplateText(id: Option<string>): string {
    match id
    case Some(s) => s
    case None => "null"
  }

  /**
    The `src` of a video frame: the embed address followed by `getYouTubeId(item.src)`. A link
    without an 11-character id is not filtered out: the frame points at the id `null`.
  */
  function YouTubeEmbedSrc(url: string): (r: string)
    ensures |YouTubeEmbedPrefix| <= |r| && r[..|YouTubeEmbedPrefix|] == YouTubeEmbedPrefix
    ensures YouTubeId(url).Some? <==> |r| == |YouTubeEmbedPrefix| + 11
    ensures YouTubeId(url).None? <==> r[|YouTubeEmbedPrefix|..] == "null"
    ensures YouTubeId(url).Some? ==> r == YouTubeEmbedPrefix + YouTubeId(url).value
    ensures YouTubeId(url).None? ==> r == YouTubeEmbedPrefix + "null"
  {
    YouTubeEmbedPrefix + TemplateText(YouTubeId(url))
  }

  /** Two video links embed the same address exactly when they yield the same id (or both none). */
  lemma YouTubeEmbedSrcInjective(u1: string, u2: string)
    ensures YouTubeEmbedSrc(u1) == YouTubeEmbedSrc(u2) <==> YouTubeId(u1) == YouTubeId(u2)
  {
    var r1, r2 := YouTubeEmbedSrc(u1), YouTubeEmbedSrc(u2);
    if r1 == r2 && YouTubeId(u1).Some? && YouTubeId(u2).Some? {
      assert YouTubeId(u1).value == r1[|YouTubeEmbedPrefix|..];
      assert YouTubeId(u2).value == r2[|YouTubeEmbedPrefix|..];
    }
  }

  /** The placeholder videos of the fixtures are embedded as the id `null`. */
  lemma FixturePlaceholderEmbed()
    ensures YouTubeEmbedSrc(MockProjects[1].stages[4].media[0].src) == YouTubeEmbedPrefix + "null"
  {
    FixtureEvaluationPlaceholderId();
  }

  /** What one media entry renders as; `opens` is the address the "open in a new tab" button opens. */
  datatype MediaView =
    | VideoFrame(src: string, title: string)
    | DocumentFrame(src: string, title: string, opens: string)
    | Picture(src: string, alt: string)

  /** `item.alt ?? `${stageTitle} - <noun> ${index + 1}``. */
  function Caption(alt: Option<string>, stageTitle: string, noun: string, index: nat): (c: string)
    ensures alt.Some? ==> c == alt.value
    ensures alt.None? ==> |c| == |stageTitle| + |noun| + 4 + |NatToDecimal(index + 1)|
    ensures alt.None? ==> c[..|stageTitle|] == stageTitle
    ensures alt.None? ==> c[|stageTitle|..|stageTitle| + 3] == " - "
    ensures alt.None? ==> c[|stageTitle| + 3..|stageTitle| + 3 + |noun|] == noun
    ensures alt.None? ==> c[|stageTitle| + 3 + |noun|] == ' '
    ensures alt.None? ==> c[|stageTitle| + 4 + |noun|..] == NatToDecimal(index + 1)
  {
    match alt
    case Some(a) => a
    case None => stageTitle + " - " + noun + " " + NatToDecimal(index + 1)
  }

  /** Without their own text, two entries of one stage are told apart by their positions. */
  lemma CaptionsOfPositionsDiffer(stageTitle: string, noun: string, i: nat, j: nat)
    requires i != j
    ensures Caption(None, stageTitle, noun, i) != Caption(None, stageTitle, noun, j)
  {
    NatToDecimalInjective(i + 1, j + 1);
  }

  /**
    The element one entry of the current stage renders: a video frame on the embed address for a
    YouTube link, a document frame on the preview address for a PDF, and an image otherwise.
  */
  function MediaViewOf(item: ProcessMedia, stageTitle: string, index: nat): (v: MediaView)
    ensures v.VideoFrame? <==> item.kind == YouTube
    ensures v.DocumentFrame? <==> item.kind == Pdf
    ensures v.Picture? <==> item.kind == Image || item.kind == Gif
    ensures v.VideoFrame? ==> v.src == YouTubeEmbedSrc(item.src)
    ensures v.DocumentFrame? ==> v.src == DrivePreviewUrl(item.src) && v.opens == item.src
    ensures v.Picture? ==> v.src == item.src
    ensures v.VideoFrame? ==> v.title == Caption(item.alt, stageTitle, "video", index)
    ensures v.DocumentFrame? ==> v.title == Caption(item.alt, stageTitle, "documento", index)
    ensures v.Picture? ==> v.alt == Caption(item.alt, stageTitle, "recurso", index)
  {
    match item.kind
    case YouTube => VideoFrame(YouTubeEmbedSrc(item.src), Caption(item.alt, stageTitle, "video", index))
    case Pdf => DocumentFrame(DrivePreviewUrl(item.src), Caption(item.alt, stageTitle, "documento", index), item.src)
    case _ => Picture(item.src, Caption(item.alt, stageTitle, "recurso", index))
  }

  /**
    The viewer panel: the rendered entries of the current stage, in order, or `None` for the
    "no visual material" placeholder when there is no current stage or it has no media.
  */
  function MediaPanel(stage: Option<ProcessStep>): (r: Option<seq<MediaView>>)
    ensures r.None? <==> stage.None? || |stage.value.media| == 0
    ensures r.Some? ==> |r.value| == |stage.value.media|
    ensures r.Some? ==> forall i :: 0 <= i < |r.value| ==>
              r.value[i] == MediaViewOf(stage.value.media[i], stage.value.title, i)
  {
    match stage
    case None => None
    case Some(st) =>
      if |st.media| == 0 then None
      else Some(seq(|st.media|, i requires 0 <= i < |st.media| => MediaViewOf(st.media[i], st.title, i)))
  }
}
