/**
 * The YouTube metadata parser of src/utils/youtube.ts. The parser holds one
 * video's data and never changes it, so it is a datatype whose member functions
 * are the `parse*` and `getBest*` methods; the two quality dictionaries are
 * filled in a loop and are methods.
 *
 * Raw fields that the source may find missing are `Option`s; parsed fields that
 * then come out `undefined` are `Option`s too.
 */
module YouTube {
  import opened Common
  import opened JsText

  // ---------------------------------------------------------------------------
  // Raw data

  datatype Thumbnail = Thumbnail(url: string, width: int, height: int)

  /** A text object of the player response; only its plain `text` is read. */
  datatype TextObject = TextObject(text: string)

  datatype BasicInfo = BasicInfo(
    id: string,
    channelId: string,
    title: string,
    duration: int,
    keywords: Option<seq<string>>,
    shortDescription: string,
    thumbnail: Option<seq<Thumbnail>>,
    allowRatings: bool,
    viewCount: int,
    author: string,
    isPrivate: bool,
    isLive: bool,
    urlCanonical: Option<string>)

  datatype ColorInfo = ColorInfo(primaries: string, transferCharacteristics: string, matrixCoefficients: string)

  /** One entry of `adaptive_formats`, with the fields the parser copies. */
  datatype AdaptiveFormat = AdaptiveFormat(
    itag: int,
    mimeType: string,
    bitrate: int,
    averageBitrate: int,
    width: Option<int>,
    height: Option<int>,
    projectionType: string,
    lastModified: string,
    contentLength: int,
    quality: string,
    qualityLabel: Option<string>,
    fps: Option<int>,
    url: string,
    approxDurationMs: int,
    hasAudio: bool,
    hasVideo: bool,
    colorInfo: Option<ColorInfo>,
    audioQuality: Option<string>,
    audioSampleRate: Option<int>,
    audioChannels: Option<int>,
    loudnessDb: Option<real>,
    trackAbsoluteLoudnessLkfs: Option<real>,
    language: Option<string>,
    isOriginal: Option<bool>)

  datatype StreamingData = StreamingData(
    expires: string,
    adaptiveFormats: Option<seq<AdaptiveFormat>>,
    hlsManifestUrl: string,
    serverAbrStreamingUrl: string)

  datatype CaptionTrack = CaptionTrack(
    baseUrl: string,
    name: Option<TextObject>,
    vssId: string,
    languageCode: string,
    isTranslatable: bool,
    kind: Option<string>)

  datatype TranslationLanguage = TranslationLanguage(languageCode: string, languageName: Option<TextObject>)

  datatype Captions = Captions(captionTracks: Option<seq<CaptionTrack>>, translationLanguages: Option<seq<TranslationLanguage>>)

  datatype EndscreenElement = EndscreenElement(
    style: string,
    title: Option<TextObject>,
    image: Option<seq<Thumbnail>>,
    metadata: Option<TextObject>,
    left: real,
    width: real,
    top: real,
    aspectRatio: real,
    startMs: int,
    endMs: int,
    id: string)

  datatype Endscreen = Endscreen(elements: Option<seq<EndscreenElement>>, startMs: string)

  datatype StoryboardBoard = StoryboardBoard(
    boardType: string,
    templateUrl: string,
    thumbnailWidth: int,
    thumbnailHeight: int,
    thumbnailCount: int,
    interval: int,
    columns: int,
    rows: int,
    storyboardCount: int)

  datatype Storyboards = Storyboards(boardsType: string, boards: Option<seq<StoryboardBoard>>)

  datatype PlayabilityStatus = PlayabilityStatus(status: string, reason: string, embeddable: bool)

  /** The player response; a section the response lacks is `None`. */
  datatype VideoData = VideoData(
    basicInfo: Option<BasicInfo>,
    storyboards: Option<Storyboards>,
    endscreen: Option<Endscreen>,
    captions: Option<Captions>,
    streamingData: Option<StreamingData>,
    playabilityStatus: Option<PlayabilityStatus>)

  // ---------------------------------------------------------------------------
  // Parsed data

  datatype ParsedBasicInfo = ParsedBasicInfo(
    id: Option<string>,
    title: Option<string>,
    author: Option<string>,
    channelId: Option<string>,
    duration: Option<int>,
    viewCount: Option<int>,
    description: Option<string>,
    keywords: seq<string>,
    thumbnails: seq<Thumbnail>,
    isLive: Option<bool>,
    isPrivate: Option<bool>,
    allowRatings: Option<bool>,
    urlCanonical: Option<string>)

  datatype VideoFormat = VideoFormat(
    itag: int,
    mimeType: string,
    quality: string,
    qualityLabel: Option<string>,
    width: Option<int>,
    height: Option<int>,
    fps: Option<int>,
    bitrate: int,
    averageBitrate: int,
    contentLength: int,
    url: string,
    approxDurationMs: int,
    projectionType: string,
    colorInfo: Option<ColorInfo>,
    lastModified: string,
    codec: Option<string>)

  datatype AudioFormat = AudioFormat(
    itag: int,
    mimeType: string,
    bitrate: int,
    averageBitrate: int,
    audioQuality: Option<string>,
    audioSampleRate: Option<int>,
    audioChannels: Option<int>,
    contentLength: int,
    url: string,
    approxDurationMs: int,
    loudnessDb: Option<real>,
    trackAbsoluteLoudnessLkfs: Option<real>,
    language: Option<string>,
    isOriginal: Option<bool>,
    lastModified: string,
    codec: Option<string>)

  datatype ParsedCaptionTrack = ParsedCaptionTrack(
    baseUrl: string, name: string, languageCode: string, vssId: string, kind: Option<string>, isTranslatable: bool)

  datatype ParsedTranslationLanguage = ParsedTranslationLanguage(languageCode: string, languageName: string)

  datatype ParsedCaptions = ParsedCaptions(tracks: seq<ParsedCaptionTrack>, translationLanguages: seq<ParsedTranslationLanguage>)

  datatype ParsedEndscreenElement = ParsedEndscreenElement(
    elementType: string,
    title: string,
    image: seq<Thumbnail>,
    metadata: string,
    left: real,
    width: real,
    top: real,
    aspectRatio: real,
    startMs: int,
    endMs: int,
    id: string)

  datatype ParsedEndscreen = ParsedEndscreen(startMs: Option<string>, elements: seq<ParsedEndscreenElement>)

  datatype ParsedStoryboards = ParsedStoryboards(boardsType: Option<string>, boards: seq<StoryboardBoard>)

  datatype ParsedPlayability = ParsedPlayability(status: Option<string>, reason: Option<string>, embeddable: Option<bool>)

  datatype FormatCount = FormatCount(video: nat, audio: nat, total: nat)

  datatype ParsedStreaming = ParsedStreaming(
    expires: Option<string>, hlsManifestUrl: Option<string>, serverAbrStreamingUrl: Option<string>, formatCount: FormatCount)

  datatype ParsedData = ParsedData(
    basicInfo: ParsedBasicInfo,
    videoFormats: seq<VideoFormat>,
    audioFormats: seq<AudioFormat>,
    captions: ParsedCaptions,
    endscreen: ParsedEndscreen,
    storyboards: ParsedStoryboards,
    playability: ParsedPlayability,
    streaming: ParsedStreaming)

  datatype BestUrls = BestUrls(video: Option<string>, audio: Option<string>)

  datatype FormatInfo = FormatInfo(qualities: seq<string>, codecs: seq<string>, count: nat)

  datatype FormatSummary = FormatSummary(video: FormatInfo, audio: FormatInfo)

  // ---------------------------------------------------------------------------
  // Stable descending sort (Array.prototype.sort with `(a, b) => key(b) - key(a)`)

  predicate Descending<T>(s: seq<T>, key: T -> int) {
    forall i, j :: 0 <= i < j < |s| ==> key(s[i]) >= key(s[j])
  }

  /** Inserts `x` into the descending `s` after every element whose key is at least `key(x)`. */
  function InsertDescending<T>(s: seq<T>, x: T, key: T -> int): (r: seq<T>)
    requires Descending(s, key)
    ensures Descending(r, key)
    ensures multiset(r) == multiset(s) + multiset{x}
  {
    if s == [] || key(s[|s| - 1]) >= key(x) then
      s + [x]
    else
      var init := s[..|s| - 1];
      var last := s[|s| - 1];
      assert s == init + [last];
      var rest := InsertDescending(init, x, key);
      InsertBeforeLast(init, last, x, rest, key);
      rest + [last]
  }

  /** The step of `InsertDescending` that puts `x` before the last element. */
  lemma InsertBeforeLast<T>(init: seq<T>, last: T, x: T, rest: seq<T>, key: T -> int)
    requires Descending(init + [last], key) && key(last) < key(x)
    requires multiset(rest) == multiset(init) + multiset{x}
    requires Descending(rest, key)
    ensures Descending(rest + [last], key)
    ensures multiset(rest + [last]) == multiset(init + [last]) + multiset{x}
  {
    var s := init + [last];
    forall i | 0 <= i < |rest|
      ensures key(rest[i]) >= key(last)
    {
      assert rest[i] in multiset(init) + multiset{x};
      if rest[i] != x {
        var k :| 0 <= k < |init| && init[k] == rest[i];
        assert s[k] == init[k] && s[|s| - 1] == last;
      }
    }
    DescendingAppend(rest, last, key);
  }

  lemma DescendingAppend<T>(s: seq<T>, x: T, key: T -> int)
    requires Descending(s, key)
    requires forall i :: 0 <= i < |s| ==> key(s[i]) >= key(x)
    ensures Descending(s + [x], key)
  {
    var r := s + [x];
    forall i, j | 0 <= i < j < |r|
      ensures key(r[i]) >= key(r[j])
    {
      assert r[i] == s[i];
    }
  }

  /** The elements of `s` ordered by non-increasing key, equal keys keeping their order. */
  function SortDescending<T>(s: seq<T>, key: T -> int): (r: seq<T>)
    ensures Descending(r, key)
    ensures multiset(r) == multiset(s)
    ensures |r| == |s|
  {
    if s == [] then []
    else
      var init := s[..|s| - 1];
      assert s == init + [s[|s| - 1]];
      var r := InsertDescending(SortDescending(init, key), s[|s| - 1], key);
      assert multiset(s) == multiset(init) + multiset{s[|s| - 1]};
      assert |r| == |multiset(r)| == |multiset(s)| == |s|;
      r
  }

  // ---------------------------------------------------------------------------
  // Codec extraction: the first match of /codecs="([^"]+)"/

  const CodecsPrefix := "codecs=\""

  /** The length of the run of non-quote characters of `s` that starts at `i`. */
  function QuoteFreeRun(s: string, i: nat): (n: nat)
    requires i <= |s|
    ensures i + n <= |s|
    ensures forall k :: i <= k < i + n ==> s[k] != '"'
    ensures i + n < |s| ==> s[i + n] == '"'
    decreases |s| - i
  {
    if i < |s| && s[i] != '"' then 1 + QuoteFreeRun(s, i + 1) else 0
  }

  /** The pattern matches at `i`: `codecs="`, one or more non-quotes, then a quote. */
  predicate CodecMatchAt(s: string, i: nat) {
    i + |CodecsPrefix| <= |s|
    && s[i..i + |CodecsPrefix|] == CodecsPrefix
    && 0 < QuoteFreeRun(s, i + |CodecsPrefix|)
    && i + |CodecsPrefix| + QuoteFreeRun(s, i + |CodecsPrefix|) < |s|
  }

  /** The captured group of a match at `i`. */
  function CodecGroup(s: string, i: nat): string
    requires CodecMatchAt(s, i)
  {
    s[i + |CodecsPrefix|..i + |CodecsPrefix| + QuoteFreeRun(s, i + |CodecsPrefix|)]
  }

  /** The position of the leftmost match at or after `i`, or `|s| + 1` when there is none. */
  function FirstCodecMatch(s: string, i: nat): (k: nat)
    requires i <= |s|
    ensures i <= k <= |s| + 1
    ensures k <= |s| ==> CodecMatchAt(s, k)
    ensures forall m :: i <= m < k && m <= |s| ==> !CodecMatchAt(s, m)
    decreases |s| - i
  {
    if CodecMatchAt(s, i) then i
    else if i == |s| then |s| + 1
    else FirstCodecMatch(s, i + 1)
  }

  /** `extractCodec`: no codec for an empty mime type, else the group of the leftmost match, if any. */
  function ExtractCodec(mimeType: string): (r: Option<string>)
    ensures mimeType == "" ==> r.None?
    ensures r.None? <==> forall k :: 0 <= k <= |mimeType| ==> !CodecMatchAt(mimeType, k)
    ensures r.Some? ==> exists k :: 0 <= k <= |mimeType| && CodecMatchAt(mimeType, k) && r.value == CodecGroup(mimeType, k)
                                     && forall m :: 0 <= m < k ==> !CodecMatchAt(mimeType, m)
  {
    if mimeType == "" then None
    else
      var k := FirstCodecMatch(mimeType, 0);
      if k <= |mimeType| then Some(CodecGroup(mimeType, k)) else None
  }

  /** The leftmost match decides: a match at `k` with none before it is what `extractCodec` returns. */
  lemma ExtractCodecAt(mimeType: string, k: nat)
    requires k <= |mimeType| && CodecMatchAt(mimeType, k)
    requires forall m :: 0 <= m < k ==> !CodecMatchAt(mimeType, m)
    ensures ExtractCodec(mimeType) == Some(CodecGroup(mimeType, k))
  {
    var j := FirstCodecMatch(mimeType, 0);
    assert j == k;
  }

  /** An extracted codec is never empty and never holds a quote. */
  lemma ExtractCodecShape(mimeType: string)
    requires ExtractCodec(mimeType).Some?
    ensures |ExtractCodec(mimeType).value| > 0
    ensures '"' !in ExtractCodec(mimeType).value
  {
    var k := FirstCodecMatch(mimeType, 0);
    var st := k + |CodecsPrefix|;
    var g := CodecGroup(mimeType, k);
    assert forall j :: 0 <= j < |g| ==> g[j] == mimeType[st + j];
  }

  /** A run of `n` non-quotes ending at a quote has length `n`. */
  lemma {:induction false} QuoteFreeRunIs(s: string, i: nat, n: nat)
    requires i + n < |s| && s[i + n] == '"'
    requires forall k :: i <= k < i + n ==> s[k] != '"'
    ensures QuoteFreeRun(s, i) == n
    decreases n
  {
    if n > 0 {
      QuoteFreeRunIs(s, i + 1, n - 1);
    }
  }

  /** `codecs="<codec>"` right after `head` is a match, and its group is the codec. */
  lemma CodecMatchAfter(s: string, head: string, codec: string, tail: string)
    requires s == head + CodecsPrefix + codec + "\"" + tail
    requires |codec| > 0 && '"' !in codec
    ensures CodecMatchAt(s, |head|) && CodecGroup(s, |head|) == codec
  {
    var k := |head|;
    var st := k + |CodecsPrefix|;
    assert s[k..st] == CodecsPrefix;
    assert forall j :: st <= j < st + |codec| ==> s[j] == codec[j - st];
    assert s[st + |codec|] == '"';
    QuoteFreeRunIs(s, st, |codec|);
    assert s[st..st + |codec|] == codec;
  }

  /** No match starts inside a head without the letter `c`. */
  lemma NoCodecMatchIn(s: string, head: string)
    requires |head| <= |s| && s[..|head|] == head && 'c' !in head
    ensures forall m :: 0 <= m < |head| ==> !CodecMatchAt(s, m)
  {
    forall m | 0 <= m < |head|
      ensures !CodecMatchAt(s, m)
    {
      assert s[m] == head[m];
      if m + |CodecsPrefix| <= |s| {
        assert s[m..m + |CodecsPrefix|][0] == s[m];
      }
    }
  }

  /**
   * A mime type of the usual form `<type>; codecs="<codec>"...`, whose type part
   * has no `c`, yields the codec; `video/mp4; codecs="avc1.64001F"` yields `avc1.64001F`.
   */
  lemma ExtractCodecOfDeclared(head: string, codec: string, tail: string)
    requires 'c' !in head
    requires |codec| > 0 && '"' !in codec
    ensures ExtractCodec(head + CodecsPrefix + codec + "\"" + tail) == Some(codec)
  {
    var s := head + CodecsPrefix + codec + "\"" + tail;
    CodecMatchAfter(s, head, codec, tail);
    assert s[..|head|] == head;
    NoCodecMatchIn(s, head);
    ExtractCodecAt(s, |head|);
  }

  // ---------------------------------------------------------------------------
  // Formats

  /** The adaptive format's entry in `parseVideoFormats`. */
  function ToVideoFormat(f: AdaptiveFormat): VideoFormat {
    VideoFormat(f.itag, f.mimeType, f.quality, f.qualityLabel, f.width, f.height, f.fps, f.bitrate,
                f.averageBitrate, f.contentLength, f.url, f.approxDurationMs, f.projectionType, f.colorInfo,
                f.lastModified, ExtractCodec(f.mimeType))
  }

  /** The adaptive format's entry in `parseAudioFormats`. */
  function ToAudioFormat(f: AdaptiveFormat): AudioFormat {
    AudioFormat(f.itag, f.mimeType, f.bitrate, f.averageBitrate, f.audioQuality, f.audioSampleRate,
                f.audioChannels, f.contentLength, f.url, f.approxDurationMs, f.loudnessDb,
                f.trackAbsoluteLoudnessLkfs, f.language, f.isOriginal, f.lastModified, ExtractCodec(f.mimeType))
  }

  predicate IsVideoOnly(f: AdaptiveFormat) { f.hasVideo && !f.hasAudio }

  predicate IsAudioOnly(f: AdaptiveFormat) { f.hasAudio && !f.hasVideo }

  /** The video sort key: the height, a missing one counting as 0. */
  function HeightKey(v: VideoFormat): int { v.height.GetOr(0) }

  function BitrateKey(a: AudioFormat): int { a.bitrate }

  /** The audio key of the quality dictionary: the audio quality, or the bitrate in kbps when it has none. */
  function AudioQualityKey(a: AudioFormat): (q: string)
    ensures a.audioQuality.Some? && a.audioQuality.value != "" ==> q == a.audioQuality.value
    ensures !(a.audioQuality.Some? && a.audioQuality.value != "") ==> q == IntToString(a.bitrate) + "kbps"
  {
    if a.audioQuality.Some? && a.audioQuality.value != "" then a.audioQuality.value else IntToString(a.bitrate) + "kbps"
  }

  /** The text of an optional text object, `""` when it is missing. */
  function TextOf(t: Option<TextObject>): string {
    if t.Some? then t.value.text else ""
  }

  /** The non-empty values among `s`, in order (`.filter(Boolean)` after a `map` to optional strings). */
  function Present(s: seq<Option<string>>): (r: seq<string>)
    ensures forall i :: 0 <= i < |r| ==> r[i] != "" && Some(r[i]) in s
    ensures forall i :: 0 <= i < |s| && s[i].Some? && s[i].value != "" ==> s[i].value in r
  {
    if s == [] then []
    else (if s[0].Some? && s[0].value != "" then [s[0].value] else []) + Present(s[1..])
  }

  // ---------------------------------------------------------------------------
  // De-duplication (`[...new Set(list)]`)

  /** The index of the first occurrence of `x` in `s`. */
  function FirstIndex(s: seq<string>, x: string): (i: nat)
    requires x in s
    ensures i < |s| && s[i] == x
    ensures forall j :: 0 <= j < i ==> s[j] != x
  {
    if s[0] == x then 0 else 1 + FirstIndex(s[1..], x)
  }

  lemma {:induction false} FirstIndexOfPrefix(s: seq<string>, x: string, n: nat)
    requires n <= |s| && x in s[..n]
    ensures FirstIndex(s, x) == FirstIndex(s[..n], x)
  {
    var i := FirstIndex(s[..n], x);
    var k := FirstIndex(s, x);
    assert s[i] == x;
    assert k <= i;
    assert s[..n][k] == x;
  }

  predicate NoDuplicates(s: seq<string>) {
    forall i, j :: 0 <= i < j < |s| ==> s[i] != s[j]
  }

  /** The distinct elements of `s`, each at the place of its first occurrence. */
  function Distinct(s: seq<string>): (r: seq<string>)
    ensures NoDuplicates(r)
    ensures forall x :: x in r <==> x in s
    ensures forall i, j :: 0 <= i < j < |r| ==> FirstIndex(s, r[i]) < FirstIndex(s, r[j])
  {
    if s == [] then []
    else
      var init := s[..|s| - 1];
      var last := s[|s| - 1];
      var d := Distinct(init);
      assert s == init + [last];
      if last in d then
        DistinctSnocSeen(init, last, d);
        d
      else
        DistinctSnocNew(init, last, d);
        d + [last]
  }

  /** The elements of `init` have the same first index in `init + [last]`. */
  lemma FirstIndexSnoc(init: seq<string>, last: string, d: seq<string>)
    requires forall x :: x in d ==> x in init
    ensures forall x :: x in d ==> FirstIndex(init + [last], x) == FirstIndex(init, x)
  {
    var s := init + [last];
    assert init == s[..|s| - 1];
    forall x | x in d
      ensures FirstIndex(s, x) == FirstIndex(init, x)
    {
      FirstIndexOfPrefix(s, x, |s| - 1);
    }
  }

  /** An element seen before leaves the distinct elements as they are. */
  lemma DistinctSnocSeen(init: seq<string>, last: string, d: seq<string>)
    requires forall x :: x in d <==> x in init
    requires forall i, j :: 0 <= i < j < |d| ==> FirstIndex(init, d[i]) < FirstIndex(init, d[j])
    requires last in d
    ensures forall x :: x in d <==> x in init + [last]
    ensures forall i, j :: 0 <= i < j < |d| ==> FirstIndex(init + [last], d[i]) < FirstIndex(init + [last], d[j])
  {
    FirstIndexSnoc(init, last, d);
  }

  /** A new element goes at the end of the distinct elements. */
  lemma DistinctSnocNew(init: seq<string>, last: string, d: seq<string>)
    requires NoDuplicates(d)
    requires forall x :: x in d <==> x in init
    requires forall i, j :: 0 <= i < j < |d| ==> FirstIndex(init, d[i]) < FirstIndex(init, d[j])
    requires last !in d
    ensures NoDuplicates(d + [last])
    ensures forall x :: x in d + [last] <==> x in init + [last]
    ensures forall i, j :: 0 <= i < j < |d + [last]| ==>
              FirstIndex(init + [last], (d + [last])[i]) < FirstIndex(init + [last], (d + [last])[j])
  {
    var s := init + [last];
    var r := d + [last];
    FirstIndexSnoc(init, last, d);
    assert FirstIndex(s, last) == |s| - 1 by {
      assert last !in init;
    }
    forall i | 0 <= i < |d|
      ensures FirstIndex(s, r[i]) < |s| - 1
    {
      assert r[i] == d[i] && d[i] in init;
    }
  }

  function QualityLabelOf(v: VideoFormat): Option<string> { v.qualityLabel }
  function VideoCodecOf(v: VideoFormat): Option<string> { v.codec }
  function AudioQualityOf(a: AudioFormat): Option<string> { a.audioQuality }
  function AudioCodecOf(a: AudioFormat): Option<string> { a.codec }

  /** The non-empty values that `f` gives the elements of `s`, each once: `[...new Set(s.map(f).filter(Boolean))]`. */
  function DistinctPresent<A>(s: seq<A>, f: A -> Option<string>): seq<string> {
    Distinct(Present(Map(s, f)))
  }

  /**
   * `l` lists the non-empty values that `f` gives the elements of `s`: each
   * once, nothing else, in the order in which they first appear.
   */
  ghost predicate ListsPresentValuesOnce<A>(l: seq<string>, s: seq<A>, f: A -> Option<string>) {
    var values := Present(Map(s, f));
    && NoDuplicates(l)
    && (forall q :: q in l <==> q != "" && exists i :: 0 <= i < |s| && f(s[i]) == Some(q))
    && (forall i, j :: 0 <= i < j < |l| ==>
          l[i] in values && l[j] in values && FirstIndex(values, l[i]) < FirstIndex(values, l[j]))
  }

  /** A value is among the present ones exactly when it is non-empty and some element has it. */
  lemma PresentOfMap<A>(s: seq<A>, f: A -> Option<string>, q: string)
    ensures q in Present(Map(s, f)) <==> q != "" && exists i :: 0 <= i < |s| && f(s[i]) == Some(q)
  {
    var values := Map(s, f);
    if q in Present(values) {
      var k :| 0 <= k < |Present(values)| && Present(values)[k] == q;
      assert Some(q) in values;
      var i :| 0 <= i < |values| && values[i] == Some(q);
      assert f(s[i]) == Some(q);
    }
    if q != "" && exists i :: 0 <= i < |s| && f(s[i]) == Some(q) {
      var i :| 0 <= i < |s| && f(s[i]) == Some(q);
      assert values[i] == Some(q);
    }
  }

  lemma DistinctPresentLists<A>(s: seq<A>, f: A -> Option<string>)
    ensures ListsPresentValuesOnce(DistinctPresent(s, f), s, f)
  {
    var l := DistinctPresent(s, f);
    forall q
      ensures q in l <==> q != "" && exists i :: 0 <= i < |s| && f(s[i]) == Some(q)
    {
      PresentOfMap(s, f, q);
    }
  }

  // ---------------------------------------------------------------------------
  // The parser

  /** `new YouTubeVideoParser(data)`. */
  datatype Parser = Parser(data: VideoData) {

    /** `streaming_data?.adaptive_formats || []`. */
    function AdaptiveFormats(): seq<AdaptiveFormat> {
      if data.streamingData.Some? && data.streamingData.value.adaptiveFormats.Some?
      then data.streamingData.value.adaptiveFormats.value
      else []
    }

    /** `parseVideoFormats`: the video-only formats, tallest first. */
    function VideoFormats(): (r: seq<VideoFormat>)
      ensures Descending(r, HeightKey)
      ensures multiset(r) == multiset(Map(Filter(AdaptiveFormats(), IsVideoOnly), ToVideoFormat))
    {
      SortDescending(Map(Filter(AdaptiveFormats(), IsVideoOnly), ToVideoFormat), HeightKey)
    }

    /** `parseAudioFormats`: the audio-only formats, highest bitrate first. */
    function AudioFormats(): (r: seq<AudioFormat>)
      ensures Descending(r, BitrateKey)
      ensures multiset(r) == multiset(Map(Filter(AdaptiveFormats(), IsAudioOnly), ToAudioFormat))
    {
      SortDescending(Map(Filter(AdaptiveFormats(), IsAudioOnly), ToAudioFormat), BitrateKey)
    }

    /** `parseBasicInfo`: every scalar is `undefined` when the section is missing; lists default to `[]`. */
    function BasicInfoOf(): (b: ParsedBasicInfo)
      ensures data.basicInfo.None? ==>
                && b.id.None? && b.title.None? && b.author.None? && b.channelId.None? && b.duration.None?
                && b.viewCount.None? && b.description.None? && b.keywords == [] && b.thumbnails == []
                && b.isLive.None? && b.isPrivate.None? && b.allowRatings.None? && b.urlCanonical.None?
      ensures data.basicInfo.Some? ==>
                var basic := data.basicInfo.value;
                && b.id == Some(basic.id) && b.title == Some(basic.title) && b.author == Some(basic.author)
                && b.channelId == Some(basic.channelId) && b.duration == Some(basic.duration)
                && b.viewCount == Some(basic.viewCount) && b.description == Some(basic.shortDescription)
                && b.keywords == basic.keywords.GetOr([]) && b.thumbnails == basic.thumbnail.GetOr([])
                && b.isLive == Some(basic.isLive) && b.isPrivate == Some(basic.isPrivate)
                && b.allowRatings == Some(basic.allowRatings) && b.urlCanonical == basic.urlCanonical
    {
      match data.basicInfo
      case None => ParsedBasicInfo(None, None, None, None, None, None, None, [], [], None, None, None, None)
      case Some(basic) =>
        ParsedBasicInfo(Some(basic.id), Some(basic.title), Some(basic.author), Some(basic.channelId),
                        Some(basic.duration), Some(basic.viewCount), Some(basic.shortDescription),
                        basic.keywords.GetOr([]), basic.thumbnail.GetOr([]), Some(basic.isLive),
                        Some(basic.isPrivate), Some(basic.allowRatings), basic.urlCanonical)
    }

    /** `parseCaptions`: the tracks and translation languages, with `""` for a missing name. */
    function CaptionsOf(): (c: ParsedCaptions)
      ensures data.captions.None? ==> c.tracks == [] && c.translationLanguages == []
      ensures data.captions.Some? ==>
                var tracks := data.captions.value.captionTracks.GetOr([]);
                && |c.tracks| == |tracks|
                && forall i :: 0 <= i < |tracks| ==>
                     && c.tracks[i].baseUrl == tracks[i].baseUrl
                     && c.tracks[i].name == (if tracks[i].name.Some? then tracks[i].name.value.text else "")
                     && c.tracks[i].languageCode == tracks[i].languageCode && c.tracks[i].vssId == tracks[i].vssId
                     && c.tracks[i].kind == tracks[i].kind && c.tracks[i].isTranslatable == tracks[i].isTranslatable
      ensures data.captions.Some? ==>
                var languages := data.captions.value.translationLanguages.GetOr([]);
                && |c.translationLanguages| == |languages|
                && forall i :: 0 <= i < |languages| ==>
                     && c.translationLanguages[i].languageCode == languages[i].languageCode
                     && c.translationLanguages[i].languageName
                        == (if languages[i].languageName.Some? then languages[i].languageName.value.text else "")
    {
      var captions := data.captions.GetOr(Captions(None, None));
      ParsedCaptions(
        Map(captions.captionTracks.GetOr([]),
            (t: CaptionTrack) => ParsedCaptionTrack(t.baseUrl, TextOf(t.name), t.languageCode, t.vssId, t.kind, t.isTranslatable)),
        Map(captions.translationLanguages.GetOr([]),
            (l: TranslationLanguage) => ParsedTranslationLanguage(l.languageCode, TextOf(l.languageName))))
    }

    /** `parseEndscreen`: an element's `type` is taken from its `style`. */
    function EndscreenOf(): (e: ParsedEndscreen)
      ensures data.endscreen.None? ==> e == ParsedEndscreen(None, [])
      ensures data.endscreen.Some? ==> e.startMs == Some(data.endscreen.value.startMs)
      ensures data.endscreen.Some? ==>
                var elements := data.endscreen.value.elements.GetOr([]);
                && |e.elements| == |elements|
                && forall i :: 0 <= i < |elements| ==>
                     && e.elements[i].elementType == elements[i].style
                     && e.elements[i].title == (if elements[i].title.Some? then elements[i].title.value.text else "")
                     && e.elements[i].image == elements[i].image.GetOr([])
                     && e.elements[i].metadata == (if elements[i].metadata.Some? then elements[i].metadata.value.text else "")
                     && e.elements[i].left == elements[i].left && e.elements[i].width == elements[i].width
                     && e.elements[i].top == elements[i].top && e.elements[i].aspectRatio == elements[i].aspectRatio
                     && e.elements[i].startMs == elements[i].startMs && e.elements[i].endMs == elements[i].endMs
                     && e.elements[i].id == elements[i].id
    {
      match data.endscreen
      case None => ParsedEndscreen(None, [])
      case Some(endscreen) =>
        ParsedEndscreen(Some(endscreen.startMs), Map(endscreen.elements.GetOr([]),
          (el: EndscreenElement) => ParsedEndscreenElement(el.style, TextOf(el.title), el.image.GetOr([]), TextOf(el.metadata),
                                                          el.left, el.width, el.top, el.aspectRatio, el.startMs, el.endMs, el.id)))
    }

    /** `parseStoryboards`. */
    function StoryboardsOf(): (s: ParsedStoryboards)
      ensures data.storyboards.None? ==> s == ParsedStoryboards(None, [])
      ensures data.storyboards.Some? ==> s == ParsedStoryboards(Some(data.storyboards.value.boardsType), data.storyboards.value.boards.GetOr([]))
    {
      match data.storyboards
      case None => ParsedStoryboards(None, [])
      case Some(sb) => ParsedStoryboards(Some(sb.boardsType), sb.boards.GetOr([]))
    }

    /** `parsePlayability`. */
    function PlayabilityOf(): (p: ParsedPlayability)
      ensures data.playabilityStatus.None? ==> p == ParsedPlayability(None, None, None)
      ensures data.playabilityStatus.Some? ==>
                var ps := data.playabilityStatus.value;
                p == ParsedPlayability(Some(ps.status), Some(ps.reason), Some(ps.embeddable))
    {
      match data.playabilityStatus
      case None => ParsedPlayability(None, None, None)
      case Some(ps) => ParsedPlayability(Some(ps.status), Some(ps.reason), Some(ps.embeddable))
    }

    /** `parseStreaming`. */
    function StreamingOf(): (s: ParsedStreaming)
      ensures s.formatCount == FormatCount(|VideoFormats()|, |AudioFormats()|, |AdaptiveFormats()|)
      ensures data.streamingData.None? ==> s.expires.None? && s.hlsManifestUrl.None? && s.serverAbrStreamingUrl.None?
      ensures data.streamingData.Some? ==>
                var sd := data.streamingData.value;
                && s.expires == Some(sd.expires) && s.hlsManifestUrl == Some(sd.hlsManifestUrl)
                && s.serverAbrStreamingUrl == Some(sd.serverAbrStreamingUrl)
    {
      var count := FormatCount(|VideoFormats()|, |AudioFormats()|, |AdaptiveFormats()|);
      match data.streamingData
      case None => ParsedStreaming(None, None, None, count)
      case Some(sd) => ParsedStreaming(Some(sd.expires), Some(sd.hlsManifestUrl), Some(sd.serverAbrStreamingUrl), count)
    }

    /** `parse`. */
    function Parse(): (d: ParsedData)
      ensures d.videoFormats == VideoFormats() && d.audioFormats == AudioFormats()
      ensures d.streaming.formatCount.video == |d.videoFormats| && d.streaming.formatCount.audio == |d.audioFormats|
      ensures d.basicInfo == BasicInfoOf() && d.captions == CaptionsOf() && d.endscreen == EndscreenOf()
      ensures d.storyboards == StoryboardsOf() && d.playability == PlayabilityOf() && d.streaming == StreamingOf()
    {
      ParsedData(BasicInfoOf(), VideoFormats(), AudioFormats(), CaptionsOf(), EndscreenOf(),
                 StoryboardsOf(), PlayabilityOf(), StreamingOf())
    }

    /** `getBestVideoUrl`: the url of the first, so tallest, video-only format. */
    function BestVideoUrl(): (r: Option<string>)
      ensures r.None? <==> |VideoFormats()| == 0
      ensures r.Some? ==> r.value == VideoFormats()[0].url
                          && forall k :: 0 <= k < |VideoFormats()| ==> HeightKey(VideoFormats()[k]) <= HeightKey(VideoFormats()[0])
    {
      var videos := VideoFormats();
      if |videos| > 0 then Some(videos[0].url) else None
    }

    /** `getBestAudioUrl`: the url of the first, so highest-bitrate, audio-only format. */
    function BestAudioUrl(): (r: Option<string>)
      ensures r.None? <==> |AudioFormats()| == 0
      ensures r.Some? ==> r.value == AudioFormats()[0].url
                          && forall k :: 0 <= k < |AudioFormats()| ==> BitrateKey(AudioFormats()[k]) <= BitrateKey(AudioFormats()[0])
    {
      var audios := AudioFormats();
      if |audios| > 0 then Some(audios[0].url) else None
    }

    /** `getFormattedDuration`: `m:ss`, or nothing when the duration is missing or zero. */
    function FormattedDuration(): (r: Option<string>)
      ensures r.None? <==> data.basicInfo.None? || data.basicInfo.value.duration == 0
    {
      if data.basicInfo.None? || data.basicInfo.value.duration == 0 then None
      else
        var d := data.basicInfo.value.duration;
        Some(IntToString(d / 60) + ":" + PadStart(IntToString(JsRem(d, 60)), 2, '0'))
    }

    /** `getFormatSummary`. */
    function FormatSummaryOf(): (s: FormatSummary)
      ensures s.video.count == |VideoFormats()| && s.audio.count == |AudioFormats()|
    {
      var videos := VideoFormats();
      var audios := AudioFormats();
      FormatSummary(
        FormatInfo(DistinctPresent(videos, QualityLabelOf), DistinctPresent(videos, VideoCodecOf), |videos|),
        FormatInfo(DistinctPresent(audios, AudioQualityOf), DistinctPresent(audios, AudioCodecOf), |audios|))
    }
  }

  // ---------------------------------------------------------------------------
  // Quality dictionaries (filled in a `forEach` loop)

  /**
   * The dictionary a `forEach` over `s` builds when it sets `result[key] = url`
   * for every element that has a key: later elements overwrite earlier ones.
   */
  function UrlMap<T>(s: seq<T>, keyOf: T -> Option<string>, urlOf: T -> string): (m: map<string, string>)
    ensures |m| <= |s|
  {
    if s == [] then map[]
    else
      var m := UrlMap(s[..|s| - 1], keyOf, urlOf);
      var x := s[|s| - 1];
      if keyOf(x).Some? then m[keyOf(x).value := urlOf(x)] else m
  }

  /** One more element: its key, if it has one, now maps to its url. */
  lemma UrlMapStep<T>(s: seq<T>, keyOf: T -> Option<string>, urlOf: T -> string, n: nat)
    requires n < |s|
    ensures UrlMap(s[..n + 1], keyOf, urlOf)
            == if keyOf(s[n]).Some? then UrlMap(s[..n], keyOf, urlOf)[keyOf(s[n]).value := urlOf(s[n])] else UrlMap(s[..n], keyOf, urlOf)
  {
    assert s[..n + 1][..n] == s[..n];
  }

  /** The keys are exactly the keys of the elements. */
  lemma {:induction false} UrlMapKeys<T>(s: seq<T>, keyOf: T -> Option<string>, urlOf: T -> string, q: string)
    ensures q in UrlMap(s, keyOf, urlOf) <==> exists i :: 0 <= i < |s| && keyOf(s[i]) == Some(q)
  {
    if s != [] {
      var init := s[..|s| - 1];
      UrlMapKeys(init, keyOf, urlOf, q);
      assert forall i :: 0 <= i < |init| ==> init[i] == s[i];
      if exists i :: 0 <= i < |s| && keyOf(s[i]) == Some(q) {
        var i :| 0 <= i < |s| && keyOf(s[i]) == Some(q);
        if i < |init| {
          assert keyOf(init[i]) == Some(q);
        }
      }
    }
  }

  /** The value of a key is the url of the last element with that key. */
  lemma {:induction false} UrlMapLast<T>(s: seq<T>, keyOf: T -> Option<string>, urlOf: T -> string, q: string)
    requires q in UrlMap(s, keyOf, urlOf)
    ensures exists i :: 0 <= i < |s| && keyOf(s[i]) == Some(q) && UrlMap(s, keyOf, urlOf)[q] == urlOf(s[i])
                        && forall j :: i < j < |s| ==> keyOf(s[j]) != Some(q)
  {
    var init := s[..|s| - 1];
    var x := s[|s| - 1];
    if keyOf(x) == Some(q) {
      assert keyOf(s[|s| - 1]) == Some(q);
    } else {
      UrlMapLast(init, keyOf, urlOf, q);
      var i :| 0 <= i < |init| && keyOf(init[i]) == Some(q) && UrlMap(init, keyOf, urlOf)[q] == urlOf(init[i])
               && forall j :: i < j < |init| ==> keyOf(init[j]) != Some(q);
      assert s[i] == init[i];
      assert forall j :: i < j < |s| ==> keyOf(s[j]) != Some(q) by {
        forall j | i < j < |s|
          ensures keyOf(s[j]) != Some(q)
        {
          if j < |init| { assert s[j] == init[j]; }
        }
      }
    }
  }

  /** The key of a video format: its quality label, when that is present and non-empty. */
  function VideoKey(v: VideoFormat): Option<string> {
    if v.qualityLabel.Some? && v.qualityLabel.value != "" then v.qualityLabel else None
  }

  function VideoUrl(v: VideoFormat): string { v.url }

  function AudioKey(a: AudioFormat): Option<string> { Some(AudioQualityKey(a)) }

  function AudioUrl(a: AudioFormat): string { a.url }

  /** `getVideoUrlsByQuality`. */
  method VideoUrlsByQuality(p: Parser) returns (result: map<string, string>)
    ensures result == UrlMap(p.VideoFormats(), VideoKey, VideoUrl)
  {
    var videos := p.VideoFormats();
    result := map[];
    var n := 0;
    while n < |videos|
      invariant 0 <= n <= |videos|
      invariant result == UrlMap(videos[..n], VideoKey, VideoUrl)
    {
      UrlMapStep(videos, VideoKey, VideoUrl, n);
      var ql := videos[n].qualityLabel;
      if ql.Some? && ql.value != "" {
        assert VideoKey(videos[n]) == ql;
        result := result[ql.value := videos[n].url];
      }
      n := n + 1;
    }
    assert videos[..n] == videos;
  }

  /** `getAudioUrlsByQuality`. */
  method AudioUrlsByQuality(p: Parser) returns (result: map<string, string>)
    ensures result == UrlMap(p.AudioFormats(), AudioKey, AudioUrl)
  {
    var audios := p.AudioFormats();
    result := map[];
    var n := 0;
    while n < |audios|
      invariant 0 <= n <= |audios|
      invariant result == UrlMap(audios[..n], AudioKey, AudioUrl)
    {
      UrlMapStep(audios, AudioKey, AudioUrl, n);
      var quality := AudioQualityKey(audios[n]);
      result := result[quality := audios[n].url];
      n := n + 1;
    }
    assert audios[..n] == audios;
  }

  /** The video dictionary's keys are exactly the non-empty quality labels. */
  lemma VideoUrlKeys(p: Parser, q: string)
    ensures q in UrlMap(p.VideoFormats(), VideoKey, VideoUrl)
            <==> q != "" && exists i :: 0 <= i < |p.VideoFormats()| && p.VideoFormats()[i].qualityLabel == Some(q)
  {
    var videos := p.VideoFormats();
    UrlMapKeys(videos, VideoKey, VideoUrl, q);
    assert forall i :: 0 <= i < |videos| ==> (VideoKey(videos[i]) == Some(q) <==> q != "" && videos[i].qualityLabel == Some(q));
  }

  /** Each video url is that of the last format carrying the label. */
  lemma VideoUrlIsLast(p: Parser, q: string)
    requires q in UrlMap(p.VideoFormats(), VideoKey, VideoUrl)
    ensures exists i :: 0 <= i < |p.VideoFormats()| && p.VideoFormats()[i].qualityLabel == Some(q)
                        && UrlMap(p.VideoFormats(), VideoKey, VideoUrl)[q] == p.VideoFormats()[i].url
                        && forall j :: i < j < |p.VideoFormats()| ==> p.VideoFormats()[j].qualityLabel != Some(q)
  {
    var videos := p.VideoFormats();
    UrlMapLast(videos, VideoKey, VideoUrl, q);
    UrlMapKeys(videos, VideoKey, VideoUrl, q);
    assert q != "";
  }

  /** The audio dictionary's keys are exactly the audio keys of the formats; each holds the last such format's url. */
  lemma AudioUrlKeys(p: Parser, q: string)
    ensures q in UrlMap(p.AudioFormats(), AudioKey, AudioUrl)
            <==> exists i :: 0 <= i < |p.AudioFormats()| && AudioQualityKey(p.AudioFormats()[i]) == q
    ensures q in UrlMap(p.AudioFormats(), AudioKey, AudioUrl) ==>
            exists i :: 0 <= i < |p.AudioFormats()| && AudioQualityKey(p.AudioFormats()[i]) == q
                        && UrlMap(p.AudioFormats(), AudioKey, AudioUrl)[q] == p.AudioFormats()[i].url
                        && forall j :: i < j < |p.AudioFormats()| ==> AudioQualityKey(p.AudioFormats()[j]) != q
  {
    var audios := p.AudioFormats();
    UrlMapKeys(audios, AudioKey, AudioUrl, q);
    if q in UrlMap(audios, AudioKey, AudioUrl) {
      UrlMapLast(audios, AudioKey, AudioUrl, q);
    }
  }

  // ---------------------------------------------------------------------------
  // Wrapper functions

  /** `parseYouTubeData`. */
  function ParseYouTubeData(data: VideoData): (d: ParsedData)
    ensures d == Parser(data).Parse()
  {
    Parser(data).Parse()
  }

  /** `getVideoUrls`. */
  method GetVideoUrls(data: VideoData) returns (result: map<string, string>)
    ensures result == UrlMap(Parser(data).VideoFormats(), VideoKey, VideoUrl)
  {
    result := VideoUrlsByQuality(Parser(data));
  }

  /** `getAudioUrls`. */
  method GetAudioUrls(data: VideoData) returns (result: map<string, string>)
    ensures result == UrlMap(Parser(data).AudioFormats(), AudioKey, AudioUrl)
  {
    result := AudioUrlsByQuality(Parser(data));
  }

  /** `getBestUrls`. */
  function GetBestUrls(data: VideoData): (b: BestUrls)
    ensures b.video == Parser(data).BestVideoUrl() && b.audio == Parser(data).BestAudioUrl()
  {
    BestUrls(Parser(data).BestVideoUrl(), Parser(data).BestAudioUrl())
  }

  // ---------------------------------------------------------------------------
  // Properties

  /** Sorting the images of the kept elements: exactly those images, each as often as it occurs. */
  lemma SortedImagesExactly<A, B>(all: seq<A>, keep: A -> bool, f: A -> B, key: B -> int)
    ensures var v := SortDescending(Map(Filter(all, keep), f), key);
            && |v| == |Filter(all, keep)|
            && (forall i :: 0 <= i < |v| ==> exists j :: 0 <= j < |all| && keep(all[j]) && v[i] == f(all[j]))
            && (forall j :: 0 <= j < |all| && keep(all[j]) ==> f(all[j]) in v)
  {
    var v := SortDescending(Map(Filter(all, keep), f), key);
    forall i | 0 <= i < |v|
      ensures exists j :: 0 <= j < |all| && keep(all[j]) && v[i] == f(all[j])
    {
      SortedImageFrom(all, keep, f, key, i);
    }
    forall j | 0 <= j < |all| && keep(all[j])
      ensures f(all[j]) in v
    {
      KeptImageSorted(all, keep, f, key, j);
    }
  }

  lemma SortedImageFrom<A, B>(all: seq<A>, keep: A -> bool, f: A -> B, key: B -> int, i: nat)
    requires i < |SortDescending(Map(Filter(all, keep), f), key)|
    ensures exists j :: 0 <= j < |all| && keep(all[j]) && SortDescending(Map(Filter(all, keep), f), key)[i] == f(all[j])
  {
    var kept := Filter(all, keep);
    var mapped := Map(kept, f);
    var v := SortDescending(mapped, key);
    assert v[i] in multiset(mapped);
    var m :| 0 <= m < |mapped| && mapped[m] == v[i];
    assert kept[m] in all;
    var j :| 0 <= j < |all| && all[j] == kept[m];
  }

  lemma KeptImageSorted<A, B>(all: seq<A>, keep: A -> bool, f: A -> B, key: B -> int, j: nat)
    requires j < |all| && keep(all[j])
    ensures f(all[j]) in SortDescending(Map(Filter(all, keep), f), key)
  {
    var kept := Filter(all, keep);
    var mapped := Map(kept, f);
    assert all[j] in kept;
    var m :| 0 <= m < |kept| && kept[m] == all[j];
    assert mapped[m] in multiset(SortDescending(mapped, key));
  }

  /** The first of the sorted images, if any, is the image of a kept element whose key is maximal. */
  lemma SortedImagesFirstIsMax<A, B>(all: seq<A>, keep: A -> bool, f: A -> B, key: B -> int)
    ensures var v := SortDescending(Map(Filter(all, keep), f), key);
            && (|v| == 0 <==> forall j :: 0 <= j < |all| ==> !keep(all[j]))
            && (|v| > 0 ==> exists j :: 0 <= j < |all| && keep(all[j]) && v[0] == f(all[j])
                                        && forall k :: 0 <= k < |all| && keep(all[k]) ==> key(f(all[k])) <= key(v[0]))
  {
    SortedImagesExactly(all, keep, f, key);
    var v := SortDescending(Map(Filter(all, keep), f), key);
    if |v| > 0 {
      forall k | 0 <= k < |all| && keep(all[k])
        ensures key(f(all[k])) <= key(v[0])
      {
        var m :| 0 <= m < |v| && v[m] == f(all[k]);
        assert m == 0 || key(v[0]) >= key(v[m]);
      }
    }
  }

  /** `parseVideoFormats` keeps exactly the video-only formats, each as often as it occurs, tallest first. */
  lemma VideoFormatsExactly(p: Parser)
    ensures Descending(p.VideoFormats(), HeightKey)
    ensures |p.VideoFormats()| == |Filter(p.AdaptiveFormats(), IsVideoOnly)|
    ensures forall i :: 0 <= i < |p.VideoFormats()| ==>
              exists j :: 0 <= j < |p.AdaptiveFormats()| && IsVideoOnly(p.AdaptiveFormats()[j]) && p.VideoFormats()[i] == ToVideoFormat(p.AdaptiveFormats()[j])
    ensures forall j :: 0 <= j < |p.AdaptiveFormats()| && IsVideoOnly(p.AdaptiveFormats()[j]) ==> ToVideoFormat(p.AdaptiveFormats()[j]) in p.VideoFormats()
    ensures p.data.streamingData.None? ==> p.VideoFormats() == []
  {
    SortedImagesExactly(p.AdaptiveFormats(), IsVideoOnly, ToVideoFormat, HeightKey);
  }

  /** `parseAudioFormats` keeps exactly the audio-only formats, each as often as it occurs, highest bitrate first. */
  lemma AudioFormatsExactly(p: Parser)
    ensures Descending(p.AudioFormats(), BitrateKey)
    ensures |p.AudioFormats()| == |Filter(p.AdaptiveFormats(), IsAudioOnly)|
    ensures forall i :: 0 <= i < |p.AudioFormats()| ==>
              exists j :: 0 <= j < |p.AdaptiveFormats()| && IsAudioOnly(p.AdaptiveFormats()[j]) && p.AudioFormats()[i] == ToAudioFormat(p.AdaptiveFormats()[j])
    ensures forall j :: 0 <= j < |p.AdaptiveFormats()| && IsAudioOnly(p.AdaptiveFormats()[j]) ==> ToAudioFormat(p.AdaptiveFormats()[j]) in p.AudioFormats()
    ensures p.data.streamingData.None? ==> p.AudioFormats() == []
  {
    SortedImagesExactly(p.AdaptiveFormats(), IsAudioOnly, ToAudioFormat, BitrateKey);
  }

  /** No format is counted as both video and audio, so the two counts never exceed the total. */
  lemma FormatCountBounded(p: Parser)
    ensures p.StreamingOf().formatCount.video + p.StreamingOf().formatCount.audio <= p.StreamingOf().formatCount.total
  {
    SortedImagesExactly(p.AdaptiveFormats(), IsVideoOnly, ToVideoFormat, HeightKey);
    SortedImagesExactly(p.AdaptiveFormats(), IsAudioOnly, ToAudioFormat, BitrateKey);
    FilterDisjointCount(p.AdaptiveFormats(), IsVideoOnly, IsAudioOnly);
  }

  /**
   * `getBestVideoUrl` is null exactly when there is no video-only format, and
   * otherwise the url of a video-only format of maximal height.
   */
  lemma BestVideoUrlIsTallest(p: Parser)
    ensures p.BestVideoUrl().None? <==> forall j :: 0 <= j < |p.AdaptiveFormats()| ==> !IsVideoOnly(p.AdaptiveFormats()[j])
    ensures p.BestVideoUrl().Some? ==>
              exists j :: 0 <= j < |p.AdaptiveFormats()| && IsVideoOnly(p.AdaptiveFormats()[j])
                          && p.AdaptiveFormats()[j].url == p.BestVideoUrl().value
                          && forall k :: 0 <= k < |p.AdaptiveFormats()| && IsVideoOnly(p.AdaptiveFormats()[k])
                                         ==> p.AdaptiveFormats()[k].height.GetOr(0) <= p.AdaptiveFormats()[j].height.GetOr(0)
  {
    SortedImagesFirstIsMax(p.AdaptiveFormats(), IsVideoOnly, ToVideoFormat, HeightKey);
  }

  /**
   * `getBestAudioUrl` is null exactly when there is no audio-only format, and
   * otherwise the url of an audio-only format of maximal bitrate.
   */
  lemma BestAudioUrlIsHighestBitrate(p: Parser)
    ensures p.BestAudioUrl().None? <==> forall j :: 0 <= j < |p.AdaptiveFormats()| ==> !IsAudioOnly(p.AdaptiveFormats()[j])
    ensures p.BestAudioUrl().Some? ==>
              exists j :: 0 <= j < |p.AdaptiveFormats()| && IsAudioOnly(p.AdaptiveFormats()[j])
                          && p.AdaptiveFormats()[j].url == p.BestAudioUrl().value
                          && forall k :: 0 <= k < |p.AdaptiveFormats()| && IsAudioOnly(p.AdaptiveFormats()[k])
                                         ==> p.AdaptiveFormats()[k].bitrate <= p.AdaptiveFormats()[j].bitrate
  {
    SortedImagesFirstIsMax(p.AdaptiveFormats(), IsAudioOnly, ToAudioFormat, BitrateKey);
  }

  /**
   * Each list of `getFormatSummary` holds the non-empty values of its field,
   * each once, in the order of first appearance, and nothing else.
   */
  lemma FormatSummaryLists(p: Parser)
    ensures ListsPresentValuesOnce(p.FormatSummaryOf().video.qualities, p.VideoFormats(), QualityLabelOf)
    ensures ListsPresentValuesOnce(p.FormatSummaryOf().video.codecs, p.VideoFormats(), VideoCodecOf)
    ensures ListsPresentValuesOnce(p.FormatSummaryOf().audio.qualities, p.AudioFormats(), AudioQualityOf)
    ensures ListsPresentValuesOnce(p.FormatSummaryOf().audio.codecs, p.AudioFormats(), AudioCodecOf)
  {
    DistinctPresentLists(p.VideoFormats(), QualityLabelOf);
    DistinctPresentLists(p.VideoFormats(), VideoCodecOf);
    DistinctPresentLists(p.AudioFormats(), AudioQualityOf);
    DistinctPresentLists(p.AudioFormats(), AudioCodecOf);
  }

  /** The formatted duration of a positive number d of seconds is `{d div 60}:{d mod 60 as two digits}`. */
  lemma FormattedDurationOfPositive(p: Parser)
    requires p.data.basicInfo.Some? && p.data.basicInfo.value.duration > 0
    ensures var d := p.data.basicInfo.value.duration;
            p.FormattedDuration() == Some(NatToString(d / 60) + ":" + PadStart(NatToString(d % 60), 2, '0'))
    ensures var d := p.data.basicInfo.value.duration;
            |PadStart(NatToString(d % 60), 2, '0')| == 2
  {
    var d := p.data.basicInfo.value.duration;
    var sec := NatToString(d % 60);
    assert |sec| <= 2 by {
      if d % 60 >= 10 {
        assert NatToString(d % 60) == NatToString(d % 60 / 10) + [DigitChar(d % 60 % 10)];
        assert |NatToString(d % 60 / 10)| == 1;
      }
    }
  }

  /** 213 seconds read `3:33`, 5 seconds `0:05`. */
  lemma FormattedDurationExamples()
    ensures NatToString(213 / 60) + ":" + PadStart(NatToString(213 % 60), 2, '0') == "3:33"
    ensures NatToString(5 / 60) + ":" + PadStart(NatToString(5 % 60), 2, '0') == "0:05"
  {
    assert NatToString(33) == "33";
    assert PadStart("5", 2, '0') == "05";
  }
}
