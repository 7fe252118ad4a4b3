/**
 * The title/episode client and its transformers (src/services/api.ts) over the
 * record shapes of src/types/content.ts.
 *
 * The network is an input: a fetch either times out, rejects with an error, or
 * yields a response whose JSON body has already been read (or failed to parse).
 * Errors are JavaScript `Error` values, told apart by their message; the kind
 * (plain `Error`, `TypeError`, `SyntaxError`) matters only to the catch block.
 */
module Api {
  import opened Common
  import opened JsText

  // ---------------------------------------------------------------------------
  // Shapes

  /** The metadata of one title, string-typed as the server sends it (`"N/A"` stands for absent). */
  datatype ApiMetaData = ApiMetaData(
    id: string,
    title: string,
    poster: string,
    rating: string,
    duration: string,
    imdbId: string,
    actors: seq<string>,
    releaseYear: string,
    /** the `type` field */
    typeName: string,
    category: string,
    description: string,
    episodeCount: int)

  /** One element of the titles list; `recordId` is the envelope's `_id`. */
  datatype ApiTitle = ApiTitle(metaData: ApiMetaData, recordId: string)

  /** The five kinds of content the app displays. */
  datatype ContentType = Episode | Bhajan | Story | Movie | Series

  /** A displayable item. Optional fields are `None` where the record leaves them `undefined`. */
  datatype ContentItem = ContentItem(
    id: string,
    title: string,
    description: Option<string>,
    imageUrl: string,
    contentType: ContentType,
    duration: Option<string>,
    releaseYear: Option<JsInt>,
    tags: Option<seq<string>>)

  /** A content item extended with the hero banner's fields. */
  datatype HeroContent = HeroContent(
    item: ContentItem,
    buttonLabel: Option<string>,
    logoImageUrl: Option<string>,
    tagline: Option<string>,
    rating: Option<string>)

  datatype EpisodePoster = EpisodePoster(lq: string, hq: string)

  /** One episode of a series (its `type` is always `'episode'`); `recordId` is `_id`. */
  datatype EpisodeItem = EpisodeItem(recordId: string, id: string, title: string, description: string, poster: EpisodePoster)

  /** The titles envelope `{status, data, message, code}`; `data` may be missing from a malformed body. */
  datatype TitlesEnvelope = TitlesEnvelope(status: string, data: Option<seq<ApiTitle>>, message: string, code: int)

  /** What the `episodes` field of an episodes envelope holds. */
  datatype EpisodesField = Missing | NotAnArray | Episodes(items: seq<EpisodeItem>)

  datatype EpisodeListData = EpisodeListData(recordId: string, episodes: EpisodesField)

  /** The episodes envelope; an absent `message` is the empty string (both are falsy). */
  datatype EpisodesEnvelope = EpisodesEnvelope(status: string, data: Option<EpisodeListData>, message: string, code: Option<int>)

  datatype ErrorKind = PlainError | TypeError | SyntaxError

  /** A thrown JavaScript error. */
  datatype JsError = JsError(kind: ErrorKind, message: string)

  /** A response the race delivered: `ok`, `status`, `statusText`, and the result of `response.json()`. */
  datatype Response<B> = Response(ok: bool, status: int, statusText: string, json: Result<B, JsError>)

  /** How the race between `fetch` and the 10-second timer ended. */
  datatype FetchOutcome<B> = TimedOut | Rejected(error: JsError) | Responded(response: Response<B>)

  // ---------------------------------------------------------------------------
  // Constants

  const ApiBaseUrl := "https://katha.afk.codes"

  /** The data URI shown when a title has no usable poster. */
  const PlaceholderImage := "data:" + PlaceholderRest
  const PlaceholderRest := "image/svg+xml;base64," + PlaceholderData
  const PlaceholderData := "PHN2ZyB3aWR0aD0iMzAwIiBoZWlnaHQ9IjQ1MCIgdmlld0JveD0iMCAwIDMwMCA0NTAiIGZpbGw9Im5vbmUiIHhtbG5zPSJodHRwOi8vd3d3LnczLm9yZy8yMDAwL3N2ZyI+CjxyZWN0IHdpZHRoPSIzMDAiIGhlaWdodD0iNDUwIiBmaWxsPSIjMkEyQTJBIi8+Cjx0ZXh0IHg9IjE1MCIgeT0iMjI1IiBmaWxsPSIjOTk5IiBmb250LWZhbWlseT0iQXJpYWwiIGZvbnQtc2l6ZT0iMTYiIHRleHQtYW5jaG9yPSJtaWRkbGUiPk5vIEltYWdlPC90ZXh0Pgo8L3N2Zz4K"

  /** The message of the timer's rejection. */
  const TimeoutMessage := "Request timeout"
  /** What the catch block turns a timeout into. */
  const TimeoutRetryMessage := "Request timeout. " + "Please try again."
  /** What the catch block turns a failed network request into. */
  const ConnectivityMessage := "Unable to connect to server. " + "Please check your connection and try again."
  const SeriesIdRequiredMessage := "Series ID is required to fetch episodes"
  const InvalidFormatMessage := "Invalid response format from server"
  /**
   * The TypeError Hermes raises when a success envelope has no `data` and the code
   * reads `data.data.length`.
   */
  const MissingDataMessage := "Cannot read " + "property " + "'length' " + "of undefined"

  const NotRated := "Not Rated"

  // ---------------------------------------------------------------------------
  // Fetching

  /** The message of the error thrown for a non-ok HTTP response. */
  function HttpErrorMessage(status: int, statusText: string): string {
    "HTTP error! status: " + IntToString(status) + " - " + statusText
  }

  function TitlesUrl(category: string): string {
    ApiBaseUrl + "/titles?category=" + category
  }

  function EpisodesUrl(seriesId: string): string {
    ApiBaseUrl + "/titles/" + seriesId + "/episodes"
  }

  /**
   * The catch block shared by both fetch procedures: a TypeError about a failed
   * network request becomes the connectivity message, any error whose message is
   * exactly "Request timeout" becomes the timeout message, and every other error
   * is rethrown as it is.
   */
  function CatchRewrite(e: JsError): (r: JsError)
    ensures e.kind == TypeError && Includes(e.message, "Network request failed") ==> r == JsError(PlainError, ConnectivityMessage)
    ensures !(e.kind == TypeError && Includes(e.message, "Network request failed")) && e.message == TimeoutMessage
            ==> r == JsError(PlainError, TimeoutRetryMessage)
    ensures !(e.kind == TypeError && Includes(e.message, "Network request failed")) && e.message != TimeoutMessage ==> r == e
  {
    if e.kind == TypeError && Includes(e.message, "Network request failed") then JsError(PlainError, ConnectivityMessage)
    else if e.message == TimeoutMessage then JsError(PlainError, TimeoutRetryMessage)
    else e
  }

  /** The two messages the catch block produces are left alone by a second pass. */
  lemma CatchRewriteIdempotent(e: JsError)
    ensures CatchRewrite(CatchRewrite(e)) == CatchRewrite(e)
  {
    var r := CatchRewrite(e);
    assert r.message == ConnectivityMessage ==> r.message != TimeoutMessage by {
      assert |ConnectivityMessage| != |TimeoutMessage|;
    }
    assert TimeoutRetryMessage != TimeoutMessage by {
      assert |TimeoutRetryMessage| != |TimeoutMessage|;
    }
  }

  /** An HTTP error message is never the timer's message, so the catch block rethrows it unchanged. */
  lemma HttpErrorSurvivesCatch(status: int, statusText: string)
    ensures CatchRewrite(JsError(PlainError, HttpErrorMessage(status, statusText))) == JsError(PlainError, HttpErrorMessage(status, statusText))
  {
    assert HttpErrorMessage(status, statusText)[0] == 'H';
  }

  /**
   * An error whose message cannot be the network failure's (it lacks the letter
   * `N`) and is not the timer's is rethrown unchanged, whatever its kind.
   */
  lemma OtherErrorSurvivesCatch(e: JsError)
    requires 'N' !in e.message && e.message != TimeoutMessage
    ensures CatchRewrite(e) == e
  {
    NotIncludesWithoutFirstChar(e.message, "Network request failed");
  }

  /** The TypeError of a success envelope without `data` is rethrown unchanged. */
  lemma MissingDataSurvivesCatch()
    ensures CatchRewrite(JsError(TypeError, MissingDataMessage)) == JsError(TypeError, MissingDataMessage)
  {
    assert 'N' !in MissingDataMessage;
    assert |MissingDataMessage| != |TimeoutMessage|;
    OtherErrorSurvivesCatch(JsError(TypeError, MissingDataMessage));
  }

  /** How `fetchTitles` settles for each outcome of the request. */
  ghost predicate TitlesContract(outcome: FetchOutcome<TitlesEnvelope>, r: Result<seq<ApiTitle>, JsError>) {
    match outcome
    case TimedOut => r == Failure(JsError(PlainError, TimeoutRetryMessage))
    case Rejected(e) => r == Failure(CatchRewrite(e))
    case Responded(resp) =>
      if !resp.ok then r == Failure(JsError(PlainError, HttpErrorMessage(resp.status, resp.statusText)))
      else match resp.json
        case Failure(e) => r == Failure(CatchRewrite(e))
        case Success(body) =>
          if body.status != "success" then
            r == Failure(CatchRewrite(JsError(PlainError, if body.message == "" then "API request failed" else body.message)))
          else if body.data.None? then r == Failure(JsError(TypeError, MissingDataMessage))
          else r == Success(body.data.value)
  }

  /**
   * `fetchTitles(category)`: requests the category's titles and returns the
   * envelope's `data` on success; every error thrown on the way passes through
   * the catch block.
   */
  method FetchTitles(category: string, outcome: FetchOutcome<TitlesEnvelope>) returns (url: string, r: Result<seq<ApiTitle>, JsError>)
    ensures url == TitlesUrl(category)
    ensures TitlesContract(outcome, r)
  {
    url := ApiBaseUrl + "/titles?category=" + category;
    var thrown: JsError;
    match outcome {
      case TimedOut =>
        thrown := JsError(PlainError, TimeoutMessage);
      case Rejected(e) =>
        thrown := e;
      case Responded(resp) =>
        if !resp.ok {
          thrown := JsError(PlainError, HttpErrorMessage(resp.status, resp.statusText));
          HttpErrorSurvivesCatch(resp.status, resp.statusText);
        } else if resp.json.Failure? {
          thrown := resp.json.error;
        } else if resp.json.value.status != "success" {
          var body := resp.json.value;
          thrown := JsError(PlainError, if body.message == "" then "API request failed" else body.message);
        } else if resp.json.value.data.None? {
          thrown := JsError(TypeError, MissingDataMessage);
          MissingDataSurvivesCatch();
        } else {
          r := Success(resp.json.value.data.value);
          return;
        }
    }
    r := Failure(CatchRewrite(thrown));
  }

  /** `fetchLiveActionTitles()`: the titles of the `live_action` category. */
  method FetchLiveActionTitles(outcome: FetchOutcome<TitlesEnvelope>) returns (url: string, r: Result<seq<ApiTitle>, JsError>)
    ensures url == TitlesUrl("live_action")
    ensures TitlesContract(outcome, r)
  {
    url, r := FetchTitles("live_action", outcome);
  }

  /** `fetchAnimatedTitles()`: the titles of the `animated` category. */
  method FetchAnimatedTitles(outcome: FetchOutcome<TitlesEnvelope>) returns (url: string, r: Result<seq<ApiTitle>, JsError>)
    ensures url == TitlesUrl("animated")
    ensures TitlesContract(outcome, r)
  {
    url, r := FetchTitles("animated", outcome);
  }

  /** How `fetchEpisodes` settles once a request has been made. */
  ghost predicate EpisodesContract(outcome: FetchOutcome<EpisodesEnvelope>, r: Result<seq<EpisodeItem>, JsError>) {
    match outcome
    case TimedOut => r == Failure(JsError(PlainError, TimeoutRetryMessage))
    case Rejected(e) => r == Failure(CatchRewrite(e))
    case Responded(resp) =>
      if !resp.ok then r == Failure(JsError(PlainError, HttpErrorMessage(resp.status, resp.statusText)))
      else match resp.json
        case Failure(e) => r == Failure(CatchRewrite(e))
        case Success(body) =>
          if body.status != "success" then
            r == Failure(CatchRewrite(JsError(PlainError, if body.message == "" then "Episodes API request failed" else body.message)))
          else if body.data.None? || !body.data.value.episodes.Episodes? then
            r == Failure(JsError(PlainError, InvalidFormatMessage))
          else r == Success(body.data.value.episodes.items)
  }

  /**
   * `fetchEpisodes(seriesId)`: an absent or empty series id fails before any
   * request is made (`url` is `None`); otherwise the series' episodes are
   * requested and the envelope validated.
   */
  method FetchEpisodes(seriesId: Option<string>, outcome: FetchOutcome<EpisodesEnvelope>)
    returns (url: Option<string>, r: Result<seq<EpisodeItem>, JsError>)
    ensures (seriesId.None? || seriesId == Some("")) <==> url.None?
    ensures url.None? ==> r == Failure(JsError(PlainError, SeriesIdRequiredMessage))
    ensures url.Some? ==> url == Some(EpisodesUrl(seriesId.value)) && EpisodesContract(outcome, r)
  {
    if seriesId.None? || seriesId.value == "" {
      url := None;
      assert |SeriesIdRequiredMessage| != |TimeoutMessage|;
      r := Failure(CatchRewrite(JsError(PlainError, SeriesIdRequiredMessage)));
      return;
    }
    url := Some(ApiBaseUrl + "/titles/" + seriesId.value + "/episodes");
    var thrown: JsError;
    match outcome {
      case TimedOut =>
        thrown := JsError(PlainError, TimeoutMessage);
      case Rejected(e) =>
        thrown := e;
      case Responded(resp) =>
        if !resp.ok {
          thrown := JsError(PlainError, HttpErrorMessage(resp.status, resp.statusText));
          HttpErrorSurvivesCatch(resp.status, resp.statusText);
        } else if resp.json.Failure? {
          thrown := resp.json.error;
        } else if resp.json.value.status != "success" {
          var body := resp.json.value;
          thrown := JsError(PlainError, if body.message == "" then "Episodes API request failed" else body.message);
        } else if resp.json.value.data.None? || !resp.json.value.data.value.episodes.Episodes? {
          thrown := JsError(PlainError, InvalidFormatMessage);
          assert |InvalidFormatMessage| != |TimeoutMessage|;
        } else {
          r := Success(resp.json.value.data.value.episodes.items);
          return;
        }
    }
    r := Failure(CatchRewrite(thrown));
  }

  // ---------------------------------------------------------------------------
  // Transformers

  lemma PlaceholderIsDataUri()
    ensures StartsWith(PlaceholderImage, "data:")
  {
    StartsWithAppend("data:", PlaceholderRest, "data:");
  }

  /** `getImageUrl`: a placeholder for a missing poster, otherwise an absolute URL. */
  function ImageUrl(poster: string): (url: string)
    ensures poster == "N/A" || AllSpace(poster) ==> url == PlaceholderImage
    ensures StartsWith(url, "data:") || StartsWith(url, "http://") || StartsWith(url, "https://")
  {
    if poster == "N/A" || poster == "" || Trim(poster) == "" then
      PlaceholderIsDataUri();
      PlaceholderImage
    else
      var trimmed := Trim(poster);
      if StartsWith(trimmed, "http://") || StartsWith(trimmed, "https://") then trimmed
      else "https://" + trimmed
  }

  /** A poster that already names its scheme is used trimmed and otherwise unchanged. */
  lemma ImageUrlKeepsAbsolute(poster: string)
    requires poster != "N/A"
    requires StartsWith(Trim(poster), "http://") || StartsWith(Trim(poster), "https://")
    ensures ImageUrl(poster) == Trim(poster)
  {
  }

  /** A poster without a scheme is taken to be an `https://` address. */
  lemma ImageUrlPrefixesBare(poster: string)
    requires poster != "N/A" && !AllSpace(poster)
    requires !StartsWith(Trim(poster), "http://") && !StartsWith(Trim(poster), "https://")
    ensures ImageUrl(poster) == "https://" + Trim(poster)
  {
  }

  /**
   * `getContentType`: the lower-cased, trimmed type decides; `bhajan`, `playlist`
   * and `movie` are recognised and everything else is an episode.
   */
  function ClassifyType(apiType: string): (t: ContentType)
    ensures t == Bhajan <==> Trim(ToLower(apiType)) == "bhajan"
    ensures t == Series <==> Trim(ToLower(apiType)) == "playlist"
    ensures t == Movie <==> Trim(ToLower(apiType)) == "movie"
    ensures t != Story
  {
    if apiType == "" || apiType == "N/A" then Episode
    else
      var normalized := Trim(ToLower(apiType));
      if normalized == "bhajan" then Bhajan
      else if normalized == "playlist" then Series
      else if normalized == "movie" then Movie
      else Episode
  }

  /** `formatDuration`: seconds as `"{h}h {m}m"` when at least an hour, else `"{m}m"`; unparseable text gives `"N/A"`. */
  function FormatDuration(durationString: string): (r: string)
    ensures r == "N/A" <==> ParseInt(durationString).NaN?
    ensures r != "N/A" ==> |r| > 0 && r[|r| - 1] == 'm'
  {
    match ParseInt(durationString)
    case NaN => "N/A"
    case Int(seconds) => FormatSeconds(seconds)
  }

  /** The duration text of a parsed number of seconds (`Math.floor` of the quotients, `%` truncating). */
  function FormatSeconds(seconds: int): (r: string)
    ensures |r| > 0 && r[|r| - 1] == 'm'
  {
    var hours := seconds / 3600;
    var minutes := JsRem(seconds, 3600) / 60;
    if hours > 0 then IntToString(hours) + "h " + IntToString(minutes) + "m"
    else IntToString(minutes) + "m"
  }

  /** A whole number n of seconds shows n div 3600 hours and (n mod 3600) div 60 minutes, the minutes alone under an hour. */
  lemma FormatSecondsOfNat(n: nat)
    ensures n < 3600 ==> FormatSeconds(n) == NatToString(n / 60) + "m"
    ensures n >= 3600 ==> FormatSeconds(n) == NatToString(n / 3600) + "h " + NatToString(n % 3600 / 60) + "m"
  {
  }

  /** A negative number of seconds never shows hours, and its minutes are floored, so -30 shows `"-1m"`. */
  lemma FormatSecondsOfNegative(v: int)
    requires v < 0
    ensures FormatSeconds(v) == IntToString(JsRem(v, 3600) / 60) + "m"
    ensures -60 <= JsRem(v, 3600) / 60 <= 0
  {
  }

  /** The decimal text of n seconds, followed by anything that does not continue the number, is formatted as n. */
  lemma FormatDurationOfSeconds(n: nat, rest: string)
    requires rest == [] || (!IsDigit(rest[0]) && (n != 0 || (rest[0] != 'x' && rest[0] != 'X')))
    ensures FormatDuration(NatToString(n) + rest) == FormatSeconds(n)
  {
    ParseIntOfNatToString(n, rest);
  }

  /** A negative count, `-n`, is formatted as the negative number of seconds. */
  lemma FormatDurationOfNegative(n: nat)
    ensures FormatDuration("-" + NatToString(n)) == FormatSeconds(-(n as int))
  {
    ParseIntOfNegative(n);
  }

  /** Text with no digit at all is `"N/A"`. */
  lemma FormatDurationWithoutDigits(s: string)
    requires forall i :: 0 <= i < |s| ==> !IsDigit(s[i])
    ensures FormatDuration(s) == "N/A"
  {
    ParseIntWithoutDigits(s);
  }

  /** Worked values: 0, 90, 3661 and -30 seconds. */
  lemma FormatSecondsExamples()
    ensures FormatSeconds(0) == "0m"
    ensures FormatSeconds(90) == "1m"
    ensures FormatSeconds(3661) == "1h 1m"
    ensures FormatSeconds(-30) == "-1m"
  {
  }

  /** The actors list without the `"N/A"` entries, in order. */
  function Tags(actors: seq<string>): (tags: seq<string>)
    ensures forall i :: 0 <= i < |tags| ==> tags[i] != "N/A" && tags[i] in actors
    ensures forall i :: 0 <= i < |actors| && actors[i] != "N/A" ==> actors[i] in tags
  {
    Filter(actors, a => a != "N/A")
  }

  /** Tags of a concatenation are the tags of each part, in order: `filter` keeps order and repetitions. */
  lemma TagsAppend(a: seq<string>, b: seq<string>)
    ensures Tags(a + b) == Tags(a) + Tags(b)
  {
    FilterAppend(a, b, a => a != "N/A");
  }

  /** A single actor is kept exactly when it is not `N/A`. */
  lemma TagsOfOne(actor: string)
    ensures Tags([actor]) == if actor == "N/A" then [] else [actor]
  {
    assert [actor][1..] == [];
  }

  /** `transformApiTitleToContentItem`. */
  function ToContentItem(apiTitle: ApiTitle): (c: ContentItem)
    ensures c.id == apiTitle.metaData.id && c.title == apiTitle.metaData.title
    ensures c.description.None? <==> apiTitle.metaData.description == "N/A"
    ensures c.description.Some? ==> c.description.value == apiTitle.metaData.description
    ensures c.releaseYear.None? <==> apiTitle.metaData.releaseYear == "N/A"
    ensures c.releaseYear.Some? ==> c.releaseYear.value == ParseInt(apiTitle.metaData.releaseYear)
    ensures c.imageUrl == ImageUrl(apiTitle.metaData.poster)
    ensures c.contentType == ClassifyType(apiTitle.metaData.typeName)
    ensures c.duration == Some(FormatDuration(apiTitle.metaData.duration))
    ensures c.tags == Some(Tags(apiTitle.metaData.actors))
  {
    var m := apiTitle.metaData;
    ContentItem(
      m.id,
      m.title,
      if m.description != "N/A" then Some(m.description) else None,
      ImageUrl(m.poster),
      ClassifyType(m.typeName),
      Some(FormatDuration(m.duration)),
      if m.releaseYear != "N/A" then Some(ParseInt(m.releaseYear)) else None,
      Some(Tags(m.actors)))
  }

  /**
   * `formatRating`: `"Not Rated"` for a sentinel, blank or unparseable rating; a
   * whole number n as `"n.0"`; otherwise `toFixed(1)`.
   */
  function FormatRating(rating: string): (r: string)
    ensures r == NotRated <==> rating == "N/A" || AllSpace(rating) || ParseFloat(rating).FloatNaN?
    ensures rating != "N/A" && !AllSpace(rating) && ParseFloat(rating).Infinity? ==>
              r == if ParseFloat(rating).negative then "-Infinity" else "Infinity"
    ensures rating != "N/A" && !AllSpace(rating) && ParseFloat(rating).Finite? ==>
              var f := ParseFloat(rating);
              r == if IsWhole(f.mantissa, f.exponent) then IntToString(WholeValue(f.negative, f.mantissa, f.exponent)) + ".0"
                   else ToFixed1(f.negative, f.mantissa, f.exponent)
  {
    if rating == "N/A" || rating == "" || Trim(rating) == "" then NotRated
    else match ParseFloat(rating)
      case FloatNaN => NotRated
      case Infinity(negative) =>
        // Infinity % 1 is NaN, so toFixed(1) runs and prints the infinity
        if negative then "-Infinity" else "Infinity"
      case Finite(negative, m, e) =>
        if IsWhole(m, e) then
          var text := IntToString(WholeValue(negative, m, e)) + ".0";
          assert text[|text| - 1] == '0';
          text
        else
          var text := ToFixed1(negative, m, e);
          assert text[|text| - 2] == '.';
          text
  }

  /** The tagline's rating part: the formatted rating out of 10, or `"Not Rated"` alone. */
  function RatingText(formatted: string): string {
    if formatted == NotRated then formatted else formatted + "/10"
  }

  /** The hero tagline: the episode count, a bullet, and the rating text. */
  function Tagline(episodeCount: int, ratingText: string): string {
    IntToString(episodeCount) + " Episodes \U{2022} " + ratingText
  }

  /** `transformApiTitleToHeroContent`. */
  function ToHeroContent(apiTitle: ApiTitle): (h: HeroContent)
    ensures h.item == ToContentItem(apiTitle)
    ensures h.buttonLabel == Some("Watch Now") && h.logoImageUrl == None
    ensures h.rating == Some(FormatRating(apiTitle.metaData.rating))
    ensures h.tagline == Some(IntToString(apiTitle.metaData.episodeCount) + " Episodes \U{2022} "
                              + RatingText(FormatRating(apiTitle.metaData.rating)))
  {
    var rating := FormatRating(apiTitle.metaData.rating);
    HeroContent(
      ToContentItem(apiTitle),
      Some("Watch Now"),
      None,
      Some(Tagline(apiTitle.metaData.episodeCount, RatingText(rating))),
      Some(rating))
  }

  /** A rating that parses as a whole number n reads `"n.0"`. */
  lemma FormatRatingOfParsedWhole(rating: string, n: nat)
    requires rating != "N/A" && !AllSpace(rating)
    requires ParseFloat(rating) == Finite(false, n, 0)
    ensures FormatRating(rating) == NatToString(n) + ".0"
  {
    assert WholeValue(false, n, 0) == n;
  }

  /** The decimal text of a whole number n reads `"n.0"`. */
  lemma FormatRatingOfWhole(n: nat)
    ensures FormatRating(NatToString(n)) == NatToString(n) + ".0"
  {
    var r := NatToString(n);
    ParseFloatOfNatToString(n);
    assert !IsJsSpace(r[0]);
    FormatRatingOfParsedWhole(r, n);
  }

  /** An unrated title: rating `"Not Rated"`, and a tagline without `/10`. */
  lemma HeroUnrated(apiTitle: ApiTitle)
    requires apiTitle.metaData.rating == "N/A" || AllSpace(apiTitle.metaData.rating) || ParseFloat(apiTitle.metaData.rating).FloatNaN?
    ensures ToHeroContent(apiTitle).rating == Some(NotRated)
    ensures ToHeroContent(apiTitle).tagline == Some(Tagline(apiTitle.metaData.episodeCount, "Not Rated"))
  {
    assert FormatRating(apiTitle.metaData.rating) == NotRated;
  }

  /** A whole-number rating n: rating `"n.0"`, and a tagline ending `"n.0/10"`. */
  lemma HeroWholeRating(apiTitle: ApiTitle, n: nat)
    requires apiTitle.metaData.rating == NatToString(n)
    ensures ToHeroContent(apiTitle).rating == Some(NatToString(n) + ".0")
    ensures ToHeroContent(apiTitle).tagline == Some(Tagline(apiTitle.metaData.episodeCount, NatToString(n) + ".0" + "/10"))
  {
    FormatRatingOfWhole(n);
    assert NatToString(n) + ".0" != NotRated by {
      assert (NatToString(n) + ".0")[0] != NotRated[0];
    }
  }
}
