# Katha core, modelled in Dafny

Katha is a React Native app for mythological stories, bhajans and series. This project models the parts of it that decide things, and proves properties of them:

- **API layer** (`Api`). This covers how `fetchTitles`/`fetchEpisodes` settle for each outcome of a request, including the catch block that rewrites network failures and timeouts. It also covers the mapping of an API title to a content item and to the hero banner: image URL, content type, duration and rating text.
- **Query policy** (`ContentQuery`). This covers the query keys, the retry predicate, the exponential backoff and the timings handed to the query library. It also covers the two hooks derived from the live-action query.
- **YouTube player-data parser** (`YouTube`). This covers:
  - video-only and audio-only formats, sorted by height and by bitrate;
  - the best URLs;
  - quality → URL dictionaries, built by a loop;
  - codec extraction from a mime type;
  - the `m:ss` duration;
  - the de-duplicated format summary.
- **Theme state** (`Theme`, `ThemeNew`). `Theme` covers the auto/light/dark preference, the custom-theme list keyed by name, the theme name, and the responsive size and column helpers. `ThemeNew` covers the three-scheme provider.
- **Small decisions**:
  - the font-weight → Rubik family mapping and text styles (`FontHelper`);
  - language persistence and lookup (`I18n`, `UseI18n`);
  - description truncation (`EpisodeCard`);
  - error classification for the error screen (`ErrorState`);
  - the nested-scroll state machine (`NestedScroll`).

Two support modules model the JavaScript built-ins the code relies on:

- `JsText`: `trim`, `toLowerCase`, `includes`, `startsWith`, `padStart`, `%`, `parseInt`, `parseFloat` and number-to-string.
- `Common`: `Option`, `Result`, `filter` and `map`.

State that the source changes in place becomes a class:

- the theme providers' preference, scheme and custom themes;
- the language store's entries and the translator's language;
- the nested-scroll flags.

The operations on that state are methods with `modifies` clauses. Everything else is a function. Inputs the app obtains from outside are parameters of the operations:

- the network outcome;
- the platform's colour scheme;
- the device's language match;
- the device class;
- whether the translation library accepts a language.

## Model

| member | source | states |
|---|---|---|
| Common.Filter | src/services/api.ts:275 | keeps exactly the elements satisfying the predicate, each one an element of the input |
| Common.Map | src/hooks/useContentQuery.ts:40 | same length, and the i-th result is the function applied to the i-th element |
| Common.FilterAppend | src/theme/ThemeProvider.tsx:198 | filtering distributes over concatenation, so survivors keep their order |
| Common.FilterDisjointCount | src/utils/youtube.ts:401 | two filters whose predicates never both hold keep at most the whole list between them |
| JsText.TrimStart | src/services/api.ts:236 | the result is a suffix of the input; what was dropped is all whitespace; the result does not start with whitespace |
| JsText.TrimEnd | src/services/api.ts:236 | the result is a prefix of the input; what was dropped is all whitespace; the result does not end with whitespace |
| JsText.Trim | src/services/api.ts:230 | the result is empty exactly when the input is all whitespace, and it has no whitespace at either end |
| JsText.TrimIdempotent | src/services/api.ts:236 | trimming twice equals trimming once |
| JsText.ToLower | src/services/api.ts:251 | same length; each character is lower-cased pointwise |
| JsText.Includes | src/hooks/useContentQuery.ts:27 | `includes` holds exactly when the needle occurs at some index |
| JsText.NotIncludesWithoutFirstChar | src/components/ErrorState.tsx:74 | a text lacking the needle's first character does not include it |
| JsText.PadStart | src/utils/youtube.ts:632 | a text as long as the width is unchanged; otherwise the result has that width, ends with the text and is padded in front |
| JsText.JsRem | src/services/api.ts:316 | `%` with a positive divisor: the remainder lies strictly between minus and plus the divisor and takes the sign of the dividend |
| JsText.NatToString | src/services/api.ts:319 | non-empty, all digits, with no leading zero |
| JsText.IntToString | src/services/api.ts:319 | a negative number is shown as `-` followed by the text of its magnitude |
| JsText.DigitsValueOfNatToString | src/services/api.ts:311 | reading the decimal text of n back gives n |
| JsText.ParseIntOfNatToString | src/services/api.ts:311 | `parseInt` of n's text, followed by a non-digit, is n |
| JsText.ParseIntOfNegative | src/services/api.ts:311 | `parseInt("-" + n)` is -n |
| JsText.ParseIntSkipsSpace | src/services/api.ts:311 | leading whitespace does not change `parseInt` |
| JsText.ParseIntWithoutDigits | src/services/api.ts:311-313 | text with no decimal digit parses to NaN |
| JsText.ParseFloatOfNatToString | src/services/api.ts:288 | `parseFloat` of n's text is exactly n |
| Api.CatchRewrite | src/services/api.ts:89-114 | a TypeError mentioning "Network request failed" becomes the connectivity message; exactly "Request timeout" becomes the timeout message; anything else is rethrown unchanged |
| Api.CatchRewriteIdempotent | src/services/api.ts:89-114 | passing an error through the catch block twice equals passing it once |
| Api.HttpErrorSurvivesCatch | src/services/api.ts:45-48 | the HTTP status error leaves the catch block unchanged |
| Api.OtherErrorSurvivesCatch | src/services/api.ts:104-114 | an error whose message has no `N` and is not the timer's message is rethrown as it is |
| Api.MissingDataSurvivesCatch | src/services/api.ts:64 | the TypeError from a success envelope without `data` is rethrown unchanged |
| Api.FetchTitles | src/services/api.ts:12-116 | the URL is built from the category. For each outcome the result is given: the envelope's data; the HTTP error for a non-ok response; the envelope message or "API request failed" for a non-success status; otherwise the rewritten error |
| Api.FetchLiveActionTitles | src/services/api.ts:118-120 | the `live_action` category, with the same settlement as `fetchTitles` |
| Api.FetchAnimatedTitles | src/services/api.ts:122-124 | the `animated` category, with the same settlement as `fetchTitles` |
| Api.FetchEpisodes | src/services/api.ts:127-222 | no request is made exactly when the series id is absent or empty, and then the result is the "Series ID is required" error. Otherwise the episodes URL is used, and the envelope is checked for success and for an episodes array ("Invalid response format from server") |
| Api.ImageUrl | src/services/api.ts:229-243 | `N/A` or a blank poster gives the placeholder. The result always starts with `data:`, `http://` or `https://` |
| Api.ImageUrlKeepsAbsolute | src/services/api.ts:236-239 | a poster with a scheme is returned trimmed and otherwise unchanged |
| Api.ImageUrlPrefixesBare | src/services/api.ts:241-242 | a poster without a scheme is prefixed with `https://` |
| Api.ClassifyType | src/services/api.ts:246-266 | bhajan, series and movie hold exactly when the trimmed, lower-cased type is `bhajan`, `playlist` and `movie`. Story is never produced |
| Api.FormatSecondsOfNat | src/services/api.ts:315-322 | n seconds: under an hour shows `{n div 60}m`, otherwise `{n div 3600}h {(n mod 3600) div 60}m` |
| Api.FormatSecondsOfNegative | src/services/api.ts:315-322 | a negative value never shows hours; its minutes are floored, and lie between -60 and 0 |
| Api.FormatDurationOfSeconds | src/services/api.ts:310-322 | the text of n seconds (with a non-digit tail) is formatted as n seconds |
| Api.FormatDurationOfNegative | src/services/api.ts:310-322 | `-n` is formatted as -n seconds |
| Api.FormatDurationWithoutDigits | src/services/api.ts:311-313 | text without digits gives `N/A` |
| Api.FormatDuration | src/services/api.ts:310-322 | `N/A` exactly when `parseInt` gives NaN, otherwise a text ending in `m`; the FormatDuration and FormatSeconds lemmas give the values |
| Api.FormatSeconds | src/services/api.ts:315-321 | the text always ends in `m`; FormatSecondsOfNat and FormatSecondsOfNegative give it exactly |
| Api.Tags | src/services/api.ts:275 | every tag is an actor other than `N/A`, and every such actor is a tag; TagsAppend and TagsOfOne give order and repetition |
| Api.TagsAppend | src/services/api.ts:275 | the tags of a concatenation are the tags of each part, in order |
| Api.TagsOfOne | src/services/api.ts:275 | one actor is kept exactly when it is not `N/A` |
| Api.ToContentItem | src/services/api.ts:225-277 | every field: id, title, optional description and year (`N/A` → none, the year otherwise `parseInt` of its text), image URL, type, formatted duration, tags |
| Api.FormatRating | src/services/api.ts:283-295 | `Not Rated` holds exactly when the rating is `N/A`, blank or NaN; an infinite rating reads `Infinity` or `-Infinity`; a finite one reads `n.0` when whole and its `toFixed(1)` text otherwise |
| Api.ToHeroContent | src/services/api.ts:279-307 | the content item plus `Watch Now`, no logo, the formatted rating, and the tagline of episode count and rating text |
| Api.FormatRatingOfParsedWhole | src/services/api.ts:288-294 | a rating parsing to the whole number n reads `n.0` |
| Api.FormatRatingOfWhole | src/services/api.ts:294 | the decimal text of n reads `n.0` |
| Api.HeroUnrated | src/services/api.ts:297-305 | an unrated title: rating `Not Rated`, and a tagline without `/10` |
| Api.HeroWholeRating | src/services/api.ts:294-305 | a title rated n: rating `n.0` and tagline `{count} Episodes • n.0/10` |
| ContentQuery.CategoryKey | src/hooks/useContentQuery.ts:13 | the titles key with the category appended |
| ContentQuery.LiveActionIsCategory | src/hooks/useContentQuery.ts:12-14 | the live-action key is `["titles", "live_action"]`, the category key of `live_action` |
| ContentQuery.CategoryKeyInjective | src/hooks/useContentQuery.ts:13 | different categories have different keys |
| ContentQuery.StaleBeforeCollected | src/hooks/useContentQuery.ts:23-24 | stale after 5 minutes, collected after 10 |
| ContentQuery.ShouldRetry | src/hooks/useContentQuery.ts:25-31 | a message with `connect` is retried while fewer than 2 attempts have failed; any other while fewer than 3 |
| ContentQuery.ConnectivityBudgetSmaller | src/hooks/useContentQuery.ts:25-31 | whenever a connectivity error is retried, so is any other error |
| ContentQuery.ConnectivityMessageRetriedTwice | src/services/api.ts:96 | the API's connectivity message gets the two-attempt budget |
| ContentQuery.RetryWithoutConnect | src/hooks/useContentQuery.ts:27-30 | a message without `c` gets the three-attempt budget |
| ContentQuery.TimeoutMessageRetriedThrice | src/services/api.ts:105 | the API's timeout message gets the three-attempt budget |
| ContentQuery.ProviderShouldRetry | src/providers/ReactQueryProvider.tsx:9 | the provider default retries while fewer than 3 attempts have failed; HookRetryWithinDefault relates it to the hook's override |
| ContentQuery.HookRetryWithinDefault | src/hooks/useContentQuery.ts:25-31 | the hook's `retry` never allows a retry the provider default would refuse, and equals it for every message without `connect` |
| ContentQuery.Backoff | src/hooks/useContentQuery.ts:32 | the delay is the minimum of 1000·2^i and the cap |
| ContentQuery.BackoffMonotone | src/hooks/useContentQuery.ts:32 | delays never decrease over attempts |
| ContentQuery.RetryDelay | src/hooks/useContentQuery.ts:32 | at most 5000 ms |
| ContentQuery.RetryDelayValues | src/hooks/useContentQuery.ts:32 | 1000, 2000, 4000 ms, then 5000 ms from the fourth attempt on |
| ContentQuery.ProviderRetryDelay | src/providers/ReactQueryProvider.tsx:10 | at most 30000 ms |
| ContentQuery.ProviderRetryDelayValues | src/providers/ReactQueryProvider.tsx:10 | 1000·2^i up to attempt 4, then 30000 ms |
| ContentQuery.LiveActionContent | src/hooks/useContentQuery.ts:37-47 | no data gives `[]`; otherwise each title is mapped pointwise; loading, error and refetch pass through |
| ContentQuery.LiveActionHero | src/hooks/useContentQuery.ts:50-66 | a hero exists exactly when there is a first title, and it is that title's hero content |
| ContentQuery.HeroMatchesFirstItem | src/hooks/useContentQuery.ts:40-58 | the hero's item is the first content item |
| YouTube.InsertDescending | src/utils/youtube.ts:422 | inserting into a descending list keeps it descending and adds exactly the element |
| YouTube.SortDescending | src/utils/youtube.ts:422 | the result is descending by key and a permutation of the input |
| YouTube.QuoteFreeRun | src/utils/youtube.ts:619 | the maximal run of non-quote characters from a position |
| YouTube.FirstCodecMatch | src/utils/youtube.ts:619 | the leftmost position where `codecs="…"` matches, with no match before it |
| YouTube.ExtractCodec | src/utils/youtube.ts:616-621 | an empty mime type gives null. Otherwise there is no codec exactly when the pattern matches nowhere, and a codec is the group of a match |
| YouTube.ExtractCodecAt | src/utils/youtube.ts:619-620 | the leftmost match's group is the result |
| YouTube.ExtractCodecShape | src/utils/youtube.ts:619 | an extracted codec is non-empty and holds no quote |
| YouTube.QuoteFreeRunIs | src/utils/youtube.ts:619 | a run of n non-quotes ending at a quote has length n |
| YouTube.CodecMatchAfter | src/utils/youtube.ts:619 | `codecs="<codec>"` after a prefix is a match capturing the codec |
| YouTube.NoCodecMatchIn | src/utils/youtube.ts:619 | no match starts inside a prefix without `c` |
| YouTube.ExtractCodecOfDeclared | src/utils/youtube.ts:616-621 | `<type>; codecs="<codec>"…` yields the codec |
| YouTube.AudioQualityKey | src/utils/youtube.ts:606 | the audio quality when it is non-empty, else `{bitrate}kbps` |
| YouTube.Present | src/utils/youtube.ts:662-666 | the non-empty present values, and all of them |
| YouTube.FirstIndex | src/utils/youtube.ts:662-667 | the index of the first occurrence |
| YouTube.FirstIndexOfPrefix | src/utils/youtube.ts:662-667 | a first occurrence inside a prefix is the same in the whole list |
| YouTube.Distinct | src/utils/youtube.ts:661-667 | no duplicates, the same elements, in first-occurrence order |
| YouTube.Parser.BasicInfoOf | src/utils/youtube.ts:374-392 | a missing section gives undefined scalars and empty lists; a present one copies every field, with the lists defaulting to empty |
| YouTube.Parser.VideoFormats | src/utils/youtube.ts:397-423 | descending by height, and a permutation of the mapped video-only formats; VideoFormatsExactly restates this over the raw formats |
| YouTube.Parser.AudioFormats | src/utils/youtube.ts:428-454 | descending by bitrate, and a permutation of the mapped audio-only formats; AudioFormatsExactly restates this over the raw formats |
| YouTube.Parser.BestVideoUrl | src/utils/youtube.ts:569-572 | null exactly without video formats, otherwise the first one's URL, whose height is maximal; BestVideoUrlIsTallest relates it to the raw formats |
| YouTube.Parser.BestAudioUrl | src/utils/youtube.ts:577-580 | null exactly without audio formats, otherwise the first one's URL, whose bitrate is maximal; BestAudioUrlIsHighestBitrate relates it to the raw formats |
| YouTube.Parser.CaptionsOf | src/utils/youtube.ts:459-480 | no captions give empty lists; otherwise each track and each translation language is copied field by field, a missing name becoming `""` |
| YouTube.Parser.EndscreenOf | src/utils/youtube.ts:485-507 | no endscreen gives an empty result; otherwise the start time and each element copied field by field, with `type` from `style`, `""` for a missing title or metadata and `[]` for a missing image |
| YouTube.Parser.StoryboardsOf | src/utils/youtube.ts:512-531 | no storyboards give an empty result; otherwise the type and the boards |
| YouTube.Parser.PlayabilityOf | src/utils/youtube.ts:536-546 | no section gives empty fields; otherwise status, reason and embeddable are copied |
| YouTube.Parser.StreamingOf | src/utils/youtube.ts:551-564 | the format counts are the video, audio and adaptive list lengths; no section gives no URLs, a present one copies `expires` and both URLs |
| YouTube.Parser.Parse | src/utils/youtube.ts:358-369 | every section is its parser function's result, and the counts agree with the format lists |
| YouTube.Parser.FormattedDuration | src/utils/youtube.ts:626-633 | null exactly when the duration is missing or 0 |
| YouTube.Parser.FormatSummaryOf | src/utils/youtube.ts:655-699 | each count is the length of its format list |
| YouTube.UrlMapStep | src/utils/youtube.ts:589-593 | one more format: its key, if any, now maps to its URL |
| YouTube.UrlMap | src/utils/youtube.ts:585-615 | the dictionary a `forEach` builds has at most one key per element; UrlMapKeys and UrlMapLast give its keys and values |
| YouTube.UrlMapKeys | src/utils/youtube.ts:589-593 | the keys are exactly the keys of the formats |
| YouTube.UrlMapLast | src/utils/youtube.ts:589-593 | a key's value is the URL of the last format with that key |
| YouTube.VideoUrlsByQuality | src/utils/youtube.ts:585-596 | the loop builds the quality-label dictionary of the sorted video formats |
| YouTube.AudioUrlsByQuality | src/utils/youtube.ts:601-611 | the loop builds the audio-quality dictionary of the sorted audio formats |
| YouTube.VideoUrlKeys | src/utils/youtube.ts:589-593 | the keys are exactly the non-empty quality labels |
| YouTube.VideoUrlIsLast | src/utils/youtube.ts:589-593 | each URL is that of the last format with the label |
| YouTube.AudioUrlKeys | src/utils/youtube.ts:605-608 | the keys are the formats' audio keys, and each value is the last such format's URL |
| YouTube.ParseYouTubeData | src/utils/youtube.ts:703-706 | the parser's `parse` |
| YouTube.GetVideoUrls | src/utils/youtube.ts:708-711 | the video dictionary of the data |
| YouTube.GetAudioUrls | src/utils/youtube.ts:713-716 | the audio dictionary of the data |
| YouTube.GetBestUrls | src/utils/youtube.ts:718-724 | the best video and audio URLs |
| YouTube.SortedImagesExactly | src/utils/youtube.ts:400-422 | sorting the mapped, kept elements gives exactly those images, each as often as it occurs |
| YouTube.SortedImagesFirstIsMax | src/utils/youtube.ts:400-422 | the first sorted image has the maximal key |
| YouTube.VideoFormatsExactly | src/utils/youtube.ts:397-423 | exactly the video-only formats, tallest first; none without streaming data |
| YouTube.AudioFormatsExactly | src/utils/youtube.ts:428-454 | exactly the audio-only formats, highest bitrate first; none without streaming data |
| YouTube.FormatCountBounded | src/utils/youtube.ts:551-564 | the video and audio counts together never exceed the total |
| YouTube.BestVideoUrlIsTallest | src/utils/youtube.ts:569-572 | null exactly when no format is video-only; otherwise the URL of a tallest one |
| YouTube.BestAudioUrlIsHighestBitrate | src/utils/youtube.ts:577-580 | null exactly when no format is audio-only; otherwise the URL of a highest-bitrate one |
| YouTube.DistinctPresentLists | src/utils/youtube.ts:661-667 | `[...new Set(s.map(f).filter(Boolean))]` holds every non-empty value of `f` over `s` once, in first-appearance order, and nothing else |
| YouTube.FormatSummaryLists | src/utils/youtube.ts:655-699 | the video quality and codec lists and the audio quality and codec lists each hold their field's non-empty values once, in first-appearance order, and nothing else |
| YouTube.FormattedDurationOfPositive | src/utils/youtube.ts:626-633 | a positive d shows `{d div 60}:{d mod 60, two digits}` |
| Theme.ResolveScheme | src/theme/ThemeProvider.tsx:126-131 | auto is dark exactly when the system says dark; a fixed preference is used as is |
| Theme.FindByPalette | src/theme/ThemeProvider.tsx:145-147 | no result exactly when no theme has the palette; a result is such a theme |
| Theme.FindByPaletteFirst | src/theme/ThemeProvider.tsx:145-147 | the result is the earliest theme with the palette |
| Theme.ThemeName | src/theme/ThemeProvider.tsx:139-160 | `System ({system})` under auto; else the matching custom theme's name; else `Dark` or `Light` |
| Theme.WithoutNamed | src/theme/ThemeProvider.tsx:198 | nothing with the name is left, and everything else is kept |
| Theme.WithCustomTheme | src/theme/ThemeProvider.tsx:188 | the new theme is last; earlier entries are the old ones not sharing its name, all of which are kept |
| Theme.WithoutNamedAppend | src/theme/ThemeProvider.tsx:197-199 | removal keeps the order of the rest |
| Theme.WithoutAbsentName | src/theme/ThemeProvider.tsx:197-199 | removing an absent name changes nothing |
| Theme.WithoutNamedUnique | src/theme/ThemeProvider.tsx:198 | removal keeps names unique |
| Theme.AddKeepsNamesUnique | src/theme/ThemeProvider.tsx:187-189 | adding keeps names unique |
| Theme.ThemeState.constructor | src/theme/ThemeProvider.tsx:98-123 | stored preference, else `initialTheme`, else auto; the platform's scheme; the stored themes |
| Theme.ThemeState.IsDark | src/theme/ThemeProvider.tsx:133-134 | holds exactly when the resolved scheme is dark |
| Theme.ThemeState.IsLight | src/theme/ThemeProvider.tsx:133-135 | holds exactly when `isDark` does not |
| Theme.ThemeState.IsSystemTheme | src/theme/ThemeProvider.tsx:136 | holds exactly when the preference is auto |
| Theme.ThemeState.Colors | src/theme/ThemeProvider.tsx:219 | the dark palette when the resolved scheme is dark, the light one otherwise |
| Theme.ThemeState.CurrentThemeName | src/theme/ThemeProvider.tsx:139-160 | `System (…)` under auto, else the custom theme whose palette is the active one, else `Dark` or `Light` (ThemeName gives the cases) |
| Theme.ThemeState.OnSystemChange | src/theme/ThemeProvider.tsx:163-169 | only the system scheme changes |
| Theme.ThemeState.SetTheme | src/theme/ThemeProvider.tsx:177-184 | only the preference changes, to the argument |
| Theme.ThemeState.ToggleTheme | src/theme/ThemeProvider.tsx:172-175 | fixes the scheme opposite to the one shown: no longer auto, and `isDark` flips |
| Theme.ThemeState.AddCustomTheme | src/theme/ThemeProvider.tsx:187-195 | the list becomes `WithCustomTheme` of the old list; nothing else changes |
| Theme.ThemeState.RemoveCustomTheme | src/theme/ThemeProvider.tsx:197-205 | the list becomes `WithoutNamed` of the old list; nothing else changes |
| Theme.ThemeState.SetCustomTheme | src/theme/ThemeProvider.tsx:207-214 | changes nothing, and warns exactly when a theme of that name exists |
| Theme.Size | src/theme/ThemeProvider.tsx:359-363 | the small-phone value first, then the tablet value, else the medium value |
| Theme.Columns | src/theme/ThemeProvider.tsx:380-386 | the size helper over the overrides, whose defaults are max(1, n-2) and min(12, n+2) |
| Theme.ColumnsDefaultBounds | src/theme/ThemeProvider.tsx:381 | the default small count is at least 1 (n-2 when n ≥ 3); the default large count is at most 12 (n+2 when n ≤ 10) |
| ThemeNew.Toggled | src/theme/ThemeProvider-new.tsx:52-54 | light exactly from dark; dark from every other scheme |
| ThemeNew.AfterSystemChange | src/theme/ThemeProvider-new.tsx:38-46 | changes only without an initial theme and with a reported scheme; dark exactly when `dark` is reported |
| ThemeNew.ToggleTwice | src/theme/ThemeProvider-new.tsx:52-54 | two toggles from ancient (or light) reach light |
| ThemeNew.ThemeNewState.constructor | src/theme/ThemeProvider-new.tsx:35 | `initialTheme`, else light |
| ThemeNew.ThemeNewState.IsDark | src/theme/ThemeProvider-new.tsx:49 | holds exactly when the scheme is dark |
| ThemeNew.ThemeNewState.IsLight | src/theme/ThemeProvider-new.tsx:49-50 | never together with `isDark`; neither holds for ancient |
| ThemeNew.ThemeNewState.ToggleTheme | src/theme/ThemeProvider-new.tsx:52-54 | the scheme becomes `Toggled` of the old one |
| ThemeNew.ThemeNewState.SetTheme | src/theme/ThemeProvider-new.tsx:56-58 | the scheme becomes exactly the argument |
| ThemeNew.ThemeNewState.OnSystemChange | src/theme/ThemeProvider-new.tsx:38-46 | the scheme becomes `AfterSystemChange` of the old one |
| FontHelper.FontFamily | src/helpers/fontHelper.ts:6-25 | always one of four families; bold exactly for bold/700/800/900; semibold exactly for 600; medium exactly for 500 |
| FontHelper.OtherWeightsRegular | src/helpers/fontHelper.ts:17-23 | every other weight, absent or numeric included, is regular |
| FontHelper.CreateTextStyle | src/helpers/fontHelper.ts:31-42 | size, family and weight (default `400`), with the additional styles overriding any key they set |
| FontHelper.DefaultWeightIsRegular | src/helpers/fontHelper.ts:33-39 | without a weight the style is the `400` regular style |
| FontHelper.FontStyleConsistent | src/helpers/fontHelper.ts:47-74 | every table entry has its size, its weight, and the family of that weight |
| FontHelper.FontStyle | src/helpers/fontHelper.ts:47-74 | every entry has a size, a family and a weight; FontStyleConsistent and HeadingAndOverline give their values |
| FontHelper.HeadingAndOverline | src/helpers/fontHelper.ts:49-68 | `h1` is 32 bold; `overline` is medium and upper-cased (two table entries read back, kept as documentation) |
| I18n.ResourcesAreSupported | src/i18n/index.ts:18-60 | 12 supported codes; translations only for `en` and `hi`, both supported; the fallback `en` has translations |
| I18n.DeviceLanguage | src/i18n/index.ts:21-24 | the best match, or `en` when there is none or it is empty |
| I18n.DeviceLanguageSupported | src/i18n/index.ts:21-24 | a supported match gives a supported device language |
| I18n.LanguageStore.SaveLanguage | src/i18n/index.ts:44-48 | writes the `language` key exactly for a supported code; otherwise the store is unchanged |
| I18n.LanguageStore.GetSavedLanguage | src/i18n/index.ts:27-41 | a stored supported code is returned without writing; otherwise the device language is stored and returned; afterwards the key holds the result |
| UseI18n.FindLanguage | src/i18n/useI18n.ts:38 | no result exactly when no entry has the code; a result is an entry with it |
| UseI18n.CurrentLanguageInfo | src/i18n/useI18n.ts:36-39 | always an available language: that of `en`/`hi`, English for any other code |
| UseI18n.UnlistedLanguageShowsEnglish | src/i18n/useI18n.ts:12-38 | a supported code without an entry (e.g. `fr`) shows as English |
| UseI18n.Translator.ChangeLanguage | src/i18n/useI18n.ts:21-34 | on success the language changes and is then saved; on failure nothing changes and no error escapes |
| EpisodeCard.Truncate | src/components/episodes/EpisodeCard.tsx:82-88 | up to 100 characters are unchanged; longer text becomes its first 100 characters plus `...` (length 103); the result is at most 103 long and starts with the first min(100, len) characters |
| EpisodeCard.TruncateIdempotent | src/components/episodes/EpisodeCard.tsx:84-86 | truncating twice equals truncating once |
| EpisodeCard.HandlePress | src/components/episodes/EpisodeCard.tsx:77-79 | `onPress` receives the card's episode (a forwarding call; the contract is its body) |
| ErrorState.IsNetworkError | src/components/ErrorState.tsx:74 | holds exactly when an error's message contains `connect` or `Network` (the contract is the one-line test itself; ConnectivityFailureShowsConnectionError and PlainMessageShownVerbatim apply it) |
| ErrorState.DefaultTitle | src/components/ErrorState.tsx:76 | `Connection Error` for network errors, else `Something went wrong` |
| ErrorState.DefaultSubtitle | src/components/ErrorState.tsx:78-80 | the fixed connection text; else the message, or the generic text when it is empty or there is no error |
| ErrorState.OrDefault | src/components/ErrorState.tsx:92-96 | a non-empty prop wins; an absent or empty one falls back |
| ErrorState.Render | src/components/ErrorState.tsx:70-107 | title and subtitle with overrides; network icon exactly for network errors; retry button exactly with `onRetry` (the contract spells out the view it builds; ConnectivityFailureShowsConnectionError and PlainMessageShownVerbatim state its outcomes) |
| ErrorState.ConnectivityFailureShowsConnectionError | src/services/api.ts:96 | the API's connectivity message is shown as a connection error |
| ErrorState.PlainMessageShownVerbatim | src/components/ErrorState.tsx:74-80 | a message without `c` or `N` is generic and shown verbatim (the timeout message is one) |
| NestedScroll.LastChildEvent | src/hooks/useNestedScroll.ts:34-54 | a result is a child event of the history; LastChildEventIsLast shows it is the most recent one |
| NestedScroll.LastChildEventIsLast | src/hooks/useNestedScroll.ts:34-54 | none exactly when every event was a parent drag; otherwise a child event of the history after which only parent drags came |
| NestedScroll.EnabledIffLastChildEnded | src/hooks/useNestedScroll.ts:34-54 | from the start the parent is enabled exactly when no child event came or the last was an end |
| NestedScroll.ParentDragsKeepFlag | src/hooks/useNestedScroll.ts:56-68 | parent drags never change the flag |
| NestedScroll.QuietWithoutDebug | src/hooks/useNestedScroll.ts:37-66 | without debug, `lastEvent` stays `""` |
| NestedScroll.ChildPropsFixed | src/hooks/useNestedScroll.ts:81-91 | nested scrolling on; estimated item size 150 (a restatement of the constant, kept as documentation) |
| NestedScroll.NestedScrollState.constructor | src/hooks/useNestedScroll.ts:10-14 | enabled, with no event recorded |
| NestedScroll.NestedScrollState.OnChildScrollStart | src/hooks/useNestedScroll.ts:34-43 | disables the parent; records `Child start` in debug mode |
| NestedScroll.NestedScrollState.OnChildScrollEnd | src/hooks/useNestedScroll.ts:45-54 | enables the parent; records `Child end` in debug mode |
| NestedScroll.NestedScrollState.OnParentScrollBeginDrag | src/hooks/useNestedScroll.ts:56-61 | the flag is unchanged; records `Parent start` in debug mode |
| NestedScroll.NestedScrollState.OnParentScrollEndDrag | src/hooks/useNestedScroll.ts:63-68 | the flag is unchanged; records `Parent end` in debug mode |
| NestedScroll.NestedScrollState.Dispatch | src/hooks/useNestedScroll.ts:81-87 | drag and momentum starts go to the start handler, ends to the end handler |
| NestedScroll.NestedScrollState.Run | src/hooks/useNestedScroll.ts:34-68 | after a history, the state is that of the history specification |
| NestedScroll.NestedScrollState.ParentPropsOf | src/hooks/useNestedScroll.ts:71-79 | `scrollEnabled` is the flag; nested scrolling is always on |
| NestedScroll.NestedScrollState.DebugInfo | src/hooks/useNestedScroll.ts:93-99 | the flag and the last event as they are; Run, QuietWithoutDebug and EnabledIffLastChildEnded say what they hold |

## Left out

- Network, timers and logging in `api.ts`: the `fetch` call, the 10 s race, the random delays, `console` output and `navigator.userAgent`. The outcome of a request is an input (`FetchOutcome`): timed out, rejected with an error, or a response with a JSON body or a parse error.
- Api.FetchTitles: the error for a success envelope without `data` is taken to be the TypeError message `Cannot read property 'length' of undefined`. The wording depends on the JavaScript engine.
- Api.TitlesUrl / Api.EpisodesUrl: the category and series id are interpolated without URL encoding, as in the source. No property of them is proved.
- Persistence: the MMKV reads and writes of the theme preference and custom themes, and `JSON.parse`/`JSON.stringify`. The stored values are constructor arguments, the writes are not modelled, and a stored string is trusted to be a valid preference, as the source's cast does.
- Theme.FindByPalette: palettes are compared as ordered key/value lists, which is what comparing their `JSON.stringify` texts amounts to. The colour tables themselves are constructor arguments.
- Theme.ThemeState: `getSpacing`/`getFontSize` are left out because they multiply by fractional factors (floating point). The device classification (`isSmallPhone`, `isTablet`) is an input.
- TanStack Query internals are left out: caching, staleness expiry, coalescing, and retry and garbage-collection scheduling. Only the predicates and numbers handed to the library are modelled. `refetch` is an opaque value.
- `useAnimatedContent` and `useEpisodes` are imported elsewhere but not defined in the files modelled here, so they are not modelled.
- Api.FormatRating: a non-whole rating goes through `toFixed(1)`. That is modelled on the exact decimal that `parseFloat` reads, rounding half up. JavaScript rounds the nearest double, which can differ on ties. Numbers of 1e21 and above, which JavaScript prints in exponent form, are not distinguished. Whether a rating is whole is also decided on the exact decimal, so a whole rating beyond 2^53 such as `9007199254740993` reads `9007199254740993.0`, where JavaScript prints the nearest double, `9007199254740992.0`.
- JsText.ParseInt: values are unbounded integers. There is no rounding of very long digit strings to doubles and no `Infinity`.
- JsText.ToLower: only ASCII letters are lower-cased. `toLowerCase` also folds other scripts.
- Strings are sequences of characters. JavaScript counts UTF-16 code units, so `length` and `substring` in `Truncate` differ for text outside the basic multilingual plane.
- YouTube.SortDescending: it is proved sorted and a permutation. It is built as a stable insertion sort, as the JavaScript sort is stable, but stability is not proved.
- YouTube: the raw fields typed `any` in the source are not modelled (`endpoint`, `audio_only_playability`, `error_screen`, `player_config`, `formats`, `audio_tracks`). Nor are text-object runs and fields no parser reads, or the view-count formatting (`getFormattedViewCount`, which is floating point).
- YouTube: dictionaries are Dafny maps. JavaScript object key order and special keys such as `__proto__` are not modelled.
- ErrorState.Render and EpisodeCard: only the decisions are modelled. Icons, colours, styles and layout are not.
- YouTube and FontHelper numeric fields: `duration`, `height`, `width`, `bitrate`, `startMs`/`endMs`, the thumbnail sizes and `fontSize` are JavaScript numbers in the source but whole numbers here. A fractional or `NaN` duration, which would make `getFormattedDuration` print a fractional second count or take the missing-duration path, cannot be expressed.
- Theme.Columns: JavaScript numbers are modelled as exact reals, so `NaN` and the infinities, for which `Math.max`/`Math.min` behave differently, are not covered; `Size` only selects and takes values of any type.
- FontHelper.CreateTextStyle: an additional style whose value is `undefined` (which would blank a key) is not modelled. `ThemedText.tsx` carries a private copy of `getFontFamily` with the same cases, so the single `FontFamily` function stands for both.
- UseI18n.Translator.ChangeLanguage: whether the library accepts the language is an input, and the library's own state is reduced to the current language. The logged error is not modelled.
- I18n: `findBestLanguageTag` is an input, and the i18next initialisation, resource loading and fallback behaviour belong to the library.
- NestedScroll: the event payloads are ignored by the handlers and are not modelled; the debug-mode logging effect is left out.
