/**
 * The current downloaders: resolve one caption per language (manual first,
 * automatic as the fallback), build the `vid|type|lang` caption key and turn
 * the fetched timed-text transcript into tracks keyed `caption_key|index`.
 */
module Dloaders {
  import opened Results
  import opened Text
  import opened Payloads

  const CAPTION_TYPES: seq<string> := ["manual", "auto"]

  /** Korean, Japanese, English, British English, French. */
  const LANG_CODES_TO_COLLECT: set<string> := {"ko", "ja", "en", "en-GB", "fr"}

  datatype Track = Track(key: string, start: real, duration: real, content: string)

  datatype Caption = Caption(key: string, vidId: string, url: string, tracks: seq<Track>)

  datatype Video = Video(vidId: string, title: string, channelId: string, publishDate: string,
                         captions: seq<Caption>, likes: int, dislikes: int, views: int,
                         category: string)

  /** The fields of youtube_dl's `extract_info` result that `dl_video` reads. */
  datatype VideoInfo = VideoInfo(id: string, title: string, channelId: string, uploadDate: string,
                                 subtitles: CaptionIndex, automaticCaptions: CaptionIndex,
                                 viewCount: int, categories: seq<string>)

  // ------------------------------------------------------------------ keys

  /** The caption key `vid_id|caption_type|lang_code`. */
  function CaptionKey(vidId: string, captionType: string, lang: string): (k: string)
    ensures k == vidId + "|" + captionType + "|" + lang
  {
    var parts := [vidId, captionType, lang];
    assert parts[1..] == [captionType, lang] && parts[1..][1..] == [lang];
    assert Join(parts[1..], "|") == captionType + "|" + lang;
    assert vidId + "|" + (captionType + "|" + lang) == vidId + "|" + captionType + "|" + lang;
    Join(parts, "|")
  }

  /** The track key `caption_key|index`. */
  function TrackKey(captionKey: string, idx: nat): (k: string)
    ensures k == captionKey + "|" + NatToString(idx)
  {
    var parts := [captionKey, NatToString(idx)];
    assert parts[1..] == [NatToString(idx)];
    assert Join(parts[1..], "|") == NatToString(idx);
    Join(parts, "|")
  }

  /** The language a caption was collected for: the last field of its key. */
  function LangOf(c: Caption): string
  {
    LastField(c.key, '|')
  }

  /** `upload_date` "YYYYMMDD" rewritten as "YYYY-MM-DD" through the slices [:4], [4:6], [6:]. */
  function FormatUploadDate(d: string): (r: string)
    ensures |d| == 8 ==> |r| == 10 && r[4] == '-' && r[7] == '-'
    ensures |d| == 8 ==> r[..4] == d[..4] && r[5..7] == d[4..6] && r[8..] == d[6..]
  {
    Take(d, 4) + "-" + Take(Drop(d, 4), 2) + "-" + Drop(d, 6)
  }

  // ------------------------------------------------------------------ tracks

  predicate AllStarted(segs: seq<Segment>)
  {
    forall i :: 0 <= i < |segs| ==> segs[i].start.Some?
  }

  /** One track: missing `@dur` becomes 0.0, missing `#text` becomes "". */
  function MakeTrack(captionKey: string, idx: nat, seg: Segment): Track
    requires seg.start.Some?
  {
    Track(TrackKey(captionKey, idx), seg.start.value, seg.dur.GetOr(0.0), seg.text.GetOr(""))
  }

  /**
   * The tracks of a transcript, in document order. A missing `@start` is not
   * recovered: the KeyError propagates.
   */
  function Decode(captionKey: string, t: Transcript): Result<seq<Track>>
  {
    match t
    case NoText => Err(TypeError)
    case Single(seg) =>
      if seg.start.None? then Err(KeyError("@start")) else Ok([MakeTrack(captionKey, 0, seg)])
    case Several(segs) =>
      if !AllStarted(segs) then Err(KeyError("@start"))
      else Ok(seq(|segs|, i requires 0 <= i < |segs| => MakeTrack(captionKey, i, segs[i])))
  }

  /** The tracks behind a caption URL: a failed fetch raises HttpError. */
  function FetchTracks(captionKey: string, response: Fetched): Result<seq<Track>>
  {
    match response
    case Failed(status) => Err(HttpError(status))
    case Received(t) => Decode(captionKey, t)
  }

  /** `TrackDownloader.dl_tracks`: fetch, then append one track per segment. */
  method DlTracks(captionKey: string, captionUrl: string, fetch: string -> Fetched)
    returns (r: Result<seq<Track>>)
    ensures r == FetchTracks(captionKey, fetch(captionUrl))
  {
    var response := fetch(captionUrl);
    if response.Failed? {
      return Err(HttpError(response.status));
    }
    var tracks: seq<Track> := [];
    match response.transcript
    case NoText =>
      return Err(TypeError);
    case Single(seg) =>
      if seg.start.None? {
        return Err(KeyError("@start"));
      }
      tracks := tracks + [MakeTrack(captionKey, 0, seg)];
      assert tracks == [MakeTrack(captionKey, 0, seg)];
      return Ok(tracks);
    case Several(segs) =>
      var idx := 0;
      while idx < |segs|
        invariant 0 <= idx <= |segs|
        invariant forall j :: 0 <= j < idx ==> segs[j].start.Some?
        invariant tracks == seq(idx, j requires 0 <= j < idx => MakeTrack(captionKey, j, segs[j]))
      {
        if segs[idx].start.None? {
          return Err(KeyError("@start"));
        }
        tracks := tracks + [MakeTrack(captionKey, idx, segs[idx])];
        idx := idx + 1;
      }
      return Ok(tracks);
  }

  // ------------------------------------------------------------------ captions

  /** The URL `dl_caption` looks up: it rejects an unknown type and a falsy URL. */
  function CaptionUrl(subs: CaptionIndex, autos: CaptionIndex, captionType: string, lang: string)
    : Result<string>
  {
    if captionType !in CAPTION_TYPES then Err(ValueError(captionType))
    else
      var looked := if captionType == "manual" then LookupUrl(subs, lang) else LookupUrl(autos, lang);
      match looked
      case Err(e) => Err(e)
      case Ok(url) => if Truthy(url) then Ok(url.value) else Err(CaptionNotFound(captionType, lang))
  }

  /** `CaptionDownloader.dl_caption`. */
  function DlCaption(vidId: string, subs: CaptionIndex, autos: CaptionIndex, captionType: string,
                     lang: string, fetch: string -> Fetched): (r: Result<Caption>)
    ensures captionType !in CAPTION_TYPES ==> r == Err(ValueError(captionType))
    ensures r.Ok? ==> r.value.key == vidId + "|" + captionType + "|" + lang
    ensures r.Ok? ==> r.value.vidId == vidId && r.value.url != ""
    ensures r.Ok? ==> CaptionUrl(subs, autos, captionType, lang) == Ok(r.value.url)
    ensures r.Ok? ==> FetchTracks(r.value.key, fetch(r.value.url)) == Ok(r.value.tracks)
  {
    match CaptionUrl(subs, autos, captionType, lang)
    case Err(e) => Err(e)
    case Ok(url) =>
      var key := CaptionKey(vidId, captionType, lang);
      match FetchTracks(key, fetch(url))
      case Err(e) => Err(e)
      case Ok(tracks) => Ok(Caption(key, vidId, url, tracks))
  }

  /**
   * One language of `dl_video`'s loop: the manual caption, or the automatic one
   * when (and only when) the manual one raised CaptionNotFoundError, or nothing
   * when neither exists. Any other exception propagates.
   */
  function ResolveLang(vidId: string, subs: CaptionIndex, autos: CaptionIndex, lang: string,
                       fetch: string -> Fetched): Result<Option<Caption>>
  {
    match DlCaption(vidId, subs, autos, "manual", lang, fetch)
    case Ok(c) => Ok(Some(c))
    case Err(e) =>
      if !e.CaptionNotFound? then Err(e)
      else
        match DlCaption(vidId, subs, autos, "auto", lang, fetch)
        case Ok(c) => Ok(Some(c))
        case Err(e2) => if e2.CaptionNotFound? then Ok(None) else Err(e2)
  }

  /** The captions collected for `langs`, appended after `acc`, in the order of `langs`. */
  function CollectFrom(vidId: string, subs: CaptionIndex, autos: CaptionIndex, langs: seq<string>,
                       acc: seq<Caption>, fetch: string -> Fetched): Result<seq<Caption>>
    decreases |langs|
  {
    if langs == [] then Ok(acc)
    else
      match ResolveLang(vidId, subs, autos, langs[0], fetch)
      case Err(e) => Err(e)
      case Ok(None) => CollectFrom(vidId, subs, autos, langs[1..], acc, fetch)
      case Ok(Some(c)) => CollectFrom(vidId, subs, autos, langs[1..], acc + [c], fetch)
  }

  /** `langs` lists every element of `s` exactly once (the iteration order of a set). */
  predicate IsEnumeration(langs: seq<string>, s: set<string>)
  {
    && (forall i, j :: 0 <= i < j < |langs| ==> langs[i] != langs[j])
    && (forall l :: l in langs ==> l in s)
    && (forall l :: l in s ==> l in langs)
  }

  /** The video `dl_video` returns, or the exception it raises. */
  function VideoFor(info: VideoInfo, likes: int, dislikes: int, langs: seq<string>,
                    fetch: string -> Fetched): Result<Video>
  {
    if |info.categories| == 0 then Err(IndexError)
    else
      match CollectFrom(info.id, info.subtitles, info.automaticCaptions, langs, [], fetch)
      case Err(e) => Err(e)
      case Ok(captions) =>
        Ok(Video(info.id, info.title, info.channelId, FormatUploadDate(info.uploadDate), captions,
                 likes, dislikes, info.viewCount, info.categories[0]))
  }

  /**
   * `VideoDownloader.dl_video`. The likes and dislikes come from the page
   * scraper; `langs` is the order in which the set of languages is iterated.
   */
  method DlVideo(info: VideoInfo, likes: int, dislikes: int, langs: seq<string>,
                 fetch: string -> Fetched) returns (r: Result<Video>)
    requires IsEnumeration(langs, LANG_CODES_TO_COLLECT)
    ensures r == VideoFor(info, likes, dislikes, langs, fetch)
  {
    var publishDate := FormatUploadDate(info.uploadDate);
    if |info.categories| == 0 {
      return Err(IndexError);
    }
    var category := info.categories[0];
    var captions: seq<Caption> := [];
    for i := 0 to |langs|
      invariant CollectFrom(info.id, info.subtitles, info.automaticCaptions, langs[i..], captions, fetch)
             == CollectFrom(info.id, info.subtitles, info.automaticCaptions, langs, [], fetch)
    {
      assert langs[i..][0] == langs[i] && langs[i..][1..] == langs[i + 1..];
      var found := ResolveLang(info.id, info.subtitles, info.automaticCaptions, langs[i], fetch);
      match found
      case Err(e) =>
        assert CollectFrom(info.id, info.subtitles, info.automaticCaptions, langs[i..], captions, fetch)
            == Err(e);
        return Err(e);
      case Ok(None) =>
        assert CollectFrom(info.id, info.subtitles, info.automaticCaptions, langs[i..], captions, fetch)
            == CollectFrom(info.id, info.subtitles, info.automaticCaptions, langs[i + 1..], captions, fetch);
      case Ok(Some(c)) =>
        assert CollectFrom(info.id, info.subtitles, info.automaticCaptions, langs[i..], captions, fetch)
            == CollectFrom(info.id, info.subtitles, info.automaticCaptions, langs[i + 1..], captions + [c], fetch);
        captions := captions + [c];
    }
    assert langs[|langs|..] == [];
    return Ok(Video(info.id, info.title, info.channelId, publishDate, captions, likes, dislikes,
                    info.viewCount, category));
  }

  // ------------------------------------------------------------------ lemmas

  /**
   * When `dl_caption` returns and when it raises: a URL lookup error
   * propagates; with a URL, the caption is returned exactly when its tracks
   * download and decode, and their error propagates otherwise.
   */
  lemma DlCaptionOutcome(vidId: string, subs: CaptionIndex, autos: CaptionIndex, captionType: string,
                         lang: string, fetch: string -> Fetched)
    ensures var r := DlCaption(vidId, subs, autos, captionType, lang, fetch);
            CaptionUrl(subs, autos, captionType, lang).Err?
            ==> r == Err(CaptionUrl(subs, autos, captionType, lang).error)
    ensures var r := DlCaption(vidId, subs, autos, captionType, lang, fetch);
            CaptionUrl(subs, autos, captionType, lang).Ok? ==>
              var url := CaptionUrl(subs, autos, captionType, lang).value;
              var key := CaptionKey(vidId, captionType, lang);
              && (FetchTracks(key, fetch(url)).Ok?
                  ==> r == Ok(Caption(key, vidId, url, FetchTracks(key, fetch(url)).value)))
              && (FetchTracks(key, fetch(url)).Err? ==> r == Err(FetchTracks(key, fetch(url)).error))
  {
  }

  /** A lone segment gives exactly one track, keyed `caption_key|0`. */
  lemma DecodeSingle(captionKey: string, seg: Segment)
    requires seg.start.Some?
    ensures Decode(captionKey, Single(seg)) == Ok([MakeTrack(captionKey, 0, seg)])
    ensures MakeTrack(captionKey, 0, seg).key == captionKey + "|0"
  {
  }

  /**
   * A list of segments gives one track per segment, in order: track i is keyed
   * `caption_key|i`, keeps the segment's start and takes the defaults 0.0 and ""
   * for a missing duration and text.
   */
  lemma DecodeSeveral(captionKey: string, segs: seq<Segment>, ts: seq<Track>)
    requires Decode(captionKey, Several(segs)) == Ok(ts)
    ensures |ts| == |segs|
    ensures forall i :: 0 <= i < |ts| ==>
      && ts[i].key == captionKey + "|" + NatToString(i)
      && segs[i].start == Some(ts[i].start)
      && ts[i].duration == (if segs[i].dur.None? then 0.0 else segs[i].dur.value)
      && ts[i].content == (if segs[i].text.None? then "" else segs[i].text.value)
  {
  }

  /** A missing `@start` anywhere makes the whole decode raise KeyError. */
  lemma DecodeMissingStart(captionKey: string, segs: seq<Segment>, i: nat)
    requires i < |segs| && segs[i].start.None?
    ensures Decode(captionKey, Several(segs)) == Err(KeyError("@start"))
  {
  }

  lemma {:induction false} KeySuffixCancel(prefix: string, a: string, b: string)
    requires prefix + "|" + a == prefix + "|" + b
    ensures a == b
  {
    assert a == (prefix + "|" + a)[|prefix| + 1..];
    assert b == (prefix + "|" + b)[|prefix| + 1..];
  }

  /** The track keys of one caption are pairwise distinct. */
  lemma TrackKeysDistinct(captionKey: string, segs: seq<Segment>, ts: seq<Track>)
    requires Decode(captionKey, Several(segs)) == Ok(ts)
    ensures forall i, j :: 0 <= i < j < |ts| ==> ts[i].key != ts[j].key
  {
    forall i, j | 0 <= i < j < |ts|
      ensures ts[i].key != ts[j].key
    {
      if ts[i].key == ts[j].key {
        KeySuffixCancel(captionKey, NatToString(i), NatToString(j));
        NatToStringInjective(i, j);
      }
    }
  }

  /** The index is recovered as the last `|`-field of a track key. */
  lemma TrackKeyIndex(captionKey: string, idx: nat)
    ensures LastField(TrackKey(captionKey, idx), '|') == NatToString(idx)
  {
    SplitConcat(captionKey, NatToString(idx), '|');
    SplitWithoutSeparator(NatToString(idx), '|');
  }

  /** The language is recovered as the last `|`-field of a caption key. */
  lemma CaptionKeyLang(vidId: string, captionType: string, lang: string)
    requires '|' !in lang
    ensures LastField(CaptionKey(vidId, captionType, lang), '|') == lang
  {
    SplitConcat(vidId + "|" + captionType, lang, '|');
    assert vidId + "|" + captionType + "|" + lang == (vidId + "|" + captionType) + ['|'] + lang;
    SplitWithoutSeparator(lang, '|');
  }

  /**
   * `dl_caption` raises CaptionNotFoundError exactly when the language is
   * missing from the index of the requested type (manual reads only the
   * subtitles, auto only the automatic captions) or its URL is None or "".
   */
  lemma DlCaptionNotFound(vidId: string, subs: CaptionIndex, autos: CaptionIndex,
                          captionType: string, lang: string, fetch: string -> Fetched)
    requires captionType in CAPTION_TYPES
    ensures var index := if captionType == "manual" then subs else autos;
            DlCaption(vidId, subs, autos, captionType, lang, fetch).Err?
            && DlCaption(vidId, subs, autos, captionType, lang, fetch).error.CaptionNotFound?
            <==> lang !in index || LookupUrl(index, lang) == Ok(None)
                 || LookupUrl(index, lang) == Ok(Some(""))
  {
    var index := if captionType == "manual" then subs else autos;
    var r := DlCaption(vidId, subs, autos, captionType, lang, fetch);
    match LookupUrl(index, lang)
    case Err(e) =>
      assert CaptionUrl(subs, autos, captionType, lang) == Err(e);
    case Ok(url) =>
      if Truthy(url) {
        assert CaptionUrl(subs, autos, captionType, lang) == Ok(url.value);
        assert !(r.Err? && r.error.CaptionNotFound?);
      } else {
        assert url == None || url == Some("");
      }
  }

  /**
   * The per-language rule: a found manual caption is taken; the automatic
   * caption is taken when, and only when, the manual lookup raised
   * CaptionNotFoundError; nothing is added, and nothing raised, exactly when
   * both lookups raise it; any other exception of either lookup propagates
   * (an HTTP failure of the manual caption among them) instead of falling back.
   */
  lemma ResolveLangRule(vidId: string, subs: CaptionIndex, autos: CaptionIndex, lang: string,
                        fetch: string -> Fetched)
    ensures var r := ResolveLang(vidId, subs, autos, lang, fetch);
            var manual := DlCaption(vidId, subs, autos, "manual", lang, fetch);
            var auto := DlCaption(vidId, subs, autos, "auto", lang, fetch);
            && (manual.Ok? ==> r == Ok(Some(manual.value)))
            && (manual.Err? && !manual.error.CaptionNotFound? ==> r == Err(manual.error))
            && (manual == Err(CaptionNotFound("manual", lang)) && auto.Ok?
                ==> r == Ok(Some(auto.value)))
            && (manual == Err(CaptionNotFound("manual", lang)) && auto.Err? && !auto.error.CaptionNotFound?
                ==> r == Err(auto.error))
            && (r.Ok? && r.value.Some? && r.value.value.key == CaptionKey(vidId, "auto", lang)
                ==> manual == Err(CaptionNotFound("manual", lang)))
            && (r == Ok(None) <==>
                  (manual == Err(CaptionNotFound("manual", lang)) && auto == Err(CaptionNotFound("auto", lang))))
    ensures CaptionUrl(subs, autos, "manual", lang).Ok? &&
            fetch(CaptionUrl(subs, autos, "manual", lang).value).Failed?
            ==> ResolveLang(vidId, subs, autos, lang, fetch)
                == Err(HttpError(fetch(CaptionUrl(subs, autos, "manual", lang).value).status))
  {
    var manual := DlCaption(vidId, subs, autos, "manual", lang, fetch);
    if manual.Ok? {
      assert manual.value.key == CaptionKey(vidId, "manual", lang);
      var ka := CaptionKey(vidId, "auto", lang);
      var km := CaptionKey(vidId, "manual", lang);
      assert ka[|vidId| + 1] == 'a' && km[|vidId| + 1] == 'm';
    }
  }

  /**
   * Every caption `dl_video` collects belongs to the video and to one of the
   * languages, and no language contributes two captions.
   */
  lemma {:induction false} CollectOnePerLanguage(vidId: string, subs: CaptionIndex, autos: CaptionIndex,
                                                 langs: seq<string>, acc: seq<Caption>,
                                                 fetch: string -> Fetched, cs: seq<Caption>)
    requires CollectFrom(vidId, subs, autos, langs, acc, fetch) == Ok(cs)
    requires forall i, j :: 0 <= i < j < |langs| ==> langs[i] != langs[j]
    requires forall i :: 0 <= i < |langs| ==> '|' !in langs[i]
    requires forall i, j :: 0 <= i < j < |acc| ==> LangOf(acc[i]) != LangOf(acc[j])
    requires forall i :: 0 <= i < |acc| ==> LangOf(acc[i]) !in langs
    ensures |acc| <= |cs| <= |acc| + |langs| && cs[..|acc|] == acc
    ensures forall k :: |acc| <= k < |cs| ==> cs[k].vidId == vidId && LangOf(cs[k]) in langs
    ensures forall i, j :: 0 <= i < j < |cs| ==> LangOf(cs[i]) != LangOf(cs[j])
    decreases |langs|
  {
    if langs != [] {
      var l := langs[0];
      var rest := langs[1..];
      assert forall i :: 0 <= i < |acc| ==> LangOf(acc[i]) !in rest;
      match ResolveLang(vidId, subs, autos, l, fetch)
      case Err(e) =>
      case Ok(None) =>
        CollectOnePerLanguage(vidId, subs, autos, rest, acc, fetch, cs);
      case Ok(Some(c)) =>
        ResolvedLang(vidId, subs, autos, l, fetch);
        var acc' := acc + [c];
        AppendNewLang(acc, c, rest);
        CollectOnePerLanguage(vidId, subs, autos, rest, acc', fetch, cs);
        assert cs[..|acc|] == cs[..|acc'|][..|acc|];
    }
  }

  /** A caption one language resolves to belongs to the video and carries that language. */
  lemma ResolvedLang(vidId: string, subs: CaptionIndex, autos: CaptionIndex, lang: string,
                     fetch: string -> Fetched)
    requires '|' !in lang
    requires ResolveLang(vidId, subs, autos, lang, fetch).Ok?
    requires ResolveLang(vidId, subs, autos, lang, fetch).value.Some?
    ensures var c := ResolveLang(vidId, subs, autos, lang, fetch).value.value;
            c.vidId == vidId && LangOf(c) == lang
  {
    var c := ResolveLang(vidId, subs, autos, lang, fetch).value.value;
    assert c.key == CaptionKey(vidId, "manual", lang) || c.key == CaptionKey(vidId, "auto", lang);
    if c.key == CaptionKey(vidId, "manual", lang) {
      CaptionKeyLang(vidId, "manual", lang);
    } else {
      CaptionKeyLang(vidId, "auto", lang);
    }
  }

  /** Appending a caption of a language not yet collected keeps the languages distinct. */
  lemma AppendNewLang(acc: seq<Caption>, c: Caption, rest: seq<string>)
    requires forall i, j :: 0 <= i < j < |acc| ==> LangOf(acc[i]) != LangOf(acc[j])
    requires forall i :: 0 <= i < |acc| ==> LangOf(acc[i]) != LangOf(c)
    requires forall i :: 0 <= i < |acc| ==> LangOf(acc[i]) !in rest
    requires LangOf(c) !in rest
    ensures forall i, j :: 0 <= i < j < |acc + [c]| ==> LangOf((acc + [c])[i]) != LangOf((acc + [c])[j])
    ensures forall i :: 0 <= i < |acc + [c]| ==> LangOf((acc + [c])[i]) !in rest
  {
    assert forall i :: 0 <= i < |acc| ==> (acc + [c])[i] == acc[i];
  }

  /** The video `dl_video` returns holds at most one caption per collected language. */
  lemma VideoCaptionsOnePerLanguage(info: VideoInfo, likes: int, dislikes: int, langs: seq<string>,
                                    fetch: string -> Fetched)
    requires IsEnumeration(langs, LANG_CODES_TO_COLLECT)
    requires VideoFor(info, likes, dislikes, langs, fetch).Ok?
    ensures var v := VideoFor(info, likes, dislikes, langs, fetch).value;
            && |v.captions| <= |LANG_CODES_TO_COLLECT|
            && (forall k :: 0 <= k < |v.captions| ==>
                 v.captions[k].vidId == info.id && LangOf(v.captions[k]) in LANG_CODES_TO_COLLECT)
            && (forall i, j :: 0 <= i < j < |v.captions| ==>
                 LangOf(v.captions[i]) != LangOf(v.captions[j]))
  {
    var cs := VideoFor(info, likes, dislikes, langs, fetch).value.captions;
    assert forall i :: 0 <= i < |langs| ==> '|' !in langs[i] by {
      forall i | 0 <= i < |langs| ensures '|' !in langs[i] {
        assert langs[i] in LANG_CODES_TO_COLLECT;
      }
    }
    CollectOnePerLanguage(info.id, info.subtitles, info.automaticCaptions, langs, [], fetch, cs);
    DistinctLength(langs, LANG_CODES_TO_COLLECT);
  }

  lemma {:induction false} DistinctLength(langs: seq<string>, s: set<string>)
    requires IsEnumeration(langs, s)
    ensures |langs| == |s|
    decreases |langs|
  {
    if langs != [] {
      var rest := langs[1..];
      assert IsEnumeration(rest, s - {langs[0]}) by {
        forall l ensures l in rest <==> l in s - {langs[0]} {
          if l in rest {
            var k :| 0 <= k < |rest| && rest[k] == l;
            assert langs[k + 1] == l;
          }
          if l in s - {langs[0]} {
            assert l in langs;
            var k :| 0 <= k < |langs| && langs[k] == l;
            assert k != 0 && rest[k - 1] == l;
          }
        }
      }
      DistinctLength(rest, s - {langs[0]});
    } else {
      assert forall l :: l !in s;
      assert s == {};
    }
  }
}
