/**
 * The first version of the downloaders: one video yields at most a manual and
 * an automatic caption (both in one language, English by default), each kept
 * under its type in a dictionary.
 */
module Downloaders {
  import opened Results
  import opened Payloads
  import Models
  import Dloaders

  /** The URL this version looks up: only a None URL counts as not found. */
  function CaptionUrl(subs: CaptionIndex, autos: CaptionIndex, captionType: string, lang: string)
    : (r: Result<string>)
    ensures captionType !in Dloaders.CAPTION_TYPES ==> r == Err(ValueError(captionType))
    ensures captionType in Dloaders.CAPTION_TYPES ==>
              var index := if captionType == "manual" then subs else autos;
              && (LookupUrl(index, lang) == Ok(None) ==> r == Err(CaptionNotFound(captionType, lang)))
              && (LookupUrl(index, lang).Ok? && LookupUrl(index, lang).value.Some?
                  ==> r == Ok(LookupUrl(index, lang).value.value))
              && (LookupUrl(index, lang).Err? ==> r == Err(LookupUrl(index, lang).error))
  {
    if captionType !in Dloaders.CAPTION_TYPES then Err(ValueError(captionType))
    else
      var looked := if captionType == "manual" then LookupUrl(subs, lang) else LookupUrl(autos, lang);
      match looked
      case Err(e) => Err(e)
      case Ok(url) => if url.None? then Err(CaptionNotFound(captionType, lang)) else Ok(url.value)
  }

  /**
   * `TrackDownloader.dl_tracks` of this version. It reads `@start`, `@dur` and
   * `#text` of each element and then calls the Track constructor with four
   * arguments where it takes three, so any element raises (KeyError for a
   * missing attribute, TypeError otherwise); a lone element (a dict) is
   * iterated by its keys and raises TypeError. Only an empty list gives tracks.
   */
  function OldTracks(response: Fetched): Result<seq<Models.Track>>
  {
    match response
    case Failed(status) => Err(HttpError(status))
    case Received(t) =>
      match t
      case NoText => Err(TypeError)
      case Single(_) => Err(TypeError)
      case Several(segs) =>
        if segs == [] then Ok([])
        else if segs[0].start.None? then Err(KeyError("@start"))
        else if segs[0].dur.None? then Err(KeyError("@dur"))
        else if segs[0].text.None? then Err(KeyError("#text"))
        else Err(TypeError)
  }

  /**
   * `CaptionDownloader.dl_caption` of this version: an HTTPError while
   * fetching the tracks is caught and the caption keeps an empty track list.
   */
  function DlCaption(vidId: string, subs: CaptionIndex, autos: CaptionIndex, captionType: string,
                     fetch: string -> Fetched, lang: string := "en"): (r: Result<Models.Caption>)
    ensures captionType !in Dloaders.CAPTION_TYPES ==> r == Err(ValueError(captionType))
    ensures r.Ok? ==> r.value.captionCompKey == vidId + "|" + captionType + "|" + lang
    ensures r.Ok? ==> CaptionUrl(subs, autos, captionType, lang) == Ok(r.value.captionUrl)
    ensures CaptionUrl(subs, autos, captionType, lang).Err?
            ==> r == Err(CaptionUrl(subs, autos, captionType, lang).error)
    ensures CaptionUrl(subs, autos, captionType, lang).Ok? ==>
              var url := CaptionUrl(subs, autos, captionType, lang).value;
              var key := vidId + "|" + captionType + "|" + lang;
              match OldTracks(fetch(url))
              case Ok(ts) => r.Ok? && r.value.captionCompKey == key && r.value.captionUrl == url
                             && r.value.tracks == ts
              case Err(HttpError(_)) => r.Ok? && r.value.captionCompKey == key
                                        && r.value.captionUrl == url && r.value.tracks == []
              case Err(e) => r == Err(e)
  {
    match CaptionUrl(subs, autos, captionType, lang)
    case Err(e) => Err(e)
    case Ok(url) =>
      var key := Dloaders.CaptionKey(vidId, captionType, lang);
      Models.CaptionKeyFields(vidId, captionType, lang);
      var tracks := match OldTracks(fetch(url))
        case Err(HttpError(_)) => Ok([])
        case other => other;
      match tracks
      case Err(e) => Err(e)
      case Ok(ts) => Models.NewCaption(key, url, ts)
  }

  /** The fields of youtube_dl's `extract_info` result that this `dl_video` reads. */
  datatype VideoInfo = VideoInfo(id: Option<string>, title: Option<string>,
                                 channelUrl: Option<string>, uploadDate: Option<string>,
                                 subtitles: CaptionIndex, automaticCaptions: CaptionIndex)

  /** A caption lookup `dl_video` gets past: it returned, or raised the CaptionNotFoundError it catches. */
  predicate GetsPast(c: Result<Models.Caption>)
  {
    c.Ok? || c.error.CaptionNotFound?
  }

  /**
   * `VideoDownloader.dl_video` of this version: four asserted fields, then the
   * manual and the automatic caption tried independently, each stored under
   * its type when found.
   */
  method DlVideo(info: VideoInfo, fetch: string -> Fetched) returns (r: Result<Models.Video>)
    ensures info.id.None? ==> r == Err(AssertionError("vid_id is required"))
    ensures info.id.Some? && info.title.None? ==> r == Err(AssertionError("title is required"))
    ensures info.id.Some? && info.title.Some? && info.channelUrl.None?
            ==> r == Err(AssertionError("channel_id is required"))
    ensures info.id.Some? && info.title.Some? && info.channelUrl.Some? && info.uploadDate.None?
            ==> r == Err(AssertionError("upload_date is required"))
    ensures r.Ok? ==> && info.id.Some? && info.title.Some? && info.channelUrl.Some?
                      && info.uploadDate.Some?
                      && r.value == Models.NewVideo(info.id.value, info.title.value,
                                                    info.channelUrl.value, info.uploadDate.value,
                                                    r.value.captions)
    ensures r.Ok? ==> r.value.captions.Keys <= {"manual", "auto"}
    ensures r.Ok? ==> forall t :: t in r.value.captions.Keys ==>
              DlCaption(info.id.value, info.subtitles, info.automaticCaptions, t, fetch)
              == Ok(r.value.captions[t])
    ensures r.Ok? ==> forall t :: t in {"manual", "auto"} && t !in r.value.captions.Keys ==>
              DlCaption(info.id.value, info.subtitles, info.automaticCaptions, t, fetch)
              == Err(CaptionNotFound(t, "en"))
    ensures info.id.Some? && info.title.Some? && info.channelUrl.Some? && info.uploadDate.Some? ==>
              var manual := DlCaption(info.id.value, info.subtitles, info.automaticCaptions, "manual", fetch);
              var auto := DlCaption(info.id.value, info.subtitles, info.automaticCaptions, "auto", fetch);
              && (!GetsPast(manual) ==> r == Err(manual.error))
              && (GetsPast(manual) && !GetsPast(auto) ==> r == Err(auto.error))
              && (GetsPast(manual) && GetsPast(auto) ==> r.Ok?)
  {
    if info.id.None? { return Err(AssertionError("vid_id is required")); }
    if info.title.None? { return Err(AssertionError("title is required")); }
    if info.channelUrl.None? { return Err(AssertionError("channel_id is required")); }
    if info.uploadDate.None? { return Err(AssertionError("upload_date is required")); }
    var vidId := info.id.value;
    var captions: map<string, Models.Caption> := map[];
    var manual := DlCaption(vidId, info.subtitles, info.automaticCaptions, "manual", fetch);
    match manual {
      case Ok(c) => captions := captions["manual" := c];
      case Err(e) => if !e.CaptionNotFound? { return Err(e); }
    }
    var auto := DlCaption(vidId, info.subtitles, info.automaticCaptions, "auto", fetch);
    match auto {
      case Ok(c) => captions := captions["auto" := c];
      case Err(e) => if !e.CaptionNotFound? { return Err(e); }
    }
    return Ok(Models.NewVideo(vidId, info.title.value, info.channelUrl.value, info.uploadDate.value,
                              captions));
  }

  // ------------------------------------------------------------------ lemmas

  /** In this version, no caption ever carries a track. */
  lemma OldCaptionsHaveNoTracks(vidId: string, subs: CaptionIndex, autos: CaptionIndex,
                                captionType: string, fetch: string -> Fetched, lang: string)
    requires DlCaption(vidId, subs, autos, captionType, fetch, lang).Ok?
    ensures DlCaption(vidId, subs, autos, captionType, fetch, lang).value.tracks == []
  {
  }

  /**
   * Any transcript but an empty list makes this version's caption download
   * raise an exception other than CaptionNotFoundError, which `dl_video` does
   * not catch: a video with a caption that has segments cannot be downloaded.
   */
  lemma SegmentsRaise(vidId: string, subs: CaptionIndex, autos: CaptionIndex,
                      captionType: string, fetch: string -> Fetched, lang: string)
    requires CaptionUrl(subs, autos, captionType, lang).Ok?
    requires fetch(CaptionUrl(subs, autos, captionType, lang).value).Received?
    requires fetch(CaptionUrl(subs, autos, captionType, lang).value).transcript != Several([])
    ensures !GetsPast(DlCaption(vidId, subs, autos, captionType, fetch, lang))
  {
  }

  /**
   * A URL that is the empty string is accepted here (only None is "not found"),
   * where the current downloader rejects it.
   */
  lemma EmptyUrlAccepted(vidId: string, subs: CaptionIndex, autos: CaptionIndex, lang: string,
                         fetch: string -> Fetched)
    requires lang in subs && |subs[lang]| > 0 && "url" in subs[lang][0]
    requires subs[lang][0]["url"] == Some("")
    ensures CaptionUrl(subs, autos, "manual", lang) == Ok("")
    ensures Dloaders.CaptionUrl(subs, autos, "manual", lang) == Err(CaptionNotFound("manual", lang))
  {
  }

  /**
   * An HTTP failure while fetching the tracks still yields the caption, with
   * an empty track list and the key `vid|type|lang`.
   */
  lemma HttpFailureKeepsCaption(vidId: string, subs: CaptionIndex, autos: CaptionIndex,
                                captionType: string, fetch: string -> Fetched, lang: string)
    requires CaptionUrl(subs, autos, captionType, lang).Ok?
    requires fetch(CaptionUrl(subs, autos, captionType, lang).value).Failed?
    ensures var r := DlCaption(vidId, subs, autos, captionType, fetch, lang);
            && r.Ok?
            && r.value.tracks == []
            && r.value.captionCompKey == vidId + "|" + captionType + "|" + lang
            && r.value.captionUrl == CaptionUrl(subs, autos, captionType, lang).value
  {
    var key := Dloaders.CaptionKey(vidId, captionType, lang);
    Models.CaptionKeyFields(vidId, captionType, lang);
  }
}
