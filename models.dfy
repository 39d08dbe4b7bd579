/**
 * The records of the first download pipeline. Each constructor stores its
 * arguments and derives one field: the channel and video URLs from the ids,
 * a track's start from the last field of its key, a caption's type and
 * language from the second and third fields of its key.
 */
module Models {
  import opened Results
  import opened Text

  const CHANNEL_URL_PREFIX: string := "http://www.youtube.com/channel/"
  const VIDEO_URL_PREFIX: string := "https://www.youtube.com/watch?v="

  datatype Channel = Channel(channelId: string, channelUrl: string, creator: string,
                             channelTheme: string, vidIdList: seq<string>)
  {
    /** `__str__`: the creator. */
    function ToString(): string { creator }
  }

  /**
   * A track; `start` is the text of the key's last field (the constructor
   * passes it to `float()`, which is not modelled).
   */
  datatype Track = Track(trackCompKey: string, start: string, duration: real, text: string)
  {
    /** `__str__`: the key. */
    function ToString(): string { trackCompKey }
  }

  datatype Caption = Caption(captionCompKey: string, captionType: string, langCode: string,
                             captionUrl: string, tracks: seq<Track>)
  {
    /** `__str__`: the key. */
    function ToString(): string { captionCompKey }
  }

  datatype Video = Video(vidId: string, vidUrl: string, title: string, channelId: string,
                         uploadDate: string, captions: map<string, Caption>)
  {
    /** `__str__`: the title. */
    function ToString(): string { title }
  }

  /** `Channel.__init__`: the URL is derived from the id; the rest is stored as given. */
  function NewChannel(channelId: string, creator: string, channelTheme: string,
                      vidIdList: seq<string>): (c: Channel)
    ensures |c.channelUrl| == |CHANNEL_URL_PREFIX| + |channelId|
    ensures c.channelUrl[..|CHANNEL_URL_PREFIX|] == CHANNEL_URL_PREFIX
    ensures c.channelUrl[|CHANNEL_URL_PREFIX|..] == channelId
    ensures c.channelId == channelId && c.creator == creator && c.channelTheme == channelTheme
    ensures c.vidIdList == vidIdList && c.ToString() == creator
  {
    Channel(channelId, CHANNEL_URL_PREFIX + channelId, creator, channelTheme, vidIdList)
  }

  /** `Track.__init__`: the start is read off the key's last `|`-field. */
  function NewTrack(trackCompKey: string, duration: real, text: string): (t: Track)
    ensures '|' !in t.start
    ensures t.trackCompKey == trackCompKey && t.duration == duration && t.text == text
    ensures t.ToString() == trackCompKey
  {
    SplitFieldsFree(trackCompKey, '|');
    Track(trackCompKey, LastField(trackCompKey, '|'), duration, text)
  }

  /**
   * `Caption.__init__`: the type and language are fields [1] and [2] of the
   * key split on `|`; a key with fewer than three fields raises IndexError.
   */
  function NewCaption(captionCompKey: string, captionUrl: string, tracks: seq<Track>)
    : (r: Result<Caption>)
    ensures r.Err? <==> |Split(captionCompKey, '|')| < 3
    ensures r.Err? ==> r.error == IndexError
    ensures r.Ok? ==> r.value.captionCompKey == captionCompKey && r.value.captionUrl == captionUrl
                      && r.value.tracks == tracks && r.value.ToString() == captionCompKey
    ensures r.Ok? ==> '|' !in r.value.captionType && '|' !in r.value.langCode
  {
    var fields := Split(captionCompKey, '|');
    SplitFieldsFree(captionCompKey, '|');
    if |fields| < 3 then Err(IndexError)
    else Ok(Caption(captionCompKey, fields[1], fields[2], captionUrl, tracks))
  }

  /** `Video.__init__`: the URL is derived from the id; the rest is stored as given. */
  function NewVideo(vidId: string, title: string, channelId: string, uploadDate: string,
                    captions: map<string, Caption>): (v: Video)
    ensures |v.vidUrl| == |VIDEO_URL_PREFIX| + |vidId|
    ensures v.vidUrl[..|VIDEO_URL_PREFIX|] == VIDEO_URL_PREFIX
    ensures v.vidUrl[|VIDEO_URL_PREFIX|..] == vidId
    ensures v.vidId == vidId && v.title == title && v.channelId == channelId
    ensures v.uploadDate == uploadDate && v.captions == captions && v.ToString() == title
  {
    Video(vidId, VIDEO_URL_PREFIX + vidId, title, channelId, uploadDate, captions)
  }

  // ------------------------------------------------------------------ lemmas

  /** A key ending in `|s`, with no `|` in `s`, gives back `s` as the track's start. */
  lemma TrackStartRoundTrip(prefix: string, s: string, duration: real, text: string)
    requires '|' !in s
    ensures NewTrack(prefix + "|" + s, duration, text).start == s
  {
    SplitConcat(prefix, s, '|');
    SplitWithoutSeparator(s, '|');
  }

  /** A `vid|type|lang` key always has at least three fields, so parsing it never raises. */
  lemma CaptionKeyFields(vidId: string, captionType: string, lang: string)
    ensures |Split(vidId + "|" + captionType + "|" + lang, '|')| >= 3
  {
    assert vidId + "|" + captionType + "|" + lang == vidId + ['|'] + (captionType + ['|'] + lang);
    SplitConcat(vidId, captionType + ['|'] + lang, '|');
    SplitConcat(captionType, lang, '|');
  }

  /**
   * Parsing a `vid|type|lang` key gives back the caption type whenever the
   * video id and the type hold no `|`, and gives back the language exactly
   * when the language holds no `|` either.
   */
  lemma CaptionKeyRoundTrip(vidId: string, captionType: string, lang: string, url: string,
                            tracks: seq<Track>)
    requires '|' !in vidId && '|' !in captionType
    ensures var r := NewCaption(vidId + "|" + captionType + "|" + lang, url, tracks);
            && r.Ok?
            && r.value.captionType == captionType
            && (r.value.langCode == lang <==> '|' !in lang)
  {
    KeyFieldsSplit(vidId, captionType, lang);
    assert Split(lang, '|')[0] == ([vidId, captionType] + Split(lang, '|'))[2];
    if '|' !in lang {
      SplitWithoutSeparator(lang, '|');
    }
  }

  /** A key built from a video id and a type without `|` splits into those two and the language's fields. */
  lemma KeyFieldsSplit(vidId: string, captionType: string, lang: string)
    requires '|' !in vidId && '|' !in captionType
    ensures Split(vidId + "|" + captionType + "|" + lang, '|') == [vidId, captionType] + Split(lang, '|')
  {
    assert vidId + "|" + captionType + "|" + lang == vidId + ['|'] + (captionType + ['|'] + lang);
    SplitConcat(vidId, captionType + ['|'] + lang, '|');
    SplitConcat(captionType, lang, '|');
    SplitWithoutSeparator(vidId, '|');
    SplitWithoutSeparator(captionType, '|');
  }
}
