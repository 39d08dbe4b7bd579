/**
 * What the caption downloaders receive from the outside world: youtube_dl's
 * per-language caption indices and the timed-text transcript fetched from a
 * caption URL, already unescaped and deserialised from XML.
 */
module Payloads {
  import opened Results

  /** One entry of a language's format list; the value under 'url' may be None. */
  type FormatEntry = map<string, Option<string>>

  /** `info['subtitles']` or `info['automatic_captions']`: language code to format list. */
  type CaptionIndex = map<string, seq<FormatEntry>>

  /** `FORMAT_IDX['srv1']`: the position of the srv1 format in a format list. */
  const SRV1_FORMAT_IDX: nat := 0

  /** One `<text>` element of the transcript; each attribute may be missing. */
  datatype Segment = Segment(start: Option<real>, dur: Option<real>, text: Option<string>)

  /**
   * `tracks_dict['transcript']['text']`: absent (an empty transcript), a lone
   * element (xmltodict gives a dict), or a list of elements.
   */
  datatype Transcript = NoText | Single(seg: Segment) | Several(segs: seq<Segment>)

  /** The response to `requests.get(caption_url)`: a failed status or a parsed body. */
  datatype Fetched = Failed(status: int) | Received(transcript: Transcript)

  /**
   * `index[lang_code][format_idx]['url']` when `lang_code in index`, and None
   * (the initial value of caption_url) when it is not.
   */
  function LookupUrl(index: CaptionIndex, lang: string): (r: Result<Option<string>>)
    ensures lang !in index ==> r == Ok(None)
    ensures r.Err? ==> lang in index
    ensures lang in index && |index[lang]| <= SRV1_FORMAT_IDX ==> r == Err(IndexError)
    ensures lang in index && |index[lang]| > SRV1_FORMAT_IDX && "url" !in index[lang][SRV1_FORMAT_IDX]
            ==> r == Err(KeyError("url"))
    ensures lang in index && |index[lang]| > SRV1_FORMAT_IDX && "url" in index[lang][SRV1_FORMAT_IDX]
            ==> r == Ok(index[lang][SRV1_FORMAT_IDX]["url"])
  {
    if lang !in index then Ok(None)
    else if |index[lang]| <= SRV1_FORMAT_IDX then Err(IndexError)
    else if "url" !in index[lang][SRV1_FORMAT_IDX] then Err(KeyError("url"))
    else Ok(index[lang][SRV1_FORMAT_IDX]["url"])
  }
}
