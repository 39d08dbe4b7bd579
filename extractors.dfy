/**
 * Turning the hits of a search over the general index into search results:
 * each hit's track, with the track before it and the track after it fetched
 * by id when the hit names them.
 */
module Extractors {
  import opened Results
  import Refine

  /** The `caption` object of a stored document; the whole object is the result's features. */
  datatype CaptionJson = CaptionJson(id: Option<string>, isAuto: Option<bool>,
                                     langCode: Option<string>)

  /**
   * The `_source` of a stored track document. Each field is None when its key
   * is absent; `context`, `prevId` and `nextId` hold a value that may itself
   * be null.
   */
  datatype Source = Source(caption: Option<CaptionJson>, start: Option<real>,
                           duration: Option<real>, content: Option<string>,
                           context: Option<Option<string>>, prevId: Option<Option<string>>,
                           nextId: Option<Option<string>>)

  type Highlight = map<string, seq<string>>

  /** One element of `resp_json['hits']['hits']`. */
  datatype Hit = Hit(source: Option<Source>, highlight: Option<Highlight>)

  datatype SrchResult = SrchResult(tracks: seq<Refine.Track>, highlight: Highlight,
                                   features: CaptionJson)

  /** `GeneralDoc.get(id).to_dict()`: None when no document has the id. */
  type DocLookup = string -> Option<Source>

  /**
   * `_ext_track`: the caption id, start, duration, content and context are
   * required, in that order; `prev_id` and `next_id` default to None.
   */
  function ExtTrack(src: Source): (r: Result<Refine.Track>)
    ensures r.Ok? <==> && src.caption.Some? && src.caption.value.id.Some? && src.start.Some?
                       && src.duration.Some? && src.content.Some? && src.context.Some?
    ensures src.caption.None? ==> r == Err(KeyError("caption"))
    ensures r.Ok? ==> && r.value.captionId == src.caption.value.id.value
                      && r.value.start == src.start.value && r.value.duration == src.duration.value
                      && r.value.content == src.content.value && r.value.context == src.context.value
    ensures r.Ok? ==> && (src.prevId.None? ==> r.value.prevId == None)
                      && (src.prevId.Some? ==> r.value.prevId == src.prevId.value)
                      && (src.nextId.None? ==> r.value.nextId == None)
                      && (src.nextId.Some? ==> r.value.nextId == src.nextId.value)
  {
    if src.caption.None? then Err(KeyError("caption"))
    else if src.caption.value.id.None? then Err(KeyError("id"))
    else if src.start.None? then Err(KeyError("start"))
    else if src.duration.None? then Err(KeyError("duration"))
    else if src.content.None? then Err(KeyError("content"))
    else if src.context.None? then Err(KeyError("context"))
    else Ok(Refine.Track(src.caption.value.id.value, src.start.value, src.duration.value,
                         src.content.value, src.prevId.GetOr(None), src.nextId.GetOr(None),
                         src.context.value))
  }

  /** The neighbour named by `id` when the id is truthy: fetched and extracted, or nothing. */
  function Neighbour(id: Option<string>, lookup: DocLookup): Result<seq<Refine.Track>>
  {
    if !Truthy(id) then Ok([])
    else match lookup(id.value)
      case None => Err(NotFoundError(id.value))
      case Some(doc) =>
        match ExtTrack(doc)
        case Err(e) => Err(e)
        case Ok(t) => Ok([t])
  }

  /** The search result of one hit: `[prev] + [current] + [next]`, the highlight and the features. */
  function ResultFor(hit: Hit, lookup: DocLookup): Result<SrchResult>
  {
    if hit.source.None? then Err(KeyError("_source"))
    else
      var src := hit.source.value;
      match ExtTrack(src)
      case Err(e) => Err(e)
      case Ok(cur) =>
        match Neighbour(cur.prevId, lookup)
        case Err(e) => Err(e)
        case Ok(prev) =>
          match Neighbour(cur.nextId, lookup)
          case Err(e) => Err(e)
          case Ok(next) =>
            if hit.highlight.None? then Err(KeyError("highlight"))
            else Ok(SrchResult(prev + [cur] + next, hit.highlight.value, src.caption.value))
  }

  /** The results of the hits in order; the first hit that raises decides the error. */
  function ResultsFor(hits: seq<Hit>, lookup: DocLookup): Result<seq<SrchResult>>
  {
    if hits == [] then Ok([])
    else match ResultsFor(hits[..|hits| - 1], lookup)
      case Err(e) => Err(e)
      case Ok(rs) =>
        match ResultFor(hits[|hits| - 1], lookup)
        case Err(e) => Err(e)
        case Ok(x) => Ok(rs + [x])
  }

  /** `SrchResultsExtractor.parse` over the hits of a response. */
  method Parse(hits: seq<Hit>, lookup: DocLookup) returns (r: Result<seq<SrchResult>>)
    ensures r == ResultsFor(hits, lookup)
  {
    var srchResults: seq<SrchResult> := [];
    for h := 0 to |hits|
      invariant ResultsFor(hits[..h], lookup) == Ok(srchResults)
    {
      assert hits[..h + 1][..h] == hits[..h];
      var srchRes := ParseHit(hits[h], lookup);
      if srchRes.Err? {
        FirstErrorDecides(hits, h, lookup);
        return Err(srchRes.error);
      }
      srchResults := srchResults + [srchRes.value];
    }
    assert hits[..|hits|] == hits;
    return Ok(srchResults);
  }

  /**
   * The body of the loop of `parse` for one hit: the current track, the
   * previous one inserted at the front, the next one appended.
   */
  method ParseHit(hit: Hit, lookup: DocLookup) returns (r: Result<SrchResult>)
    ensures r == ResultFor(hit, lookup)
  {
    if hit.source.None? {
      return Err(KeyError("_source"));
    }
    var src := hit.source.value;
    var tracks: seq<Refine.Track> := [];
    var curr := ExtTrack(src);
    if curr.Err? {
      return Err(curr.error);
    }
    var currTrack := curr.value;
    tracks := tracks + [currTrack];
    if Truthy(currTrack.prevId) {
      var prevDoc := lookup(currTrack.prevId.value);
      if prevDoc.None? {
        return Err(NotFoundError(currTrack.prevId.value));
      }
      var prev := ExtTrack(prevDoc.value);
      if prev.Err? {
        return Err(prev.error);
      }
      tracks := [prev.value] + tracks;
    }
    assert tracks == Neighbour(currTrack.prevId, lookup).value + [currTrack];
    if Truthy(currTrack.nextId) {
      var nextDoc := lookup(currTrack.nextId.value);
      if nextDoc.None? {
        return Err(NotFoundError(currTrack.nextId.value));
      }
      var next := ExtTrack(nextDoc.value);
      if next.Err? {
        return Err(next.error);
      }
      tracks := tracks + [next.value];
    }
    assert tracks == Neighbour(currTrack.prevId, lookup).value + [currTrack]
                     + Neighbour(currTrack.nextId, lookup).value;
    if hit.highlight.None? {
      return Err(KeyError("highlight"));
    }
    return Ok(SrchResult(tracks, hit.highlight.value, src.caption.value));
  }

  // ------------------------------------------------------------------ lemmas

  /**
   * One result per hit, in hit order, when no hit raises; otherwise the
   * error of the first hit that raises.
   */
  lemma {:induction false} ResultsPerHit(hits: seq<Hit>, lookup: DocLookup)
    ensures ResultsFor(hits, lookup).Ok? <==> forall i :: 0 <= i < |hits| ==> ResultFor(hits[i], lookup).Ok?
    ensures ResultsFor(hits, lookup).Ok? ==>
              && |ResultsFor(hits, lookup).value| == |hits|
              && forall i :: 0 <= i < |hits| ==>
                   ResultsFor(hits, lookup).value[i] == ResultFor(hits[i], lookup).value
    ensures ResultsFor(hits, lookup).Err? ==>
              exists i :: && 0 <= i < |hits| && ResultFor(hits[i], lookup).Err?
                          && ResultsFor(hits, lookup).error == ResultFor(hits[i], lookup).error
                          && forall j :: 0 <= j < i ==> ResultFor(hits[j], lookup).Ok?
  {
    if hits != [] {
      var init := hits[..|hits| - 1];
      ResultsPerHit(init, lookup);
      assert forall i :: 0 <= i < |init| ==> init[i] == hits[i];
      if ResultsFor(init, lookup).Err? {
        var i :| && 0 <= i < |init| && ResultFor(init[i], lookup).Err?
                 && ResultsFor(init, lookup).error == ResultFor(init[i], lookup).error
                 && forall j :: 0 <= j < i ==> ResultFor(init[j], lookup).Ok?;
        assert ResultFor(hits[i], lookup).Err?;
      } else if ResultFor(hits[|hits| - 1], lookup).Err? {
        assert forall j :: 0 <= j < |hits| - 1 ==> ResultFor(hits[j], lookup).Ok?;
      }
    }
  }

  /** Once a hit raises, the hits after it do not matter. */
  lemma {:induction false} FirstErrorDecides(hits: seq<Hit>, h: nat, lookup: DocLookup)
    requires h < |hits| && ResultsFor(hits[..h], lookup).Ok? && ResultFor(hits[h], lookup).Err?
    ensures ResultsFor(hits, lookup) == Err(ResultFor(hits[h], lookup).error)
    decreases |hits|
  {
    if h == |hits| - 1 {
      assert hits[..|hits| - 1] == hits[..h];
    } else {
      var init := hits[..|hits| - 1];
      assert init[..h] == hits[..h] && init[h] == hits[h];
      FirstErrorDecides(init, h, lookup);
    }
  }

  /** No hits, no results. */
  lemma NoHitsNoResults(lookup: DocLookup)
    ensures ResultsFor([], lookup) == Ok([])
  {
  }

  /**
   * The tracks of a result: the previous track exactly when `prev_id` is
   * truthy, the hit's own track next, then the next track exactly when
   * `next_id` is truthy; so between one and three tracks, the hit's own at
   * index 1 when there is a previous one and at index 0 otherwise.
   */
  lemma ResultTracks(hit: Hit, lookup: DocLookup)
    requires ResultFor(hit, lookup).Ok?
    ensures hit.source.Some? && ExtTrack(hit.source.value).Ok?
    ensures var cur := ExtTrack(hit.source.value).value;
            var tracks := ResultFor(hit, lookup).value.tracks;
            && |tracks| == 1 + (if Truthy(cur.prevId) then 1 else 0) + (if Truthy(cur.nextId) then 1 else 0)
            && 1 <= |tracks| <= 3
            && tracks[if Truthy(cur.prevId) then 1 else 0] == cur
            && (Truthy(cur.prevId) ==>
                  && lookup(cur.prevId.value).Some?
                  && Ok(tracks[0]) == ExtTrack(lookup(cur.prevId.value).value))
            && (Truthy(cur.nextId) ==>
                  && lookup(cur.nextId.value).Some?
                  && Ok(tracks[|tracks| - 1]) == ExtTrack(lookup(cur.nextId.value).value))
    ensures ResultFor(hit, lookup).value.highlight == hit.highlight.value
    ensures ResultFor(hit, lookup).value.features == hit.source.value.caption.value
  {
  }

  /** A previous id that is the empty string is not looked up, exactly like an absent one. */
  lemma EmptyPrevIdIsAbsent(hit: Hit, lookup: DocLookup)
    requires hit.source.Some? && hit.source.value.prevId == Some(Some(""))
    requires ResultFor(hit, lookup).Ok?
    ensures ResultFor(hit.(source := Some(hit.source.value.(prevId := None))), lookup).Ok?
    ensures |ResultFor(hit.(source := Some(hit.source.value.(prevId := None))), lookup).value.tracks|
            == |ResultFor(hit, lookup).value.tracks|
  {
  }

  /** A hit whose track names a previous id that no document has raises NotFoundError. */
  lemma MissingNeighbourRaises(hit: Hit, lookup: DocLookup)
    requires hit.source.Some? && ExtTrack(hit.source.value).Ok?
    requires var cur := ExtTrack(hit.source.value).value;
             Truthy(cur.prevId) && lookup(cur.prevId.value).None?
    ensures ResultFor(hit, lookup) == Err(NotFoundError(ExtTrack(hit.source.value).value.prevId.value))
  {
  }
}
