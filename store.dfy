/**
 * Storing a scraped channel in the document store: one collection each for
 * channels, videos, captions and tracks, keyed by `_id`. A document that is
 * already there is overwritten by deleting it and inserting it again.
 */
module YoutoraStore {
  import opened Results

  // ------------------------------------------------------------------ records

  datatype Track = Track(id: string, parentId: string, start: real, duration: real,
                         content: string, prevId: Option<string>, nextId: Option<string>,
                         context: Option<string>)

  datatype Caption = Caption(id: string, parentId: string, url: string, langCode: string,
                             isAuto: bool, tracks: seq<Track>)

  datatype Video = Video(id: string, parentId: string, url: string, title: string,
                         publishDate: string, views: int, likes: int, dislikes: int,
                         category: string, captions: seq<Caption>)

  datatype Channel = Channel(id: string, url: string, title: string, subs: int,
                             langCode: string, vidIdList: seq<string>)

  /** A field value of a stored document. */
  datatype Value = VStr(s: string) | VInt(i: int) | VReal(r: real) | VBool(b: bool) | VNull

  /** A stored document: its `_id`, and its other fields by name. */
  datatype Doc = Doc(id: string, fields: map<string, Value>)

  function OptValue(x: Option<string>): Value
  {
    if x.Some? then VStr(x.value) else VNull
  }

  // ------------------------------------------------------------------ documents

  /** The document `_store_channel` builds. */
  function ChannelDoc(c: Channel): (d: Doc)
    ensures d.id == c.id && d.fields.Keys == {"url", "title", "subs", "lang_code"}
    ensures d.fields["url"] == VStr(c.url) && d.fields["title"] == VStr(c.title)
    ensures d.fields["subs"] == VInt(c.subs) && d.fields["lang_code"] == VStr(c.langCode)
  {
    Doc(c.id, map["url" := VStr(c.url), "title" := VStr(c.title), "subs" := VInt(c.subs),
                  "lang_code" := VStr(c.langCode)])
  }

  /** The document `_store_video` builds. */
  function VideoDoc(v: Video): (d: Doc)
    ensures d.id == v.id
    ensures d.fields.Keys == {"parent_id", "url", "title", "publish_date", "views", "likes",
                              "dislikes", "category"}
    ensures d.fields["parent_id"] == VStr(v.parentId) && d.fields["url"] == VStr(v.url)
    ensures d.fields["title"] == VStr(v.title) && d.fields["publish_date"] == VStr(v.publishDate)
    ensures d.fields["views"] == VInt(v.views) && d.fields["likes"] == VInt(v.likes)
    ensures d.fields["dislikes"] == VInt(v.dislikes) && d.fields["category"] == VStr(v.category)
  {
    Doc(v.id, map["parent_id" := VStr(v.parentId), "url" := VStr(v.url),
                  "title" := VStr(v.title), "publish_date" := VStr(v.publishDate),
                  "views" := VInt(v.views), "likes" := VInt(v.likes),
                  "dislikes" := VInt(v.dislikes), "category" := VStr(v.category)])
  }

  /** The document `_store_captions_of` builds for one caption. */
  function CaptionDoc(c: Caption): (d: Doc)
    ensures d.id == c.id && d.fields.Keys == {"parent_id", "url", "lang_code", "is_auto"}
    ensures d.fields["parent_id"] == VStr(c.parentId) && d.fields["url"] == VStr(c.url)
    ensures d.fields["lang_code"] == VStr(c.langCode) && d.fields["is_auto"] == VBool(c.isAuto)
  {
    Doc(c.id, map["parent_id" := VStr(c.parentId), "url" := VStr(c.url),
                  "lang_code" := VStr(c.langCode), "is_auto" := VBool(c.isAuto)])
  }

  /** The document `_store_tracks_of` builds for one track. */
  function TrackDoc(t: Track): (d: Doc)
    ensures d.id == t.id
    ensures d.fields.Keys == {"parent_id", "start", "duration", "content", "prev_id", "next_id",
                              "context"}
    ensures d.fields["parent_id"] == VStr(t.parentId) && d.fields["start"] == VReal(t.start)
    ensures d.fields["duration"] == VReal(t.duration) && d.fields["content"] == VStr(t.content)
    ensures d.fields["prev_id"] == OptValue(t.prevId) && d.fields["next_id"] == OptValue(t.nextId)
    ensures d.fields["context"] == OptValue(t.context)
  {
    Doc(t.id, map["parent_id" := VStr(t.parentId), "start" := VReal(t.start),
                  "duration" := VReal(t.duration), "content" := VStr(t.content),
                  "prev_id" := OptValue(t.prevId), "next_id" := OptValue(t.nextId),
                  "context" := OptValue(t.context)])
  }

  /** The caption documents of a video, in caption order. */
  function CaptionDocs(captions: seq<Caption>): seq<Doc>
  {
    seq(|captions|, i requires 0 <= i < |captions| => CaptionDoc(captions[i]))
  }

  /** The track documents of a video: caption after caption, each caption's tracks in order. */
  function TrackDocs(captions: seq<Caption>): seq<Doc>
  {
    if captions == [] then []
    else
      var last := captions[|captions| - 1];
      TrackDocs(captions[..|captions| - 1])
      + seq(|last.tracks|, j requires 0 <= j < |last.tracks| => TrackDoc(last.tracks[j]))
  }

  /** The loop of `_store_captions_of` that builds the documents. */
  method CaptionDocsOf(video: Video) returns (docs: seq<Doc>)
    ensures docs == CaptionDocs(video.captions)
  {
    docs := [];
    for i := 0 to |video.captions|
      invariant docs == CaptionDocs(video.captions[..i])
    {
      docs := docs + [CaptionDoc(video.captions[i])];
    }
    assert video.captions[..|video.captions|] == video.captions;
  }

  /** The nested loop of `_store_tracks_of` that builds the documents. */
  method TrackDocsOf(video: Video) returns (docs: seq<Doc>)
    ensures docs == TrackDocs(video.captions)
  {
    docs := [];
    for i := 0 to |video.captions|
      invariant docs == TrackDocs(video.captions[..i])
    {
      var caption := video.captions[i];
      assert video.captions[..i + 1][..i] == video.captions[..i];
      ghost var before := docs;
      for j := 0 to |caption.tracks|
        invariant docs == before + seq(j, k requires 0 <= k < j => TrackDoc(caption.tracks[k]))
      {
        docs := docs + [TrackDoc(caption.tracks[j])];
      }
    }
    assert video.captions[..|video.captions|] == video.captions;
  }

  // ------------------------------------------------------------------ the collection

  /** The ids of a list of documents. */
  function IdsOf(ds: seq<Doc>): set<string>
  {
    set d | d in ds :: d.id
  }

  predicate DistinctIds(ds: seq<Doc>)
  {
    forall i, j :: 0 <= i < j < |ds| ==> ds[i].id != ds[j].id
  }

  /** The documents by id; with distinct ids, each id maps to its own document. */
  function DocMap(ds: seq<Doc>): map<string, Doc>
  {
    if ds == [] then map[] else DocMap(ds[1..])[ds[0].id := ds[0]]
  }

  /**
   * An ordered `insert_many`: the documents go in one by one until one
   * whose id is already present, which raises BulkWriteError and leaves the
   * earlier ones inserted.
   */
  function InsertOrdered(m: map<string, Doc>, ds: seq<Doc>): (map<string, Doc>, bool)
    decreases |ds|
  {
    if ds == [] then (m, false)
    else if ds[0].id in m then (m, true)
    else InsertOrdered(m[ds[0].id := ds[0]], ds[1..])
  }

  /** A collection with a unique index on `_id`. */
  class Collection {
    var docs: map<string, Doc>

    constructor ()
      ensures docs == map[]
    {
      docs := map[];
    }

    /** `insert_one`: reports a duplicate key and changes nothing, or inserts. */
    method InsertOne(doc: Doc) returns (duplicate: bool)
      modifies this
      ensures duplicate <==> doc.id in old(docs)
      ensures docs == if duplicate then old(docs) else old(docs)[doc.id := doc]
    {
      duplicate := doc.id in docs;
      if !duplicate {
        docs := docs[doc.id := doc];
      }
    }

    /** `delete_one({"_id": id})`. */
    method DeleteOne(id: string)
      modifies this
      ensures docs == old(docs) - {id}
    {
      docs := docs - {id};
    }

    /** `insert_many`, ordered: `failed` is a BulkWriteError. */
    method InsertMany(ds: seq<Doc>) returns (failed: bool)
      modifies this
      ensures (docs, failed) == InsertOrdered(old(docs), ds)
    {
      failed := false;
      for i := 0 to |ds|
        invariant InsertOrdered(docs, ds[i..]) == InsertOrdered(old(docs), ds)
      {
        assert ds[i..][1..] == ds[i + 1..];
        if ds[i].id in docs {
          failed := true;
          return;
        }
        docs := docs[ds[i].id := ds[i]];
      }
    }

    /** `delete_many({"_id": {"$in": ids}})`. */
    method DeleteMany(ids: set<string>)
      modifies this
      ensures docs == old(docs) - ids
    {
      docs := docs - ids;
    }
  }

  /**
   * `_store_one`: insert; on a duplicate key, delete the old document and
   * insert again. The log line says which happened.
   */
  method StoreOne(coll: Collection, doc: Doc, repId: string) returns (log: string)
    modifies coll
    ensures coll.docs == old(coll.docs)[doc.id := doc]
    ensures log == if doc.id in old(coll.docs) then "overwritten: " + repId else "stored: " + repId
  {
    var duplicate := coll.InsertOne(doc);
    if duplicate {
      coll.DeleteOne(doc.id);
      var again := coll.InsertOne(doc);
      assert !again;
      assert (old(coll.docs) - {doc.id})[doc.id := doc] == old(coll.docs)[doc.id := doc];
      log := "overwritten: " + repId;
    } else {
      log := "stored: " + repId;
    }
  }

  /**
   * What `_store_many` leaves in the collection, and whether the second
   * `insert_many` raised (which nothing catches).
   */
  function StoreManySpec(m: map<string, Doc>, ds: seq<Doc>): (map<string, Doc>, bool)
  {
    var first := InsertOrdered(m, ds);
    if !first.1 then first
    else InsertOrdered(first.0 - IdsOf(ds), ds)
  }

  /**
   * `_store_many`: insert all; on BulkWriteError, delete every submitted id
   * and insert all again. `failed` is a BulkWriteError of the second insert.
   */
  method StoreMany(coll: Collection, ds: seq<Doc>, repId: string)
    returns (failed: bool, log: string)
    modifies coll
    ensures (coll.docs, failed) == StoreManySpec(old(coll.docs), ds)
    ensures !failed ==> log == if InsertOrdered(old(coll.docs), ds).1
                               then "all overwritten for: " + repId
                               else "all stored for: " + repId
  {
    var bulkError := coll.InsertMany(ds);
    if bulkError {
      var ids := set d | d in ds :: d.id;
      coll.DeleteMany(ids);
      failed := coll.InsertMany(ds);
      log := "all overwritten for: " + repId;
    } else {
      failed := false;
      log := "all stored for: " + repId;
    }
  }

  // ------------------------------------------------------------------ the database

  /** The four collections of the database. */
  datatype DbState = DbState(channels: map<string, Doc>, videos: map<string, Doc>,
                             captions: map<string, Doc>, tracks: map<string, Doc>)

  /** The state after some videos: the database, the ids indexed so far, and whether a write raised. */
  datatype Progress = Progress(state: DbState, indexed: seq<string>, failed: bool)

  class YoutoraDb {
    const channelColl: Collection
    const videoColl: Collection
    const captionColl: Collection
    const trackColl: Collection

    predicate Valid()
    {
      && channelColl != videoColl && channelColl != captionColl && channelColl != trackColl
      && videoColl != captionColl && videoColl != trackColl && captionColl != trackColl
    }

    function State(): DbState
      reads channelColl, videoColl, captionColl, trackColl
    {
      DbState(channelColl.docs, videoColl.docs, captionColl.docs, trackColl.docs)
    }

    constructor ()
      ensures Valid() && State() == DbState(map[], map[], map[], map[])
      ensures fresh(channelColl) && fresh(videoColl) && fresh(captionColl) && fresh(trackColl)
    {
      channelColl := new Collection();
      videoColl := new Collection();
      captionColl := new Collection();
      trackColl := new Collection();
    }
  }

  /** Storing one video that has captions: the video, then its captions, then its tracks. */
  function StoreVideoSpec(s: DbState, v: Video): Progress
  {
    var s1 := s.(videos := s.videos[v.id := VideoDoc(v)]);
    var caps := StoreManySpec(s1.captions, CaptionDocs(v.captions));
    if caps.1 then Progress(s1.(captions := caps.0), [], true)
    else
      var tracks := StoreManySpec(s1.tracks, TrackDocs(v.captions));
      Progress(s1.(captions := caps.0, tracks := tracks.0), if tracks.1 then [] else [v.id],
               tracks.1)
  }

  /** The videos in order: those without captions are skipped; the first write that raises stops. */
  function StoreVideosSpec(s: DbState, vs: seq<Video>): Progress
  {
    if vs == [] then Progress(s, [], false)
    else
      var prev := StoreVideosSpec(s, vs[..|vs| - 1]);
      var v := vs[|vs| - 1];
      if prev.failed || v.captions == [] then prev
      else
        var step := StoreVideoSpec(prev.state, v);
        Progress(step.state, prev.indexed + step.indexed, step.failed)
  }

  function Flatten(batches: seq<seq<Video>>): seq<Video>
  {
    if batches == [] then [] else Flatten(batches[..|batches| - 1]) + batches[|batches| - 1]
  }

  /**
   * One video of the loop, after the videos `done`: skipped when it has no
   * captions, else its video, captions and tracks stored and its id indexed.
   */
  method StoreVideoAll(db: YoutoraDb, ghost s0: DbState, ghost done: seq<Video>, v: Video,
                       indexed0: seq<string>)
    returns (failed: bool, indexed: seq<string>)
    requires db.Valid()
    requires StoreVideosSpec(s0, done) == Progress(db.State(), indexed0, false)
    modifies db.videoColl, db.captionColl, db.trackColl
    ensures StoreVideosSpec(s0, done + [v]) == Progress(db.State(), indexed, failed)
  {
    StoreVideosStep(s0, done, v);
    if v.captions == [] {
      return false, indexed0;
    }
    var logVideo := StoreOne(db.videoColl, VideoDoc(v), v.id);
    var captionDocs := CaptionDocsOf(v);
    var logCaptions;
    failed, logCaptions := StoreMany(db.captionColl, captionDocs, v.id);
    if failed {
      return true, indexed0;
    }
    var trackDocs := TrackDocsOf(v);
    var logTracks;
    failed, logTracks := StoreMany(db.trackColl, trackDocs, v.id);
    if failed {
      return true, indexed0;
    }
    return false, indexed0 + [v.id];
  }

  /**
   * `store_youtora_db` once the channel is scraped and its videos downloaded
   * in `batches`: the language is checked before anything is written; each
   * video with captions is stored and then indexed (`indexed` lists the
   * video ids handed to the index); the channel is stored only after the
   * last batch.
   */
  method StoreYoutoraDb(db: YoutoraDb, channel: Channel, langCode: string,
                        langCodesToCollect: set<string>, batches: seq<seq<Video>>)
    returns (r: Result<()>, indexed: seq<string>)
    requires db.Valid()
    modifies db.channelColl, db.videoColl, db.captionColl, db.trackColl
    ensures langCode !in langCodesToCollect ==>
              r == Err(AssertionError("the lang code is invalid")) && indexed == []
              && db.State() == old(db.State())
    ensures langCode in langCodesToCollect ==>
              var p := StoreVideosSpec(old(db.State()), Flatten(batches));
              && indexed == p.indexed
              && (p.failed ==> r == Err(BulkWriteError) && db.State() == p.state)
              && (!p.failed ==> r == Ok(()) && db.State() == p.state.(
                    channels := p.state.channels[channel.id := ChannelDoc(channel)]))
  {
    if langCode !in langCodesToCollect {
      return Err(AssertionError("the lang code is invalid")), [];
    }
    ghost var s0 := db.State();
    indexed := [];
    for b := 0 to |batches|
      invariant StoreVideosSpec(s0, Flatten(batches[..b]))
                == Progress(db.State(), indexed, false)
    {
      assert batches[..b + 1][..b] == batches[..b];
      assert Flatten(batches[..b + 1]) == Flatten(batches[..b]) + batches[b];
      var failed;
      failed, indexed := StoreBatch(db, s0, Flatten(batches[..b]), batches[b], indexed);
      if failed {
        FlattenPrefix(batches, b + 1);
        StoppedStaysStopped(s0, Flatten(batches[..b + 1]), Flatten(batches));
        return Err(BulkWriteError), indexed;
      }
    }
    assert batches[..|batches|] == batches;
    var log := StoreOne(db.channelColl, ChannelDoc(channel), channel.id);
    r := Ok(());
  }

  /** One batch of the loop, after the videos `done` of the earlier batches. */
  method StoreBatch(db: YoutoraDb, ghost s0: DbState, ghost done: seq<Video>, batch: seq<Video>,
                    indexed0: seq<string>)
    returns (failed: bool, indexed: seq<string>)
    requires db.Valid()
    requires StoreVideosSpec(s0, done) == Progress(db.State(), indexed0, false)
    modifies db.videoColl, db.captionColl, db.trackColl
    ensures StoreVideosSpec(s0, done + batch) == Progress(db.State(), indexed, failed)
  {
    indexed := indexed0;
    assert done + batch[..0] == done;
    for i := 0 to |batch|
      invariant StoreVideosSpec(s0, done + batch[..i]) == Progress(db.State(), indexed, false)
    {
      var video := batch[i];
      ghost var vs := done + batch[..i + 1];
      SnocSlice(done, batch, i);
      failed, indexed := StoreVideoAll(db, s0, done + batch[..i], video, indexed);
      if failed {
        assert batch[..i + 1] <= batch;
        StoppedStaysStopped(s0, vs, done + batch);
        return;
      }
    }
    assert batch[..|batch|] == batch;
    failed := false;
  }

  // ------------------------------------------------------------------ lemmas

  lemma SnocSlice<T>(xs: seq<T>, ys: seq<T>, i: nat)
    requires i < |ys|
    ensures xs + ys[..i + 1] == xs + ys[..i] + [ys[i]]
  {
    assert ys[..i + 1] == ys[..i] + [ys[i]];
  }

  lemma StoreVideosStep(s: DbState, vs: seq<Video>, v: Video)
    ensures var prev := StoreVideosSpec(s, vs);
            StoreVideosSpec(s, vs + [v])
            == if prev.failed || v.captions == [] then prev
               else var step := StoreVideoSpec(prev.state, v);
                    Progress(step.state, prev.indexed + step.indexed, step.failed)
  {
    assert (vs + [v])[..|vs|] == vs;
  }

  lemma {:induction false} FlattenPrefix(batches: seq<seq<Video>>, b: nat)
    requires b <= |batches|
    ensures Flatten(batches[..b]) <= Flatten(batches)
    decreases |batches|
  {
    if b < |batches| {
      var init := batches[..|batches| - 1];
      assert init[..b] == batches[..b];
      FlattenPrefix(init, b);
    } else {
      assert batches[..b] == batches;
    }
  }

  /** Once a write has raised, the videos after it change nothing. */
  lemma {:induction false} StoppedStaysStopped(s: DbState, vs: seq<Video>, all: seq<Video>)
    requires vs <= all && StoreVideosSpec(s, vs).failed
    ensures StoreVideosSpec(s, all) == StoreVideosSpec(s, vs)
    decreases |all|
  {
    if |all| > |vs| {
      assert vs <= all[..|all| - 1];
      StoppedStaysStopped(s, vs, all[..|all| - 1]);
    } else {
      assert vs == all;
    }
  }

  lemma IdsOfCons(ds: seq<Doc>)
    requires ds != []
    ensures IdsOf(ds) == {ds[0].id} + IdsOf(ds[1..])
  {
    assert forall d :: d in ds <==> d == ds[0] || d in ds[1..];
  }

  /** The documents by id hold exactly the submitted ids, each mapped to its own document. */
  lemma {:induction false} DocMapLookup(ds: seq<Doc>)
    requires DistinctIds(ds)
    ensures DocMap(ds).Keys == IdsOf(ds)
    ensures forall i :: 0 <= i < |ds| ==> DocMap(ds)[ds[i].id] == ds[i]
  {
    if ds != [] {
      DistinctTail(ds);
      DocMapLookup(ds[1..]);
      forall i | 0 < i < |ds|
        ensures DocMap(ds)[ds[i].id] == ds[i]
      {
        assert ds[1..][i - 1] == ds[i];
      }
      IdsOfCons(ds);
    }
  }

  lemma DistinctTail(ds: seq<Doc>)
    requires ds != [] && DistinctIds(ds)
    ensures DistinctIds(ds[1..]) && ds[0].id !in IdsOf(ds[1..])
  {
    forall i, j | 0 <= i < j < |ds[1..]|
      ensures ds[1..][i].id != ds[1..][j].id
    {
      assert ds[1..][i] == ds[i + 1] && ds[1..][j] == ds[j + 1];
    }
  }

  lemma UpdateThenMerge(m: map<string, Doc>, d: Doc, rest: map<string, Doc>)
    requires d.id !in rest
    ensures m[d.id := d] + rest == m + rest[d.id := d]
  {
  }

  /** Into a collection holding none of their ids, distinct documents all go in. */
  lemma {:induction false} InsertFresh(m: map<string, Doc>, ds: seq<Doc>)
    requires DistinctIds(ds) && forall d | d in ds :: d.id !in m
    ensures InsertOrdered(m, ds) == (m + DocMap(ds), false)
    decreases |ds|
  {
    if ds != [] {
      assert ds[0] in ds;
      var m1 := m[ds[0].id := ds[0]];
      assert InsertOrdered(m, ds) == InsertOrdered(m1, ds[1..]);
      DistinctTail(ds);
      assert forall d | d in ds[1..] :: d in ds;
      DocMapLookup(ds[1..]);
      InsertFresh(m1, ds[1..]);
      UpdateThenMerge(m, ds[0], DocMap(ds[1..]));
    } else {
      assert m + map[] == m;
    }
  }

  /** An ordered insert touches only the submitted ids. */
  lemma {:induction false} InsertOrderedKeepsOthers(m: map<string, Doc>, ds: seq<Doc>)
    ensures InsertOrdered(m, ds).0 - IdsOf(ds) == m - IdsOf(ds)
    decreases |ds|
  {
    if ds != [] && ds[0].id !in m {
      var m1 := m[ds[0].id := ds[0]];
      var x := InsertOrdered(m1, ds[1..]).0;
      InsertOrderedKeepsOthers(m1, ds[1..]);
      IdsOfCons(ds);
      assert x - IdsOf(ds) == (x - IdsOf(ds[1..])) - {ds[0].id};
      assert m - IdsOf(ds) == (m1 - IdsOf(ds[1..])) - {ds[0].id};
    }
  }

  /**
   * `_store_many` with distinct ids never raises, and leaves every submitted
   * id holding its new document and every other id as it was, whether the
   * first insert met a duplicate or not.
   */
  lemma StoreManyOverwrites(m: map<string, Doc>, ds: seq<Doc>)
    requires DistinctIds(ds)
    ensures !StoreManySpec(m, ds).1
    ensures StoreManySpec(m, ds).0 == (m - IdsOf(ds)) + DocMap(ds)
  {
    var first := InsertOrdered(m, ds);
    InsertOrderedKeepsOthers(m, ds);
    if first.1 {
      InsertFresh(first.0 - IdsOf(ds), ds);
    } else {
      forall d | d in ds
        ensures d.id !in m
      {
        if d.id in m {
          DuplicateBlocks(m, ds, d.id);
        }
      }
      InsertFresh(m, ds);
      DocMapLookup(ds);
      assert m + DocMap(ds) == (m - IdsOf(ds)) + DocMap(ds);
    }
  }

  /** Hence each submitted id maps to its own document and any other id is untouched. */
  lemma StoreManyLookup(m: map<string, Doc>, ds: seq<Doc>, id: string)
    requires DistinctIds(ds)
    ensures !StoreManySpec(m, ds).1
    ensures forall i | 0 <= i < |ds| :: ds[i].id in StoreManySpec(m, ds).0
                                       && StoreManySpec(m, ds).0[ds[i].id] == ds[i]
    ensures id !in IdsOf(ds) ==>
              && (id in StoreManySpec(m, ds).0 <==> id in m)
              && (id in m ==> StoreManySpec(m, ds).0[id] == m[id])
  {
    StoreManyOverwrites(m, ds);
    DocMapLookup(ds);
  }

  /** A submitted id already in the collection makes an ordered insert raise. */
  lemma {:induction false} DuplicateBlocks(m: map<string, Doc>, ds: seq<Doc>, id: string)
    requires id in m && exists d | d in ds :: d.id == id
    ensures InsertOrdered(m, ds).1
    decreases |ds|
  {
    if ds[0].id !in m {
      var d :| d in ds && d.id == id;
      assert d != ds[0];
      assert d in ds[1..] by {
        var k :| 0 <= k < |ds| && ds[k] == d;
        assert ds[1..][k - 1] == d;
      }
      DuplicateBlocks(m[ds[0].id := ds[0]], ds[1..], id);
    }
  }

  /** Two submitted documents with one id make the second insert raise too: `_store_many` fails. */
  lemma {:induction false} DuplicateIdsRaise(m: map<string, Doc>, ds: seq<Doc>)
    requires !DistinctIds(ds)
    ensures InsertOrdered(m, ds).1
    ensures StoreManySpec(m, ds).1
  {
    var i, j :| 0 <= i < j < |ds| && ds[i].id == ds[j].id;
    RepeatedIdRaises(m, ds, i, j);
    RepeatedIdRaises(InsertOrdered(m, ds).0 - IdsOf(ds), ds, i, j);
  }

  lemma {:induction false} RepeatedIdRaises(m: map<string, Doc>, ds: seq<Doc>, i: nat, j: nat)
    requires i < j < |ds| && ds[i].id == ds[j].id
    ensures InsertOrdered(m, ds).1
    decreases |ds|
  {
    if ds[0].id !in m {
      if i == 0 {
        assert ds[1..][j - 1] == ds[j];
        DuplicateBlocks(m[ds[0].id := ds[0]], ds[1..], ds[0].id);
      } else {
        RepeatedIdRaises(m[ds[0].id := ds[0]], ds[1..], i - 1, j - 1);
      }
    }
  }

  /** A video without captions is skipped: nothing is stored and nothing indexed. */
  lemma SkipsVideoWithoutCaptions(s: DbState, vs: seq<Video>, v: Video)
    requires v.captions == []
    ensures StoreVideosSpec(s, vs + [v]) == StoreVideosSpec(s, vs)
  {
    StoreVideosStep(s, vs, v);
  }

  /**
   * The video loop never writes the channel collection, and only adds
   * videos; so the channel document appears only when the loop completes.
   */
  lemma {:induction false} VideoLoopKeepsChannels(s: DbState, vs: seq<Video>)
    ensures StoreVideosSpec(s, vs).state.channels == s.channels
    ensures s.videos.Keys <= StoreVideosSpec(s, vs).state.videos.Keys
  {
    if vs != [] {
      VideoLoopKeepsChannels(s, vs[..|vs| - 1]);
    }
  }

  /**
   * Every indexed id is the id of a video of `vs` that has captions and
   * whose video document is stored, and no more ids are indexed than there
   * are videos.
   */
  ghost predicate IndexedSound(p: Progress, vs: seq<Video>)
  {
    && |p.indexed| <= |vs|
    && forall k :: 0 <= k < |p.indexed| ==>
         && p.indexed[k] in p.state.videos
         && exists m :: 0 <= m < |vs| && vs[m].id == p.indexed[k] && vs[m].captions != []
  }

  /** Every indexed id is a stored video that had captions, and at most `|vs|` ids are indexed. */
  lemma {:induction false} IndexedVideosHaveCaptions(s: DbState, vs: seq<Video>)
    ensures IndexedSound(StoreVideosSpec(s, vs), vs)
  {
    if vs != [] {
      var init := vs[..|vs| - 1];
      var v := vs[|vs| - 1];
      IndexedVideosHaveCaptions(s, init);
      var prev := StoreVideosSpec(s, init);
      LastSplit(vs);
      if !prev.failed && v.captions != [] {
        StepIndexesOwnId(prev.state, v);
        StepKeepsVideos(prev.state, v);
        IndexedSoundSnoc(prev, init, v, StoreVideoSpec(prev.state, v));
      } else {
        IndexedSoundKeep(prev, init, v);
      }
    }
  }

  lemma LastSplit<T>(xs: seq<T>)
    requires xs != []
    ensures xs[..|xs| - 1] + [xs[|xs| - 1]] == xs
  {
  }

  /** A video stored and indexed after the others keeps the indexed ids sound. */
  lemma IndexedSoundSnoc(prev: Progress, init: seq<Video>, v: Video, step: Progress)
    requires IndexedSound(prev, init) && v.captions != []
    requires prev.state.videos.Keys <= step.state.videos.Keys && v.id in step.state.videos
    requires step.indexed == [] || step.indexed == [v.id]
    ensures IndexedSound(Progress(step.state, prev.indexed + step.indexed, step.failed), init + [v])
  {
    var vs := init + [v];
    var indexed := prev.indexed + step.indexed;
    forall k | 0 <= k < |indexed|
      ensures exists m :: 0 <= m < |vs| && vs[m].id == indexed[k] && vs[m].captions != []
    {
      if k < |prev.indexed| {
        var m :| 0 <= m < |init| && init[m].id == prev.indexed[k] && init[m].captions != [];
        assert vs[m] == init[m];
      } else {
        assert vs[|init|] == v;
      }
    }
  }

  /** A video skipped (or after a failed write) keeps the indexed ids sound. */
  lemma IndexedSoundKeep(prev: Progress, init: seq<Video>, v: Video)
    requires IndexedSound(prev, init)
    ensures IndexedSound(prev, init + [v])
  {
    var vs := init + [v];
    forall k | 0 <= k < |prev.indexed|
      ensures prev.indexed[k] in prev.state.videos
      ensures exists m :: 0 <= m < |vs| && vs[m].id == prev.indexed[k] && vs[m].captions != []
    {
      var m :| 0 <= m < |init| && init[m].id == prev.indexed[k] && init[m].captions != [];
      assert vs[m] == init[m];
    }
  }

  /** Storing one video keeps every stored video and stores this one. */
  lemma StepKeepsVideos(st: DbState, v: Video)
    ensures st.videos.Keys <= StoreVideoSpec(st, v).state.videos.Keys
    ensures v.id in StoreVideoSpec(st, v).state.videos
  {
  }

  /** A channel whose videos have distinct ids indexes each video at most once. */
  lemma {:induction false} IndexedOncePerVideo(s: DbState, vs: seq<Video>)
    requires forall i, j :: 0 <= i < j < |vs| ==> vs[i].id != vs[j].id
    ensures var indexed := StoreVideosSpec(s, vs).indexed;
            forall i, j :: 0 <= i < j < |indexed| ==> indexed[i] != indexed[j]
  {
    if vs != [] {
      var init := vs[..|vs| - 1];
      var v := vs[|vs| - 1];
      assert forall i :: 0 <= i < |init| ==> init[i] == vs[i];
      IndexedOncePerVideo(s, init);
      var prev := StoreVideosSpec(s, init);
      if !prev.failed && v.captions != [] {
        NewIdNotIndexed(s, vs);
        StepIndexesOwnId(prev.state, v);
        DistinctSnoc(prev.indexed, StoreVideoSpec(prev.state, v).indexed, v.id);
        assert StoreVideosSpec(s, vs).indexed == prev.indexed + StoreVideoSpec(prev.state, v).indexed;
      }
    }
  }

  /** The last video's id is not among the ids indexed before it, when the ids are distinct. */
  lemma NewIdNotIndexed(s: DbState, vs: seq<Video>)
    requires vs != [] && forall i, j :: 0 <= i < j < |vs| ==> vs[i].id != vs[j].id
    ensures vs[|vs| - 1].id !in StoreVideosSpec(s, vs[..|vs| - 1]).indexed
  {
    var init := vs[..|vs| - 1];
    IndexedVideosHaveCaptions(s, init);
    var indexed := StoreVideosSpec(s, init).indexed;
    forall k | 0 <= k < |indexed|
      ensures indexed[k] != vs[|vs| - 1].id
    {
      var m :| 0 <= m < |init| && init[m].id == indexed[k];
      assert vs[m] == init[m];
    }
  }

  /** Storing one video indexes nothing or its own id. */
  lemma StepIndexesOwnId(st: DbState, v: Video)
    ensures StoreVideoSpec(st, v).indexed == [] || StoreVideoSpec(st, v).indexed == [v.id]
  {
  }

  lemma DistinctSnoc(xs: seq<string>, ys: seq<string>, y: string)
    requires forall i, j :: 0 <= i < j < |xs| ==> xs[i] != xs[j]
    requires y !in xs && (ys == [] || ys == [y])
    ensures forall i, j :: 0 <= i < j < |xs + ys| ==> (xs + ys)[i] != (xs + ys)[j]
  {
  }

  /** Every track of every caption has its document among the track documents. */
  lemma {:induction false} TrackDocsComplete(captions: seq<Caption>, i: nat, j: nat)
    requires i < |captions| && j < |captions[i].tracks|
    ensures TrackDoc(captions[i].tracks[j]) in TrackDocs(captions)
  {
    var init := captions[..|captions| - 1];
    var last := captions[|captions| - 1];
    var tail := seq(|last.tracks|, k requires 0 <= k < |last.tracks| => TrackDoc(last.tracks[k]));
    assert TrackDocs(captions) == TrackDocs(init) + tail;
    if i < |captions| - 1 {
      assert init[i] == captions[i];
      TrackDocsComplete(init, i, j);
    } else {
      assert tail[j] == TrackDoc(captions[i].tracks[j]);
    }
  }

  /** And every track document is the document of some track of some caption. */
  lemma {:induction false} TrackDocsSound(captions: seq<Caption>, d: Doc)
    requires d in TrackDocs(captions)
    ensures exists i, j :: 0 <= i < |captions| && 0 <= j < |captions[i].tracks|
                           && d == TrackDoc(captions[i].tracks[j])
  {
    var init := captions[..|captions| - 1];
    var last := captions[|captions| - 1];
    var tail := seq(|last.tracks|, k requires 0 <= k < |last.tracks| => TrackDoc(last.tracks[k]));
    assert TrackDocs(captions) == TrackDocs(init) + tail;
    assert d in TrackDocs(init) || d in tail;
    if d in tail {
      var j :| 0 <= j < |tail| && tail[j] == d;
      assert d == TrackDoc(captions[|captions| - 1].tracks[j]);
    } else {
      TrackDocsSound(init, d);
      var i, j :| 0 <= i < |init| && 0 <= j < |init[i].tracks| && d == TrackDoc(init[i].tracks[j]);
      assert init[i] == captions[i];
    }
  }
}
