/**
 * Building the general search index of one channel: the channel, video and
 * caption inner documents nest inside one flat document per track; the
 * videos are walked in key-range batches of BATCH_SIZE.
 */
module Facades {
  import opened Results
  import opened Text
  import Refine
  import Dloaders

  const BATCH_SIZE: nat := 10

  datatype ChannelInnerDoc = ChannelInnerDoc(id: string, subs: int, langCode: string)

  datatype VideoInnerDoc = VideoInnerDoc(id: string, views: int, title: string,
                                         publishDateInt: string, category: string,
                                         channel: ChannelInnerDoc)

  datatype CaptionInnerDoc = CaptionInnerDoc(id: string, isAuto: bool, langCode: string,
                                             video: VideoInnerDoc)

  /** One indexed track; `metaId` is the document id the bulk helper writes under. */
  datatype GeneralDoc = GeneralDoc(metaId: string, start: real, duration: real, content: string,
                                   prevId: Option<string>, nextId: Option<string>,
                                   context: Option<string>, caption: CaptionInnerDoc)

  // ------------------------------------------------------------------ inner documents

  /** `_build_channel_doc`: the id, the subscriber count and the language. */
  function BuildChannelDoc(channel: Refine.Channel): (d: ChannelInnerDoc)
    ensures d.id == channel.id && d.subs == channel.subs && d.langCode == channel.langCode
  {
    ChannelInnerDoc(channel.id, channel.subs, channel.langCode)
  }

  /** `"".join(publish_date.split("-"))`: the date with every `-` removed. */
  function PublishDateInt(publishDate: string): (r: string)
    ensures r == Remove(publishDate, '-')
    ensures '-' !in r
  {
    JoinEmptySplitIsRemove(publishDate, '-');
    Join(Split(publishDate, '-'), "")
  }

  /** `_build_video_doc`: the video's fields, the stripped date, and the channel doc inside. */
  function BuildVideoDoc(video: Refine.Video, channelDoc: ChannelInnerDoc): (d: VideoInnerDoc)
    ensures d.id == video.id && d.views == video.views && d.title == video.title
    ensures d.category == video.category && d.channel == channelDoc
    ensures d.publishDateInt == Remove(video.publishDate, '-')
  {
    VideoInnerDoc(video.id, video.views, video.title, PublishDateInt(video.publishDate),
                  video.category, channelDoc)
  }

  /** `_build_caption_doc`: the caption's fields and the video doc inside. */
  function BuildCaptionDoc(caption: Refine.Caption, videoDoc: VideoInnerDoc): (d: CaptionInnerDoc)
    ensures d.id == caption.id && d.isAuto == caption.isAuto && d.langCode == caption.langCode
    ensures d.video == videoDoc
  {
    CaptionInnerDoc(caption.id, caption.isAuto, caption.langCode, videoDoc)
  }

  /** The document of one track: its id as the meta id, its fields, and the caption doc. */
  function GeneralDocOf(track: Refine.Track, captionDoc: CaptionInnerDoc, hash: Refine.TupleHash)
    : (d: GeneralDoc)
    ensures d.metaId == track.Id(hash) && d.caption == captionDoc
    ensures d.start == track.start && d.duration == track.duration && d.content == track.content
    ensures d.prevId == track.prevId && d.nextId == track.nextId && d.context == track.context
  {
    GeneralDoc(track.Id(hash), track.start, track.duration, track.content, track.prevId,
               track.nextId, track.context, captionDoc)
  }

  /**
   * The tracks stored for a caption id (`TracksRaw.objects.get` followed by
   * the track extractor), or None when no raw tracks exist.
   */
  type TracksLookup = string -> Option<seq<Refine.Track>>

  /** The documents of one caption: none when it has no raw tracks, else one per track. */
  function CaptionDocs(caption: Refine.Caption, videoDoc: VideoInnerDoc, tracksOf: TracksLookup,
                       hash: Refine.TupleHash): seq<GeneralDoc>
  {
    match tracksOf(caption.id)
    case None => []
    case Some(tracks) => TrackDocs(tracks, BuildCaptionDoc(caption, videoDoc), hash)
  }

  /** The documents of a caption's tracks, in track order. */
  function TrackDocs(tracks: seq<Refine.Track>, captionDoc: CaptionInnerDoc, hash: Refine.TupleHash)
    : seq<GeneralDoc>
  {
    seq(|tracks|, j requires 0 <= j < |tracks| => GeneralDocOf(tracks[j], captionDoc, hash))
  }

  /** The documents of a list of captions, caption after caption. */
  function GeneralDocs(captions: seq<Refine.Caption>, videoDoc: VideoInnerDoc,
                       tracksOf: TracksLookup, hash: Refine.TupleHash): seq<GeneralDoc>
  {
    if captions == [] then []
    else GeneralDocs(captions[..|captions| - 1], videoDoc, tracksOf, hash)
         + CaptionDocs(captions[|captions| - 1], videoDoc, tracksOf, hash)
  }

  /** The inner loop of `_build_general_doc_dicts`: one document per track of one caption. */
  method TrackDocsOf(tracks: seq<Refine.Track>, captionDoc: CaptionInnerDoc, hash: Refine.TupleHash)
    returns (docs: seq<GeneralDoc>)
    ensures docs == TrackDocs(tracks, captionDoc, hash)
  {
    docs := [];
    for j := 0 to |tracks|
      invariant docs == TrackDocs(tracks[..j], captionDoc, hash)
    {
      docs := docs + [GeneralDocOf(tracks[j], captionDoc, hash)];
    }
    assert tracks[..|tracks|] == tracks;
  }

  /** `_build_general_doc_dicts`: the generator, collected into a list. */
  method BuildGeneralDocDicts(captions: seq<Refine.Caption>, videoDoc: VideoInnerDoc,
                              tracksOf: TracksLookup, hash: Refine.TupleHash)
    returns (docs: seq<GeneralDoc>)
    ensures docs == GeneralDocs(captions, videoDoc, tracksOf, hash)
  {
    docs := [];
    for capIdx := 0 to |captions|
      invariant docs == GeneralDocs(captions[..capIdx], videoDoc, tracksOf, hash)
    {
      var caption := captions[capIdx];
      GeneralDocsSnoc(captions, capIdx, videoDoc, tracksOf, hash);
      var captionDoc := BuildCaptionDoc(caption, videoDoc);
      var tracksRaw := tracksOf(caption.id);
      if tracksRaw.None? {
        continue;
      }
      var trackDocs := TrackDocsOf(tracksRaw.value, captionDoc, hash);
      docs := docs + trackDocs;
    }
    assert captions[..|captions|] == captions;
  }

  // ------------------------------------------------------------------ key-range batches

  /**
   * The keys of an ordered key list greater than the cursor
   * (`filter(pk__gt=cursor)`); no cursor keeps them all.
   */
  function Above(keys: seq<string>, cursor: Option<string>): (r: seq<string>)
    ensures |r| <= |keys|
  {
    if keys == [] then []
    else (if cursor.None? || Lt(cursor.value, keys[0]) then [keys[0]] else [])
         + Above(keys[1..], cursor)
  }

  /** The keys not greater than `end` (`filter(pk__lte=end)`). */
  function UpTo(keys: seq<string>, end: string): seq<string>
  {
    if keys == [] then []
    else (if keys[0] == end || Lt(keys[0], end) then [keys[0]] else []) + UpTo(keys[1..], end)
  }

  /** `order_by('pk')` over distinct primary keys. */
  predicate StrictlySorted(keys: seq<string>)
  {
    forall i, j :: 0 <= i < j < |keys| ==> Lt(keys[i], keys[j])
  }

  /** The chunks, one after the other. */
  function Concat(chunks: seq<seq<string>>): seq<string>
  {
    if chunks == [] then [] else Concat(chunks[..|chunks| - 1]) + chunks[|chunks| - 1]
  }

  /** Every chunk holds 1 to BATCH_SIZE keys, and every chunk but the last exactly BATCH_SIZE. */
  predicate WellSized(chunks: seq<seq<string>>)
  {
    && (forall k :: 0 <= k < |chunks| ==> 1 <= |chunks[k]| <= BATCH_SIZE)
    && (forall k :: 0 <= k < |chunks| - 1 ==> |chunks[k]| == BATCH_SIZE)
  }

  /**
   * The loop of `_batched_queryset`, from the cursor `start`: each round
   * takes the keys above the cursor, ends the chunk at the BATCH_SIZE-th of
   * them (or at the last key of the whole list when fewer are left), and
   * moves the cursor to that end.
   */
  method Batched(keys: seq<string>, start: Option<string>) returns (chunks: seq<seq<string>>)
    requires StrictlySorted(keys)
    ensures Concat(chunks) == Above(keys, start)
    ensures WellSized(chunks)
  {
    var startPk := start;
    ghost var i := FirstAbove(keys, start);
    SortedCursorFacts(keys);
    chunks := [];
    while true
      invariant 0 <= i <= |keys|
      invariant Above(keys, startPk) == keys[i..]
      invariant Concat(chunks) + keys[i..] == Above(keys, start)
      invariant WellSized(chunks)
      invariant i < |keys| && |chunks| > 0 ==> |chunks[|chunks| - 1]| == BATCH_SIZE
      decreases |keys| - i
    {
      if Above(keys, startPk) == [] {
        assert Concat(chunks) + [] == Concat(chunks);
        break;
      }
      chunks, startPk, i := NextChunk(keys, start, chunks, i, startPk);
    }
  }

  /** The keys of `keys[i..]` up to the key at `p`. */
  ghost function ChunkTo(keys: seq<string>, i: nat, p: nat): seq<string>
    requires i <= p < |keys|
  {
    UpTo(keys[i..], keys[p])
  }

  /** The keys above the key at `p`. */
  ghost function After(keys: seq<string>, p: nat): seq<string>
    requires p < |keys|
  {
    Above(keys, Some(keys[p]))
  }

  /** What the loop needs of sorted keys: a chunk's end key bounds the chunk and moves the cursor past it. */
  ghost predicate CursorFacts(keys: seq<string>)
  {
    && (forall p: nat :: p < |keys| ==> After(keys, p) == keys[p + 1..])
    && (forall i: nat, p: nat :: i <= p < |keys| ==> ChunkTo(keys, i, p) == keys[i..p + 1])
  }

  lemma SortedCursorFacts(keys: seq<string>)
    requires StrictlySorted(keys)
    ensures CursorFacts(keys)
  {
    forall p: nat | p < |keys|
      ensures After(keys, p) == keys[p + 1..]
    {
      AboveAt(keys, p);
    }
    forall i: nat, p: nat | i <= p < |keys|
      ensures ChunkTo(keys, i, p) == keys[i..p + 1]
    {
      UpToAt(keys, i, p);
    }
  }

  /**
   * One round of the loop of `_batched_queryset`: the chunk from the keys
   * above the cursor up to the end key, and the cursor moved to the end key.
   */
  method NextChunk(keys: seq<string>, ghost start: Option<string>, chunks: seq<seq<string>>,
                   ghost i: nat, startPk: Option<string>)
    returns (chunks': seq<seq<string>>, startPk': Option<string>, ghost i': nat)
    requires CursorFacts(keys) && i < |keys|
    requires Above(keys, startPk) == keys[i..]
    requires Concat(chunks) + keys[i..] == Above(keys, start)
    requires WellSized(chunks)
    requires |chunks| > 0 ==> |chunks[|chunks| - 1]| == BATCH_SIZE
    ensures i < i' <= |keys|
    ensures Above(keys, startPk') == keys[i'..]
    ensures Concat(chunks') + keys[i'..] == Above(keys, start)
    ensures WellSized(chunks')
    ensures i' < |keys| && |chunks'| > 0 ==> |chunks'[|chunks'| - 1]| == BATCH_SIZE
  {
    var rest := Above(keys, startPk);
    var endPk: string;
    ghost var p: nat;
    if |rest| >= BATCH_SIZE {
      endPk := rest[BATCH_SIZE - 1];
      p := i + BATCH_SIZE - 1;
    } else {
      endPk := keys[|keys| - 1];
      p := |keys| - 1;
    }
    assert i <= p < |keys| && endPk == keys[p];
    assert |rest| >= BATCH_SIZE ==> p + 1 - i == BATCH_SIZE;
    assert |rest| < BATCH_SIZE ==> p + 1 == |keys|;
    var chunk := UpTo(rest, endPk);
    RoundStep(keys, start, chunks, i, p, startPk, rest, endPk);
    chunks' := chunks + [chunk];
    startPk' := Some(endPk);
    i' := p + 1;
  }

  /** What one round keeps: the chunk is the next keys in order, and the cursor moves past it. */
  lemma RoundStep(keys: seq<string>, start: Option<string>, chunks: seq<seq<string>>, i: nat, p: nat,
                  startPk: Option<string>, rest: seq<string>, endPk: string)
    requires CursorFacts(keys) && i <= p < |keys| && endPk == keys[p]
    requires rest == Above(keys, startPk) == keys[i..]
    requires Concat(chunks) + keys[i..] == Above(keys, start)
    requires WellSized(chunks)
    requires |chunks| > 0 ==> |chunks[|chunks| - 1]| == BATCH_SIZE
    requires p + 1 - i <= BATCH_SIZE
    requires p + 1 - i == BATCH_SIZE || p + 1 == |keys|
    ensures Above(keys, Some(endPk)) == keys[p + 1..]
    ensures Concat(chunks + [UpTo(rest, endPk)]) + keys[p + 1..] == Above(keys, start)
    ensures WellSized(chunks + [UpTo(rest, endPk)])
    ensures p + 1 < |keys| ==> |UpTo(rest, endPk)| == BATCH_SIZE
  {
    CursorStep(keys, i, p, startPk);
    ChunkStep(keys, start, chunks, i, p);
    WellSizedStep(chunks, keys[i..p + 1]);
  }

  /** The chunk ending at the key at `p` and the cursor moved to that key. */
  lemma CursorStep(keys: seq<string>, i: nat, p: nat, startPk: Option<string>)
    requires CursorFacts(keys) && i <= p < |keys|
    requires Above(keys, startPk) == keys[i..]
    ensures UpTo(Above(keys, startPk), keys[p]) == keys[i..p + 1]
    ensures Above(keys, Some(keys[p])) == keys[p + 1..]
  {
    assert ChunkTo(keys, i, p) == keys[i..p + 1];
    assert After(keys, p) == keys[p + 1..];
  }

  /** One round of the loop: the chunk `keys[i..p+1]` moves from the rest to the chunks. */
  lemma ChunkStep(keys: seq<string>, start: Option<string>, chunks: seq<seq<string>>, i: nat, p: nat)
    requires i <= p < |keys|
    requires Concat(chunks) + keys[i..] == Above(keys, start)
    ensures Concat(chunks + [keys[i..p + 1]]) + keys[p + 1..] == Above(keys, start)
  {
    assert (chunks + [keys[i..p + 1]])[..|chunks|] == chunks;
    assert keys[i..] == keys[i..p + 1] + keys[p + 1..];
  }

  lemma WellSizedStep(chunks: seq<seq<string>>, chunk: seq<string>)
    requires WellSized(chunks) && 1 <= |chunk| <= BATCH_SIZE
    requires |chunks| > 0 ==> |chunks[|chunks| - 1]| == BATCH_SIZE
    ensures WellSized(chunks + [chunk])
  {
  }

  /** `_batched_queryset` as written: the cursor starts at `0`, which a string key compares as "0". */
  method BatchedQuerysetAsWritten(keys: seq<string>) returns (chunks: seq<seq<string>>)
    requires StrictlySorted(keys)
    ensures Concat(chunks) == Above(keys, Some("0"))
    ensures WellSized(chunks)
  {
    chunks := Batched(keys, Some("0"));
  }

  /** `_batched_queryset` with no initial cursor: the chunks partition the whole key list. */
  method BatchedQueryset(keys: seq<string>) returns (chunks: seq<seq<string>>)
    requires StrictlySorted(keys)
    ensures Concat(chunks) == keys
    ensures WellSized(chunks)
  {
    chunks := Batched(keys, None);
    AboveNone(keys);
  }

  // ------------------------------------------------------------------ one channel

  /** The documents of one video: its captions' documents, nesting its video doc. */
  function VideoDocs(key: string, channelDoc: ChannelInnerDoc, videoOf: string -> Refine.Video,
                     captionsOf: string -> seq<Refine.Caption>, tracksOf: TracksLookup,
                     hash: Refine.TupleHash): seq<GeneralDoc>
  {
    GeneralDocs(captionsOf(key), BuildVideoDoc(videoOf(key), channelDoc), tracksOf, hash)
  }

  /** The documents of the videos with the given keys, one list per video, in key order. */
  function VideosDocs(keys: seq<string>, channelDoc: ChannelInnerDoc,
                      videoOf: string -> Refine.Video,
                      captionsOf: string -> seq<Refine.Caption>,
                      tracksOf: TracksLookup, hash: Refine.TupleHash): seq<seq<GeneralDoc>>
  {
    seq(|keys|, k requires 0 <= k < |keys| =>
      VideoDocs(keys[k], channelDoc, videoOf, captionsOf, tracksOf, hash))
  }

  /**
   * Progress messages `from + 1` to `from + n`, out of `total`: after the
   * `k`-th video of the whole walk, `k` videos are reported saved.
   */
  function Progress(from: nat, n: nat, total: nat): (r: seq<(nat, nat)>)
    ensures |r| == n
    ensures forall k :: 0 <= k < n ==> r[k] == (from + k + 1, total)
  {
    seq(n, k requires 0 <= k < n => (from + k + 1, total))
  }

  /**
   * `exec` for one channel, after the old documents are deleted: the videos,
   * batch by batch, each sent to the bulk helper as its own list of documents,
   * and the progress message `(vid_saved, vid_cnt)` logged after each.
   * `videoOf` and `captionsOf` stand for the video and caption extractors.
   * As written, the walk starts at the cursor `0`, so only the keys above "0"
   * are sent, while `vid_cnt` counts every video of the channel.
   */
  method Exec(channel: Refine.Channel, keys: seq<string>, videoOf: string -> Refine.Video,
              captionsOf: string -> seq<Refine.Caption>, tracksOf: TracksLookup,
              hash: Refine.TupleHash)
    returns (sent: seq<seq<GeneralDoc>>, progress: seq<(nat, nat)>)
    requires StrictlySorted(keys)
    ensures sent == VideosDocs(Above(keys, Some("0")), BuildChannelDoc(channel), videoOf, captionsOf,
                               tracksOf, hash)
    ensures progress == Progress(0, |Above(keys, Some("0"))|, |keys|)
  {
    var channelDoc := BuildChannelDoc(channel);
    var batches := BatchedQuerysetAsWritten(keys);
    sent, progress := SendBatches(batches, |keys|, channelDoc, videoOf, captionsOf, tracksOf, hash);
  }

  /** `exec` over the corrected walk, which starts below every key: every video is sent, in key order. */
  method ExecCorrected(channel: Refine.Channel, keys: seq<string>, videoOf: string -> Refine.Video,
                       captionsOf: string -> seq<Refine.Caption>, tracksOf: TracksLookup,
                       hash: Refine.TupleHash)
    returns (sent: seq<seq<GeneralDoc>>, progress: seq<(nat, nat)>)
    requires StrictlySorted(keys)
    ensures sent == VideosDocs(keys, BuildChannelDoc(channel), videoOf, captionsOf, tracksOf, hash)
    ensures progress == Progress(0, |keys|, |keys|)
  {
    var channelDoc := BuildChannelDoc(channel);
    var batches := BatchedQueryset(keys);
    sent, progress := SendBatches(batches, |keys|, channelDoc, videoOf, captionsOf, tracksOf, hash);
  }

  /** The outer loop of `exec`: the batches in order, `vid_saved` counting across them. */
  method SendBatches(batches: seq<seq<string>>, vidCnt: nat, channelDoc: ChannelInnerDoc,
                     videoOf: string -> Refine.Video, captionsOf: string -> seq<Refine.Caption>,
                     tracksOf: TracksLookup, hash: Refine.TupleHash)
    returns (sent: seq<seq<GeneralDoc>>, progress: seq<(nat, nat)>)
    requires WellSized(batches)
    ensures sent == VideosDocs(Concat(batches), channelDoc, videoOf, captionsOf, tracksOf, hash)
    ensures progress == Progress(0, |Concat(batches)|, vidCnt)
  {
    sent := [];
    progress := [];
    for batchIdx := 0 to |batches|
      invariant sent == VideosDocs(Concat(batches[..batchIdx]), channelDoc, videoOf, captionsOf,
                                   tracksOf, hash)
      invariant progress == Progress(0, |Concat(batches[..batchIdx])|, vidCnt)
    {
      ghost var done := Concat(batches[..batchIdx]);
      ConcatFullLength(batches, batchIdx);
      var batchSent, batchProgress := SendBatch(batches[batchIdx], batchIdx, vidCnt, channelDoc,
                                                videoOf, captionsOf, tracksOf, hash);
      VideosDocsAppend(done, batches[batchIdx], channelDoc, videoOf, captionsOf, tracksOf, hash);
      ProgressAppend(0, |done|, |batches[batchIdx]|, vidCnt);
      sent := sent + batchSent;
      progress := progress + batchProgress;
      assert batches[..batchIdx + 1][..batchIdx] == batches[..batchIdx];
    }
    assert batches[..|batches|] == batches;
  }

  /** The inner loop of `exec`: the videos of batch `batchIdx`. */
  method SendBatch(batch: seq<string>, batchIdx: nat, vidCnt: nat, channelDoc: ChannelInnerDoc,
                   videoOf: string -> Refine.Video, captionsOf: string -> seq<Refine.Caption>,
                   tracksOf: TracksLookup, hash: Refine.TupleHash)
    returns (sent: seq<seq<GeneralDoc>>, progress: seq<(nat, nat)>)
    ensures sent == VideosDocs(batch, channelDoc, videoOf, captionsOf, tracksOf, hash)
    ensures progress == Progress(batchIdx * BATCH_SIZE, |batch|, vidCnt)
  {
    sent, progress := [], [];
    for vidIdx := 0 to |batch|
      invariant sent == VideosDocs(batch[..vidIdx], channelDoc, videoOf, captionsOf, tracksOf, hash)
      invariant progress == Progress(batchIdx * BATCH_SIZE, vidIdx, vidCnt)
    {
      var key := batch[vidIdx];
      var video := videoOf(key);
      var videoDoc := BuildVideoDoc(video, channelDoc);
      var captions := captionsOf(key);
      var docs := BuildGeneralDocDicts(captions, videoDoc, tracksOf, hash);
      assert batch[..vidIdx + 1] == batch[..vidIdx] + [key];
      VideosDocsAppend(batch[..vidIdx], [key], channelDoc, videoOf, captionsOf, tracksOf, hash);
      sent := sent + [docs];
      var vidSaved := batchIdx * BATCH_SIZE + (vidIdx + 1);
      ProgressAppend(batchIdx * BATCH_SIZE, vidIdx, 1, vidCnt);
      progress := progress + [(vidSaved, vidCnt)];
    }
    assert batch[..|batch|] == batch;
  }

  // ------------------------------------------------------------------ lemmas

  lemma VideosDocsAppend(a: seq<string>, b: seq<string>, channelDoc: ChannelInnerDoc,
                         videoOf: string -> Refine.Video, captionsOf: string -> seq<Refine.Caption>,
                         tracksOf: TracksLookup, hash: Refine.TupleHash)
    ensures VideosDocs(a + b, channelDoc, videoOf, captionsOf, tracksOf, hash)
            == VideosDocs(a, channelDoc, videoOf, captionsOf, tracksOf, hash)
               + VideosDocs(b, channelDoc, videoOf, captionsOf, tracksOf, hash)
  {
  }

  lemma ProgressAppend(from: nat, n: nat, m: nat, total: nat)
    ensures Progress(from, n + m, total) == Progress(from, n, total) + Progress(from + n, m, total)
  {
  }

  /** Before batch `b`, exactly `b` full batches have gone by. */
  lemma {:induction false} ConcatFullLength(chunks: seq<seq<string>>, b: nat)
    requires WellSized(chunks) && b < |chunks|
    ensures |Concat(chunks[..b])| == b * BATCH_SIZE
  {
    if b > 0 {
      ConcatFullLength(chunks, b - 1);
      assert chunks[..b][..b - 1] == chunks[..b - 1];
    }
  }

  /**
   * Applied to a date the current downloader formatted from "YYYYMMDD",
   * stripping the dashes gives back the eight characters.
   */
  lemma PublishDateRoundTrip(d: string)
    requires |d| == 8 && '-' !in d
    ensures PublishDateInt(Dloaders.FormatUploadDate(d)) == d
  {
    var a, b, c := d[..4], d[4..6], d[6..];
    assert Dloaders.FormatUploadDate(d) == a + "-" + b + "-" + c;
    RemoveAroundSeparator(a + "-" + b, c, '-');
    RemoveAroundSeparator(a, b, '-');
    RemoveAbsent(a, '-');
    RemoveAbsent(b, '-');
    RemoveAbsent(c, '-');
    assert a + (b + c) == d;
  }

  /** Every document nests its caption's video doc, which nests the channel doc. */
  lemma {:induction false} GeneralDocsNested(captions: seq<Refine.Caption>, videoDoc: VideoInnerDoc,
                                             tracksOf: TracksLookup, hash: Refine.TupleHash)
    ensures forall d :: d in GeneralDocs(captions, videoDoc, tracksOf, hash) ==>
              d.caption.video == videoDoc && d.caption.video.channel == videoDoc.channel
    ensures forall d :: d in GeneralDocs(captions, videoDoc, tracksOf, hash) ==>
              exists c :: c in captions && tracksOf(c.id).Some? && d.caption == BuildCaptionDoc(c, videoDoc)
  {
    if captions != [] {
      var init, last := captions[..|captions| - 1], captions[|captions| - 1];
      GeneralDocsNested(init, videoDoc, tracksOf, hash);
      forall d | d in GeneralDocs(captions, videoDoc, tracksOf, hash)
        ensures exists c :: c in captions && tracksOf(c.id).Some? && d.caption == BuildCaptionDoc(c, videoDoc)
      {
        if d in GeneralDocs(init, videoDoc, tracksOf, hash) {
          var c :| c in init && tracksOf(c.id).Some? && d.caption == BuildCaptionDoc(c, videoDoc);
          assert c in captions;
        } else {
          assert d in CaptionDocs(last, videoDoc, tracksOf, hash);
          assert last in captions;
        }
      }
    }
  }

  /** A caption with no raw tracks contributes nothing. */
  lemma SkipsCaptionWithoutTracks(captions: seq<Refine.Caption>, c: Refine.Caption,
                                  videoDoc: VideoInnerDoc, tracksOf: TracksLookup,
                                  hash: Refine.TupleHash)
    requires tracksOf(c.id).None?
    ensures GeneralDocs(captions + [c], videoDoc, tracksOf, hash)
            == GeneralDocs(captions, videoDoc, tracksOf, hash)
  {
    assert (captions + [c])[..|captions|] == captions;
  }

  /** The number of documents before the captions from index `i` on: the earlier captions' tracks. */
  function Offset(captions: seq<Refine.Caption>, tracksOf: TracksLookup): nat
  {
    if captions == [] then 0
    else
      var last := captions[|captions| - 1];
      Offset(captions[..|captions| - 1], tracksOf)
      + (if tracksOf(last.id).Some? then |tracksOf(last.id).value| else 0)
  }

  lemma {:induction false} GeneralDocsLength(captions: seq<Refine.Caption>, videoDoc: VideoInnerDoc,
                                             tracksOf: TracksLookup, hash: Refine.TupleHash)
    ensures |GeneralDocs(captions, videoDoc, tracksOf, hash)| == Offset(captions, tracksOf)
  {
    if captions != [] {
      GeneralDocsLength(captions[..|captions| - 1], videoDoc, tracksOf, hash);
    }
  }

  /** One more caption appends its documents. */
  lemma GeneralDocsSnoc(captions: seq<Refine.Caption>, k: nat, videoDoc: VideoInnerDoc,
                        tracksOf: TracksLookup, hash: Refine.TupleHash)
    requires k < |captions|
    ensures GeneralDocs(captions[..k + 1], videoDoc, tracksOf, hash)
            == GeneralDocs(captions[..k], videoDoc, tracksOf, hash)
               + CaptionDocs(captions[k], videoDoc, tracksOf, hash)
  {
    assert captions[..k + 1][..k] == captions[..k];
  }

  /** The documents of two lists of captions one after the other. */
  lemma {:induction false} GeneralDocsAppend(a: seq<Refine.Caption>, b: seq<Refine.Caption>,
                                             videoDoc: VideoInnerDoc, tracksOf: TracksLookup,
                                             hash: Refine.TupleHash)
    ensures GeneralDocs(a + b, videoDoc, tracksOf, hash)
            == GeneralDocs(a, videoDoc, tracksOf, hash) + GeneralDocs(b, videoDoc, tracksOf, hash)
    decreases |b|
  {
    if b == [] {
      assert a + b == a;
    } else {
      var init, last := b[..|b| - 1], b[|b| - 1];
      GeneralDocsAppend(a, init, videoDoc, tracksOf, hash);
      var ga, gi := GeneralDocs(a, videoDoc, tracksOf, hash), GeneralDocs(init, videoDoc, tracksOf, hash);
      var cd := CaptionDocs(last, videoDoc, tracksOf, hash);
      assert GeneralDocs(a + b, videoDoc, tracksOf, hash) == (ga + gi) + cd by {
        assert (a + b)[..|a + b| - 1] == a + init;
        assert (a + b)[|a + b| - 1] == last;
      }
      AppendAssoc(ga, gi, cd);
    }
  }

  lemma SplitAt<T>(s: seq<T>, i: nat)
    requires i <= |s|
    ensures s[..i] + s[i..] == s
  {
  }

  lemma GeneralDocsSingle(c: Refine.Caption, videoDoc: VideoInnerDoc, tracksOf: TracksLookup,
                          hash: Refine.TupleHash)
    ensures GeneralDocs([c], videoDoc, tracksOf, hash) == CaptionDocs(c, videoDoc, tracksOf, hash)
  {
    assert [c][..0] == [];
    assert [] + CaptionDocs(c, videoDoc, tracksOf, hash) == CaptionDocs(c, videoDoc, tracksOf, hash);
  }

  lemma ConsAt<T>(s: seq<T>, i: nat)
    requires i < |s|
    ensures [s[i]] + s[i + 1..] == s[i..]
  {
  }

  lemma AppendAssoc<T>(x: seq<T>, y: seq<T>, z: seq<T>)
    ensures (x + y) + z == x + (y + z)
  {
  }

  /**
   * Caption order: the documents of caption `i` come after those of every
   * caption before it and before those of every caption after it.
   */
  lemma GeneralDocsOrder(captions: seq<Refine.Caption>, videoDoc: VideoInnerDoc,
                         tracksOf: TracksLookup, hash: Refine.TupleHash, i: nat)
    requires i < |captions|
    ensures GeneralDocs(captions, videoDoc, tracksOf, hash)
            == GeneralDocs(captions[..i], videoDoc, tracksOf, hash)
               + CaptionDocs(captions[i], videoDoc, tracksOf, hash)
               + GeneralDocs(captions[i + 1..], videoDoc, tracksOf, hash)
  {
    var c := captions[i];
    var pre, post := GeneralDocs(captions[..i], videoDoc, tracksOf, hash),
                     GeneralDocs(captions[i + 1..], videoDoc, tracksOf, hash);
    var own := CaptionDocs(c, videoDoc, tracksOf, hash);
    assert GeneralDocs(captions, videoDoc, tracksOf, hash)
           == pre + GeneralDocs(captions[i..], videoDoc, tracksOf, hash) by {
      GeneralDocsAppend(captions[..i], captions[i..], videoDoc, tracksOf, hash);
      SplitAt(captions, i);
    }
    assert GeneralDocs(captions[i..], videoDoc, tracksOf, hash) == own + post by {
      GeneralDocsAppend([c], captions[i + 1..], videoDoc, tracksOf, hash);
      ConsAt(captions, i);
      GeneralDocsSingle(c, videoDoc, tracksOf, hash);
    }
    AppendAssoc(pre, own, post);
  }

  /** Track order: document `j` of a caption with raw tracks is the document of its track `j`. */
  lemma CaptionDocsAt(caption: Refine.Caption, videoDoc: VideoInnerDoc, tracksOf: TracksLookup,
                      hash: Refine.TupleHash, j: nat)
    requires tracksOf(caption.id).Some? && j < |tracksOf(caption.id).value|
    ensures j < |CaptionDocs(caption, videoDoc, tracksOf, hash)|
    ensures CaptionDocs(caption, videoDoc, tracksOf, hash)[j]
            == GeneralDocOf(tracksOf(caption.id).value[j], BuildCaptionDoc(caption, videoDoc), hash)
  {
  }

  lemma {:induction false} AboveNone(keys: seq<string>)
    ensures Above(keys, None) == keys
  {
    if keys != [] {
      AboveNone(keys[1..]);
      assert [keys[0]] + keys[1..] == keys;
    }
  }

  /** Keys that fail the filter up to position `m` and pass it from there on leave the suffix. */
  lemma {:induction false} AboveSplit(keys: seq<string>, c: string, m: nat)
    requires m <= |keys|
    requires forall j :: 0 <= j < m ==> !Lt(c, keys[j])
    requires forall j :: m <= j < |keys| ==> Lt(c, keys[j])
    ensures Above(keys, Some(c)) == keys[m..]
  {
    if keys != [] {
      if m == 0 {
        AboveSplit(keys[1..], c, 0);
        assert [keys[0]] + keys[1..] == keys;
      } else {
        AboveSplit(keys[1..], c, m - 1);
        assert keys[1..][m - 1..] == keys[m..];
      }
    }
  }

  lemma {:induction false} UpToSplit(keys: seq<string>, e: string, m: nat)
    requires m <= |keys|
    requires forall j :: 0 <= j < m ==> keys[j] == e || Lt(keys[j], e)
    requires forall j :: m <= j < |keys| ==> !(keys[j] == e || Lt(keys[j], e))
    ensures UpTo(keys, e) == keys[..m]
  {
    if keys != [] {
      if m == 0 {
        UpToSplit(keys[1..], e, 0);
      } else {
        UpToSplit(keys[1..], e, m - 1);
        assert [keys[0]] + keys[1..][..m - 1] == keys[..m];
      }
    }
  }

  /** Over sorted keys, the cursor `keys[p]` leaves exactly the keys after position `p`. */
  lemma AboveAt(keys: seq<string>, p: nat)
    requires StrictlySorted(keys) && p < |keys|
    ensures Above(keys, Some(keys[p])) == keys[p + 1..]
  {
    forall j | 0 <= j < p + 1
      ensures !Lt(keys[p], keys[j])
    {
      if j < p {
        LtAsymmetric(keys[j], keys[p]);
      } else {
        LtIrreflexive(keys[p]);
      }
    }
    AboveSplit(keys, keys[p], p + 1);
  }

  /** Over sorted keys, the keys from position `i` up to `keys[p]` are `keys[i..p+1]`. */
  lemma UpToAt(keys: seq<string>, i: nat, p: nat)
    requires StrictlySorted(keys) && i <= p < |keys|
    ensures UpTo(keys[i..], keys[p]) == keys[i..p + 1]
  {
    var s := keys[i..];
    forall j | p - i + 1 <= j < |s|
      ensures !(s[j] == keys[p] || Lt(s[j], keys[p]))
    {
      assert Lt(keys[p], s[j]);
      LtIrreflexive(keys[p]);
      LtAsymmetric(keys[p], s[j]);
    }
    UpToSplit(s, keys[p], p - i + 1);
  }

  /** Over sorted keys, the keys above any cursor form a suffix. */
  lemma FirstAbove(keys: seq<string>, start: Option<string>) returns (i: nat)
    requires StrictlySorted(keys)
    ensures i <= |keys| && Above(keys, start) == keys[i..]
  {
    if start.None? {
      AboveNone(keys);
      return 0;
    }
    var c := start.value;
    i := 0;
    while i < |keys| && !Lt(c, keys[i])
      invariant i <= |keys|
      invariant forall j :: 0 <= j < i ==> !Lt(c, keys[j])
    {
      i := i + 1;
    }
    forall j | i <= j < |keys|
      ensures Lt(c, keys[j])
    {
      if j > i {
        LtTransitive(c, keys[i], keys[j]);
      }
    }
    AboveSplit(keys, c, i);
  }

  lemma {:induction false} AboveOnlyGreater(keys: seq<string>, c: string, k: string)
    requires k in Above(keys, Some(c))
    ensures Lt(c, k)
  {
    if keys != [] {
      var head := if Lt(c, keys[0]) then [keys[0]] else [];
      assert Above(keys, Some(c)) == head + Above(keys[1..], Some(c));
      if k !in head {
        AboveOnlyGreater(keys[1..], c, k);
      }
    }
  }

  /**
   * As written, a key starting with `-` (a legal YouTube id character that
   * sorts before `0`) is never above the initial cursor, so no chunk holds it.
   */
  lemma AsWrittenSkipsDashKeys(keys: seq<string>, k: string)
    requires k in keys && |k| > 0 && k[0] == '-'
    ensures k !in Above(keys, Some("0"))
  {
    if k in Above(keys, Some("0")) {
      AboveOnlyGreater(keys, "0", k);
      assert false;
    }
  }

  /** A key of the list that the filter drops makes the filtered list strictly shorter. */
  lemma {:induction false} AboveDropsMissing(keys: seq<string>, c: Option<string>, k: string)
    requires k in keys && k !in Above(keys, c)
    ensures |Above(keys, c)| < |keys|
  {
    var head := if c.None? || Lt(c.value, keys[0]) then [keys[0]] else [];
    assert Above(keys, c) == head + Above(keys[1..], c);
    if keys[0] != k {
      AboveDropsMissing(keys[1..], c, k);
    }
  }

  /**
   * As written, a channel holding a video whose key starts with `-` never
   * reports all its videos saved: the last progress message counts fewer
   * than `vid_cnt`.
   */
  lemma ExecFallsShort(keys: seq<string>, k: string)
    requires k in keys && |k| > 0 && k[0] == '-'
    ensures var progress := Progress(0, |Above(keys, Some("0"))|, |keys|);
            progress == [] || progress[|progress| - 1].0 < progress[|progress| - 1].1
  {
    AsWrittenSkipsDashKeys(keys, k);
    AboveDropsMissing(keys, Some("0"), k);
  }

  /** With no initial cursor, every key is in exactly one chunk, once. */
  lemma {:induction false} ConcatMember(chunks: seq<seq<string>>, k: string)
    requires k in Concat(chunks)
    ensures exists b :: 0 <= b < |chunks| && k in chunks[b]
  {
    var init := chunks[..|chunks| - 1];
    if k !in chunks[|chunks| - 1] {
      ConcatMember(init, k);
      var b :| 0 <= b < |init| && k in init[b];
      assert chunks[b] == init[b];
    }
  }
}
