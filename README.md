# YouTora2 caption pipeline, modelled in Dafny

YouTora2 collects the captions of YouTube videos, stores them, indexes every
caption line ("track") for full-text search, and assembles search results.
This project models the core of that pipeline and proves what it promises:

- **Caption resolution and timed-text decoding** (`dloaders.dfy`, module
  `Dloaders`; the older version in `downloaders.dfy`, module `Downloaders`).
  A caption URL is looked up per type (`manual`, `auto`) and language. The
  caption key is `vid|type|lang`. Each transcript segment becomes a track keyed
  `caption_key|index`, with a missing duration read as 0.0 and missing text
  as "". Per language, the manual caption wins, and the automatic one is
  taken only when the manual one is not found.
- **Records** (`models.dfy`, module `Models`; `refine.dfy`, module `Refine`).
  URLs are derived from ids, and caption type and language are read back from
  the key. The refined track id is `caption_id|str(hash)`. The track setters
  change one field each. `Definition` and `Meaning` have a dictionary form.
- **Store with overwrite** (`store.dfy`, module `YoutoraStore`). Four
  collections (channels, videos, captions, tracks) are keyed by `_id`. A
  duplicate insert is turned into delete-then-reinsert. The store loop skips
  videos without captions and writes the channel last.
- **Index documents and batching** (`facades.dfy`, module `Facades`). The
  flat per-track search documents nest the caption, video and channel
  documents. The primary keys are walked in chunks of `BATCH_SIZE`, and
  progress is reported per video.
- **Search results** (`extractors.dfy`, module `Extractors`). Each hit
  becomes its track, with the previous and next tracks fetched by id when
  the hit names them.

Shared pieces: `results.dfy` (`Option`, `Result`, the exceptions the source
raises, Python truthiness), `text.dfy` (Python's `split`, `join` and
`str(int)`, clamped slicing, string order) and `payloads.dfy` (what
youtube_dl and the timed-text service deliver).

Everything outside the program is a parameter, never a call:

- the network fetch: `fetch: string -> Fetched`;
- youtube_dl's info dictionary: `VideoInfo`;
- the Django and Elasticsearch lookups: `tracksOf`, `videoOf`, `captionsOf`, `lookup`;
- Python's randomised `hash`: `TupleHash`;
- the iteration order of a Python set: `langs`.

Where the source relies on the order of an operation, or on a state that it
changes, the model keeps that order or state. Examples are the collection
classes in `store.dfy`, the loops of `Batched`, `Exec`, `DlTracks`, `DlVideo`
and `Parse`, and the track object whose setters update it in place. Each
such method is proved against a specification function, and the properties
are lemmas about those functions.

## Model

| member | source | states |
|---|---|---|
| Payloads.LookupUrl | src/youtube/dload/dloaders.py:168-176 | a language absent from the index gives the initial None URL; a present one gives the `url` entry of its srv1 format, IndexError when the format list is too short and KeyError("url") when the entry has no `url` key |
| Dloaders.CaptionKey | src/youtube/dload/dloaders.py:188 | the caption key is exactly the video id, the caption type and the language code joined by the bar character |
| Dloaders.TrackKey | src/youtube/dload/dloaders.py:274 | the track key is the caption key, the bar character and `str(idx)` |
| Dloaders.FormatUploadDate | src/youtube/dload/dloaders.py:60-63 | an 8-character "YYYYMMDD" becomes 10 characters "YYYY-MM-DD", with dashes at 4 and 7 and the three slices kept |
| Dloaders.DlTracks | src/youtube/dload/dloaders.py:201-277 | the loop returns what the transcript specification gives: HttpError for a failed fetch, one track per segment in order, KeyError for a missing `@start` |
| Dloaders.DlCaption | src/youtube/dload/dloaders.py:142-198 | an unknown type raises ValueError; a returned caption has the bar-joined key of video, type and language, the video id, the looked-up non-empty URL and the tracks decoded from it |
| Dloaders.DlCaptionOutcome | src/youtube/dload/dloaders.py:160-198 | a URL lookup error propagates; with a URL, the caption is returned exactly when its tracks download and decode, and a fetch or decode error propagates |
| Dloaders.DlVideo | src/youtube/dload/dloaders.py:44-122 | the caption-collection loop returns the video the per-language rule gives, with the reformatted date and the first category; no category raises IndexError |
| Dloaders.DecodeSingle | src/youtube/dload/dloaders.py:229-253 | a lone segment gives exactly one track, keyed by the caption key, the bar and 0 |
| Dloaders.DecodeSeveral | src/youtube/dload/dloaders.py:255-276 | one track per segment in order; track i keyed by the caption key, the bar and i, the segment's start, duration default 0.0, content default "" |
| Dloaders.DecodeMissingStart | src/youtube/dload/dloaders.py:256 | a segment without `@start` anywhere makes the whole list raise KeyError |
| Dloaders.TrackKeysDistinct | src/youtube/dload/dloaders.py:272-276 | the track keys of one caption are pairwise distinct |
| Dloaders.TrackKeyIndex | src/youtube/dload/dloaders.py:274 | the index is the last bar-separated field of a track key |
| Dloaders.CaptionKeyLang | src/youtube/dload/dloaders.py:188 | the language is the last bar-separated field of a caption key |
| Dloaders.DlCaptionNotFound | src/youtube/dload/dloaders.py:171-185 | CaptionNotFoundError exactly when the language is missing from the index of the requested type, or its URL is None or "" |
| Dloaders.ResolveLangRule | src/youtube/dload/dloaders.py:78-108 | manual found ⇒ taken; manual CaptionNotFound and auto found ⇒ auto taken; auto taken only after manual not-found; nothing added iff both not-found; any other error of the manual lookup, or of the auto lookup after manual not-found, propagates |
| Dloaders.CollectOnePerLanguage | src/youtube/dload/dloaders.py:77-108 | the collected captions extend the list, belong to the video and to the iterated languages, and no language appears twice |
| Dloaders.ResolvedLang | src/youtube/dload/dloaders.py:78-108 | a caption collected for a language belongs to the video and carries that language |
| Dloaders.VideoCaptionsOnePerLanguage | src/youtube/dload/dloaders.py:42-108 | a downloaded video holds at most one caption per language of LANG_CODES_TO_COLLECT, so at most five |
| Downloaders.CaptionUrl | src/download/downloaders.py:126-149 | an unknown type raises ValueError; a None URL raises CaptionNotFound; any other URL, the empty string included, is returned; a lookup error propagates |
| Downloaders.DlCaption | src/download/downloaders.py:110-166 | unknown type ⇒ ValueError; a URL error propagates; with a URL, tracks decoded ⇒ the caption with the bar-joined key, the URL and those tracks; HTTPError ⇒ the same caption with no tracks; any other track error propagates; `lang_code` defaults to "en" |
| Downloaders.DlVideo | src/download/downloaders.py:35-92 | the four asserts in order; then an error of the manual lookup other than CaptionNotFound propagates, then likewise for auto, and otherwise a video is returned whose dict has key manual iff the manual caption was found and auto iff the auto caption was found, each holding that caption |
| Downloaders.OldCaptionsHaveNoTracks | src/download/downloaders.py:195-201 | since the four-argument Track call always raises, a caption returned by this version has no tracks |
| Downloaders.SegmentsRaise | src/download/downloaders.py:155-166 | a fetched transcript other than an empty list makes the caption download raise something other than CaptionNotFoundError, which the old `dl_video` does not catch, so that video cannot be downloaded |
| Downloaders.EmptyUrlAccepted | src/download/downloaders.py:147-149 | an empty-string URL is accepted here but rejected by the current downloader |
| Downloaders.HttpFailureKeepsCaption | src/download/downloaders.py:155-166 | an HTTP failure while fetching tracks still returns the caption, with no tracks, its key and its URL |
| Models.NewChannel | src/download/models.py:12-29 | the URL is the channel prefix followed by the id; every other field as given; `__str__` is the creator |
| Models.NewTrack | src/download/models.py:68-76 | the start is the key's last bar-separated field (so holds no bar); other fields as given; `__str__` is the key |
| Models.NewCaption | src/download/models.py:111-125 | raises IndexError iff the key has fewer than three bar-separated fields; else key, URL and tracks as given and `__str__` is the key |
| Models.NewVideo | src/download/models.py:161-184 | the URL is the watch prefix followed by the id; every other field as given; `__str__` is the title |
| Models.TrackStartRoundTrip | src/download/models.py:74 | a key ending in a bar followed by `s` gives back `s` as the start |
| Models.CaptionKeyFields | src/download/models.py:120-121 | a built key of video, type and language always has at least three bar-separated fields |
| Models.KeyFieldsSplit | src/download/models.py:120-121 | splitting a built key at the bar gives the video id, the type, then the language's own fields |
| Models.CaptionKeyRoundTrip | src/download/models.py:120-121 | parsing a built key gives back the type, and gives back the language iff it holds no bar |
| Refine.TrackRecord.constructor | youtora/refine/dataclasses.py:25-34 | `prev_id`, `next_id` and `context` default to None, the rest as given |
| Refine.TrackRecord.SetPrevId | youtora/refine/dataclasses.py:44-45 | only `prev_id` changes |
| Refine.TrackRecord.SetNextId | youtora/refine/dataclasses.py:47-48 | only `next_id` changes |
| Refine.TrackRecord.SetContext | youtora/refine/dataclasses.py:50-51 | only `context` changes |
| Refine.TrackIdFields | youtora/refine/dataclasses.py:37-42 | the id splits into the caption id's fields followed by `str(hash)` |
| Refine.TrackIdDeterminesCaption | youtora/refine/dataclasses.py:42 | two tracks with the same id have the same caption id |
| Refine.TrackIdStable | youtora/refine/dataclasses.py:37-54 | the id depends only on caption id, start and content: the setters' fields and the duration do not change it |
| Refine.Definition.ToDict | youtora/refine/dataclasses.py:108-114 | exactly the keys text, pos, examples, context |
| Refine.Meaning.ToDict | youtora/refine/dataclasses.py:122-126 | keys etymology and defs; defs has the same length and order, element i is definition i's `to_dict` |
| Refine.DefinitionRoundTrip | youtora/refine/dataclasses.py:108-114 | reading back `to_dict` gives the definition |
| Refine.MeaningRoundTrip | youtora/refine/dataclasses.py:122-126 | reading back `to_dict` gives the meaning, definitions in the same order |
| Facades.BuildChannelDoc | youtora/index/facades.py:78-81 | id, subscribers and language copied |
| Facades.PublishDateInt | youtora/index/facades.py:85 | the date with every `-` removed, so holding none |
| Facades.BuildVideoDoc | youtora/index/facades.py:84-89 | fields copied, the stripped date, the channel doc nested |
| Facades.BuildCaptionDoc | youtora/index/facades.py:92-95 | fields copied, the video doc nested |
| Facades.GeneralDocOf | youtora/index/facades.py:122-126 | meta id is the track's id; the track fields copied; the caption doc nested |
| Facades.BuildGeneralDocDicts | youtora/index/facades.py:98-130 | the generator yields the documents of the specification, captions without raw tracks skipped |
| Facades.GeneralDocsNested | youtora/index/facades.py:107-130 | every document nests the caption doc of a caption that has raw tracks, which nests the video doc |
| Facades.SkipsCaptionWithoutTracks | youtora/index/facades.py:111-116 | a caption without raw tracks contributes no document |
| Facades.GeneralDocsLength | youtora/index/facades.py:107-130 | one document per raw track of every caption that has them |
| Facades.GeneralDocsOrder | youtora/index/facades.py:107-130 | caption order: the documents of the captions before caption i, then caption i's own documents, then those of the captions after it |
| Facades.GeneralDocsAppend | youtora/index/facades.py:107-130 | the documents of two caption lists one after the other are those of the first list followed by those of the second |
| Facades.CaptionDocsAt | youtora/index/facades.py:117-130 | track order: document j of a caption with raw tracks is the document of its track j, nesting that caption's doc |
| Facades.TrackDocsOf | youtora/index/facades.py:121-130 | the inner loop yields one document per track of the caption, in track order |
| Facades.Batched | youtora/index/facades.py:138-152 | over sorted keys the chunks concatenate to the keys above the cursor; each holds 1 to BATCH_SIZE keys, all but the last exactly BATCH_SIZE |
| Facades.NextChunk | youtora/index/facades.py:142-152 | one round: the cursor advances strictly, the chunks still concatenate with the remaining keys to the keys above the initial cursor, and a chunk that is not the last holds exactly BATCH_SIZE keys |
| Facades.RoundStep | youtora/index/facades.py:146-152 | the chunk up to the end key is the next keys in order, and the keys above the new cursor are exactly those after it |
| Facades.BatchedQuerysetAsWritten | youtora/index/facades.py:133-152 | with the cursor `0` the chunks concatenate to the keys greater than "0" |
| Facades.BatchedQueryset | youtora/index/facades.py:133-152 | with no initial cursor the chunks concatenate to all keys, no key repeated or dropped |
| Facades.AboveAt | youtora/index/facades.py:151-152 | moving the cursor to a chunk's end key leaves exactly the keys after it |
| Facades.UpToAt | youtora/index/facades.py:146-151 | the keys above the cursor up to the chunk's end key are exactly that chunk |
| Facades.FirstAbove | youtora/index/facades.py:142 | the keys above any cursor form a suffix of the sorted keys |
| Facades.AboveOnlyGreater | youtora/index/facades.py:142 | every key passing the filter is greater than the cursor |
| Facades.AsWrittenSkipsDashKeys | youtora/index/facades.py:138-142 | a key starting with `-` never passes the initial filter |
| Facades.ConcatMember | youtora/index/facades.py:151 | a key of the concatenation lies in one of the chunks |
| Facades.Progress | youtora/index/facades.py:63-65 | message k reports `from + k + 1` out of the total |
| Facades.ConcatFullLength | youtora/index/facades.py:63 | before batch b exactly b·BATCH_SIZE keys have gone by |
| Facades.SendBatch | youtora/index/facades.py:54-66 | one bulk call per video of the batch; progress counts from batch_idx·BATCH_SIZE |
| Facades.Exec | youtora/index/facades.py:42-66 | walking from the cursor `0` as written: one document list per video above "0" in key order, and message k is (k + 1, number of all the channel's videos) |
| Facades.ExecCorrected | youtora/index/facades.py:42-66 | over the corrected walk: one document list per video of the channel in key order, and message k is (k + 1, number of videos), so the last one reports all saved |
| Facades.SendBatches | youtora/index/facades.py:53-65 | the outer loop: the batches' videos in order, `vid_saved` counting from 1 across batches |
| Facades.ExecFallsShort | youtora/index/facades.py:51-65 | as written, a channel with a video key starting with `-` ends with a progress message below the video count |
| Facades.AboveDropsMissing | youtora/index/facades.py:142 | a key the cursor filter drops makes the filtered keys strictly fewer than all keys |
| Facades.PublishDateRoundTrip | youtora/index/facades.py:85 | stripping the dashes from a date the downloader formatted gives back the 8 characters |
| Extractors.ExtTrack | youtora/search/extractors.py:41-48 | succeeds iff caption, caption id, start, duration, content and context are present; copies them; prev/next default to None |
| Extractors.ParseHit | youtora/search/extractors.py:19-36 | the loop body builds the result of the specification: `[prev] + [current] + [next]`, highlight, caption as features |
| Extractors.Parse | youtora/search/extractors.py:16-38 | the loop returns the results of the specification: one per hit, the first error raised |
| Extractors.ResultsPerHit | youtora/search/extractors.py:16-38 | Ok iff every hit is Ok; then one result per hit in hit order; otherwise the error of the first failing hit |
| Extractors.FirstErrorDecides | youtora/search/extractors.py:17-22 | hits after the first failing one do not matter |
| Extractors.NoHitsNoResults | youtora/search/extractors.py:37-38 | no hits gives an empty list |
| Extractors.ResultTracks | youtora/search/extractors.py:21-35 | 1 to 3 tracks; prev iff `prev_id` truthy, next iff `next_id` truthy; current at index 1 iff prev; neighbours are the looked-up documents' tracks; highlight and features copied |
| Extractors.EmptyPrevIdIsAbsent | youtora/search/extractors.py:24-27 | an empty `prev_id` is treated like an absent one |
| Extractors.MissingNeighbourRaises | youtora/search/extractors.py:24-27 | a truthy `prev_id` with no document raises NotFoundError |
| YoutoraStore.ChannelDoc | be/src/youtora/main.py:117-136 | `_id` and exactly url, title, subs, lang_code from the channel |
| YoutoraStore.VideoDoc | be/src/youtora/main.py:139-164 | `_id` and exactly the eight video fields, each holding the video's value |
| YoutoraStore.CaptionDoc | be/src/youtora/main.py:175-184 | `_id` and exactly parent_id, url, lang_code, is_auto, each holding the caption's value |
| YoutoraStore.TrackDoc | be/src/youtora/main.py:199-211 | `_id` and exactly the seven track fields, None becoming null |
| YoutoraStore.CaptionDocsOf | be/src/youtora/main.py:174-185 | one document per caption in caption order |
| YoutoraStore.TrackDocsOf | be/src/youtora/main.py:198-212 | one document per track, caption-major, track-minor |
| YoutoraStore.TrackDocsComplete | be/src/youtora/main.py:199-211 | every track of every caption has its document |
| YoutoraStore.TrackDocsSound | be/src/youtora/main.py:199-211 | every track document is that of a track of a caption |
| YoutoraStore.Collection.constructor | be/src/youtora/main.py:80 | a new collection is empty |
| YoutoraStore.Collection.InsertOne | be/src/youtora/main.py:226-227 | duplicate iff the id is present; otherwise the document is added |
| YoutoraStore.Collection.DeleteOne | be/src/youtora/main.py:230 | removes exactly that id |
| YoutoraStore.Collection.InsertMany | be/src/youtora/main.py:244-245 | ordered insert up to the first duplicate, which raises BulkWriteError |
| YoutoraStore.Collection.DeleteMany | be/src/youtora/main.py:248 | removes exactly the submitted ids |
| YoutoraStore.StoreOne | be/src/youtora/main.py:220-234 | afterwards the id holds the document and nothing else changed; the log says stored or overwritten |
| YoutoraStore.StoreMany | be/src/youtora/main.py:237-252 | the collection and the raised error are those of insert, delete-submitted-ids, reinsert; the log says which path |
| YoutoraStore.StoreManyOverwrites | be/src/youtora/main.py:242-252 | with distinct ids nothing raises and the collection is the old one minus the submitted ids plus the submitted documents |
| YoutoraStore.StoreManyLookup | be/src/youtora/main.py:242-252 | with distinct ids each submitted id maps to its document and every other id is untouched |
| YoutoraStore.DuplicateIdsRaise | be/src/youtora/main.py:244-249 | a batch with a repeated id makes the reinsert fail too, and nothing catches it |
| YoutoraStore.InsertOrderedKeepsOthers | be/src/youtora/main.py:244 | an insert, even one that fails, touches only submitted ids |
| YoutoraStore.StoreVideoAll | be/src/youtora/main.py:101-111 | one video: skipped without captions; else video, captions and tracks stored, then indexed |
| YoutoraStore.StoreBatch | be/src/youtora/main.py:97-111 | one batch follows the specification and stops at the first write that raises |
| YoutoraStore.StoreYoutoraDb | be/src/youtora/main.py:63-114 | an invalid language raises before any write; else the videos are stored per the specification, and the channel is stored only when no write raised |
| YoutoraStore.StoreVideosStep | be/src/youtora/main.py:101-111 | one more video extends the progress as the loop body does |
| YoutoraStore.StoppedStaysStopped | be/src/youtora/main.py:106-108 | once a write raised, later videos change nothing |
| YoutoraStore.SkipsVideoWithoutCaptions | be/src/youtora/main.py:102-104 | a video without captions stores and indexes nothing |
| YoutoraStore.VideoLoopKeepsChannels | be/src/youtora/main.py:97-114 | the video loop never writes the channel collection and only adds videos |
| YoutoraStore.IndexedVideosHaveCaptions | be/src/youtora/main.py:102-111 | every indexed id is a stored video that had captions; no more ids are indexed than there are videos |
| YoutoraStore.IndexedOncePerVideo | be/src/youtora/main.py:97-111 | with distinct video ids, no id is indexed twice |

## Left out

- Network, youtube_dl, selenium, `html.unescape` and `xmltodict`: their results are inputs (`Fetched`, `VideoInfo`, `Transcript`, `Channel`).
- `float()` parsing of `@start` and `@dur`: they arrive as `real`. A start that is not a number is not modelled.
- Logging and the printed messages, except the log lines of `_store_one` and `_store_many`, which are returned.
- Python's `hash`, randomised per process: a parameter, so no property depends on its values.
- The iteration order of `LANG_CODES_TO_COLLECT`: an input `langs` listing the set once each, so no caption order across languages is claimed.
- `np.array_split` in `store_youtora_db` (be/src/youtora/main.py:96): the batches are an input. The downloads in `dl_videos_lazy` come already done.
- The scraped channel, `CaptionBuilder.LANG_CODES_TO_COLLECT` and `Index.index_tracks` of `store_youtora_db` are not part of this model. The channel and the language set are inputs, and indexing is recorded as the list of indexed video ids.
- `store_corpora_db` and the dictionary corpora collections: not part of this model.
- `_delete_by_channel_id` and `exec_multi` in youtora/index/facades.py: Elasticsearch calls, and a loop over `exec` for every stored channel.
- The Django querysets, `VideoExtractor`, `CaptionExtractor`, `TrackExtractor` and `TracksRaw`: lookups given as functions.
- Django's string comparison of primary keys: modelled as code-point order (`Text.Lt`).
- `GeneralDoc.get` and `resp_json['hits']['hits']`: a lookup function and a list of hits. A missing document raises NotFoundError.
- youtora/index/main.py is commented out and is not modelled.
- The old `dl_tracks` (src/download/downloaders.py:195-201) calls a three-parameter constructor with four arguments. It is modelled as raising for any non-empty list, as `Downloaders.OldTracks`.
- YoutoraStore.Collection.InsertMany: an empty document list is accepted, whereas the driver rejects it. Storing a video whose captions all have no tracks therefore succeeds in the model.
- YoutoraStore.StoreOne: the second `insert_one` after `delete_one` cannot fail in this sequential model, so no concurrent writer is modelled.

## Findings

| source | as written | input that shows it | evidently intended | confidence | as-written member | corrected member |
|---|---|---|---|---|---|---|
| youtora/index/facades.py:138-151 | the first cursor is the integer `0`. The primary key of VideoRaw is a string (youtora/scrape/models.py:37), so the filter compares against "0" | a channel with a video id starting with `-` (a legal YouTube id character that sorts before `0`), e.g. `-abc`, under code-point order of keys | every video key is batched, i.e. the walk starts below every key | not executed | Facades.BatchedQuerysetAsWritten, Facades.AsWrittenSkipsDashKeys, Facades.Exec, Facades.ExecFallsShort | Facades.BatchedQueryset, Facades.ExecCorrected |
