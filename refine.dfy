/**
 * The refined records the index builder and the search side share: channel,
 * video, caption and track, whose id is its caption id joined to a hash of
 * (caption id, start, content); and the dictionary form of dictionary
 * definitions and meanings.
 */
module Refine {
  import opened Results
  import opened Text

  /**
   * Python's `hash` of a `(caption_id, start, content)` tuple. String hashing
   * is randomised per process, so the hash is a parameter.
   */
  type TupleHash = (string, real, string) -> int

  datatype Channel = Channel(id: string, url: string, title: string, subs: int, langCode: string,
                             vidIdList: seq<string>)
  {
    /** `__str__`: the title. */
    function ToString(): string { title }
  }

  datatype Track = Track(captionId: string, start: real, duration: real, content: string,
                         prevId: Option<string>, nextId: Option<string>, context: Option<string>)
  {
    /** `__hash__`: the hash of the caption id, the start and the content. */
    function Hash(hash: TupleHash): int { hash(captionId, start, content) }

    /** `id`: `caption_id|str(hash)`. */
    function Id(hash: TupleHash): string { captionId + "|" + IntToString(Hash(hash)) }

    /** `__str__`: the content. */
    function ToString(): string { content }
  }

  /** A track object: the dataclass, whose setters update it in place. */
  class TrackRecord {
    var captionId: string
    var start: real
    var duration: real
    var content: string
    var prevId: Option<string>
    var nextId: Option<string>
    var context: Option<string>

    /** The value the object holds. */
    function Value(): Track
      reads this
    {
      Track(captionId, start, duration, content, prevId, nextId, context)
    }

    /** The dataclass constructor: `prev_id`, `next_id` and `context` default to None. */
    constructor (captionId: string, start: real, duration: real, content: string)
      ensures Value() == Track(captionId, start, duration, content, None, None, None)
    {
      this.captionId := captionId;
      this.start := start;
      this.duration := duration;
      this.content := content;
      prevId := None;
      nextId := None;
      context := None;
    }

    /** `set_prev_id`: only `prev_id` changes. */
    method SetPrevId(p: Option<string>)
      modifies this
      ensures Value() == old(Value()).(prevId := p)
    {
      prevId := p;
    }

    /** `set_next_id`: only `next_id` changes. */
    method SetNextId(n: Option<string>)
      modifies this
      ensures Value() == old(Value()).(nextId := n)
    {
      nextId := n;
    }

    /** `set_context`: only `context` changes. */
    method SetContext(c: Option<string>)
      modifies this
      ensures Value() == old(Value()).(context := c)
    {
      context := c;
    }
  }

  datatype Caption = Caption(id: string, videoId: string, isAuto: bool, langCode: string, url: string)
  {
    /** `__str__`: the id. */
    function ToString(): string { id }
  }

  datatype Video = Video(id: string, channelId: string, url: string, title: string,
                         publishDate: string, likes: int, dislikes: int, views: int,
                         category: string)
  {
    /** `__str__`: the title. */
    function ToString(): string { title }
  }

  // ------------------------------------------------------------------ dictionaries

  /** The Python values `to_dict` produces. */
  datatype PyValue = PyNone | PyStr(s: string) | PyList(items: seq<PyValue>)
                   | PyDict(entries: map<string, PyValue>)

  function StrList(xs: seq<string>): PyValue
  {
    PyList(seq(|xs|, i requires 0 <= i < |xs| => PyStr(xs[i])))
  }

  function DictList(defs: seq<Definition>): seq<PyValue>
  {
    seq(|defs|, i requires 0 <= i < |defs| => PyDict(defs[i].ToDict()))
  }

  function OptStr(x: Option<string>): PyValue
  {
    if x.Some? then PyStr(x.value) else PyNone
  }

  datatype Definition = Definition(text: string, examples: seq<string>, pos: string, context: string)
  {
    /** `to_dict`: exactly the keys text, pos, examples and context. */
    function ToDict(): (d: map<string, PyValue>)
      ensures d.Keys == {"text", "pos", "examples", "context"}
    {
      map["text" := PyStr(text), "pos" := PyStr(pos), "examples" := StrList(examples),
          "context" := PyStr(context)]
    }
  }

  datatype Meaning = Meaning(etymology: Option<string>, defs: seq<Definition>)
  {
    /** `to_dict`: the etymology and the definitions, each in its own `to_dict` form, in order. */
    function ToDict(): (d: map<string, PyValue>)
      ensures d.Keys == {"etymology", "defs"}
      ensures d["defs"].PyList? && |d["defs"].items| == |defs|
      ensures forall i :: 0 <= i < |defs| ==> d["defs"].items[i] == PyDict(defs[i].ToDict())
    {
      map["etymology" := OptStr(etymology), "defs" := PyList(DictList(defs))]
    }
  }

  // Reading the dictionaries back: the inverse of `to_dict`.

  function StrsOf(items: seq<PyValue>): Option<seq<string>>
  {
    if items == [] then Some([])
    else if !items[0].PyStr? then None
    else match StrsOf(items[1..])
      case None => None
      case Some(rest) => Some([items[0].s] + rest)
  }

  function DefinitionOf(d: map<string, PyValue>): Option<Definition>
  {
    if d.Keys != {"text", "pos", "examples", "context"} then None
    else if !(d["text"].PyStr? && d["pos"].PyStr? && d["context"].PyStr? && d["examples"].PyList?)
    then None
    else match StrsOf(d["examples"].items)
      case None => None
      case Some(examples) => Some(Definition(d["text"].s, examples, d["pos"].s, d["context"].s))
  }

  function DefinitionsOf(items: seq<PyValue>): Option<seq<Definition>>
  {
    if items == [] then Some([])
    else if !items[0].PyDict? then None
    else match (DefinitionOf(items[0].entries), DefinitionsOf(items[1..]))
      case (Some(first), Some(rest)) => Some([first] + rest)
      case _ => None
  }

  function MeaningOf(d: map<string, PyValue>): Option<Meaning>
  {
    if d.Keys != {"etymology", "defs"} || !d["defs"].PyList? then None
    else
      var etymology := match d["etymology"]
        case PyNone => Some(None)
        case PyStr(s) => Some(Some(s))
        case _ => None;
      match (etymology, DefinitionsOf(d["defs"].items))
      case (Some(e), Some(defs)) => Some(Meaning(e, defs))
      case _ => None
  }

  // ------------------------------------------------------------------ lemmas

  /**
   * The id splits into the caption id's own fields followed by the hash, so
   * the caption id is everything before the last `|`.
   */
  lemma TrackIdFields(t: Track, hash: TupleHash)
    ensures Split(t.Id(hash), '|') == Split(t.captionId, '|') + [IntToString(t.Hash(hash))]
  {
    var h := IntToString(t.Hash(hash));
    assert t.Id(hash) == t.captionId + ['|'] + h;
    SplitConcat(t.captionId, h, '|');
    SplitWithoutSeparator(h, '|');
  }

  /** Two tracks with the same id belong to the same caption. */
  lemma TrackIdDeterminesCaption(t1: Track, t2: Track, hash: TupleHash)
    requires t1.Id(hash) == t2.Id(hash)
    ensures t1.captionId == t2.captionId
  {
    TrackIdFields(t1, hash);
    TrackIdFields(t2, hash);
    var f1, f2 := Split(t1.captionId, '|'), Split(t2.captionId, '|');
    assert f1 + [IntToString(t1.Hash(hash))] == f2 + [IntToString(t2.Hash(hash))];
    assert |f1| == |f2|;
    assert f1 == (f1 + [IntToString(t1.Hash(hash))])[..|f1|];
    assert f2 == (f2 + [IntToString(t2.Hash(hash))])[..|f2|];
    JoinSplit(t1.captionId, '|');
    JoinSplit(t2.captionId, '|');
  }

  /**
   * The id depends only on the caption id, the start and the content: what
   * the setters change (`prev_id`, `next_id`, `context`), and the duration,
   * leave it as it was.
   */
  lemma TrackIdStable(t: Track, hash: TupleHash, p: Option<string>, n: Option<string>,
                      c: Option<string>, d: real)
    ensures t.(prevId := p, nextId := n, context := c, duration := d).Id(hash) == t.Id(hash)
  {
  }

  lemma {:induction false} StrsRoundTrip(xs: seq<string>)
    ensures StrsOf(StrList(xs).items) == Some(xs)
  {
    if xs != [] {
      StrsRoundTrip(xs[1..]);
      assert StrList(xs).items[1..] == StrList(xs[1..]).items;
      assert [xs[0]] + xs[1..] == xs;
    }
  }

  /** Reading back `Definition.to_dict` gives the definition. */
  lemma DefinitionRoundTrip(def: Definition)
    ensures DefinitionOf(def.ToDict()) == Some(def)
  {
    StrsRoundTrip(def.examples);
  }

  lemma {:induction false} DefinitionsRoundTrip(defs: seq<Definition>)
    ensures DefinitionsOf(DictList(defs)) == Some(defs)
  {
    var items := DictList(defs);
    if defs != [] {
      DefinitionRoundTrip(defs[0]);
      DefinitionsRoundTrip(defs[1..]);
      assert items[1..] == DictList(defs[1..]);
      assert [defs[0]] + defs[1..] == defs;
    }
  }

  /** Reading back `Meaning.to_dict` gives the meaning: definitions in the same number and order. */
  lemma MeaningRoundTrip(m: Meaning)
    ensures MeaningOf(m.ToDict()) == Some(m)
  {
    DefinitionsRoundTrip(m.defs);
    if m.etymology.Some? {
      assert m.ToDict()["etymology"] == PyStr(m.etymology.value);
    }
  }
}
