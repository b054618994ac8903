/**
 * rag_core.py: the one-time initialisation of the RAG system (enrich the parser's content
 * list with chunk identifiers, fill the persistent vector collection only when it is
 * empty) and the chunk-identifier -> record map used to trace answers back to the source.
 *
 * The vector collection is modelled as the sequence of documents inserted into it, whose
 * length is `collection.count()`; the two JSON files are `Some(records)` when they exist
 * and `None` when they do not.
 */
module RagCore {
  import opened Wrappers
  import opened Records
  import opened Text

  /** A document handed to the index: its text and the metadata `page` and `chunk_id`. */
  datatype Doc = Doc(text: string, page: Value, chunkId: Value)

  /**
   * The enrichment comprehension: item `i` becomes `{'chunk_id': f"chunk_{i}", **item}`.
   * The item's own keys are spread last, so they win over the new `chunk_id`.
   */
  function Enrich(raw: seq<Record>): (enriched: seq<Record>)
    ensures |enriched| == |raw|
    ensures forall i :: 0 <= i < |raw| ==> enriched[i].Keys == raw[i].Keys + {"chunk_id"}
    ensures forall i, key :: 0 <= i < |raw| && key in raw[i] ==> enriched[i][key] == raw[i][key]
    ensures forall i :: 0 <= i < |raw| && "chunk_id" !in raw[i] ==> enriched[i]["chunk_id"] == Str(ChunkId(i))
  {
    seq(|raw|, i requires 0 <= i < |raw| => map["chunk_id" := Str(ChunkId(i))] + raw[i])
  }

  /** No item of the parser's output carries a `chunk_id` of its own. */
  predicate NoOwnIds(raw: seq<Record>) {
    forall i :: 0 <= i < |raw| ==> "chunk_id" !in raw[i]
  }

  /** Every item of an enriched list has a `chunk_id`; they are distinct when the input had none. */
  lemma EnrichedIdsUnique(raw: seq<Record>, i: nat, j: nat)
    requires NoOwnIds(raw)
    requires i < |raw| && j < |raw| && i != j
    ensures Enrich(raw)[i]["chunk_id"] != Enrich(raw)[j]["chunk_id"]
  {
    if Enrich(raw)[i]["chunk_id"] == Enrich(raw)[j]["chunk_id"] {
      ChunkIdInjective(i, j);
    }
  }

  /** Adding `chunk_id` leaves an item's `type` and `text`, and so its text check, as they were. */
  lemma EnrichKeepsText(raw: seq<Record>, i: nat)
    requires i < |raw|
    ensures CheckText(Enrich(raw)[i]) == CheckText(raw[i])
  {
    var e := Enrich(raw);
    assert Get(e[i], "type", Null) == Get(raw[i], "type", Null);
    assert Get(e[i], "text", Str("")) == Get(raw[i], "text", Str(""));
  }

  /** Adding `chunk_id` never changes which items qualify. */
  lemma EnrichKeepsQualifying(raw: seq<Record>)
    ensures QualifyingIndices(Enrich(raw)) == QualifyingIndices(raw)
  {
    var e := Enrich(raw);
    forall i | 0 <= i < |raw| ensures Qualifies(e[i]) <==> Qualifies(raw[i]) {
      EnrichKeepsText(raw, i);
    }
    QualifyingIndicesCongruent(e, raw);
  }

  function DocOf(r: Record): Doc
    requires "chunk_id" in r && CheckText(r).NonBlank?
  {
    Doc(CheckText(r).text, Get(r, "page_idx", Null), r["chunk_id"])
  }

  /** What the comprehension at rag_core.py:77 does with item `i`: skip it, keep it, or raise. */
  function DocStep(r: Record, i: nat): Result<Option<Doc>, Error> {
    match CheckText(r)
    case NotAString => Err(AttributeError(i))
    case NonBlank(_) => if "chunk_id" in r then Ok(Some(DocOf(r))) else Err(KeyError(i, "chunk_id"))
    case _ => Ok(None)
  }

  /** `ds` holds, one for one, the documents of the items of `data` at the positions `q`. */
  predicate DocsAt(ds: seq<Doc>, q: seq<nat>, data: seq<Record>) {
    |ds| == |q|
    && forall k :: 0 <= k < |q| ==>
         q[k] < |data| && "chunk_id" in data[q[k]] && Qualifies(data[q[k]]) && ds[k] == DocOf(data[q[k]])
  }

  lemma DocsAtExtend(ds: seq<Doc>, q: seq<nat>, front: seq<Record>, x: Record)
    requires DocsAt(ds, q, front)
    ensures DocsAt(ds, q, front + [x])
    ensures "chunk_id" in x && Qualifies(x) ==> DocsAt(ds + [DocOf(x)], q + [|front|], front + [x])
  {
    forall k | 0 <= k < |q|
      ensures (front + [x])[q[k]] == front[q[k]]
    {
    }
  }

  /**
   * The documents to embed: one per qualifying item, in order, each with the item's page and
   * chunk id; the first item that raises ends the comprehension with that exception.
   */
  function QualifyingDocs(data: seq<Record>): (r: Result<seq<Doc>, Error>)
    ensures r.Ok? <==> forall i :: 0 <= i < |data| ==> DocStep(data[i], i).Ok?
    ensures r.Err? ==> r.error.at < |data| && DocStep(data[r.error.at], r.error.at) == Err(r.error)
                       && forall j :: 0 <= j < r.error.at ==> DocStep(data[j], j).Ok?
    ensures r.Ok? ==> |r.value| == QualifyingCount(data)
    ensures r.Ok? ==> DocsAt(r.value, QualifyingIndices(data), data)
  {
    if data == [] then Ok([])
    else
      var n := |data| - 1;
      var front := data[..n];
      assert data == front + [data[n]];
      match QualifyingDocs(front)
      case Err(e) => Err(e)
      case Ok(ds) =>
        DocsAtExtend(ds, QualifyingIndices(front), front, data[n]);
        match DocStep(data[n], n)
        case Err(e) => Err(e)
        case Ok(None) => Ok(ds)
        case Ok(Some(d)) => Ok(ds + [d])
  }

  /** Building documents from an enriched list can only fail on a `text` that is not a string. */
  lemma EnrichedDocsFailOnlyOnText(raw: seq<Record>)
    ensures QualifyingDocs(Enrich(raw)).Ok? <==>
            forall i :: 0 <= i < |raw| ==> !CheckText(raw[i]).NotAString?
  {
    var e := Enrich(raw);
    forall i | 0 <= i < |raw| ensures CheckText(e[i]) == CheckText(raw[i]) {
      EnrichKeepsText(raw, i);
    }
  }

  /**
   * The dictionary comprehension of get_reference_map: every item keyed by its `chunk_id`,
   * a later item replacing an earlier one with the same key; an item without `chunk_id`
   * raises KeyError.
   */
  function ReferenceMap(data: seq<Record>): (r: Result<map<Value, Record>, Error>)
    ensures r.Ok? <==> forall i :: 0 <= i < |data| ==> "chunk_id" in data[i]
    ensures r.Err? ==> r.error == KeyError(r.error.at, "chunk_id") && r.error.at < |data|
                       && "chunk_id" !in data[r.error.at]
                       && forall j :: 0 <= j < r.error.at ==> "chunk_id" in data[j]
    ensures r.Ok? ==> forall i :: 0 <= i < |data| ==> data[i]["chunk_id"] in r.value
    ensures r.Ok? ==> forall id :: id in r.value ==> r.value[id] in data && r.value[id]["chunk_id"] == id
  {
    if data == [] then Ok(map[])
    else
      var n := |data| - 1;
      match ReferenceMap(data[..n])
      case Err(e) => Err(e)
      case Ok(m) =>
        if "chunk_id" in data[n] then Ok(m[data[n]["chunk_id"] := data[n]])
        else Err(KeyError(n, "chunk_id"))
  }

  /** get_reference_map: `{}` when the enriched file does not exist. */
  function GetReferenceMap(enrichedFile: Option<seq<Record>>): (r: Result<map<Value, Record>, Error>)
    ensures enrichedFile.None? ==> r == Ok(map[])
  {
    match enrichedFile
    case None => Ok(map[])
    case Some(data) => ReferenceMap(data)
  }

  /** The last item carrying a given `chunk_id` is the one the map holds for it. */
  lemma {:induction false} ReferenceMapLastWins(data: seq<Record>, i: nat)
    requires ReferenceMap(data).Ok?
    requires i < |data|
    requires forall j :: i < j < |data| ==> data[j]["chunk_id"] != data[i]["chunk_id"]
    ensures ReferenceMap(data).value[data[i]["chunk_id"]] == data[i]
  {
    var n := |data| - 1;
    if i < n {
      ReferenceMapLastWins(data[..n], i);
    }
  }

  /** The keys of the reference map are exactly the chunk ids of the list. */
  lemma ReferenceMapKeys(data: seq<Record>)
    requires ReferenceMap(data).Ok?
    ensures ReferenceMap(data).value.Keys == set i | 0 <= i < |data| :: data[i]["chunk_id"]
  {
    var m := ReferenceMap(data).value;
    forall id | id in m ensures exists i :: 0 <= i < |data| && data[i]["chunk_id"] == id {
      var i :| 0 <= i < |data| && data[i] == m[id];
    }
  }

  /** After enrichment of items without ids, the map sends `chunk_<i>` to enriched item `i`. */
  lemma EnrichedReferenceMap(raw: seq<Record>, i: nat)
    requires NoOwnIds(raw) && i < |raw|
    ensures ReferenceMap(Enrich(raw)).Ok?
    ensures Str(ChunkId(i)) in ReferenceMap(Enrich(raw)).value
    ensures ReferenceMap(Enrich(raw)).value[Str(ChunkId(i))] == Enrich(raw)[i]
  {
    var e := Enrich(raw);
    forall j | i < j < |e| ensures e[j]["chunk_id"] != e[i]["chunk_id"] {
      EnrichedIdsUnique(raw, i, j);
    }
    ReferenceMapLastWins(e, i);
  }

  /**
   * Referential completeness: every document built from a list has its `chunk_id` among the
   * keys of the reference map built from the same list, mapped to an item with that id.
   */
  lemma DocsAreReferenced(data: seq<Record>)
    requires forall i :: 0 <= i < |data| ==> "chunk_id" in data[i] && !CheckText(data[i]).NotAString?
    ensures QualifyingDocs(data).Ok? && ReferenceMap(data).Ok?
    ensures forall d :: d in QualifyingDocs(data).value ==>
              d.chunkId in ReferenceMap(data).value
              && ReferenceMap(data).value[d.chunkId]["chunk_id"] == d.chunkId
  {
    var ds := QualifyingDocs(data).value;
    var m := ReferenceMap(data).value;
    forall d | d in ds ensures d.chunkId in m {
      var k :| 0 <= k < |ds| && ds[k] == d;
      var i := QualifyingIndices(data)[k];
      assert d.chunkId == data[i]["chunk_id"];
    }
  }

  /** The state initialize_rag_system reads and writes. */
  datatype Store = Store(collection: seq<Doc>, rawFile: Option<seq<Record>>, enrichedFile: Option<seq<Record>>)

  /** Ready: the vector store is returned; RawMissing: None is returned; Raised: an exception escapes. */
  datatype InitOutcome = Ready | RawMissing | Raised(error: Error)

  /**
   * One call of initialize_rag_system: nothing happens unless the collection is empty; an
   * existing enriched file is used as it is, otherwise it is written from the raw file
   * (and without a raw file the call gives up); then the qualifying documents are inserted.
   */
  function InitStep(s: Store): (r: (Store, InitOutcome))
    ensures r.0.rawFile == s.rawFile
    ensures !r.1.Ready? ==> r.0.collection == s.collection
    ensures r.1.RawMissing? <==> |s.collection| == 0 && s.enrichedFile.None? && s.rawFile.None?
    ensures s.enrichedFile.Some? ==> r.0.enrichedFile == s.enrichedFile
    ensures |s.collection| == 0 && !r.1.RawMissing? ==> r.0.enrichedFile.Some?
  {
    if |s.collection| != 0 then (s, Ready)
    else if s.enrichedFile.None? && s.rawFile.None? then (s, RawMissing)
    else
      var data := if s.enrichedFile.Some? then s.enrichedFile.value else Enrich(s.rawFile.value);
      var written := s.(enrichedFile := Some(data));
      match QualifyingDocs(data)
      case Err(e) => (written, Raised(e))
      case Ok(ds) => (written.(collection := s.collection + ds), Ready)
  }

  /** A non-empty collection is left alone, and so are both files. */
  lemma WarmStartWritesNothing(s: Store)
    requires |s.collection| != 0
    ensures InitStep(s) == (s, Ready)
  {
  }

  /** Without either file, the call returns None and changes nothing. */
  lemma MissingRawChangesNothing(s: Store)
    requires |s.collection| == 0 && s.enrichedFile.None? && s.rawFile.None?
    ensures InitStep(s) == (s, RawMissing)
  {
  }

  /** An existing enriched file is reused unchanged, whatever the raw file now holds. */
  lemma EnrichedFileReused(s: Store)
    requires s.enrichedFile.Some?
    ensures InitStep(s).0.enrichedFile == s.enrichedFile
    ensures InitStep(s).0.rawFile == s.rawFile
    ensures forall raw' :: InitStep(s.(rawFile := raw')) == (InitStep(s).0.(rawFile := raw'), InitStep(s).1)
  {
  }

  /** Calling the initialisation a second time performs no further writes. */
  lemma InitIdempotent(s: Store)
    ensures InitStep(InitStep(s).0) == InitStep(s)
  {
  }

  /**
   * Cold start: from an empty collection and only the raw file, the collection ends up
   * holding exactly one document per qualifying raw item (or the call raises before any
   * insertion).
   */
  lemma ColdStartCardinality(raw: seq<Record>)
    ensures var (t, o) := InitStep(Store([], Some(raw), None));
            && t.enrichedFile == Some(Enrich(raw))
            && (o.Ready? ==> |t.collection| == QualifyingCount(raw))
            && (o.Raised? ==> t.collection == [])
            && (o.Ready? <==> forall i :: 0 <= i < |raw| ==> !CheckText(raw[i]).NotAString?)
  {
    EnrichKeepsQualifying(raw);
    EnrichedDocsFailOnlyOnText(raw);
  }

  /** Once both comprehensions over a list return, every document's id is a key of the map. */
  lemma BuiltDocsAreReferenced(data: seq<Record>)
    requires QualifyingDocs(data).Ok? && ReferenceMap(data).Ok?
    ensures forall d :: d in QualifyingDocs(data).value ==> d.chunkId in ReferenceMap(data).value
  {
    forall i | 0 <= i < |data|
      ensures "chunk_id" in data[i] && !CheckText(data[i]).NotAString?
    {
      assert DocStep(data[i], i).Ok?;
    }
    DocsAreReferenced(data);
  }

  /**
   * After a successful initialisation of an empty collection, every indexed document's
   * chunk id is a key of the reference map built from the enriched file; when the
   * enriched file was written by this call, that map can be built.
   */
  lemma IndexedDocsAreReferenced(s: Store)
    requires |s.collection| == 0
    requires InitStep(s).1.Ready?
    ensures s.enrichedFile.None? ==> GetReferenceMap(InitStep(s).0.enrichedFile).Ok?
    ensures GetReferenceMap(InitStep(s).0.enrichedFile).Ok? ==>
              forall d :: d in InitStep(s).0.collection ==>
                d.chunkId in GetReferenceMap(InitStep(s).0.enrichedFile).value
  {
    var data := if s.enrichedFile.Some? then s.enrichedFile.value else Enrich(s.rawFile.value);
    var t := InitStep(s).0;
    assert t.enrichedFile == Some(data) && t.collection == QualifyingDocs(data).value;
    assert GetReferenceMap(t.enrichedFile) == ReferenceMap(data);
    if s.enrichedFile.None? {
      assert forall i :: 0 <= i < |data| ==> "chunk_id" in data[i];
    }
    if ReferenceMap(data).Ok? {
      BuiltDocsAreReferenced(data);
    }
  }

  /** A three-item content list: text, an image, text. */
  function SampleRaw(first: string, last: string): seq<Record> {
    [ map["type" := Str("text"), "text" := Str(first), "page_idx" := Num(0), "text_level" := Num(1)],
      map["type" := Str("image"), "page_idx" := Num(0)],
      map["type" := Str("text"), "text" := Str(last), "page_idx" := Num(1)] ]
  }

  /** How the comprehension treats an enriched item, read off the raw item it came from. */
  lemma EnrichedStep(raw: seq<Record>, i: nat)
    requires i < |raw| && "chunk_id" !in raw[i]
    ensures DocStep(Enrich(raw)[i], i)
            == match CheckText(raw[i])
               case NotAString => Err(AttributeError(i))
               case NonBlank(t) => Ok(Some(Doc(t, Get(raw[i], "page_idx", Null), Str(ChunkId(i)))))
               case _ => Ok(None)
  {
    EnrichKeepsText(raw, i);
    var e := Enrich(raw);
    assert "page_idx" in raw[i] ==> e[i]["page_idx"] == raw[i]["page_idx"];
    assert Get(e[i], "page_idx", Null) == Get(raw[i], "page_idx", Null);
  }

  /** How the comprehension treats each item of the enriched sample list. */
  lemma SampleSteps(first: string, last: string)
    requires !IsBlank(first) && !IsBlank(last)
    ensures var e := Enrich(SampleRaw(first, last));
            && |e| == 3
            && DocStep(e[0], 0) == Ok(Some(Doc(first, Num(0), Str(ChunkId(0)))))
            && DocStep(e[1], 1) == Ok(None)
            && DocStep(e[2], 2) == Ok(Some(Doc(last, Num(1), Str(ChunkId(2)))))
  {
    var raw := SampleRaw(first, last);
    assert CheckText(raw[0]) == NonBlank(first) && Get(raw[0], "page_idx", Null) == Num(0);
    assert CheckText(raw[1]) == NotText;
    assert CheckText(raw[2]) == NonBlank(last) && Get(raw[2], "page_idx", Null) == Num(1);
    EnrichedStep(raw, 0);
    EnrichedStep(raw, 1);
    EnrichedStep(raw, 2);
  }

  /** A three-item list whose middle item is skipped yields the documents of the outer two. */
  lemma OuterTwoDocs(e: seq<Record>, d0: Doc, d2: Doc)
    requires |e| == 3
    requires DocStep(e[0], 0) == Ok(Some(d0)) && DocStep(e[1], 1) == Ok(None) && DocStep(e[2], 2) == Ok(Some(d2))
    ensures QualifyingDocs(e) == Ok([d0, d2])
  {
    var e1, e2 := e[..1], e[..2];
    assert e1[..0] == [] && e1[0] == e[0] && |e1| - 1 == 0;
    assert QualifyingDocs(e1[..0]) == Ok([]);
    assert [] + [d0] == [d0];
    assert QualifyingDocs(e1) == Ok([d0]);
    assert e2[..1] == e1 && e2[1] == e[1] && |e2| - 1 == 1;
    assert QualifyingDocs(e2[..1]) == Ok([d0]);
    assert QualifyingDocs(e2) == Ok([d0]);
    assert e[..2] == e2 && |e| - 1 == 2;
    assert QualifyingDocs(e[..2]) == Ok([d0]);
    assert [d0] + [d2] == [d0, d2];
  }

  /** The comprehension over the enriched sample keeps items 0 and 2. */
  lemma SampleDocs(first: string, last: string)
    requires !IsBlank(first) && !IsBlank(last)
    ensures QualifyingDocs(Enrich(SampleRaw(first, last)))
            == Ok([Doc(first, Num(0), Str(ChunkId(0))), Doc(last, Num(1), Str(ChunkId(2)))])
  {
    SampleSteps(first, last);
    OuterTwoDocs(Enrich(SampleRaw(first, last)), Doc(first, Num(0), Str(ChunkId(0))), Doc(last, Num(1), Str(ChunkId(2))));
  }

  /** End to end: the two text items are indexed, as `chunk_0` and `chunk_2`. */
  lemma SampleIndexesTwoChunks(first: string, last: string)
    requires !IsBlank(first) && !IsBlank(last)
    ensures var (t, o) := InitStep(Store([], Some(SampleRaw(first, last)), None));
            && o == Ready
            && |t.collection| == 2
            && t.collection[0] == Doc(first, Num(0), Str(ChunkId(0)))
            && t.collection[1] == Doc(last, Num(1), Str(ChunkId(2)))
  {
    SampleDocs(first, last);
  }

  /**
   * The vector collection and the two JSON files, as initialize_rag_system sees them.
   * `count()` of the collection is `|collection|`.
   */
  class RagSystem {
    var collection: seq<Doc>
    var rawFile: Option<seq<Record>>
    var enrichedFile: Option<seq<Record>>

    function State(): Store
      reads this
    {
      Store(collection, rawFile, enrichedFile)
    }

    constructor (collection: seq<Doc>, rawFile: Option<seq<Record>>, enrichedFile: Option<seq<Record>>)
      ensures State() == Store(collection, rawFile, enrichedFile)
    {
      this.collection := collection;
      this.rawFile := rawFile;
      this.enrichedFile := enrichedFile;
    }

    /** initialize_rag_system: count, maybe enrich and write, then insert one batch. */
    method Initialize() returns (outcome: InitOutcome)
      modifies this
      ensures (State(), outcome) == InitStep(old(State()))
      ensures rawFile == old(rawFile)
    {
      if |collection| != 0 {
        return Ready;
      }
      if enrichedFile.None? {
        if rawFile.None? {
          return RawMissing;
        }
        enrichedFile := Some(Enrich(rawFile.value));
      }
      var data := enrichedFile.value;
      match QualifyingDocs(data)
      case Err(e) =>
        return Raised(e);
      case Ok(ds) =>
        collection := collection + ds;
        return Ready;
    }
  }
}
