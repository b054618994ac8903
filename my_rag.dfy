/**
 * my_rag.py: the standalone pipeline. It checks the model configuration, loads the parser's
 * content list, turns the qualifying items into documents in a loop, and indexes them
 * unless there are none. Model construction, indexing and querying are external services;
 * the model ends at the list of documents handed to the index.
 */
module MyRag {
  import opened Wrappers
  import opened Records
  import RagCore

  /** A document with the metadata my_rag.py attaches. */
  datatype Document = Document(text: string, page: Value, kind: Value, level: Value, chunkId: string)

  /** The document for qualifying item `i`: missing `page_idx` reads "N/A", missing `text_level` reads 0. */
  function DocumentOf(r: Record, i: nat): Document
    requires Qualifies(r)
  {
    Document(CheckText(r).text, Get(r, "page_idx", Str("N/A")), Get(r, "type", Null),
             Get(r, "text_level", Num(0)), ChunkId(i))
  }

  /** The documents the loop is meant to build: one per qualifying item, in item order. */
  function Documents(data: seq<Record>): (docs: seq<Document>)
    ensures |docs| == QualifyingCount(data) <= |data|
  {
    if data == [] then []
    else
      var n := |data| - 1;
      Documents(data[..n]) + (if Qualifies(data[n]) then [DocumentOf(data[n], n)] else [])
  }

  /** `docs` holds, one for one, the documents of the items of `data` at the positions `q`. */
  predicate DocumentsAt(docs: seq<Document>, q: seq<nat>, data: seq<Record>) {
    |docs| == |q|
    && forall k :: 0 <= k < |q| ==> q[k] < |data| && Qualifies(data[q[k]]) && docs[k] == DocumentOf(data[q[k]], q[k])
  }

  lemma DocumentsAtExtend(docs: seq<Document>, q: seq<nat>, front: seq<Record>, x: Record)
    requires DocumentsAt(docs, q, front)
    ensures DocumentsAt(docs, q, front + [x])
    ensures Qualifies(x) ==> DocumentsAt(docs + [DocumentOf(x, |front|)], q + [|front|], front + [x])
  {
    forall k | 0 <= k < |q|
      ensures (front + [x])[q[k]] == front[q[k]]
    {
    }
  }

  /** The k-th document is the one of the k-th qualifying item. */
  lemma {:induction false} DocumentsByIndex(data: seq<Record>)
    ensures DocumentsAt(Documents(data), QualifyingIndices(data), data)
  {
    if data != [] {
      var n := |data| - 1;
      var front := data[..n];
      assert data == front + [data[n]];
      DocumentsByIndex(front);
      DocumentsAtExtend(Documents(front), QualifyingIndices(front), front, data[n]);
    }
  }

  /** No item's `text` makes `.strip()` raise. */
  predicate Strippable(data: seq<Record>) {
    forall i :: 0 <= i < |data| ==> !CheckText(data[i]).NotAString?
  }

  /**
   * The loop at my_rag.py:82-94. It stops with AttributeError at the first text item whose
   * `text` is not a string; otherwise it returns the documents of all qualifying items.
   */
  method BuildDocuments(data: seq<Record>) returns (r: Result<seq<Document>, Error>)
    ensures r.Ok? <==> Strippable(data)
    ensures r.Ok? ==> r.value == Documents(data)
    ensures r.Err? ==> r.error == AttributeError(r.error.at) && r.error.at < |data|
                       && CheckText(data[r.error.at]).NotAString?
                       && forall j :: 0 <= j < r.error.at ==> !CheckText(data[j]).NotAString?
  {
    var documents: seq<Document> := [];
    for i := 0 to |data|
      invariant forall j :: 0 <= j < i ==> !CheckText(data[j]).NotAString?
      invariant documents == Documents(data[..i])
    {
      assert data[..i + 1][..i] == data[..i];
      match CheckText(data[i])
      case NotAString =>
        return Err(AttributeError(i));
      case NonBlank(_) =>
        documents := documents + [DocumentOf(data[i], i)];
      case _ =>
    }
    assert data[..|data|] == data;
    return Ok(documents);
  }

  /** Documents carry pairwise distinct chunk ids, each naming the position of its item. */
  lemma DocumentIdsDistinct(data: seq<Record>)
    ensures forall k :: 0 <= k < |Documents(data)| ==>
              var i := QualifyingIndices(data)[k];
              Documents(data)[k].chunkId == ChunkId(i) && Documents(data)[k].text == CheckText(data[i]).text
    ensures forall k, l :: 0 <= k < l < |Documents(data)| ==> Documents(data)[k].chunkId != Documents(data)[l].chunkId
  {
    var docs, q := Documents(data), QualifyingIndices(data);
    DocumentsByIndex(data);
    forall k, l | 0 <= k < l < |docs| ensures docs[k].chunkId != docs[l].chunkId {
      if docs[k].chunkId == docs[l].chunkId {
        ChunkIdInjective(q[k], q[l]);
      }
    }
  }

  /** The k-th document of both entry points, for a list without ids of its own. */
  lemma SameIdAt(raw: seq<Record>, k: nat)
    requires RagCore.NoOwnIds(raw)
    requires RagCore.QualifyingDocs(RagCore.Enrich(raw)).Ok?
    requires k < |QualifyingIndices(raw)|
    ensures k < |RagCore.QualifyingDocs(RagCore.Enrich(raw)).value| && k < |Documents(raw)|
    ensures RagCore.QualifyingDocs(RagCore.Enrich(raw)).value[k].chunkId == Str(Documents(raw)[k].chunkId)
    ensures RagCore.QualifyingDocs(RagCore.Enrich(raw)).value[k].text == Documents(raw)[k].text
  {
    var e := RagCore.Enrich(raw);
    var i := QualifyingIndices(raw)[k];
    RagCore.EnrichKeepsQualifying(raw);
    RagCore.EnrichKeepsText(raw, i);
    DocumentsByIndex(raw);
    assert RagCore.QualifyingDocs(e).value[k] == RagCore.DocOf(e[i]);
  }

  /**
   * The two entry points agree: on a content list without ids of its own, my_rag.py gives
   * each document the same chunk id that rag_core.py's enrichment gives the same item.
   */
  lemma SameIdsAsEnrichment(raw: seq<Record>)
    requires RagCore.NoOwnIds(raw)
    requires RagCore.QualifyingDocs(RagCore.Enrich(raw)).Ok?
    ensures |RagCore.QualifyingDocs(RagCore.Enrich(raw)).value| == |Documents(raw)|
    ensures forall k :: 0 <= k < |Documents(raw)| ==>
              RagCore.QualifyingDocs(RagCore.Enrich(raw)).value[k].chunkId == Str(Documents(raw)[k].chunkId)
              && RagCore.QualifyingDocs(RagCore.Enrich(raw)).value[k].text == Documents(raw)[k].text
  {
    RagCore.EnrichKeepsQualifying(raw);
    forall k | 0 <= k < |Documents(raw)|
      ensures RagCore.QualifyingDocs(RagCore.Enrich(raw)).value[k].chunkId == Str(Documents(raw)[k].chunkId)
              && RagCore.QualifyingDocs(RagCore.Enrich(raw)).value[k].text == Documents(raw)[k].text
    {
      SameIdAt(raw, k);
    }
  }

  const LlmKeys: seq<string> := ["LLM_API_BASE", "LLM_API_KEY", "LLM_MODEL_NAME"]
  const EmbedKeys: seq<string> := ["EMBED_API_BASE", "EMBED_API_KEY", "EMBED_MODEL_NAME"]

  /** `all([os.getenv(k) for k in keys])`: every variable is set and not empty. */
  predicate Configured(env: map<string, string>, keys: seq<string>) {
    forall k :: k in keys ==> k in env && env[k] != ""
  }

  datatype PipelineOutcome =
    | LlmConfigMissing
    | EmbedConfigMissing
    | JsonMissing
    | NoDocuments
    | Raised(error: Error)
    | Indexed(docs: seq<Document>)   // handed to the index and queried

  /**
   * run_mineru_rag_pipeline up to the indexing call, with the environment as a map and the
   * content-list file as `Some(items)` or `None` when it is not found.
   */
  method RunPipeline(env: map<string, string>, jsonFile: Option<seq<Record>>) returns (outcome: PipelineOutcome)
    ensures !Configured(env, LlmKeys) ==> outcome == LlmConfigMissing
    ensures Configured(env, LlmKeys) && !Configured(env, EmbedKeys) ==> outcome == EmbedConfigMissing
    ensures Configured(env, LlmKeys) && Configured(env, EmbedKeys) && jsonFile.None? ==> outcome == JsonMissing
    ensures outcome.Raised? <==>
              Configured(env, LlmKeys) && Configured(env, EmbedKeys) && jsonFile.Some? && !Strippable(jsonFile.value)
    ensures outcome.Raised? ==> outcome.error.AttributeError?
    ensures outcome == NoDocuments <==>
              Configured(env, LlmKeys) && Configured(env, EmbedKeys) && jsonFile.Some?
              && Strippable(jsonFile.value) && QualifyingCount(jsonFile.value) == 0
    ensures outcome.Indexed? <==>
              Configured(env, LlmKeys) && Configured(env, EmbedKeys) && jsonFile.Some?
              && Strippable(jsonFile.value) && QualifyingCount(jsonFile.value) > 0
    ensures outcome.Indexed? ==> outcome.docs == Documents(jsonFile.value)
  {
    if !Configured(env, LlmKeys) {
      return LlmConfigMissing;
    }
    if !Configured(env, EmbedKeys) {
      return EmbedConfigMissing;
    }
    if jsonFile.None? {
      return JsonMissing;
    }
    var built := BuildDocuments(jsonFile.value);
    match built
    case Err(e) =>
      return Raised(e);
    case Ok(documents) =>
      if documents == [] {
        return NoDocuments;
      }
      return Indexed(documents);
  }
}
