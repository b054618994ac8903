# MinerU RAG helpers: a verified model

This project models the original logic of a small MinerU-based retrieval-augmented
question-answering setup. It covers four pieces:

- **rag_core.py**: enrichment of the parser's content list with `chunk_<i>` identifiers.
  It also models the filter that picks the text chunks to embed, the `chunk_id -> record`
  reference map, and the "fill the vector collection only when it is empty" initialisation.
- **my_rag.py**: the standalone pipeline. It checks configuration, loads the content list
  and turns the qualifying items into documents in a loop, with its early returns.
- **mineru/cli/client.py**: the body of `main`. It defaults the three `MINERU_*`
  environment variables without overwriting preset ones, selects the input documents by
  suffix, and builds the per-document lists in `parse_doc` under one `try`.
- **mineru/utils/user_display.py**: the progress displayer and its `MM:SS` elapsed-time
  stamps.

Layout, one module per file:

- `wrappers.dfy`: `Option` and `Result`.
- `text.dfy`: Python's `str(n)`, `str.isspace`/`strip`, `startswith` and `endswith`.
- `records.dfy`: JSON records as maps, the shared "qualifying item" test and chunk ids.
- `rag_core.dfy`, `my_rag.dfy`, `cli_client.dfy`, `user_display.dfy`: one module per source file.

Modelling choices:

- A record is `map<string, Value>`. So `{'chunk_id': ..., **item}` is the right-biased map
  union `map["chunk_id" := ...] + item`, and an item's own `chunk_id` wins.
- Python exceptions inside the comprehensions and loops are `Result` errors. Each error
  carries the position of the offending item: `AttributeError` for `.strip()` on a
  non-string `text`, `KeyError` for a missing `chunk_id`.
- The vector collection is the sequence of documents inserted into it, and its count is
  the sequence length. A JSON file is `Some(records)` when it exists and `None` when it
  does not.
- `initialize_rag_system` is specified by the pure function `InitStep` on a `Store`. The
  class `RagSystem` holds the same state in fields and is proved to follow `InitStep`.
- `os.environ` is the `map` field of the class `ProcessEnv`.
- Foreign calls are fields of `Host`: `get_device`, `get_vram`, `os.path.isdir`, the
  directory glob, `read_fn` and the pdfium page count. An exception from `read_fn` or the
  page count is `None`. `get_device` is a function of the environment as it is at each
  call, so the VRAM step sees a `MINERU_DEVICE_MODE` written just before it.
- The displayer returns the text it would write to standard output, `""` when it writes
  nothing. Elapsed time is given as whole seconds.

## Model

| member | source | states |
|---|---|---|
| `Text.NatToString` | rag_core.py:70 | `str(i)` of a natural is a non-empty digit string with no leading zero |
| `Text.ParseNatToString` | rag_core.py:70 | reading the decimal text of `i` back gives `i`, so `str` is injective on naturals |
| `Records.ChunkIdInjective` | rag_core.py:70 | `chunk_<i>` and `chunk_<j>` are equal only when `i == j` |
| `Records.QualifyingIndices` | rag_core.py:77 | the positions kept by `type == "text"` and non-blank stripped `text`: strictly increasing, each in range and qualifying, and every qualifying position included (exact filter, input order) |
| `RagCore.Enrich` | rag_core.py:70 | same length as the input; record `i` keeps every original key and value and gains `chunk_id`, which is `chunk_<i>` unless the item already had one (its own value wins) |
| `RagCore.EnrichedIdsUnique` | rag_core.py:70 | for input without its own ids, the enriched records have pairwise distinct `chunk_id`s |
| `RagCore.EnrichKeepsQualifying` | rag_core.py:70-77 | enrichment does not change which items qualify for embedding |
| `Records.CheckText` | rag_core.py:77 | no contract of its own: classifies an item as not text, blank, non-blank text, or a `text` that is not a string (where `.strip()` raises); `Records.QualifyingIndices` and `RagCore.EnrichedStep` state what follows from it |
| `Records.Qualifies` | my_rag.py:84 | no contract of its own: an item is embedded iff its `type` is "text" and its stripped `text` is non-empty; used by the contracts of `Records.QualifyingIndices` and `RagCore.QualifyingDocs` |
| `RagCore.DocOf` | rag_core.py:77 | no contract of its own: the document of a qualifying item, with its text, `page = page_idx` and `chunk_id`; `RagCore.QualifyingDocs` states which items it is applied to |
| `RagCore.DocStep` | rag_core.py:77 | no contract of its own: what the comprehension does with one item (skip, keep, AttributeError, KeyError); characterised on enriched items by `RagCore.EnrichedStep` |
| `RagCore.EnrichKeepsText` | rag_core.py:70-77 | adding `chunk_id` leaves an item's text check as it was |
| `RagCore.EnrichedStep` | rag_core.py:70-77 | an enriched item is skipped, kept with text, page and `chunk_<i>`, or raises AttributeError, exactly as its raw item's text check says |
| `RagCore.QualifyingDocs` | rag_core.py:77 | succeeds iff no item raises; otherwise the error is that of the first raising item; on success one document per qualifying item, in order, carrying its text, `page = page_idx` (None when absent) and its `chunk_id` |
| `RagCore.EnrichedDocsFailOnlyOnText` | rag_core.py:70-77 | on an enriched list, building documents fails only on a text item whose `text` is not a string (a missing `chunk_id` cannot happen) |
| `RagCore.ReferenceMap` | rag_core.py:99 | succeeds iff every item has a `chunk_id` (else KeyError at the first one without); every item's id is a key; every key maps to an item of the list carrying that id |
| `RagCore.GetReferenceMap` | rag_core.py:90-99 | the map is `{}` when the enriched file does not exist |
| `RagCore.ReferenceMapLastWins` | rag_core.py:99 | the map holds, for an id, the last item carrying it |
| `RagCore.ReferenceMapKeys` | rag_core.py:99 | the keys are exactly the set of `chunk_id`s of the list |
| `RagCore.EnrichedReferenceMap` | rag_core.py:70-99 | after enriching items without ids, `chunk_<i>` maps to enriched record `i` |
| `RagCore.BuiltDocsAreReferenced` | rag_core.py:77-99 | whenever both comprehensions over a list return, every document's `chunk_id` is a key of the reference map |
| `RagCore.DocsAreReferenced` | rag_core.py:77-99 | when every item has a `chunk_id` and a readable text, both comprehensions succeed, and (referential completeness) every document's `chunk_id` is a key of the reference map built from the same list, mapped to a record with that id |
| `RagCore.InitStep` | rag_core.py:57-84 | the raw file is never written; nothing is inserted unless the outcome is Ready; None is returned iff the collection is empty and neither file exists; an existing enriched file is kept; past the early returns the enriched file exists afterwards |
| `RagCore.WarmStartWritesNothing` | rag_core.py:57-88 | a non-empty collection gets no writes, both files stay as they are, and the store is returned |
| `RagCore.MissingRawChangesNothing` | rag_core.py:62-69 | empty collection, no enriched file, no raw file: returns None and writes nothing |
| `RagCore.EnrichedFileReused` | rag_core.py:62-75 | an existing enriched file is used unchanged; the result does not depend on the raw file (no staleness check) |
| `RagCore.InitIdempotent` | rag_core.py:57-84 | a second initialisation performs no further writes and has the same outcome |
| `RagCore.ColdStartCardinality` | rag_core.py:57-81 | from an empty collection and only the raw file: the enriched file is written; on success the collection holds exactly as many documents as there are qualifying raw items; on a raised error nothing was inserted; success iff every text item's `text` is a string |
| `RagCore.IndexedDocsAreReferenced` | rag_core.py:57-99 | after a successful fill, every indexed document's `chunk_id` is a key of the reference map from the enriched file, which can always be built when this call wrote the file |
| `RagCore.SampleIndexesTwoChunks` | rag_core.py:70-81 | text, image, text: two documents are indexed, as `chunk_0` (page 0) and `chunk_2` (page 1) |
| `RagCore.RagSystem.Initialize` | rag_core.py:26-88 | the new collection, files and outcome are those of `InitStep` on the old state; the raw file is never written |
| `MyRag.DocumentOf` | my_rag.py:85-93 | no contract of its own: the document of qualifying item `i`, with `page` defaulting to "N/A", `level` to 0, `type` copied and id `chunk_<i>`; `MyRag.DocumentIdsDistinct` and `MyRag.BuildDocuments` state its ids and texts |
| `MyRag.Documents` | my_rag.py:82-94 | the documents number exactly the qualifying items, at most the number of items |
| `MyRag.BuildDocuments` | my_rag.py:82-94 | succeeds iff no text item's `text` is a non-string; else AttributeError at the first such item; on success the documents are those of the qualifying items in order, with `chunk_<i>` from the original position, `page` defaulting to "N/A", `level` to 0, and `type` copied |
| `MyRag.DocumentsByIndex` | my_rag.py:82-94 | the k-th document is the one of the k-th qualifying item, built with that item's original position |
| `MyRag.DocumentIdsDistinct` | my_rag.py:83-91 | each document's id names the position of its item, whose text it carries; ids are pairwise distinct (gaps where items were skipped) |
| `MyRag.SameIdsAsEnrichment` | my_rag.py:83-91 | on a content list whose items carry no `chunk_id` of their own and whose texts are all strings, my_rag.py and rag_core.py produce the same number of documents, with the same ids and texts (an item's own `chunk_id` would win in rag_core.py but not in my_rag.py) |
| `MyRag.Configured` | my_rag.py:39-55 | no contract of its own: `all([...])` over an env triple, every variable set and non-empty; `MyRag.RunPipeline` states the early returns it decides |
| `MyRag.RunPipeline` | my_rag.py:26-105 | missing or empty LLM triple returns first, then the EMBED triple, then a missing file; it raises AttributeError iff some text item has a non-string text; it returns before indexing iff all texts are readable and no item qualifies; indexing happens iff all checks pass and at least one item qualifies, with exactly `Documents(items)` |
| `CliClient.DeviceMode` | mineru/cli/client.py:175-179 | no contract of its own: `--device` if given, otherwise what `get_device()` returns; `CliClient.EnvDefaultsFillsAbsent` states where it is written |
| `CliClient.VirtualVramSize` | mineru/cli/client.py:183-188 | no contract of its own: characterised case by case by `CliClient.VirtualVramRule` |
| `CliClient.RoundHalfEven` | mineru/cli/client.py:187 | `round` gives the nearest integer, ties to the even one |
| `CliClient.VirtualVramRule` | mineru/cli/client.py:183-188 | `--vram` if given; otherwise, for a `cuda` or `npu` device, `round` (ties to even) of its measured VRAM, which is within 0.5 of it; otherwise 1 |
| `CliClient.EnvDefaults` | mineru/cli/client.py:174-193 | preset variables keep their values; only the three `MINERU_*` keys can be added |
| `CliClient.ClientBackendLeavesEnv` | mineru/cli/client.py:174 | a backend ending in `-client` leaves the environment unchanged |
| `CliClient.EnvDefaultsFillsAbsent` | mineru/cli/client.py:174-193 | otherwise all three keys are set; an absent device mode becomes `--device` or what `get_device()` returns on the environment as it was; an absent VRAM becomes `str` of the VRAM rule for what `get_device()` returns after the device step; an absent model source becomes `--source` |
| `CliClient.EnvDefaultsIdempotent` | mineru/cli/client.py:180-193 | defaulting twice gives the same environment as once |
| `CliClient.VramIgnoresPresetDevice` | mineru/cli/client.py:175-190 | when `get_device()` does not read `MINERU_DEVICE_MODE`, the VRAM written does not depend on a preset `MINERU_DEVICE_MODE` |
| `CliClient.VramFollowsPresetDevice` | mineru/cli/client.py:175-190 | when `get_device()` returns `MINERU_DEVICE_MODE` whenever it is set, the VRAM written is that of `--device` if given; otherwise of the preset `MINERU_DEVICE_MODE` if there is one; otherwise of the detected device |
| `CliClient.SetIfAbsent` | mineru/cli/client.py:180-193 | no contract of its own: `if os.getenv(key, None) is None: os.environ[key] = value`, the shape of each of the three steps; `CliClient.EnvDefaults` and `CliClient.EnvDefaultsFillsAbsent` state what the steps leave |
| `CliClient.WithDeviceMode` | mineru/cli/client.py:180-181 | no contract of its own: the environment after the `MINERU_DEVICE_MODE` step, the one `get_device()` sees in the VRAM step; used by the contract of `CliClient.EnvDefaultsFillsAbsent` |
| `CliClient.ProcessEnv.ApplyDefaults` | mineru/cli/client.py:174-193 | the environment after the in-place updates is `EnvDefaults` of the environment before |
| `CliClient.Suffix` | mineru/cli/client.py:241 | no contract of its own: `PurePath.suffix`, from the last dot on unless that dot starts or ends the name; characterised by `CliClient.StemSuffixSplit` |
| `CliClient.Stem` | mineru/cli/client.py:205 | no contract of its own: `PurePath.stem`, the name without its suffix; characterised by `CliClient.StemSuffixSplit` |
| `CliClient.StemSuffixSplit` | mineru/cli/client.py:205-241 | stem followed by suffix is the file name; a non-empty suffix is a dot and at least one dot-free character |
| `CliClient.Selected` | mineru/cli/client.py:240-242 | a path is selected iff it is a listed entry whose suffix is among the PDF and image suffixes |
| `CliClient.SelectedIndices` | mineru/cli/client.py:240-242 | the positions of the listed entries with a PDF or image suffix: strictly increasing, each in range and matching, and every matching position included |
| `CliClient.SelectedInOrder` | mineru/cli/client.py:240-242 | the k-th selected path is the entry at the k-th matching position, so listing order and repeats are kept |
| `CliClient.InputPaths` | mineru/cli/client.py:238-245 | a directory gives the selected entries, in listing order; a file gives a one-element list |
| `CliClient.Gather` | mineru/cli/client.py:199-215 | the batch completes iff every path can be read and page-counted; otherwise the failure is at the first path that raises, and all before it succeeded |
| `CliClient.PageTotal` | mineru/cli/client.py:202-214 | no contract of its own: the sum of the per-file page counts that `total_pages` accumulates; `CliClient.GatherShape` states that the batch's total equals it |
| `CliClient.GatherShape` | mineru/cli/client.py:199-215 | a completed batch has three lists as long as the path list, in path order: file stems, the bytes `read_fn` returned, and `--lang` repeated; the page total is the sum of the per-file page counts |
| `CliClient.Announcement` | mineru/cli/client.py:218 | no contract of its own: the major-step message naming the page total; `CliClient.ParseDoc` states that it is shown before `do_parse` |
| `CliClient.ParseDocOutcome` | mineru/cli/client.py:197-236 | no contract of its own: `Logged` at the first path whose read or page count raises, otherwise the batch with the announcement shown; `CliClient.ParseDoc` is proved to return it and `CliClient.Gather` states when each case happens |
| `CliClient.ParseDoc` | mineru/cli/client.py:197-236 | the outcome is `ParseDocOutcome`: the batch passed to `do_parse`, with the announcement printed, or the caught failure position; nothing propagates |
| `CliClient.RunClient` | mineru/cli/client.py:172-245 | the environment is defaulted as `EnvDefaults`, and `parse_doc` runs on the selected documents with a displayer created from `--user_friendly_progress` |
| `UserDisplay.NewDisplayer` | mineru/utils/user_display.py:6-12 | `start_time` is recorded iff the displayer is enabled |
| `UserDisplay.DivMod60` | mineru/utils/user_display.py:23 | `minutes * 60 + seconds == elapsed` and `seconds < 60` |
| `UserDisplay.Pad2` | mineru/utils/user_display.py:26 | `{n:02d}` is a digit string reading back as `n`: exactly two characters below 100, otherwise all digits without padding |
| `UserDisplay.Clock` | mineru/utils/user_display.py:23-26 | no contract of its own: `MM:SS` from `divmod(elapsed, 60)`; characterised by `UserDisplay.ClockWidth` and `UserDisplay.ClockTailRoundTrip` |
| `UserDisplay.ClockWidth` | mineru/utils/user_display.py:23-26 | the `MM:SS` stamp is five characters iff under 100 minutes; minutes are not capped |
| `UserDisplay.StampedLine` | mineru/utils/user_display.py:26-32 | no contract of its own: lead, tag, `MM:SS`, "] " and the message; characterised by `UserDisplay.StampedLineRoundTrip` |
| `UserDisplay.ClockTailRoundTrip` | mineru/utils/user_display.py:23-26 | `MM:SS] message` decodes back to the elapsed seconds and the message |
| `UserDisplay.StampedLineRoundTrip` | mineru/utils/user_display.py:22-30 | a stamped line decodes back to its elapsed seconds and its message |
| `UserDisplay.Show` | mineru/utils/user_display.py:14-32 | writes nothing iff the displayer is disabled |
| `UserDisplay.ShowRoundTrip` | mineru/utils/user_display.py:21-32 | an enabled `show` writes one line that decodes back to the step kind (major or not), elapsed seconds and message |
| `UserDisplay.Success` | mineru/utils/user_display.py:34-47 | writes nothing iff the displayer is disabled |
| `UserDisplay.SuccessRoundTrip` | mineru/utils/user_display.py:41-47 | an enabled `success` writes a banner line, a stamped line decoding back to the total seconds and the message, then a banner line and a blank line |

## Left out

- app.py is not part of this model. That covers the Streamlit UI, the global tracer slot,
  LlamaDebugHandler event capture and the float event durations.
- The collection counts the documents handed to the index. The nodes that LlamaIndex's
  default splitter makes from them are not modelled, so a long `text` that becomes several
  records is still one document here. The zero/non-zero test on the count is unaffected,
  but `ColdStartCardinality` counts documents, not records.
- Model construction, embedding, ChromaDB persistence and query execution are external
  services. Only the documents handed to the index are modelled.
- `st.cache_resource` memoisation is left out. `InitIdempotent` states the once-only behaviour
  that the count check gives on its own.
- Logging, `print`, `load_dotenv`, click option parsing and `os.makedirs` are I/O and are
  left out.
- JSON parsing and encoding are left out, as are file encodings and `indent`. A file is its
  list of records, and writing then reading the enriched file returns the same list.
- A JSON file whose top level is not a list, or whose items are not objects, is not
  modelled.
- JSON numbers are integers here; floats are not distinguished.
- Records.Value: arrays and objects are a single opaque `Composite`. So a `chunk_id` that
  Python could not hash (TypeError) is not modelled.
- Records.Value: Python's `True == 1` key collision in a dict is not modelled.
- `get_device`, `get_vram`, `read_fn`, the pdfium page count and the directory glob are
  parameters. So are the suffix lists, because mineru/cli/common.py is not part of this
  model.
- `get_device` is taken to be a function of the environment: the up to three calls inside
  `get_virtual_vram_size` see the same environment and so agree. Whether it reads
  `MINERU_DEVICE_MODE` is not fixed; `VramIgnoresPresetDevice` and
  `VramFollowsPresetDevice` state the VRAM under either assumption.
- CliClient.RunClient: `get_device` and `get_vram` are total here. An exception from either escapes `main`
  before `parse_doc` and is not modelled, and neither is `round` of a VRAM that is not a
  finite number (None, NaN, infinity). `RunClient` therefore always reaches `parse_doc`.
- `do_parse` is not modelled: any exception it raises is caught and logged, which leaves
  the outcome as `Dispatched`.
- CliClient.RoundHalfEven: works on exact reals, not IEEE doubles.
- `Path` is a parent and a final component. Splitting a path string is not modelled.
- UserDisplay: `time.monotonic()` is replaced by the elapsed whole seconds
  `int(time.monotonic() - start_time)`, given as a parameter.
