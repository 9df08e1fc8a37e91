# Enterprise-Rag core, modelled in Dafny

This project models the question-answering core of Enterprise-Rag, a
retrieval-augmented generation service, and the script that indexes a
document directory into its vector store. The model covers these parts:

- **Ingestion chunking** (`chunk_text_doc`). The splitter output is
  stripped, blank pieces are dropped, and each kept piece carries the
  document's metadata with `chunk_index` set to its position.
- **Indexing** (`index_directory`). Documents are dispatched by type
  (text, image with a caption, anything else). Each kept chunk gets a
  digest-based id, and that id is written into a metadata dictionary
  shared by all chunks of the document. A failed document keeps the
  chunks collected before the failure. The chunks are upserted in batches
  of 50.
- **Lexical retrieval** (`BM25Retriever`). This covers the tokenizer, the
  corpus cap, the stable top-k selection and the result records.
- **Hybrid retrieval** (`normalize`, `reciprocal_rank_fusion`,
  `HybridRetriever`). This covers max-score normalisation and
  reciprocal-rank fusion. `retrieve` returns the normalised vector
  results only.
- **The answer pipeline** (`RAGPipeline`). This covers defensive
  retrieval, context formatting, one generation call, the citation tag,
  the confidence score, the hallucination flag, and the fixed answer
  returned when generation fails.
- **The Ollama client** (`OllamaLLM.generate`). This covers URL joining,
  the payload, how errors map to `RuntimeError`, and streamed versus
  single-JSON answers.

Python values are modelled explicitly in `PyValues.Value`: strings,
ints, floats, bools, `None`, dicts and other objects. Each Python
exception becomes a `Result` error (`Wrappers`). That includes the ones
the source raises without intending to, such as a `.get` on metadata
that is not a dict. Collaborators the code calls but does not define are
parameters or constant fields, typed as functions:

- the text splitter, the image captioner and `Path.resolve`
- SHA-1, `math.exp` and BM25Okapi scoring
- the vector store's queries, the prompt template and the HTTP client
- JSON decoding and `float()` on strings

Code that works by mutation keeps that form. The loops of
`index_directory`, `chunk_text_doc`, `format_context`, `_safe_retrieve`,
`search`, the fusion loop and the stream loop are methods with loop
invariants. Each is proved equal to a specification function, and the
properties are lemmas about those functions. The shared metadata
dictionary of a document is a `MetaDict` object. The model tracks which
chunks alias it. The store is a `Store` object that logs its upserts.

Where the code does less than its names and comments suggest (a
normalisation to [0, 1], a fused retrieval), the model follows the code:

- `normalize` does not clamp. A zero maximum raises `ZeroDivisionError`,
  and a negative maximum is divided by as it is.
- Fused entries with equal scores are left in Python set order, which the
  model does not fix. Ties are not broken by key.
- `retrieve` returns the vector results, not the fusion. A normalisation
  error in either list makes the whole call fail, and `_safe_retrieve`
  then returns `[]`. When the first 1000 documents hold no token at all,
  fitting BM25Okapi raises, the index stays unbuilt and every `retrieve`
  raises.
- `run` returns at most three chunks, because `retrieved[:5]` is taken
  from a list already cut to three.
- The two engines are queried one after the other.
- In `search`, the `normalize` flag only decides whether the call raises.
  The score array is a numpy array, and it has no truth value once it has
  more than one element.
- In `index_directory`, the handler of a failed document reads
  `d.get("meta", {}).get("file", ...)` without `or {}`. A document whose
  raw `meta` value is not a dict therefore raises again from the handler.
  That exception escapes the function, and the model says so.

## Model

| member | source | states |
|---|---|---|
| Guardrails.ConfidenceScore | app/rag/guardrails.py:5-22 | the confidence lies in [0, 1], and is 0.0 when nothing was retrieved |
| Guardrails.ValidScores | app/rag/guardrails.py:9 | at most one valid score per record |
| Guardrails.Clamp | app/rag/guardrails.py:22 | the result lies in [0, 1] and leaves a value already in [0, 1] unchanged |
| Guardrails.LengthFactorBounds | app/rag/guardrails.py:14-19 | the length factor lies in [0, 1), and is 0 for a length of 0 or less |
| Guardrails.LengthFactorMonotone | app/rag/guardrails.py:17 | a longer answer never lowers the length factor |
| Guardrails.ConfidenceMonotoneInLength | app/rag/guardrails.py:15-22 | a longer answer never lowers the confidence |
| Guardrails.ConfidenceFirstThreeOnly | app/rag/guardrails.py:9 | records after the third never change the confidence |
| Guardrails.ValidScoresEntry | app/rag/guardrails.py:9 | a missing score counts as 0.0; a score that is not an int or float is skipped; a number is kept as a float |
| Guardrails.ValidScoresAppend | app/rag/guardrails.py:9 | the valid scores of a concatenation are the concatenation of the valid scores |
| Guardrails.NoValidScores | app/rag/guardrails.py:9-11 | records without numeric scores give no valid scores |
| Guardrails.ConfidenceWithoutScores | app/rag/guardrails.py:9-20 | with no numeric score among the first three, the confidence is 0.4 times the length factor |
| Guardrails.ThreePerfectScores | app/rag/guardrails.py:9-20 | three scores of 1.0 and an empty answer give exactly 0.6 |
| Guardrails.HallucinationThreshold | app/rag/guardrails.py:25-26 | no citation always flags; with a citation it flags exactly when the confidence is below 0.4 |
| Guardrails.HallucinationFlag | app/rag/guardrails.py:25-26 | definition of the flag; HallucinationThreshold states it |
| Guardrails.Mean | app/rag/guardrails.py:10-13 | definition of the average, 0 for no value; MeanBetween states its bounds |
| Guardrails.SumBetween | app/rag/guardrails.py:13 | a sum of n values in [lo, hi] lies between n·lo and n·hi |
| Guardrails.MeanBetween | app/rag/guardrails.py:13 | the average of values in [lo, hi] lies in [lo, hi] |
| Guardrails.LengthFactor | app/rag/guardrails.py:15-19 | definition of the length factor; LengthFactorBounds and LengthFactorMonotone state its properties |
| Citations.Lines | app/rag/citations.py:6-10 | one context line per chunk |
| Citations.FormatContext | app/rag/citations.py:4-11 | the loop's output is the numbered lines of the chunks, joined by newlines; no chunks give "" |
| Citations.AttachCitations | app/rag/citations.py:14-22 | no chunks return the answer unchanged; a non-string answer with chunks raises AttributeError |
| Citations.JoinContains | app/rag/citations.py:11 | every joined line occurs in the joined string |
| Citations.ContextHasEveryChunk | app/rag/citations.py:4-11 | the context holds the numbered line of every chunk |
| Citations.LineParts | app/rag/citations.py:10 | a line holds the chunk's text and `(source_id=<sid>)`, and starts with `[` and ends with `)` |
| Citations.SourceIdRule | app/rag/citations.py:7-9 | the source is `file`, else `id`, else `unknown`; `#p<page>` is added exactly when the page is truthy |
| Citations.SourceId | app/rag/citations.py:7-9 | definition of the source id; SourceIdRule states its rule |
| Citations.Source | app/rag/citations.py:7 | definition of the source entry; SourceIdRule states its rule |
| Citations.Page | app/rag/citations.py:8 | definition of the page entry; SourceIdRule states how it is used |
| Citations.Line | app/rag/citations.py:10 | definition of one context line; LineParts states its shape |
| Citations.AttachedCitationShape | app/rag/citations.py:17-22 | with chunks and a string answer, the result is the stripped answer, a space and the `[doc:<sid>]` tag of the first chunk: it starts with the stripped answer and ends with that tag |
| Citations.TaggedShape | app/rag/citations.py:22 | the tagged string starts with the body and contains the tag |
| Citations.CitationUsesFirstChunk | app/rag/citations.py:17 | chunks after the first never change the citation |
| Chunker.KeptPositions | app/ingestion/chunker.py:20-23 | every kept position lies in the splitter output |
| Chunker.ChunkTextDoc | app/ingestion/chunker.py:13-29 | the loop yields exactly the kept pieces, or raises AttributeError when the metadata is not a dict and some piece is kept |
| Chunker.TextChunks | app/ingestion/chunker.py:13-29 | definition of what `chunk_text_doc` yields or raises; ChunkTextDoc is proved equal to it, and TextChunksClean, BlankYieldsNothing and DictMetaNeverRaises state its properties |
| Chunker.Kept | app/ingestion/chunker.py:19-29 | definition of the kept pieces; KeptAtPositions, KeptStripped, KeptMeta and KeptSkipsBlank state their properties |
| Chunker.KeptAtPositions | app/ingestion/chunker.py:20-29 | the j-th yielded piece is the stripped part at the j-th kept position, with `chunk_index` set to that position |
| Chunker.KeptPositionsIncrease | app/ingestion/chunker.py:20-23 | kept positions strictly increase, so the splitter's order is kept |
| Chunker.KeptPositionsComplete | app/ingestion/chunker.py:20-23 | every part that is not blank is kept |
| Chunker.KeptStripped | app/ingestion/chunker.py:21-23 | every yielded text is non-empty and already stripped |
| Chunker.KeptMeta | app/ingestion/chunker.py:26-29 | each yielded meta is the document's meta plus an int `chunk_index` within range; no other key changes |
| Chunker.TextChunksClean | app/ingestion/chunker.py:21-23 | whatever the call yields is non-empty and stripped |
| Chunker.BlankYieldsNothing | app/ingestion/chunker.py:16-17 | content that is not a string, or only whitespace, yields nothing, whatever the splitter does |
| Chunker.DictMetaNeverRaises | app/ingestion/chunker.py:24-25 | with dict metadata the call never raises |
| Chunker.KeptSkipsBlank | app/ingestion/chunker.py:22-23 | appending a blank part changes nothing |
| Bm25.LowerAll | app/retrieval/bm25.py:10 | the lower-cased text never shortens the input and holds no ASCII capital; it lower-cases character by character (LowerAllSplit) |
| Bm25.Lower | app/retrieval/bm25.py:10 | each character lower-cases to a non-empty string without ASCII capitals: A-Z to a-z, the Kelvin sign U+212A to "k", U+0130 to "i" and U+0307, anything else to itself |
| Bm25.WordPrefixLen | app/retrieval/bm25.py:10 | the longest prefix of token characters ends at a non-token character or at the end |
| Bm25.Runs | app/retrieval/bm25.py:10 | every token found is non-empty and made of `[a-z0-9]` |
| Bm25.WordPrefixLenSplit | app/retrieval/bm25.py:10 | a separator ends the first run |
| Bm25.RunsSplit | app/retrieval/bm25.py:10 | a non-token character splits the tokens into those before it and those after it |
| Bm25.RunsWord | app/retrieval/bm25.py:10 | a well-formed token is found as itself |
| Bm25.LowerAllSplit | app/retrieval/bm25.py:10 | lower-casing works character by character |
| Bm25.TokenizeSplit | app/retrieval/bm25.py:8-10 | a character whose lower-case form holds no token character splits the text: the tokens of the whole are those of the two sides |
| Bm25.TokenizeWord | app/retrieval/bm25.py:8-10 | a word that lower-cases to `[a-z0-9]+` is one token, its lower-case form |
| Bm25.Tokenize | app/retrieval/bm25.py:8-10 | every token is non-empty and made of `[a-z0-9]`; LowerAllSplit and LowerAllAppend give the lower-cased text and RunsSplit, RunsSkip and RunsWord its runs, which together determine the tokens |
| Bm25.LowerAllAppend | app/retrieval/bm25.py:10 | lower-casing distributes over concatenation |
| Bm25.RunsSkip | app/retrieval/bm25.py:10 | separators in front of a text add no token |
| Bm25.RunsAcross | app/retrieval/bm25.py:10 | a non-empty run of separators splits the tokens into those before and those after it |
| Bm25.TokenizeKelvinSign | app/retrieval/bm25.py:10 | the Kelvin sign alone is the token "k" |
| Bm25.TokenizeDottedCapitalI | app/retrieval/bm25.py:10 | U+0130 alone is the token "i"; its combining dot separates |
| Bm25.TokenizeDottedCapitalIJoins | app/retrieval/bm25.py:8-10 | inside a word U+0130 joins the token on its left: the tokens of `a` U+0130 `b` are "ai" and "b" |
| Bm25.Enumerate | app/retrieval/bm25.py:29 | one (index, score) pair per score, with indices in increasing order |
| Bm25.RankedProperties | app/retrieval/bm25.py:29 | the ranked list has min(k, n) pairs of distinct positions with their own scores, ordered by score and then by position, and no position left out scores more than a kept one or as much from an earlier position |
| Bm25.Ranked | app/retrieval/bm25.py:29 | definition: the first k of the stably sorted (position, score) pairs; RankedProperties states its size, order, distinct positions and top-k property |
| Bm25.RankedTop | app/retrieval/bm25.py:29 | every position left out is outranked by every ranked position |
| Bm25.RankedTopAt | app/retrieval/bm25.py:29 | the same for one position left out |
| Bm25.OutrankedBeyond | app/retrieval/bm25.py:29 | in score-then-position order, an entry at or after position n is outranked by every entry before n |
| Bm25.ResultOf | app/retrieval/bm25.py:38-43 | definition of one result record: the document text, the score, the meta (default {}) and the text length; SearchResultsShape states which records `search` returns |
| Bm25.Results | app/retrieval/bm25.py:35-43 | one result per ranked pair |
| Bm25.ScoreVector | app/retrieval/bm25.py:27-28 | one Okapi score per indexed document |
| Bm25.BM25Retriever.constructor | app/retrieval/bm25.py:13-22 | keeps the first `max_docs` documents and tokenizes each one |
| Bm25.TokenizeCorpus | app/retrieval/bm25.py:22 | definition of the token lists of the corpus, one per document; the BM25Retriever constructor, Build and FitRaisesExactly state what is built from it |
| Bm25.Build | app/retrieval/bm25.py:13-23 | the retriever, or ZeroDivisionError exactly when no kept document has a token (the BM25Okapi fit divides by the corpus size and the vocabulary size) |
| Bm25.FitRaisesExactly | app/retrieval/bm25.py:23 | a corpus with a token in some document can be fitted; an empty corpus cannot |
| Bm25.BM25Retriever.Search | app/retrieval/bm25.py:26-45 | the result loop returns exactly the search outcome, including the ValueError of the flag test |
| Bm25.SearchResultsShape | app/retrieval/bm25.py:26-45 | without the flag: min(k, n) results for k >= 0, in non-increasing score order; the j-th is the record of the j-th ranked document with its score, the documents are distinct, and no document left out scores more than a returned one |
| Bm25.SearchOutcome | app/retrieval/bm25.py:26-45 | definition of what `search` returns; BM25Retriever.Search is proved equal to it, and SearchResultsShape and NormalizeFlagIrrelevant state its properties |
| Bm25.SearchTiesInCorpusOrder | app/retrieval/bm25.py:29 | results with equal scores keep corpus order |
| Bm25.NormalizeFlagIrrelevant | app/retrieval/bm25.py:31-33 | the flag never changes the results; it raises exactly when the corpus has more than one document |
| Sorting.Insert | app/retrieval/bm25.py:29 | insertion adds one element and keeps the multiset |
| Sorting.SortDesc | app/retrieval/bm25.py:29 | the sort is a permutation of its input |
| Sorting.InsertMembers | app/retrieval/bm25.py:29 | the inserted list holds `x` and the old elements, no more |
| Sorting.InsertSorted | app/retrieval/bm25.py:29 | inserting into a sorted list keeps it sorted |
| Sorting.SortDescSorted | app/retrieval/bm25.py:29 | the output is in non-increasing key order |
| Sorting.SortDescMembers | app/retrieval/hybrid_retriever.py:25 | the sort keeps exactly the input's elements |
| Sorting.InsertNoDuplicates | app/retrieval/hybrid_retriever.py:25 | inserting a new element keeps the list free of repeats |
| Sorting.SortDescNoDuplicates | app/retrieval/hybrid_retriever.py:25 | sorting a list without repeats gives one without repeats |
| Sorting.InsertRanked | app/retrieval/bm25.py:29 | inserting a pair with a smaller index than all others keeps score-then-index order |
| Sorting.RankedCons | app/retrieval/bm25.py:29 | a head that beats every later pair keeps the order |
| Sorting.SortDescStable | app/retrieval/bm25.py:29 | the sort is stable: ties stay in input order |
| Hybrid.MaxScore | app/retrieval/hybrid_retriever.py:29 | the maximum is attained and bounds every score |
| Hybrid.Rescaled | app/retrieval/hybrid_retriever.py:30 | only the score changes, to the number that times the maximum gives the old score; for a positive maximum at least the score it is at most 1, exactly 1 at the maximum, and non-negative for a non-negative score |
| Hybrid.Normalize | app/retrieval/hybrid_retriever.py:28-30 | empty gives empty; it raises ZeroDivisionError exactly when the maximum is 0; otherwise every item is rescaled by the maximum |
| Hybrid.NormalizeMaxIsOne | app/retrieval/hybrid_retriever.py:28-30 | with a positive maximum, every score is at most 1, non-negative scores stay non-negative, and some score is exactly 1 |
| Hybrid.NormalizedAt | app/retrieval/hybrid_retriever.py:28-30 | the same bounds for one item; the maximal item maps to 1 |
| Hybrid.FusionKeyResolution | app/retrieval/hybrid_retriever.py:11-13 | the key is a truthy id, else a truthy file, else the first 64 characters of the text, each taken as a dict key (numbers by value) |
| Hybrid.FusionKey | app/retrieval/hybrid_retriever.py:11-13 | definition of `key(d)` as the dict key it becomes; FusionKeyResolution, FusionKeyTruthyOrText and FusionKeyUnifiesIds state its behaviour |
| Hybrid.FusionKeyTruthyOrText | app/retrieval/hybrid_retriever.py:13 | the key is truthy, or it is the text prefix |
| PyValues.HashKey | app/retrieval/hybrid_retriever.py:15-17 | the dict key of a value keeps its truthiness and its hashability |
| PyValues.HashKeyEquality | app/retrieval/hybrid_retriever.py:15-17 | two hashable values are one dict key exactly when Python's `==` holds between them (`True`, `1` and `1.0` are one key) |
| PyValues.ToFloat | app/rag/pipeline.py:83 | `float()` gives a float or int by value and raises for None, a dict or another object |
| Hybrid.FusionKeyUnifiesIds | app/retrieval/hybrid_retriever.py:11-17 | chunks whose truthy ids are equal in Python's sense (`1` and `1.0`) share a key |
| Hybrid.RankMap | app/retrieval/hybrid_retriever.py:15-16 | every rank lies in 1..len |
| Hybrid.RankMapLastOccurrence | app/retrieval/hybrid_retriever.py:15-16 | a key is ranked exactly when it occurs, at the 1-based position of its last occurrence |
| Hybrid.RankMapOccurs | app/retrieval/hybrid_retriever.py:15-16 | a key is ranked exactly when it occurs |
| Hybrid.RankMapLast | app/retrieval/hybrid_retriever.py:15-16 | the rank is that of the last occurrence |
| Hybrid.Rank | app/retrieval/hybrid_retriever.py:20-21 | definition of `ranks.get(k, 10**6)`; AbsentRanksLast states what the sentinel does |
| Hybrid.AbsentRanksLast | app/retrieval/hybrid_retriever.py:15-22 | in a list shorter than 10**6 a key it lacks ranks below every key it holds, and fuses to a smaller score than such a key with the same rank in the other list |
| Hybrid.FusedScore | app/retrieval/hybrid_retriever.py:22 | definition of the fused score in exact arithmetic; FusedScoreBounds, FusedScoreDecreasing and TopInBothDominates state its properties |
| Hybrid.FusedScoreDecreasing | app/retrieval/hybrid_retriever.py:22 | for a positive denominator, a larger rank in the first list gives a smaller fused score |
| Hybrid.ReciprocalDecreasing | app/retrieval/hybrid_retriever.py:22 | 1/b < 1/a for 0 < a < b |
| Hybrid.FusedScoreBounds | app/retrieval/hybrid_retriever.py:22 | for K > 0 each fused score lies in (0, 2/(K+1)] |
| Hybrid.TopInBothDominates | app/retrieval/hybrid_retriever.py:22 | ranked first in both lists scores 2/(K+1), at least any other score |
| Hybrid.FirstWithKey | app/retrieval/hybrid_retriever.py:23 | the item returned is the first one with the key, no earlier item having it; None exactly when no item has it |
| Hybrid.Representative | app/retrieval/hybrid_retriever.py:23 | the representative has the key; RepresentativeFirst and RepresentativeSecond say which item it is |
| Hybrid.RepresentativeFirst | app/retrieval/hybrid_retriever.py:23 | when the first list holds the key, the representative is its first item with the key |
| Hybrid.RepresentativeSecond | app/retrieval/hybrid_retriever.py:23 | when the first list lacks the key, the representative is the second list's first item with it, or none |
| Hybrid.InputsRepresented | app/retrieval/hybrid_retriever.py:17-23 | every key of the union has a representative |
| Hybrid.PositiveConstantNeverRaises | app/retrieval/hybrid_retriever.py:22 | with K > 0 no denominator is 0 |
| Hybrid.Entry | app/retrieval/hybrid_retriever.py:24 | the fused item keeps its key |
| Hybrid.ReciprocalRankFusion | app/retrieval/hybrid_retriever.py:10-26 | it raises TypeError when some key is a dict, else ZeroDivisionError exactly when some denominator is 0; otherwise it returns min(limit, #keys) entries, one per distinct key, sorted by fused score, and no key left out scores above an entry kept |
| Hybrid.FuseScores | app/retrieval/hybrid_retriever.py:19-24 | the scoring loop gives one entry per key, covering all keys, or raises exactly on a zero denominator |
| Hybrid.ProgressStart | app/retrieval/hybrid_retriever.py:18-19 | the loop state holds before any key |
| Hybrid.ProgressStep | app/retrieval/hybrid_retriever.py:19-24 | one key moves from remaining to done, with its entry appended |
| Hybrid.ProgressDone | app/retrieval/hybrid_retriever.py:19-24 | after all keys: entries of distinct keys, covering all keys |
| Hybrid.Entries | app/retrieval/hybrid_retriever.py:18-24 | definition of the entries of the keys in visiting order; EntriesShape and FuseScores state what they hold |
| Hybrid.EntriesSnoc | app/retrieval/hybrid_retriever.py:24 | fusing one more key appends its entry |
| Hybrid.EntriesShape | app/retrieval/hybrid_retriever.py:19-24 | entries of a repeat-free list of exactly the keys are distinct and cover the keys |
| Hybrid.SortedFusion | app/retrieval/hybrid_retriever.py:25 | sorting keeps one entry per key, covering all keys, now in score order |
| Hybrid.SortedEntries | app/retrieval/hybrid_retriever.py:25 | sorting keeps the entries and their distinct keys |
| Hybrid.SortedCovers | app/retrieval/hybrid_retriever.py:25 | sorting keeps every key present |
| Hybrid.PrefixFusion | app/retrieval/hybrid_retriever.py:26 | truncating keeps sorted, distinct entries, min(limit, #keys) of them |
| Hybrid.TruncatedFusion | app/retrieval/hybrid_retriever.py:25-26 | truncation keeps the best: an omitted key scores at most every kept entry |
| Hybrid.OmittedScoresBelow | app/retrieval/hybrid_retriever.py:25-26 | the same, for one omitted key |
| Hybrid.EntryScoreAt | app/retrieval/hybrid_retriever.py:24 | an entry's score is its key's fused score |
| Hybrid.HybridRetriever.constructor | app/retrieval/hybrid_retriever.py:33-36 | the store's queries and settings are kept; no lexical index yet |
| Hybrid.HybridRetriever.EnsureBm25 | app/retrieval/hybrid_retriever.py:38-42 | the lexical index of the first 1000 documents is built on first use only, and at most once; when the BM25Okapi fit raises, ZeroDivisionError is returned and the index stays unbuilt |
| Hybrid.HybridRetriever.Retrieve | app/retrieval/hybrid_retriever.py:44-76 | if the fit of the first 1000 documents raises, ZeroDivisionError; otherwise RetrieveOutcome of the vector results and of the lexical search over those documents and their tokens, which can itself raise (RetrieveRaises) |
| Hybrid.RetrieveIgnoresLexical | app/retrieval/hybrid_retriever.py:53-64 | the lexical results only decide whether `retrieve` raises: any two lexical lists that normalise give the same result, the vector results each divided by their maximum, and it succeeds exactly when the vector list is empty or its maximum is not 0 |
| Hybrid.RetrieveOutcome | app/retrieval/hybrid_retriever.py:50-76 | definition of what `retrieve` returns once the index exists; RetrieveIgnoresLexical and RetrieveRaises state its properties |
| Hybrid.RetrieveRaises | app/retrieval/hybrid_retriever.py:50-57 | it raises ZeroDivisionError exactly when the vector or the lexical list is non-empty with a maximum score of 0 |
| Pipeline.Normalized | app/rag/pipeline.py:75-87 | never more normalized chunks than records |
| Pipeline.Origins | app/rag/pipeline.py:77-87 | every origin is a record position |
| Pipeline.RAGPipeline.constructor | app/rag/pipeline.py:15-17 | keeps the retriever, the generator and the helpers |
| Pipeline.RAGPipeline.SafeRetrieve | app/rag/pipeline.py:66-89 | the loop returns [] on a raise, else the normalized records |
| Pipeline.RAGPipeline.Run | app/rag/pipeline.py:19-64 | the answer is the pipeline's response to the first three chunks and to the generator's outcome on their prompt; at most three chunks; confidence in [0, 1] |
| Pipeline.CitedIsString | app/rag/pipeline.py:49-54 | citing a string answer never takes the except branch |
| Pipeline.NormalizedSnoc | app/rag/pipeline.py:77-87 | one more record adds its coerced chunk, or nothing |
| Pipeline.NormalizedOrigins | app/rag/pipeline.py:75-89 | normalized chunks are the coercions of exactly the kept records, in input order |
| Pipeline.CoerceRules | app/rag/pipeline.py:78-87 | non-dicts and non-string texts are skipped; the score is `float()`, or 0.0 when that fails or the score is missing; meta is kept only when it is a dict |
| Pipeline.Coerce | app/rag/pipeline.py:75-87 | definition of one record's coercion; CoerceRules states its rules |
| Pipeline.ScoreField | app/rag/pipeline.py:81-85 | definition of the coerced score; CoerceRules states it |
| Pipeline.MetaField | app/rag/pipeline.py:86 | definition of the coerced meta; CoerceRules states it |
| Pipeline.Retrieved | app/rag/pipeline.py:66-89 | definition of what `_safe_retrieve` returns; RAGPipeline.SafeRetrieve is proved equal to it, and Origins and NormalizedOrigins state where each record comes from |
| Pipeline.Fallback | app/rag/pipeline.py:39-47 | definition of the fixed answer of a failed generation; RespondShape states when it is returned |
| Pipeline.HasCitation | app/rag/pipeline.py:57 | definition of the citation test; FlagFollowsConfidence states that a cited answer passes it |
| Pipeline.RespondShape | app/rag/pipeline.py:36-64 | the answer keeps the retrieved list; confidence in [0, 1]; a failed generation, or one that is not a string among the values modelled, gives the fixed fallback |
| Pipeline.Respond | app/rag/pipeline.py:36-64 | definition of the dictionary `run` returns; RespondShape, FlagFollowsConfidence and EmptyRetrievalScoresZero state its properties |
| Pipeline.CitedAnswer | app/rag/pipeline.py:49-54 | definition of the cited answer text; CitedIsString states that citing a string gives it |
| Pipeline.FlagFollowsConfidence | app/rag/pipeline.py:50-57 | with chunks the answer is cited, and the flag is set exactly when the confidence is below 0.4 |
| Pipeline.EmptyRetrievalScoresZero | app/rag/pipeline.py:49-57 | with nothing retrieved: the raw answer, confidence 0, flagged |
| Ollama.OllamaLLM.constructor | app/models/llm_ollama.py:18-20 | keeps the settings and the client |
| Ollama.OllamaLLM.Generate | app/models/llm_ollama.py:22-59 | a failed request raises its RuntimeError; a 2xx response gives the streamed or the single-JSON answer |
| Ollama.CollectStream | app/models/llm_ollama.py:46-56 | the stream loop collects exactly the stream values, or its error |
| Ollama.StreamValues | app/models/llm_ollama.py:46-56 | definition of the values a stream yields; CollectStream is proved equal to it, and StreamSkipsLine, StreamAddsResponse and StreamErrorSticks state its properties |
| Ollama.JoinStrings | app/models/llm_ollama.py:56 | definition of `"".join(full)`, TypeError when a piece is not a string; StreamAnswerSnoc and OllamaLLM.Generate state its use |
| Ollama.StreamAnswer | app/models/llm_ollama.py:46-56 | definition of the streamed answer; StreamAnswerSnoc states how a line extends it, and OllamaLLM.Generate returns it for a stream |
| Ollama.StreamErrorSticks | app/models/llm_ollama.py:48-55 | once the loop raised, later lines change nothing |
| Ollama.JoinUrlSeam | app/models/llm_ollama.py:12-15 | exactly one slash at the seam; only slashes are trimmed |
| Ollama.BaseTrimmed | app/models/llm_ollama.py:12-15 | `base.rstrip("/")` is the base without a run of trailing slashes and ends in no slash |
| Ollama.PathTrimmed | app/models/llm_ollama.py:12-15 | `path.lstrip("/")` is the path without a run of leading slashes and starts with no slash |
| Ollama.JoinUrl | app/models/llm_ollama.py:12-15 | definition of the joined URL; JoinUrlSeam and JoinUrlIgnoresExtraSlashes state its properties |
| Ollama.Slashes | app/models/llm_ollama.py:13-14 | a run of k slashes |
| Ollama.TrimEndSlashes | app/models/llm_ollama.py:13 | trailing slashes on the base are ignored |
| Ollama.TrimStartSlashes | app/models/llm_ollama.py:14 | leading slashes on the path are ignored |
| Ollama.TrimStartSkip | app/models/llm_ollama.py:15 | `lstrip("/")` drops every slash in front of a path |
| Ollama.JoinUrlIgnoresExtraSlashes | app/models/llm_ollama.py:12-15 | extra slashes on either side do not change the URL |
| Ollama.PayloadKeys | app/models/llm_ollama.py:24-29 | model and prompt are always sent; `"stream": False` exactly when not streaming |
| Ollama.Payload | app/models/llm_ollama.py:24-29 | definition of the request body; PayloadKeys states its keys |
| Ollama.RequestErrorIsRuntime | app/models/llm_ollama.py:36-44 | every failed request, a 404 among them, raises a RuntimeError naming the URL |
| Ollama.RequestError | app/models/llm_ollama.py:36-44 | definition of the error of a failed request; RequestErrorIsRuntime states it |
| Ollama.StreamSkipsLine | app/models/llm_ollama.py:49-55 | blank and undecodable lines add nothing |
| Ollama.StreamAddsResponse | app/models/llm_ollama.py:51-53 | a decoded object adds its `response`, or "" |
| Ollama.StreamAnswerSnoc | app/models/llm_ollama.py:53-56 | the streamed answer is the in-order concatenation of the pieces |
| Ollama.BodyWithoutResponse | app/models/llm_ollama.py:58-59 | a JSON body without `response` answers "" |
| Ollama.BodyAnswer | app/models/llm_ollama.py:58-59 | definition of the single-JSON answer; BodyWithoutResponse states the default |
| Indexing.Texts | app/scripts/index_documents.py:47-48 | definition of the texts of the chunker pieces, in order; TextsClean and DispatchedTextsClean state that they are non-empty and stripped |
| Indexing.ToChunksFromDoc | app/scripts/index_documents.py:43-58 | definition of what `_to_chunks_from_doc` yields or raises; TextDispatch, ImageDispatch, UncaptionedImage, OtherTypeYieldsNothing and DispatchedTextsClean state it case by case |
| Indexing.Stripped | app/scripts/index_documents.py:93 | one stripped text per chunk |
| Indexing.Step | app/scripts/index_documents.py:93-100 | definition of one chunk of a document: skipped when blank, numbered and given its id otherwise, and the end of the document when the id raises; NextRun and RunDocStops state it |
| Indexing.FinalMeta | app/scripts/index_documents.py:96-99 | definition of the meta a stored chunk shows at the end; SharedMetaShowsLastId states it |
| Indexing.SharedNow | app/scripts/index_documents.py:96-98 | definition of the shared dictionary during a document; SharedNowSnoc, FreshStep and SharedStep state how it evolves |
| Indexing.HandlerRaises | app/scripts/index_documents.py:101-103 | definition of the handler failing again; CollectRaises and FailureSwallowed state its effect |
| Indexing.Batches | app/scripts/index_documents.py:115-116 | ceil(n/50) batches |
| Indexing.Accepted | app/scripts/index_documents.py:114-122 | the batches before the first rejected one are all accepted |
| Indexing.Observe | app/scripts/index_documents.py:99 | definition of the collected chunks as their dictionaries read now; CollectChunks, FreshStep, SharedStep and ObserveAppend state how that view evolves |
| Indexing.MetaDict.constructor | app/scripts/index_documents.py:96 | a dictionary with the given entries |
| Indexing.Store.constructor | app/scripts/index_documents.py:75 | an empty store |
| Indexing.Store.Upsert | app/scripts/index_documents.py:117 | the batch is logged; it fails exactly when the store rejects it |
| Indexing.IndexDirectory | app/scripts/index_documents.py:71-124 | 0 for a missing directory or no chunks; the handler's AttributeError escapes with the store untouched; otherwise the batches up to and including the first rejected one are upserted, and the count is the number of chunks when all batches went in, else 0 |
| Indexing.UpsertBatches | app/scripts/index_documents.py:112-122 | the store receives the batches in order up to the first rejection, and `ok` says whether every batch went in |
| Indexing.NextBatch | app/scripts/index_documents.py:115-117 | the slice at `start` is the next batch; after the last one every batch was sent |
| Indexing.CollectChunks | app/scripts/index_documents.py:88-104 | the loop raises exactly when the collection does; otherwise its chunks read as the collected chunks |
| Indexing.CollectDocument | app/scripts/index_documents.py:91-104 | one document's chunks are appended, or its error is reported |
| Indexing.CollectDoc | app/scripts/index_documents.py:92-100 | the inner loop gives the document's chunks, stops where an id fails, and keeps the aliasing of the shared dictionary |
| Indexing.NextRun | app/scripts/index_documents.py:92-100 | one more text advances the loop state by one step |
| Indexing.RunDone | app/scripts/index_documents.py:92-100 | a loop that ended, or stopped, has reached the document's run |
| Indexing.ProcessChunk | app/scripts/index_documents.py:93-100 | one chunk: blank skipped, id built, dictionary stamped, chunk appended |
| Indexing.AppendChunk | app/scripts/index_documents.py:96-100 | the chunk's id is the id function's value; on success the chunk is appended and the shared dictionary shows its id |
| Indexing.StampChunk | app/scripts/index_documents.py:96-98 | an empty meta gets a fresh dictionary; otherwise the shared one gets `id` |
| Indexing.SharedNowSnoc | app/scripts/index_documents.py:98 | a later id overwrites the earlier one |
| Indexing.AliasingSnoc | app/scripts/index_documents.py:96-99 | appending a chunk keeps the aliasing |
| Indexing.ObservedIds | app/scripts/index_documents.py:99 | the collected ids and texts are those of the run |
| Indexing.FreshStep | app/scripts/index_documents.py:96-99 | a chunk with its own dictionary extends the stored view |
| Indexing.SharedStep | app/scripts/index_documents.py:96-99 | a chunk with the shared dictionary extends the stored view, every earlier chunk now showing the new id |
| Indexing.IgnoresId | app/scripts/index_documents.py:96-97 | neither `or {}` nor earlier ids change the next id |
| Indexing.RunDocStops | app/scripts/index_documents.py:91-104 | once an id failed, the rest of the document is skipped |
| Indexing.MakeChunkIdIgnoresId | app/scripts/index_documents.py:60-69 | the id does not depend on the `id` entry |
| Indexing.MakeChunkId | app/scripts/index_documents.py:60-69 | definition of `_make_chunk_id`; IdDefaults, IdRaises, IdEndsWithDigest and MakeChunkIdIgnoresId state its properties |
| Indexing.ObserveAppend | app/scripts/index_documents.py:99 | the view of a concatenation is the concatenation of the views |
| Indexing.CollectStep | app/scripts/index_documents.py:90-104 | one more document raises or appends its chunks |
| Indexing.DocOutcome | app/scripts/index_documents.py:90-104 | definition of what one document adds or raises; DocOutcomeIds, FailureKeepsEarlierChunks and FailureSwallowed state its properties |
| Indexing.Collect | app/scripts/index_documents.py:88-104 | definition of the collected chunks; CollectChunks is proved equal to it, and CollectIds, IdsDistinct and CollectRaises state its properties |
| Indexing.CollectErrSticks | app/scripts/index_documents.py:90-104 | an escaped exception ends the collection |
| IndexingProps.IdDefaults | app/scripts/index_documents.py:60-69 | with no file or page, the id is the resolved path of `unknown` (the name itself if it did not resolve), `##`, and 24 digest characters of `text|<that path>||idx` |
| IndexingProps.IdRaises | app/scripts/index_documents.py:61-67 | building an id raises exactly when `file` is present and not a string |
| IndexingProps.IdEndsWithDigest | app/scripts/index_documents.py:67-68 | an id ends with the first 24 characters of its input's digest |
| IndexingProps.BarThenDigits | app/scripts/index_documents.py:67 | the digest input ends with `|` and the decimal index |
| IndexingProps.LastField | app/scripts/index_documents.py:67 | equal inputs have equal index fields |
| IndexingProps.DigestInputsDiffer | app/scripts/index_documents.py:67 | different indices give different digest inputs |
| IndexingProps.RunIds | app/scripts/index_documents.py:92-100 | a document's kept chunks are numbered consecutively from its start; skipped chunks use no number |
| IndexingProps.PairsNumberedSnoc | app/scripts/index_documents.py:97-100 | numbering one more non-empty text with the next index keeps a run numbered |
| IndexingProps.StepNumbered | app/scripts/index_documents.py:93-100 | one chunk step keeps a run numbered |
| IndexingProps.StoredIds | app/scripts/index_documents.py:96-99 | the stored ids are the ids of the numbered texts |
| IndexingProps.DocOutcomeIds | app/scripts/index_documents.py:90-104 | every chunk a document adds has the id of its number |
| IndexingProps.DocOutcomesIds | app/scripts/index_documents.py:90-104 | the same, for every document and start |
| IndexingProps.CollectUpToNumbered | app/scripts/index_documents.py:89-100 | numbering runs on across documents from 0 |
| IndexingProps.CollectIds | app/scripts/index_documents.py:88-100 | the k-th collected chunk has the id built with index k |
| IndexingProps.IdsDistinct | app/scripts/index_documents.py:60-69 | two collected chunks have different ids unless two different inputs share their 24-character digest prefix |
| IndexingProps.TextDispatch | app/scripts/index_documents.py:46-48 | a text document with dict meta yields its chunks with that meta |
| IndexingProps.ImageDispatch | app/scripts/index_documents.py:49-54 | a captioned image yields chunks whose meta is the document's plus `modality: image` |
| IndexingProps.UncaptionedImage | app/scripts/index_documents.py:49-56 | an image without a caption yields nothing, or raises in the log line when its meta is not a dict |
| IndexingProps.OtherTypeYieldsNothing | app/scripts/index_documents.py:57-58 | any other type yields nothing |
| IndexingProps.DispatchedTextsClean | app/scripts/index_documents.py:43-54 | every dispatched text is non-empty and stripped, so the loop's strip changes nothing |
| IndexingProps.TextsClean | app/scripts/index_documents.py:47-48 | clean pieces give clean texts |
| IndexingProps.SharedMetaShowsLastId | app/scripts/index_documents.py:96-99 | with non-empty meta every chunk of a document shows the last id; with empty meta each shows its own |
| IndexingProps.FailureKeepsEarlierChunks | app/scripts/index_documents.py:91-104 | a failing id keeps the chunks before it and ends the document |
| IndexingProps.FailureSwallowed | app/scripts/index_documents.py:101-104 | when the handler does not raise, a failing document adds what it collected before the failure |
| IndexingProps.CollectUpToRaises | app/scripts/index_documents.py:101-104 | an escaped exception comes from some document's handler |
| IndexingProps.CollectRaises | app/scripts/index_documents.py:101-104 | the whole collection raises only through a handler |
| IndexingProps.BatchSizes | app/scripts/index_documents.py:112-116 | every batch has 1 to 50 chunks |
| IndexingProps.BatchesCons | app/scripts/index_documents.py:115-116 | the first batch is the first 50 chunks, then the rest |
| IndexingProps.FlattenBatches | app/scripts/index_documents.py:115-116 | the batches concatenate back to the chunks, in order |
| IndexingProps.UpsertedChunks | app/scripts/index_documents.py:114-122 | when all batches are accepted the store receives every chunk in order; otherwise the upserts stop at the rejected batch |

## Left out

- Logging, `print` and `traceback` output are left out. They produce no
  result.
- The document loader and the directory walk are left out.
  `index_directory` receives `dirExists` and the loaded documents.
- The FAISS and Chroma stores are not part of this model. The store is
  its two queries plus a log of upserts that may raise.
- Embeddings, the settings object, the text-splitter library
  (`make_text_splitter`), the FastVLM subprocess, SHA-1, `Path.resolve`,
  `math.exp`, BM25Okapi scoring, the prompt template, JSON decoding and
  the HTTP client are all parameters. `IsExp` states the properties of
  `exp` that the lemmas use.
- Floating point is modelled as exact reals. `str()` of floats, dicts and
  other objects is a placeholder rendering.
- `async`/`await` and concurrency are left out. The calls run
  sequentially, as the code awaits them.
- A stream connection that fails part-way through (`aiter_lines` raising)
  is left out.
- Pipeline.Retrieval: a retriever that returns `None` is not modelled.
  `or []` then gives an empty list, the same as `Returned([])`.
- IndexingProps.IdsDistinct: stated modulo a collision of the 24-character
  digest prefix, which the code cannot rule out.
- Documents are values. Writing `id` into the metadata also changes the
  loaded document itself, and that is not tracked beyond the collected
  chunks.
- Pipeline.RAGPipeline.Run: a generation that is a list (a JSON
  `response` holding a list) is not modelled, because `Value` has no list
  variant. Python slices such a list; with chunks, `attach_citations`
  then raises AttributeError and `run` answers with the list itself.
- Pipeline.RespondShape: for the same reason it does not cover a list
  answer, which is neither the fallback nor a string.
- Bm25.Build: the BM25Okapi fit is taken to raise exactly when no kept
  document has a token (its average length or its IDF average divides by
  zero); the rank_bm25 library itself is not part of this model.
- The two log calls in `bm25.py` pass keyword arguments to a standard
  library logger, which raises TypeError once that logger emits INFO
  records. The model takes the default level, where they emit nothing.
- Bm25.Lower: characters other than ASCII capitals, U+212A and U+0130 are
  kept as they are. Python lower-cases many more, but none of them to a
  string holding an ASCII letter or digit, so the tokens are the same.
- Hash keys: a NaN score or key is not modelled, because
  numbers are exact reals.
- Ollama.RequestError: every request failure is one of the two wrapped
  kinds. A failure outside `httpx.HTTPError` (an invalid URL, say)
  escapes unwrapped in the code; the model has no such outcome.
