# RAGstream core in Dafny

RAGstream is a retrieval-augmented prompting workbench. Documents are scanned,
diffed against a manifest, cut into character windows, embedded and stored in
a vector store. A user prompt travels through the pipeline as a mutable
`SuperPrompt`: preprocessing maps its markdown sections onto a canonical body,
and the A2 prompt shaper asks an LLM agent, built from a JSON config, to choose
the system, audience, tone, depth and confidence. Training scripts prepare the
A2 dataset: they clean it, cut it into token windows, convert it for chat
fine-tuning, and encode and pad it for LoRA. A separate tool prints the project
tree as Markdown.

This project models that core and proves properties of the model. There is one
Dafny module per source file, plus three shared modules:

- `Common`: options, results, exceptions, and `str.strip`, `split`, `join` and
  decimal rendering.
- `PyJson`: JSON-shaped Python values with truthiness, `dict.get` and
  `repr`/`str`.
- `StrOrder`: Python's string order and `sorted`.

The code takes the source's own form:

- **Classes with `modifies` clauses.** The state the source updates in place:
  - the NumPy store's parallel lists and index map;
  - the Chroma collection;
  - the agent factory's cache;
  - the `SuperPrompt` record;
  - the tree writer.
- **Methods with loop invariants.** The loops, each proved against a
  specification function:
  - the manifest diff, chunking, the ingestion run;
  - the config and schema loops, the message builders, parse;
  - the section parser, `preprocess`, A2's merge;
  - windowing, conversion, masking and padding;
  - the tree printer.
- **Functions and lemmas.** The pure lookups and renderings.

The model stands in for everything outside the core:

- **Parameters.** The tokenizer, `json.loads`/`json.dumps`, SHA-256, the
  embedder, the LLM client, the clock, `fnmatch` and path normalisation.
- **Maps.** The file system is a map from paths to contents, and the Chroma
  collection is a map from ids to (embedding, metadata).

## Model

| member | source | states |
|---|---|---|
| FileManifest.LoadManifest | ragstream/ingestion/file_manifest.py:118-142 | a missing file loads as version "1", empty generated_at and no files; invalid JSON is a ValueError and a parsed non-dict a TypeError; a parsed dict keeps its keys and gains the three defaults, a list under "files" kept as read and a non-list "files" becoming [] |
| FileManifest.Stamp | ragstream/ingestion/file_manifest.py:216-222 | generated_at is set to the clock's value when missing or falsy and kept otherwise; every other key is unchanged |
| FileManifest.StampIdempotent | ragstream/ingestion/file_manifest.py:216-222 | stamping an already stamped manifest again changes nothing |
| FileManifest.Find | ragstream/ingestion/file_manifest.py:181 | `prev_by_path.get(path)` is None exactly when no record has the path, and otherwise a record with that path |
| FileManifest.PutHolds | ragstream/ingestion/file_manifest.py:172-173 | after `d[rec["path"]] = rec` the dict holds the record and otherwise only records it held before |
| FileManifest.FindPut | ragstream/ingestion/file_manifest.py:172-173 | looking up the path just written gives the new record; any other path is unaffected |
| FileManifest.ByPath | ragstream/ingestion/file_manifest.py:172-173 | the path-keyed dict holds at most one record per path |
| FileManifest.ByPathLastWins | ragstream/ingestion/file_manifest.py:172-173 | when a path repeats in the input, the last record with that path is the one kept |
| FileManifest.ByPathPaths | ragstream/ingestion/file_manifest.py:172-173 | the keyed dict has exactly the paths of its input |
| FileManifest.KeyByPath | ragstream/ingestion/file_manifest.py:172-173 | the comprehension, written as a loop, computes ByPath |
| FileManifest.ToProcessOf | ragstream/ingestion/file_manifest.py:180-188 | a scanned record is sent to processing exactly when its path is new or its sha256 differs from the previous one |
| FileManifest.UnchangedOf | ragstream/ingestion/file_manifest.py:180-190 | a scanned record is unchanged exactly when the previous record with its path has the same sha256 |
| FileManifest.TombstonesOf | ragstream/ingestion/file_manifest.py:193-195 | a previous record is a tombstone exactly when the scan has no record with its path |
| FileManifest.ClassifySplits | ragstream/ingestion/file_manifest.py:180-190 | to-process and unchanged together are the scanned records, each counted once (a multiset partition) |
| FileManifest.Diff | ragstream/ingestion/file_manifest.py:169-197 | fails exactly when reading the previous records fails, with that error; otherwise the loops build the three lists of the diff: current records whose path is new or whose sha256 differs go to to_process, those with an equal sha256 to unchanged, and previous records whose path is gone to tombstones |
| FileManifest.ItemError | ragstream/ingestion/file_manifest.py:172 | `rec["path"]` succeeds exactly on a dict holding "path" whose value is hashable; a non-dict is a TypeError, a missing "path" a KeyError, a list or dict path an unhashable TypeError |
| FileManifest.FirstBad | ragstream/ingestion/file_manifest.py:172 | the position of the first previous item the comprehension fails on, and None exactly when none fails |
| FileManifest.PrevFilesRead | ragstream/ingestion/file_manifest.py:169-172 | no manifest dict or no "files" gives no records; stored records are read as they are; a JSON list fails with the error of its first bad item |
| FileManifest.ClassifyScan | ragstream/ingestion/file_manifest.py:180-190 | the first loop builds to-process and unchanged in scan order |
| FileManifest.CollectTombstones | ragstream/ingestion/file_manifest.py:193-195 | the second loop builds the tombstones in previous-manifest order |
| FileManifest.DiffPartition | ragstream/ingestion/file_manifest.py:180-195 | every current record lands in exactly one of to-process and unchanged, and no tombstone has a current path |
| FileManifest.DiffClassifies | ragstream/ingestion/file_manifest.py:181-190 | the last record for a scanned path goes to to-process when the path is new or its sha256 changed, and to unchanged when the sha256 is equal |
| FileManifest.TombstonesExact | ragstream/ingestion/file_manifest.py:193-195 | tombstones are exactly the previous (keyed) records whose path is absent from the scan |
| FileManifest.NonDictIsEmpty | ragstream/ingestion/file_manifest.py:169 | a previous manifest that is not a dict counts as empty: everything is to be processed, nothing unchanged, no tombstones |
| FileManifest.AllNew | ragstream/ingestion/file_manifest.py:182-184 | against an empty previous manifest every record is new |
| FileManifest.RediffIsEmpty | ragstream/ingestion/file_manifest.py:169-197 | diffing a scan against a manifest holding the same records finds nothing to process and no tombstones |
| FileManifest.NothingToProcess | ragstream/ingestion/file_manifest.py:180-190 | when no record is new or changed, nothing is sent to processing |
| FileManifest.NoTombstones | ragstream/ingestion/file_manifest.py:193-195 | when every previous path is still scanned there are no tombstones |
| FileManifest.UnchangedAll | ragstream/ingestion/file_manifest.py:180-190 | when no record is new or changed, every record is unchanged |
| Chunker.Window | ragstream/ingestion/chunker.py:34-35 | window `i` starts at `i * (chunk_size - overlap)` and holds at most chunk_size characters |
| Chunker.SizeError | ragstream/ingestion/chunker.py:22-27 | a ValueError exactly when chunk_size <= 0, overlap < 0 or overlap >= chunk_size |
| Chunker.Split | ragstream/ingestion/chunker.py:12-40 | ValueError exactly when chunk_size <= 0, overlap < 0 or overlap >= chunk_size; otherwise the (file_path, stripped window) pairs of the windows chunk_size - overlap apart that start below len(text), whitespace-only windows dropped |
| Chunker.SlideWindows | ragstream/ingestion/chunker.py:29-40 | the while loop over `start` returns exactly the stripped non-blank windows, in order |
| Chunker.KeepMember | ragstream/ingestion/chunker.py:35-37 | every kept chunk carries the file path, is non-empty, and is the strip of one window |
| Chunker.KeepAtMost | ragstream/ingestion/chunker.py:36-37 | dropping blank windows never adds chunks |
| Chunker.ChunksAreStrippedWindows | ragstream/ingestion/chunker.py:33-37 | each chunk carries the input path unchanged, is non-empty, at most chunk_size long, has no whitespace at either end, and is the strip of some window starting below len(text) |
| Chunker.WindowsFromAt | ragstream/ingestion/chunker.py:33-38 | the k-th window the loop visits is window number k, starting at k * stride |
| Chunker.WindowsCount | ragstream/ingestion/chunker.py:33-38 | the loop visits ceil(len / stride) windows |
| Chunker.WindowCountCeil | ragstream/ingestion/chunker.py:33-38 | that window count times the stride is below len + stride |
| Chunker.ChunkCountBound | ragstream/ingestion/chunker.py:33-38 | the chunk count is at most ceil(len(text) / (chunk_size - overlap)) |
| Chunker.EmptyTextNoChunks | ragstream/ingestion/chunker.py:33 | empty text gives no chunks |
| Chunker.ShortText | ragstream/ingestion/chunker.py:33-38 | text no longer than the stride gives one chunk, its strip, exactly when it is not all whitespace, and none otherwise |
| VectorStoreNp.IndexedDistinct | ragstream/ingestion/vector_store_np.py:19-22 | a store whose `_id2idx` maps every id to its own position holds no id twice |
| VectorStoreNp.LastIndex | ragstream/ingestion/vector_store_np.py:57-58 | the last position of an id among the first n batch entries, or None when it does not occur there |
| VectorStoreNp.FreshRows | ragstream/ingestion/vector_store_np.py:38-45 | the rows queued in `new_rows` are those whose id the store does not know yet |
| VectorStoreNp.Overwrite | ragstream/ingestion/vector_store_np.py:38-43 | overwriting known ids in place leaves the ids, the index and the array lengths as they were |
| VectorStoreNp.OverwriteRow | ragstream/ingestion/vector_store_np.py:40-43 | a known id keeps its row, which ends up holding the vector and metadata of the id's last occurrence in the batch; rows not named in the batch keep theirs |
| VectorStoreNp.FreshRowIds | ragstream/ingestion/vector_store_np.py:44-45 | every batch id the store does not know is queued as a new row |
| VectorStoreNp.EmptyMetaRows | ragstream/ingestion/vector_store_np.py:39 | with an empty meta list every new row gets the metadata {} |
| VectorStoreNp.IndexNewAt | ragstream/ingestion/vector_store_np.py:54-58 | after the index loop, a new id maps to start plus its last position among the new rows; other ids keep their entries |
| VectorStoreNp.VectorStoreNP.constructor | ragstream/ingestion/vector_store_np.py:15-22 | a new store is empty, valid and indexed (loading a pickle is not part of this model) |
| VectorStoreNp.VectorStoreNP.Add | ragstream/ingestion/vector_store_np.py:25-60 | raises ValueError exactly on a length mismatch or a ragged batch, on a known row whose width neither matches nor broadcasts, or on new rows whose width differs from the stored one; empty ids or vectors, a rejected batch and a failed assignment change nothing; a failed concatenation keeps the rows overwritten before it; a success is AddSpec of the old state with width-1 rows broadcast; the store stays valid and rectangular |
| VectorStoreNp.VectorStoreNP.OverwriteKnown | ragstream/ingestion/vector_store_np.py:37-45 | the first loop raises, changing nothing, exactly when a known row cannot take its vector; otherwise it overwrites known rows in place with the broadcast vectors and returns the queued new rows |
| VectorStoreNp.VectorStoreNP.Upsert | ragstream/ingestion/vector_store_np.py:36-58 | for a well-formed batch: fails with ValueError exactly on a failed assignment or concatenation; otherwise the new state is AddSpec with the rows broadcast |
| VectorStoreNp.VectorStoreNP.AppendQueued | ragstream/ingestion/vector_store_np.py:47-58 | the concatenation fails exactly when new rows have another width, leaving the overwritten state; otherwise the queued rows are appended and indexed |
| VectorStoreNp.VectorStoreNP.SetRow | ragstream/ingestion/vector_store_np.py:42-43 | one row's vector and metadata are replaced; nothing else changes |
| VectorStoreNp.VectorStoreNP.AppendRows | ragstream/ingestion/vector_store_np.py:47-58 | the new rows are appended in batch order and indexed from the old length on |
| VectorStoreNp.AppendKeepsValid | ragstream/ingestion/vector_store_np.py:47-58 | appending keeps ids, metadata and embeddings the same length and the index pointing at matching ids |
| VectorStoreNp.AddKeepsValid | ragstream/ingestion/vector_store_np.py:38-58 | a whole add keeps the store valid |
| VectorStoreNp.AddOverwritesKnown | ragstream/ingestion/vector_store_np.py:40-43 | an id already stored keeps its index; its vector and metadata become those of its last batch occurrence, or stay when it is absent from the batch |
| VectorStoreNp.AddAppendsFresh | ragstream/ingestion/vector_store_np.py:47-58 | a new id is appended after the old rows, and `_id2idx` maps it to a position holding it |
| VectorStoreNp.AppendAt | ragstream/ingestion/vector_store_np.py:54-58 | an appended id is indexed at the old length plus its last position among the new rows |
| VectorStoreNp.FreshIdsDistinctIndexed | ragstream/ingestion/vector_store_np.py:54-58 | distinct new ids are indexed at consecutive positions after the old rows, which keep their positions |
| VectorStoreNp.AddKeepsIndexed | ragstream/ingestion/vector_store_np.py:38-58 | when the batch's new ids are distinct, `_id2idx[_ids[i]] == i` still holds after add |
| VectorStoreNp.DuplicateNewIdAppendedTwice | ragstream/ingestion/vector_store_np.py:44-58 | a new id repeated in one batch is appended twice and indexed at its second copy, so the ids are no longer distinct |
| VectorStoreNp.FitTo | ragstream/ingestion/vector_store_np.py:42 | assigning into a row of width d gives a row of width d when the vector has width d or 1, a one-element vector repeated, and any other vector unchanged |
| VectorStoreNp.Fitted | ragstream/ingestion/vector_store_np.py:42 | every batch row as it lands in a stored row |
| VectorStoreNp.FittedUnchanged | ragstream/ingestion/vector_store_np.py:42 | rows of the stored width land unchanged |
| VectorStoreNp.SameWidthFitted | ragstream/ingestion/vector_store_np.py:42-53 | a 2-D batch of the stored width, or any batch into an empty store, lands unchanged |
| VectorStoreNp.OverwriteNoKnown | ragstream/ingestion/vector_store_np.py:38-43 | a batch with no stored id overwrites nothing |
| VectorStoreNp.FreshRowsEmptyIff | ragstream/ingestion/vector_store_np.py:44-47 | no row is queued exactly when every batch id is stored, so the concatenation is skipped |
| VectorStoreNp.OverwriteUniform | ragstream/ingestion/vector_store_np.py:40-43 | overwriting known rows with vectors of the stored width keeps every row that width |
| VectorStoreNp.FreshRowsUniform | ragstream/ingestion/vector_store_np.py:44-45 | rows queued from a batch of one width all have that width |
| VectorStoreNp.ClashKeepsValid | ragstream/ingestion/vector_store_np.py:38-45 | when the assignment does not raise, the overwritten store stays valid and rectangular with the same width |
| VectorStoreNp.OverwriteKeepsValid | ragstream/ingestion/vector_store_np.py:38-43 | overwriting in place keeps the store valid |
| VectorStoreNp.EmptyStoreKnowsNothing | ragstream/ingestion/vector_store_np.py:19-22 | a store without an array knows no id |
| VectorStoreNp.KnownRowsFit | ragstream/ingestion/vector_store_np.py:40-42 | when the assignment does not raise, every known row's vector lands with the stored width |
| VectorStoreNp.AddKeepsWidth | ragstream/ingestion/vector_store_np.py:47-58 | a successful add keeps the array rectangular, of the stored width or of the batch width for a first add |
| VectorStoreNp.AppendUniform | ragstream/ingestion/vector_store_np.py:52-53 | concatenating rows of the stored width keeps one width |
| VectorStoreNp.BroadcastThenConcatFails | ragstream/ingestion/vector_store_np.py:42-53 | a width-1 batch with one known and one new id broadcasts into the known row, then fails to concatenate, keeping the overwritten row |
| VectorStoreNp.VectorStoreNP.Query | ragstream/ingestion/vector_store_np.py:62-77 | an empty store gives []; a query vector of another width than the stored rows is a ValueError; otherwise min(max(1, k), N) ids of rows whose scores are a top-k selection in non-increasing order, distinct when the store is indexed |
| VectorStoreNp.Scores | ragstream/ingestion/vector_store_np.py:69-72 | one similarity per stored row |
| VectorStoreNp.Pick | ragstream/ingestion/vector_store_np.py:77 | the ids at the selected positions, in selection order |
| VectorStoreNp.TopK | ragstream/ingestion/vector_store_np.py:74-76 | k distinct row positions in non-increasing score order, each scoring at least as high as any position left out |
| VectorStoreNp.ArgMaxFrom | ragstream/ingestion/vector_store_np.py:75-76 | a position of the highest score among those not yet selected |
| VectorStoreNp.SwapPerm | ragstream/ingestion/vector_store_np.py:75-76 | exchanging two entries keeps a permutation of the row positions |
| VectorStoreNp.SelectStep | ragstream/ingestion/vector_store_np.py:75-76 | moving the best remaining position to the front of the unselected part extends a valid partial selection by one |
| ChromaStore.MatchingIds | ragstream/ingestion/chroma_vector_store_base.py:197-198 | the ids a metadata filter looks up are ids of the collection |
| ChromaStore.AtLeastOne | ragstream/ingestion/chroma_vector_store_base.py:150 | `max(1, int(k))`: k itself when positive, else 1 |
| ChromaStore.NormalizeWhere | ragstream/ingestion/chroma_vector_store_base.py:153 | a missing or empty filter becomes None; any other filter is passed unchanged |
| ChromaStore.MakeChunkIdShape | ragstream/ingestion/vector_store_chroma.py:66-72 | the id is rel_path, "::", sha256, "::" and the decimal chunk index, in that order |
| ChromaStore.MakeChunkIdInjective | ragstream/ingestion/vector_store_chroma.py:72 | two ids for the same file version are equal only for equal chunk indices |
| ChromaStore.ChunkIdsDistinct | ragstream/ingestion/vector_store_chroma.py:72 | the ids of one file version's chunks 0, 1, 2, … are pairwise distinct |
| ChromaStore.VectorStoreChroma.constructor | ragstream/ingestion/vector_store_chroma.py:41-60 | the store opens the named collection, "docs" by default, with what it already holds |
| ChromaStore.VectorStoreChroma.Add | ragstream/ingestion/chroma_vector_store_base.py:109-125 | an empty batch returns before any length check; a length mismatch is a ValueError and changes nothing; otherwise the collection is upserted with the batch as given (identity hooks) |
| ChromaStore.VectorStoreChroma.Query | ragstream/ingestion/chroma_vector_store_base.py:147-166 | an empty vector is a ValueError; otherwise the search gets k clamped to at least 1 and a falsy filter turned into None, and its ids are returned unchanged (identity hooks) |
| ChromaStore.VectorStoreChroma.DeleteWhere | ragstream/ingestion/chroma_vector_store_base.py:190-200 | an empty filter changes nothing; otherwise exactly the ids matched at lookup time are removed |
| ChromaStore.VectorStoreChroma.DeleteFileVersion | ragstream/ingestion/vector_store_chroma.py:74-93 | with the filter written as the `$and` of the two equalities (see Findings): removes the ids whose metadata has this path and sha256 and returns how many there were, so the count drops by that number; no match removes nothing and returns 0 |
| ChromaStore.GetWherePlain | ragstream/ingestion/vector_store_chroma.py:89 | `get(where=d)` with a plain metadata dict raises ValueError exactly when the dict does not hold one key; otherwise it returns the ids whose metadata matches |
| ChromaStore.DeleteFileVersionAsWritten | ragstream/ingestion/vector_store_chroma.py:89-93 | as written, with the two-key dict as `where`, every call raises ValueError before anything is deleted |
| ChromaStore.RemoveCount | ragstream/ingestion/vector_store_chroma.py:89-93 | removing a set of stored ids lowers the count by its size |
| ChromaStore.UpsertEffect | ragstream/ingestion/chroma_vector_store_base.py:119-123 | after an upsert of distinct ids each id holds its new vector (and new metadata, or the old one when none is given); other ids are untouched |
| ChromaStore.UpsertKeys | ragstream/ingestion/chroma_vector_store_base.py:119-123 | the stored ids after an upsert are the old ones plus the batch's |
| ChromaStore.DeleteWhereRemovesExactly | ragstream/ingestion/chroma_vector_store_base.py:195-200 | an id survives a non-empty filter delete exactly when it does not match the filter |
| Ingestion.NewManager | ragstream/ingestion/ingestion_manager.py:101-110 | construction succeeds exactly when doc_root exists and is a directory; FileNotFoundError when it does not exist, NotADirectoryError when it is not a directory |
| Ingestion.RecordsOf | ragstream/ingestion/ingestion_manager.py:157-169 | one record per loaded document, in load order, with its relative path, sha256, mtime and size |
| Ingestion.TextFor | ragstream/ingestion/ingestion_manager.py:154-195 | the loaded text for a relative path, or None when the loader did not return that path |
| Ingestion.BatchOf | ragstream/ingestion/ingestion_manager.py:199-213 | the three batch lists have one entry per kept chunk and are equally long |
| Ingestion.KeptIndices | ragstream/ingestion/ingestion_manager.py:203-205 | the chunk positions the loop keeps lie below the number of chunks |
| Ingestion.KeptIndicesExact | ragstream/ingestion/ingestion_manager.py:203-205 | the kept positions are increasing and are exactly those whose chunk text is not all whitespace |
| Ingestion.BatchOfShape | ragstream/ingestion/ingestion_manager.py:203-213 | kept chunk number i holds the text of chunk k, the id path::sha_new::k and the metadata {path, sha256, chunk_idx = k, mtime}, k being the chunk's position among all chunks |
| Ingestion.BatchIdsDistinct | ragstream/ingestion/ingestion_manager.py:207 | the ids of one file's batch are pairwise distinct |
| Ingestion.CollectBatch | ragstream/ingestion/ingestion_manager.py:199-213 | the chunk loop builds exactly BatchOf |
| Ingestion.SumUtf8 | ragstream/ingestion/ingestion_manager.py:230 | the sum of the UTF-8 lengths of the batch texts |
| Ingestion.DeleteStep | ragstream/ingestion/ingestion_manager.py:219-227 | deleting an old version touches no counter but deleted_old_versions, and does nothing without an old sha |
| Ingestion.VersionIds | ragstream/ingestion/ingestion_manager.py:224-226 | the ids of a file version are stored ids |
| Ingestion.CountIds | ragstream/ingestion/ingestion_manager.py:224-226 | `_count_ids` is the number of stored ids whose metadata has this path and sha256 |
| Ingestion.DeleteOldVersion | ragstream/ingestion/ingestion_manager.py:219-227 | count, delete by filter, count again, and add the difference to the deleted-old counter, as DeleteStep says |
| Ingestion.DeleteVersion | ragstream/ingestion/ingestion_manager.py:224-227 | removes exactly the ids matching (path, sha256) and returns their number, which is before - after |
| Ingestion.DeleteLeavesNoMatch | ragstream/ingestion/ingestion_manager.py:225-226 | after the delete, nothing matches the filter any more, so `after` is 0 |
| Ingestion.ProcessFile | ragstream/ingestion/ingestion_manager.py:186-237 | one pass of the file loop: the file is read and chunked, chunk k gets id path::sha::k and its metadata, the old version is deleted when the flag is set, the digest changed and chunks exist, and then the batch is upserted; the store ends holding the step's collection |
| Ingestion.ProcessBatch | ragstream/ingestion/ingestion_manager.py:215-237 | an empty batch is skipped; otherwise the old version is deleted before the upsert and the counters advance |
| Ingestion.ProcessAll | ragstream/ingestion/ingestion_manager.py:186-237 | the file loop over to_process is ProcessFiles, stopping at the first error |
| Ingestion.FileStepStoresChunks | ragstream/ingestion/ingestion_manager.py:215-237 | after a file with chunks is processed, each chunk id holds its embedding and its metadata |
| Ingestion.ChunksMatchUpserts | ragstream/ingestion/ingestion_manager.py:236-237 | chunks_added equals vectors_upserted after any number of files |
| Ingestion.NoOldVersionDeletesKeepIds | ragstream/ingestion/ingestion_manager.py:220-227 | without delete_old_versions no stored id disappears and the deleted-old counter does not move |
| Ingestion.MatchingShrinks | ragstream/ingestion/ingestion_manager.py:225-226 | removing ids never adds matches to a filter |
| Ingestion.DeleteTombstones | ragstream/ingestion/ingestion_manager.py:241-248 | the tombstone loop deletes each tombstone's version in turn and returns the summed before - after counts |
| Ingestion.TombstonesOnlyRemove | ragstream/ingestion/ingestion_manager.py:241-248 | deleting tombstones only removes ids |
| Ingestion.TombedExactly | ragstream/ingestion/ingestion_manager.py:241-248 | an id survives the tombstone loop exactly when it matches no tombstone's (path, sha256), and then its entry is unchanged |
| Ingestion.TombstonesCleared | ragstream/ingestion/ingestion_manager.py:241-248 | after the loop no tombstone's version has ids left |
| Ingestion.Run | ragstream/ingestion/ingestion_manager.py:149-269 | fails exactly when RunSpec fails, with its error: a bad manifest or a bad previous "files" item fails before the store is touched; the collection is the one RunCol describes, so a failure while processing keeps the upserts and deletes done before it; a success is RunSpec's statistics and the published manifest holding version "1", the stamp and the current records |
| Ingestion.PublishedManifest | ragstream/ingestion/ingestion_manager.py:251-256 | the published manifest has exactly version "1", the stamp and files equal to the current scan, and loads back as itself |
| Ingestion.RunStats | ragstream/ingestion/ingestion_manager.py:258-268 | files_scanned is the scan size, to_process + unchanged the number of distinct scanned paths, chunks_added = vectors_upserted, and the deleted counters are 0 when their flag is off |
| Ingestion.RerunIsNoOp | ragstream/ingestion/ingestion_manager.py:149-269 | re-running against the manifest the previous run published processes nothing, deletes nothing and leaves the collection as it is |
| Ingestion.InvalidSizesFailOnlyWithWork | ragstream/ingestion/ingestion_manager.py:186-198 | bad chunk sizes fail the run with ValueError only when some file has to be processed |
| Ingestion.InvalidSizesStopFirst | ragstream/ingestion/ingestion_manager.py:198 | with bad chunk sizes the first processed file raises and nothing has changed |
| Ingestion.RunColAgrees | ragstream/ingestion/ingestion_manager.py:172-269 | the collection left by a successful run is RunSpec's, and a manifest that fails to load leaves the collection as it was |
| Ingestion.BadFilesItemFailsRun | ragstream/ingestion/ingestion_manager.py:172-173 | a previous "files" list holding an item `diff` cannot key by path makes the run raise that item's error and leaves the collection unchanged |
| FieldNormalizer.FirstAllowed | ragstream/orchestration/agent_prompt_helpers/field_normalizer.py:43-47 | the first list element that is a string in allowed, or None exactly when there is none |
| FieldNormalizer.NormalizeOneSpec | ragstream/orchestration/agent_prompt_helpers/field_normalizer.py:39-58 | the result is always in allowed and is None exactly when allowed is empty; an allowed raw string is returned as is; otherwise the first allowed list element, else an allowed default string, else allowed[0] |
| FieldNormalizer.NormalizeOne | ragstream/orchestration/agent_prompt_helpers/field_normalizer.py:25-58 | the loop with its break computes NormalizeOneSpec |
| FieldNormalizer.ScanForAllowed | ragstream/orchestration/agent_prompt_helpers/field_normalizer.py:44-47 | the for/break loop finds FirstAllowed |
| FieldNormalizer.CollectAllowed | ragstream/orchestration/agent_prompt_helpers/field_normalizer.py:79-81 | duplicate-free, and holds exactly the allowed ids that occur as strings in the list |
| FieldNormalizer.CollectKeepsFirstOccurrenceOrder | ragstream/orchestration/agent_prompt_helpers/field_normalizer.py:79-81 | collected ids keep the order of their first occurrences in the raw list |
| FieldNormalizer.SelectMany | ragstream/orchestration/agent_prompt_helpers/field_normalizer.py:78-91 | the selection from a list or a single string is duplicate-free and within allowed |
| FieldNormalizer.NormalizeManySpec | ragstream/orchestration/agent_prompt_helpers/field_normalizer.py:76-100 | duplicate-free allowed ids, non-empty exactly when allowed is; the raw selection when non-empty, else the default's, else [allowed[0]] |
| FieldNormalizer.AppendAllowed | ragstream/orchestration/agent_prompt_helpers/field_normalizer.py:79-81 | the append loop with its `not in selected` test computes CollectAllowed |
| FieldNormalizer.NormalizeMany | ragstream/orchestration/agent_prompt_helpers/field_normalizer.py:61-100 | the three stages compute NormalizeManySpec |
| JsonParser.Find | ragstream/orchestration/agent_prompt_helpers/json_parser.py:50 | `str.find`: -1 when the character is absent, else its first position |
| JsonParser.RFind | ragstream/orchestration/agent_prompt_helpers/json_parser.py:51 | `str.rfind`: -1 when the character is absent, else its last position |
| JsonParser.BraceSlice | ragstream/orchestration/agent_prompt_helpers/json_parser.py:50-54 | a slice exists exactly when there is a '{' and the last '}' comes after it; it runs from the first '{' to the last '}' |
| JsonParser.ExtractJsonObject | ragstream/orchestration/agent_prompt_helpers/json_parser.py:24-60 | a dict is returned as is; a value that is neither dict nor str gives {}; a string that parses after stripping gives the parsed value, whatever its type; otherwise the brace slice if it parses, else {} |
| JsonParser.ExtractNeverFails | ragstream/orchestration/agent_prompt_helpers/json_parser.py:24-60 | the result is always an object or something the parser produced from the text; no exception escapes |
| JsonParser.NoBracesGivesEmpty | ragstream/orchestration/agent_prompt_helpers/json_parser.py:50-60 | unparsable text without '{' gives {} |
| JsonParser.ListOutputIsReturned | ragstream/orchestration/agent_prompt_helpers/json_parser.py:44-45 | text that parses to a list is returned as that list, not as an object |
| JsonParser.ExtractObject | ragstream/orchestration/agent_prompt_helpers/json_parser.py:24-60 | the object a caller can use: the extracted value when it is an object, else {} |
| ConfigLoader.OptionIds | ragstream/orchestration/agent_prompt_helpers/config_loader.py:55-59 | the option ids kept are at most the options given |
| ConfigLoader.OptionStep | ragstream/orchestration/agent_prompt_helpers/config_loader.py:56-61 | one option fails exactly when it is not a dict (`opt.get` raises) |
| ConfigLoader.CollectOptions | ragstream/orchestration/agent_prompt_helpers/config_loader.py:55-61 | the option loop fails exactly when some option is not a dict; otherwise the allowed ids are the option ids in config order, skipping falsy ids, and descriptions exist only for kept ids |
| ConfigLoader.FieldStep | ragstream/orchestration/agent_prompt_helpers/config_loader.py:40-69 | a non-dict field fails; a field without an enum id changes nothing; an enum field gets its default and cardinality entries and touches no other field's entries |
| ConfigLoader.AddField | ragstream/orchestration/agent_prompt_helpers/config_loader.py:63-69 | defaults and cardinality are always recorded, enums only when there are allowed ids, descriptions only when there are some |
| ConfigLoader.AddFieldWellFormed | ragstream/orchestration/agent_prompt_helpers/config_loader.py:63-69 | recording a field keeps every enums key among the defaults and cardinality keys, and the enum order without repeats |
| ConfigLoader.AddFieldMapsAgree | ragstream/orchestration/agent_prompt_helpers/config_loader.py:63-69 | every key of enums stays a key of defaults and of cardinality |
| ConfigLoader.AddFieldOrder | ragstream/orchestration/agent_prompt_helpers/config_loader.py:63-64 | the order of enum fields lists each key of enums exactly once |
| ConfigLoader.ExtractSpec | ragstream/orchestration/agent_prompt_helpers/config_loader.py:40-69 | the fields loop from well-formed maps ends in well-formed maps |
| ConfigLoader.CollectOptionIds | ragstream/orchestration/agent_prompt_helpers/config_loader.py:52-61 | the inner loop computes CollectOptions from empty lists |
| ConfigLoader.RecordField | ragstream/orchestration/agent_prompt_helpers/config_loader.py:41-69 | one pass of the fields loop computes FieldStep |
| ConfigLoader.ExtractFieldConfig | ragstream/orchestration/agent_prompt_helpers/config_loader.py:24-71 | the fields loop computes ExtractSpec from empty maps and its result is well formed |
| ConfigLoader.ExtractAppend | ragstream/orchestration/agent_prompt_helpers/config_loader.py:40 | the loop over a + b is the loop over a, continued over b |
| ConfigLoader.UntouchedId | ragstream/orchestration/agent_prompt_helpers/config_loader.py:40-69 | an id no enum field carries keeps its entries in all four maps |
| ConfigLoader.FieldIdsComeFromEnumFields | ragstream/orchestration/agent_prompt_helpers/config_loader.py:40-69 | defaults has an entry exactly for the ids of enum fields, even those without options |
| ConfigLoader.EnumFieldKept | ragstream/orchestration/agent_prompt_helpers/config_loader.py:68-69 | every enum field's id ends up with a defaults entry |
| ConfigLoader.KeptKeys | ragstream/orchestration/agent_prompt_helpers/config_loader.py:68-69 | a defaults entry, once made, is never removed by later fields |
| ConfigLoader.LaterFieldOverwrites | ragstream/orchestration/agent_prompt_helpers/config_loader.py:68-69 | the last enum field with an id decides its default and cardinality |
| ConfigLoader.EnumsListOptionIds | ragstream/orchestration/agent_prompt_helpers/config_loader.py:51-66 | enums[field_id] lists the option ids in config order when there are some, and the field has no enums entry otherwise |
| SchemaMap.KeysSpec | ragstream/orchestration/agent_prompt_helpers/schema_map.py:28-33 | the loop fails exactly when a field is not a dict; every key comes from a field's field_id, and no earlier key is lost |
| SchemaMap.ResultKeyMapSpec | ragstream/orchestration/agent_prompt_helpers/schema_map.py:21-34 | a non-dict schema is an AttributeError; a missing or falsy fields list gives {} |
| SchemaMap.BuildResultKeyMap | ragstream/orchestration/agent_prompt_helpers/schema_map.py:21-34 | the loop computes ResultKeyMapSpec |
| SchemaMap.LastEntryWins | ragstream/orchestration/agent_prompt_helpers/schema_map.py:32-33 | a later duplicate field_id overwrites an earlier one: the last field with an id decides its result key |
| SchemaMap.KeysUntouched | ragstream/orchestration/agent_prompt_helpers/schema_map.py:28-33 | an entry no field names keeps its value |
| SchemaMap.KeysAreFieldIds | ragstream/orchestration/agent_prompt_helpers/schema_map.py:28-33 | the keys are exactly the truthy field_ids; fields without one are skipped |
| SchemaMap.LastEntryKept | ragstream/orchestration/agent_prompt_helpers/schema_map.py:29-33 | every field with a truthy field_id has an entry |
| SchemaMap.DefaultResultKey | ragstream/orchestration/agent_prompt_helpers/schema_map.py:32 | without a result_key the field_id is its own result key |
| ComposeTexts.StripValue | ragstream/orchestration/agent_prompt_helpers/compose_texts.py:35-39 | `.strip()` succeeds exactly on a str and gives its strip; other types raise AttributeError |
| ComposeTexts.SystemHead | ragstream/orchestration/agent_prompt_helpers/compose_texts.py:34-39 | the head fails exactly when a truthy system or purpose text is not a str |
| ComposeTexts.SystemHeadShape | ragstream/orchestration/agent_prompt_helpers/compose_texts.py:34-39 | the stripped system text appears only when truthy; the blank line and "Agent purpose: …" appear only when the purpose is truthy |
| ComposeTexts.CollectSystemHead | ragstream/orchestration/agent_prompt_helpers/compose_texts.py:32-39 | the appends compute SystemHead |
| ComposeTexts.BuildSystemText | ragstream/orchestration/agent_prompt_helpers/compose_texts.py:23-52 | the newline join of the system lines, failing with AttributeError exactly when the head does |
| ComposeTexts.AppendClosing | ragstream/orchestration/agent_prompt_helpers/compose_texts.py:41-50 | the closing appends add a blank line, the id line and the two fixed instructions |
| ComposeTexts.SystemTextEnding | ragstream/orchestration/agent_prompt_helpers/compose_texts.py:41-52 | the system text always ends with "Agent id: name vversion" followed by the two fixed instruction lines |
| ComposeTexts.PayloadLines | ragstream/orchestration/agent_prompt_helpers/compose_texts.py:75-76 | one line per payload entry |
| ComposeTexts.PayloadLinesAt | ragstream/orchestration/agent_prompt_helpers/compose_texts.py:75-76 | payload entry k is shown as "- key: repr(value)" on line k, in payload order |
| ComposeTexts.PayloadLineSingle | ragstream/orchestration/agent_prompt_helpers/compose_texts.py:76 | a payload line never contains a line break when its key does not (repr escapes them) |
| ComposeTexts.OptionLines | ragstream/orchestration/agent_prompt_helpers/compose_texts.py:106-116 | one line per allowed option |
| ComposeTexts.OptionLinesAt | ragstream/orchestration/agent_prompt_helpers/compose_texts.py:106-116 | option k's line is built from its own label and description |
| ComposeTexts.OptionLineCases | ragstream/orchestration/agent_prompt_helpers/compose_texts.py:107-116 | an option line shows "id: label — desc", "id: label", "id: desc" or the bare id, by which of label and description are truthy |
| ComposeTexts.FieldBlockShape | ragstream/orchestration/agent_prompt_helpers/compose_texts.py:87-118 | a field with no allowed options contributes nothing; otherwise a header, the type line ("many" gets the array wording), one line per option and a blank line |
| ComposeTexts.KeyLines | ragstream/orchestration/agent_prompt_helpers/compose_texts.py:122-128 | one "Return ONLY" line per active field |
| ComposeTexts.KeyLinesAt | ragstream/orchestration/agent_prompt_helpers/compose_texts.py:122-128 | line k names active field k's result key, falling back to its field_id, with the wording of its cardinality |
| ComposeTexts.SkippedFieldStillListed | ragstream/orchestration/agent_prompt_helpers/compose_texts.py:87-128 | an active field without allowed options adds no option block but still gets its key line |
| ComposeTexts.FieldBlocksPrefix | ragstream/orchestration/agent_prompt_helpers/compose_texts.py:87-118 | the blocks of the first n fields depend only on those fields |
| ComposeTexts.UserLinesShape | ragstream/orchestration/agent_prompt_helpers/compose_texts.py:71-133 | the user lines open with the state header, end with the closing instruction, hold the payload lines after the header and the key lines before the end |
| ComposeTexts.UserLinesPlaces | ragstream/orchestration/agent_prompt_helpers/compose_texts.py:74-128 | payload entry k is on line 1 + k; the key line of active field k sits k lines into the key block |
| ComposeTexts.UserLinePayloadAt | ragstream/orchestration/agent_prompt_helpers/compose_texts.py:75-76 | line 1 + k is the payload line of entry k |
| ComposeTexts.UserLineKeyAt | ragstream/orchestration/agent_prompt_helpers/compose_texts.py:122-128 | the key block holds the key line of each active field in order |
| ComposeTexts.AppendOptionLines | ragstream/orchestration/agent_prompt_helpers/compose_texts.py:106-116 | the option loop appends OptionLines |
| ComposeTexts.AppendFieldBlock | ragstream/orchestration/agent_prompt_helpers/compose_texts.py:88-118 | one pass of the field loop appends FieldBlock |
| ComposeTexts.AppendFieldBlocks | ragstream/orchestration/agent_prompt_helpers/compose_texts.py:87-118 | the field loop appends the blocks of the active fields in order |
| ComposeTexts.AppendPayload | ragstream/orchestration/agent_prompt_helpers/compose_texts.py:75-76 | the payload loop appends PayloadLines |
| ComposeTexts.AppendKeyLines | ragstream/orchestration/agent_prompt_helpers/compose_texts.py:122-128 | the key loop appends KeyLines |
| ComposeTexts.BuildUserTextForChooser | ragstream/orchestration/agent_prompt_helpers/compose_texts.py:55-133 | the newline join of UserLines |
| ComposeTexts.UserTextLines | ragstream/orchestration/agent_prompt_helpers/compose_texts.py:133 | when no line holds a newline, splitting the text on newlines gives the lines back |
| AgentPromptEngine.PyFloat | ragstream/orchestration/agent_prompt.py:121 | `float(v)` raises TypeError exactly on None, a list or a dict, and ValueError exactly on a string outside Python's float syntax; an int and an accepted string are kept |
| PyJson.FloatTextAcceptsDecimal | ragstream/orchestration/agent_prompt.py:121 | "0.7" is a float literal |
| PyJson.FloatTextAcceptsInfinity | ragstream/orchestration/agent_prompt.py:121 | "-Infinity" is accepted, case and sign included |
| PyJson.FloatTextRejectsWord | ragstream/orchestration/agent_prompt.py:121 | "abc" is not a float literal |
| PyJson.FloatTextRejectsBareExponent | ragstream/orchestration/agent_prompt.py:121 | neither "1e" nor "" is a float literal |
| AgentPromptEngine.MetaSettings | ragstream/orchestration/agent_prompt.py:107-115 | fails exactly when agent_meta is not a dict; the name is always truthy (agent_id or agent_name or "unknown_agent") |
| AgentPromptEngine.ProfileTexts | ragstream/orchestration/agent_prompt.py:108-118 | fails exactly when prompt_profile is not a dict |
| AgentPromptEngine.LlmSettings | ragstream/orchestration/agent_prompt.py:109-122 | a non-dict llm_config raises AttributeError |
| AgentPromptEngine.LlmDefaults | ragstream/orchestration/agent_prompt.py:120-122 | an empty llm_config gives model "gpt-5.1-mini", temperature 0 and max_tokens 256 |
| PyJson.IntLiteralUnderscores | ragstream/orchestration/agent_prompt.py:122 | `int("-1_0")` is -10: an underscore between two digits is allowed |
| PyJson.IntLiteralRejectsBadUnderscores | ragstream/orchestration/agent_prompt.py:122 | `int("1__0")` and `int("_1")` raise: an underscore must sit between two digits |
| AgentPromptEngine.MaxTokensFromString | ragstream/orchestration/agent_prompt.py:122 | max_tokens given as a decimal string is read as that number |
| AgentPromptEngine.FromConfig | ragstream/orchestration/agent_prompt.py:51-140 | a non-dict config raises AttributeError; a built prompt has a truthy name and well-formed field maps |
| AgentPromptEngine.EmptyConfigDefaults | ragstream/orchestration/agent_prompt.py:107-140 | an empty config gives "unknown_agent", version "000", mode "chooser", empty texts, the default model, 256 tokens, no fields and no result keys |
| AgentPromptEngine.KnownFields | ragstream/orchestration/agent_prompt.py:184-245 | the named fields that are enum fields |
| AgentPromptEngine.ActiveFields | ragstream/orchestration/agent_prompt.py:180-199 | `sorted(active_set)`: ascending, and exactly the enum fields that are live (all of them when None is given) |
| AgentPromptEngine.ActiveFieldsIgnoreOrder | ragstream/orchestration/agent_prompt.py:180-199 | lists naming the same enum fields give the same sorted active list |
| AgentPromptEngine.ComposeAsWritten | ragstream/orchestration/agent_prompt.py:160-208 | as written, compose never succeeds: a chooser with string texts always raises TypeError for the missing option_labels argument |
| AgentPromptEngine.Compose | ragstream/orchestration/agent_prompt.py:160-208 | fails exactly for a non-chooser mode (AgentPromptValidationError) or non-string texts; otherwise [system, user] messages with the two built texts, active fields sorted, and {"type": "json_object"} |
| AgentPromptEngine.DictGet | ragstream/orchestration/agent_prompt.py:259 | `json_obj.get(key, None)` fails exactly on a non-dict object or an unhashable key; a string key gives the stored value or None |
| AgentPromptEngine.ParseAsWritten | ragstream/orchestration/agent_prompt.py:237-278 | a non-chooser mode raises AgentPromptValidationError; otherwise the loop runs on whatever extract_json_object returned |
| AgentPromptEngine.ParseOfListAnswerFails | ragstream/orchestration/agent_prompt.py:247-259 | an answer that parses to a JSON list makes parse raise as soon as a field is live |
| AgentPromptEngine.Parse | ragstream/orchestration/agent_prompt.py:237-278 | parse on an object: a non-chooser mode raises, and a non-object answer counts as {} |
| AgentPromptEngine.ParseNeverFails | ragstream/orchestration/agent_prompt.py:237-278 | for a chooser whose result keys are strings, Parse always succeeds |
| AgentPromptEngine.ParseChoices | ragstream/orchestration/agent_prompt.py:249-278 | the loop over enum fields, skipping inactive ones, computes ParseFields |
| AgentPromptEngine.ParseLoopKeys | ragstream/orchestration/agent_prompt.py:250-276 | the loop adds an entry exactly for the live fields it visits |
| AgentPromptEngine.ParseLoopValue | ragstream/orchestration/agent_prompt.py:255-276 | a live field's entry is its raw value, read under its result key, normalised by its cardinality |
| AgentPromptEngine.ParseLoopUntouched | ragstream/orchestration/agent_prompt.py:250-276 | entries for fields the loop does not visit are kept |
| AgentPromptEngine.ParseLoopFails | ragstream/orchestration/agent_prompt.py:259 | the loop fails exactly when reading some live field's answer fails |
| AgentPromptEngine.ParseResult | ragstream/orchestration/agent_prompt.py:250-278 | exactly one entry per live enum field; a "many" field gets a non-empty duplicate-free list of allowed ids, any other field one allowed id |
| AgentFactoryCache.ConfigPathInjective | ragstream/orchestration/agent_factory.py:78-88 | the path agents_root/agent_id/"version.json" determines agent id and version when the id is a path component pathlib keeps (no separator, not "" or ".") |
| AgentFactoryCache.PathJoin | ragstream/orchestration/agent_factory.py:88 | pathlib's `/` drops a "" or "." part and otherwise appends "/" and the part |
| AgentFactoryCache.EmptyAndDotShareConfig | ragstream/orchestration/agent_factory.py:88 | the agent ids "" and "." read the same config, agents_root/"version.json" |
| AgentFactoryCache.AgentFactory.constructor | ragstream/orchestration/agent_factory.py:62-72 | a new factory has an empty cache and has loaded nothing (with the logging call corrected, see Findings) |
| AgentFactoryCache.AgentFactory.GetAgent | ragstream/orchestration/agent_factory.py:122-149 | a cached key returns the cached instance with nothing loaded; otherwise the config is loaded once and built, the result cached on success, and a missing config raises and leaves the cache unchanged (with the logging call corrected, see Findings) |
| AgentFactoryCache.AgentFactory.ClearCache | ragstream/orchestration/agent_factory.py:151-163 | the cache is emptied; the record of configs read is kept (with the logging call corrected, see Findings) |
| AgentFactoryCache.GetAgentTwice | ragstream/orchestration/agent_factory.py:138-149 | when the first call for a key succeeds the second returns the same agent, and the config is read at most once over both calls |
| AgentFactoryCache.LoggerCall | ragstream/utils/logging.py:17-23 | calling a logger method fails with AttributeError exactly when `SimpleLogger` does not define it |
| AgentFactoryCache.NewFactoryAsWritten | ragstream/orchestration/agent_factory.py:62-72 | construction succeeds, with an empty cache, exactly when the logger has `info` |
| AgentFactoryCache.GetAgentAsWritten | ragstream/orchestration/agent_factory.py:122-149 | a cached key returns the cached agent; a build error is raised with the cache unchanged; a built agent is cached before `info` is called, and is returned exactly when the logger has `info` |
| AgentFactoryCache.ClearCacheAsWritten | ragstream/orchestration/agent_factory.py:151-163 | the cache is emptied before `info` is called, which fails exactly when the logger lacks it |
| AgentFactoryCache.ShippedLoggerBreaksFactory | ragstream/orchestration/agent_factory.py:72 | with the logger as shipped (only `log` and `error`), construction fails, a first `get_agent` raises AttributeError but leaves the agent cached so a second call returns it, and `clear_cache` raises |
| SuperPromptState.DefaultBodyShape | ragstream/orchestration/super_prompt.py:56-67 | the body has exactly the ten keys: system "consultant", tone "neutral", depth "high", all others None |
| SuperPromptState.SuperPrompt.constructor | ragstream/orchestration/super_prompt.py:44-83 | the given stage and model target, an empty history, the default body, empty extras and artifact containers, and the five rendered strings "" |
| SuperPromptState.NewSuperPrompt | ragstream/orchestration/super_prompt.py:44-48 | by default the stage is "raw" and the model target None, with a fresh record |
| SuperPromptState.SuperPrompt.SetBody | ragstream/preprocessing/preprocessing.py:142-143 | the body is replaced and every other field keeps its value |
| SuperPromptState.SuperPrompt.CloseStage | ragstream/preprocessing/preprocessing.py:145-159 | prompt_ready takes the composed text, the stage name is appended to the history once and becomes the stage; body and every other field unchanged |
| PromptSchemaKeys.NormalizeKeyOf | ragstream/preprocessing/prompt_schema.py:38-40 | a non-string key normalises to "" |
| PromptSchemaKeys.NormalizeKeyChars | ragstream/preprocessing/prompt_schema.py:41-44 | a normalised key holds only word characters and plain spaces, and no upper-case letter |
| PromptSchemaKeys.LowerHasNoUpper | ragstream/preprocessing/prompt_schema.py:41 | lower-casing leaves no upper-case letter |
| PromptSchemaKeys.StripKeepsChars | ragstream/preprocessing/prompt_schema.py:41 | stripping only removes characters |
| PromptSchemaKeys.CollapseChars | ragstream/preprocessing/prompt_schema.py:42 | after collapsing, every whitespace character is a plain space and every other character comes from the input |
| PromptSchemaKeys.DropChars | ragstream/preprocessing/prompt_schema.py:43 | after dropping punctuation, every character is a word character or whitespace taken from the input |
| PromptSchemaKeys.NormalizeKeyKeepsDoubleSpace | ragstream/preprocessing/prompt_schema.py:41-44 | punctuation is deleted after whitespace is collapsed, so "A - B" normalises to "a  b" with two spaces |
| PromptSchemaKeys.DefaultFor | ragstream/preprocessing/prompt_schema.py:65-66 | the configured default of the normalised key, or "" |
| PromptSchemaKeys.BilingualHit | ragstream/preprocessing/prompt_schema.py:57-59 | the mapping of the first language whose table has the key; None exactly when no table has it |
| PromptSchemaKeys.ToCanonicalOrNone | ragstream/preprocessing/prompt_schema.py:49-60 | the normalised key when canonical, else its alias target, else the first bilingual hit; None exactly when all three miss |
| NameMatcher.ResolveAgrees | ragstream/preprocessing/name_matcher.py:17-37 | resolve returns to_canonical_or_none's key, and the method says which lookup hit: canonical, alias, bilingual, or "unknown" exactly when the key is None |
| AppPreprocessing.PreprocessPrompt | ragstream/app/preprocessing.py:5-8 | exactly the keys task and preview_text, always equal; normalised (no outer whitespace, single spaces); "" exactly for whitespace-only input |
| AppPreprocessing.PreprocessIdempotent | ragstream/app/preprocessing.py:7 | normalising twice gives the same result as once |
| AppPreprocessing.PreprocessKeepsWords | ragstream/app/preprocessing.py:7 | the result has the same words as the input |
| Preprocessing.HashCount | ragstream/preprocessing/preprocessing.py:39 | the run of one to three leading '#' characters the pattern can take at a position, and nothing beyond a fourth '#' |
| Preprocessing.LineEnd | ragstream/preprocessing/preprocessing.py:39 | the end of the line (the next newline, or the end of the text), which is where '$' matches |
| Preprocessing.LastNonNewline | ragstream/preprocessing/preprocessing.py:39 | the last position before a bound that is not a newline, or None when only newlines lie in between (where '.+' can end after backtracking) |
| Preprocessing.MatchAt | ragstream/preprocessing/preprocessing.py:39 | a header match found at a position starts there, and its title starts after the hashes and ends within the text |
| Preprocessing.MatchAtNoneIff | ragstream/preprocessing/preprocessing.py:39 | at a line start, no header matches exactly when there is no '#', or a single '#' followed only by newlines |
| Preprocessing.HeadersWellPlaced | ragstream/preprocessing/preprocessing.py:39 | the matches are ordered and non-overlapping, and each is the pattern's match at its own start |
| Preprocessing.HeadersEmptyIff | ragstream/preprocessing/preprocessing.py:39-41 | the scan finds no header exactly when the pattern matches at no position |
| Preprocessing.SectionsOf | ragstream/preprocessing/preprocessing.py:44-49 | one section per header, each the stripped title and the stripped text up to the next header or the end |
| Preprocessing.ParseMarkdownSections | ragstream/preprocessing/preprocessing.py:32-50 | the loop returns one (title, body) pair per header match in text order, both stripped, each body running to the next header or the end |
| Preprocessing.SectionsEmptyIff | ragstream/preprocessing/preprocessing.py:40-41 | the section list is empty exactly when no header matches anywhere |
| Preprocessing.SectionsShape | ragstream/preprocessing/preprocessing.py:44-49 | the i-th section is the i-th match's stripped title and the stripped body up to the next match; both are already stripped |
| Preprocessing.SectionShape | ragstream/preprocessing/preprocessing.py:44-49 | for one header index: the section's title is the stripped title of that match, its text the stripped slice up to the next match or the end, and neither changes when stripped again |
| Preprocessing.SectionAtStripped | ragstream/preprocessing/preprocessing.py:47-48 | the title and the text a section is built from are both fixed points of strip |
| Preprocessing.NoSpaceNeededAfterHashes | ragstream/preprocessing/preprocessing.py:35-39 | the pattern accepts a header with no space after the hashes: "#Title" gives one section ("Title", "") |
| Preprocessing.BlockEmptyIff | ragstream/preprocessing/preprocessing.py:182-190 | a part contributes no lines exactly when it is None or blank |
| Preprocessing.ComposeFromLines | ragstream/preprocessing/preprocessing.py:180-191 | composing after some lines equals stripping the join of those lines and the blocks of the remaining keys |
| Preprocessing.BuildPromptReady | ragstream/preprocessing/preprocessing.py:163-191 | the result is the "## KEY" block of each non-blank value in the fixed order system…format, joined by newlines and stripped |
| Preprocessing.CollectLines | ragstream/preprocessing/preprocessing.py:180-190 | the loop collects exactly the blocks of the keys in order |
| Preprocessing.ComposeLinesStep | ragstream/preprocessing/preprocessing.py:181-190 | the lines of a suffix of the order are its first key's block followed by the rest |
| Preprocessing.ComposeLinesAppend | ragstream/preprocessing/preprocessing.py:181-190 | the lines of two key lists concatenated are the concatenation of their lines |
| Preprocessing.ComposeLinesOrder | ragstream/preprocessing/preprocessing.py:169-190 | each key's block sits between the blocks of the keys before it and after it: the order is fixed |
| Preprocessing.ComposeLinesEmptyIff | ragstream/preprocessing/preprocessing.py:181-190 | no lines exactly when every key is blank; otherwise the first line is a "## " header |
| Preprocessing.JoinHead | ragstream/preprocessing/preprocessing.py:191 | a join starts with the first character of its first element |
| Preprocessing.ComposeEmptyIff | ragstream/preprocessing/preprocessing.py:163-191 | the composed prompt is "" exactly when all nine parts are blank, and it is always stripped |
| Preprocessing.JoinedHeaders | ragstream/preprocessing/preprocessing.py:191 | joined lines that start with a header strip to "" only when there are no lines; stripping twice changes nothing |
| Preprocessing.ComposeLinesAgree | ragstream/preprocessing/preprocessing.py:181-190 | the lines depend only on the values of the listed keys |
| Preprocessing.MapHeaders | ragstream/preprocessing/preprocessing.py:102-109 | each section whose header resolves sets its key to the section body, later sections overwriting earlier ones; unknown headers are skipped |
| Preprocessing.MapSectionsKeys | ragstream/preprocessing/preprocessing.py:104-109 | a key is mapped exactly when some header resolves to it; unknown headers are skipped and unrelated keys keep their value |
| Preprocessing.MapSectionsLastWins | ragstream/preprocessing/preprocessing.py:109 | a key holds the body of the last section whose header resolves to it |
| Preprocessing.KeepsText | ragstream/preprocessing/preprocessing.py:129 | a value is kept exactly when the key is present with non-blank text |
| Preprocessing.FillMustDefaults | ragstream/preprocessing/preprocessing.py:126-130 | every must key except task that is missing or blank gets the schema default and the others keep their text, in whatever order the set is visited |
| Preprocessing.FillLoopStep | ragstream/preprocessing/preprocessing.py:126-130 | handling one more key of the must set extends the fill to that key, so the result does not depend on the visiting order |
| Preprocessing.FillStep | ragstream/preprocessing/preprocessing.py:127-130 | filling one more key sets its default when it is blank, skips "task", and leaves the rest |
| Preprocessing.FillKeys | ragstream/preprocessing/preprocessing.py:127-130 | filling a key adds exactly that key, unless it is "task" |
| Preprocessing.WriteKeysAt | ragstream/preprocessing/preprocessing.py:136-138 | after writing, a key of the list present in the map holds the mapped text; every other key keeps its old value or stays absent |
| Preprocessing.WriteBody | ragstream/preprocessing/preprocessing.py:136-138 | the body becomes the written body; nothing else of the SuperPrompt changes |
| Preprocessing.ApplySections | ragstream/preprocessing/preprocessing.py:136-143 | the body becomes the header body (written keys, then a context emptied into task cleared to None); nothing else changes |
| Preprocessing.BuildMapped | ragstream/preprocessing/preprocessing.py:102-130 | the method builds exactly the header map with the task/context rule and the required defaults applied |
| Preprocessing.FinishStage | ragstream/preprocessing/preprocessing.py:146-159 | prompt_ready is recomposed from the unchanged body; the stage is recorded once in the history and set |
| Preprocessing.Preprocess | ragstream/preprocessing/preprocessing.py:53-159 | the body becomes the specified body for the text, prompt_ready is composed from it, "preprocessed" is appended to the history and set as stage; extras and the other fields are untouched |
| Preprocessing.PreprocessAsWritten | ragstream/preprocessing/preprocessing.py:126 | with headers the function stops with an AttributeError on schema.must before writing anything; without headers task becomes the stripped text and the stage is recorded as in Preprocess |
| Preprocessing.PreprocessAsWrittenFailsOnHeaders | ragstream/preprocessing/preprocessing.py:39-126 | any text where the header pattern matches somewhere has sections, so the code as written fails on it |
| Preprocessing.PlainPromptIsTask | ragstream/preprocessing/preprocessing.py:73-76 | without headers the stripped text becomes the task and no other body key changes |
| Preprocessing.OnlyBodyKeysWritten | ragstream/preprocessing/preprocessing.py:134-138 | keys outside the ten known body keys are never added or changed |
| Preprocessing.TaskAndContextRule | ragstream/preprocessing/preprocessing.py:116-143 | a non-blank TASK section wins; else a non-blank CONTEXT becomes the task and context is cleared to None; else the whole stripped text is the task |
| Preprocessing.TaskRuleCases | ragstream/preprocessing/preprocessing.py:116-123 | the same three cases on the header map itself |
| Preprocessing.HeaderTaskContext | ragstream/preprocessing/preprocessing.py:134-143 | the written body holds the map's task, and a context emptied into task is None |
| Preprocessing.FillKeeps | ragstream/preprocessing/preprocessing.py:126-130 | filling never changes the task or a key that is not required |
| Preprocessing.MustKeysFilled | ragstream/preprocessing/preprocessing.py:126-138 | every required body key other than task and context ends up with its text, or its default when missing or blank |
| Preprocessing.HeaderMustKey | ragstream/preprocessing/preprocessing.py:126-138 | the same for the written body of a filled map |
| A2Shaper.InputText | ragstream/agents/a2_promptshaper.py:74-78 | a missing or None part gives ""; the input text is always stripped |
| A2Shaper.Inputs | ragstream/agents/a2_promptshaper.py:74-78 | exactly task, context and purpose, in that order, each the stripped body text |
| A2Shaper.ResultDict | ragstream/agents/a2_promptshaper.py:130-141 | a dict result is used as is; a string is parsed; anything else, or a string that is not JSON, is a RuntimeError |
| A2Shaper.Chosen | ragstream/agents/a2_promptshaper.py:81-141 | with `compose` corrected (see Findings): a factory error is passed on; a successful choice is a JSON object |
| A2Shaper.ChosenAsWritten | ragstream/agents/a2_promptshaper.py:81-92 | with `compose` as written no choice is ever made: a factory error is passed on, and a chooser agent with well-formed texts fails with TypeError |
| A2Shaper.Choose | ragstream/agents/a2_promptshaper.py:87-141 | with `compose` corrected: the LLM is only reached, and a choice only made, when the agent has a model name |
| A2Shaper.AsDict | ragstream/agents/a2_promptshaper.py:146 | a parsed result that is not an object fails on .get with an AttributeError naming its type |
| A2Shaper.KeptItems | ragstream/agents/a2_promptshaper.py:151 | list items are kept stripped and non-blank, never more than the list had |
| A2Shaper.KeptItemsEmptyIff | ragstream/agents/a2_promptshaper.py:151 | nothing is kept exactly when every item's text is blank |
| A2Shaper.MergeAt | ragstream/agents/a2_promptshaper.py:145-156 | a field gets the chosen text when the result holds a non-None, non-blank value for it; every other key is unchanged |
| A2Shaper.MergeTwice | ragstream/agents/a2_promptshaper.py:145-156 | merging the same result twice gives the same body as once |
| A2Shaper.ValueTextStripped | ragstream/agents/a2_promptshaper.py:150-153 | the text written for a value is stripped |
| A2Shaper.JoinStripped | ragstream/agents/a2_promptshaper.py:151 | joining stripped non-blank items with ", " gives a stripped text |
| A2Shaper.MergeResult | ragstream/agents/a2_promptshaper.py:145-156 | the body becomes the merged body; nothing else changes |
| A2Shaper.Run | ragstream/agents/a2_promptshaper.py:48-177 | with `compose` corrected: on any error before the merge the SuperPrompt is untouched and the error returned; otherwise the five choices are merged, prompt_ready recomposed and "a2" recorded; the factory reads and caches the agent as `get_agent` does and its cache stays valid |
| A2Shaper.AgentWellFormed | ragstream/orchestration/agent_factory.py:138-149 | an agent served by a valid factory has well-formed fields |
| CleanWindow.CanonKeySpelling | training/slm_a2/scripts/clean_and_window_384.py:87-91 | "Response_Depth" maps to "response_depth": underscores and spaces are the same in a key |
| CleanWindow.CanonKeyIdempotent | training/slm_a2/scripts/clean_and_window_384.py:72-91 | canonicalising a canonical key changes nothing |
| CleanWindow.CanonicalValues | training/slm_a2/scripts/clean_and_window_384.py:72-82 | every value of the key map is its own canonical form |
| CleanWindow.LowerIdempotent | training/slm_a2/scripts/clean_and_window_384.py:91 | lower-casing twice is lower-casing once |
| CleanWindow.UpperOfLower | training/slm_a2/scripts/clean_and_window_384.py:90-91 | upper-casing a lower-cased key gives the upper-cased key |
| CleanWindow.NormStr | training/slm_a2/scripts/clean_and_window_384.py:94-97 | the text is stripped, and "" exactly when it is blank after CRLF folding |
| CleanWindow.NormText | training/slm_a2/scripts/clean_and_window_384.py:94-97 | None becomes "", and every normalised value is stripped |
| CleanWindow.LastWithSpec | training/slm_a2/scripts/clean_and_window_384.py:123-127 | the index found is the last raw entry whose key canonicalises to k, and -1 means no entry does |
| CleanWindow.LastMapAt | training/slm_a2/scripts/clean_and_window_384.py:124-126 | in a dict built by overwriting, a key is present exactly when some entry has it, and holds the value of the last one |
| CleanWindow.CanonRowAt | training/slm_a2/scripts/clean_and_window_384.py:123-127 | a canonical key is present exactly when some raw key maps to it, and it holds the normalised value of the last such entry |
| CleanWindow.CanonizeRow | training/slm_a2/scripts/clean_and_window_384.py:123-127 | the loop builds exactly the canonical row |
| CleanWindow.LabelsAt | training/slm_a2/scripts/clean_and_window_384.py:134-138 | a label key is present exactly when its normalised text is non-empty, and then holds that text |
| CleanWindow.BuildInputLabels | training/slm_a2/scripts/clean_and_window_384.py:130-139 | the input is the normalised task and context; the labels are the non-empty normalised values of the six label keys |
| CleanWindow.CollectLabels | training/slm_a2/scripts/clean_and_window_384.py:134-138 | the loop keeps exactly the label keys whose normalised value is non-empty, each with that value |
| CleanWindow.Candidates | training/slm_a2/scripts/clean_and_window_384.py:279-290 | one candidate per raw row, in order |
| CleanWindow.CandidateShape | training/slm_a2/scripts/clean_and_window_384.py:285-290 | a kept row has a task or a context, and at least one label when labels are required |
| CleanWindow.UniqFromRows | training/slm_a2/scripts/clean_and_window_384.py:279-297 | every unique item is one of the candidates |
| CleanWindow.UniqFresh | training/slm_a2/scripts/clean_and_window_384.py:292-295 | the fingerprints of the kept items are pairwise distinct and none was seen before |
| CleanWindow.UniqComplete | training/slm_a2/scripts/clean_and_window_384.py:292-297 | every candidate's fingerprint is either already seen or among the kept items: no fingerprint is lost |
| CleanWindow.DedupeRows | training/slm_a2/scripts/clean_and_window_384.py:277-297 | the loop keeps exactly the first item of each fingerprint, in order |
| CleanWindow.ReadRaw | training/slm_a2/scripts/clean_and_window_384.py:116-120 | a list is returned as is; anything else raises ValueError with the source's message |
| CleanWindow.Split | training/slm_a2/scripts/clean_and_window_384.py:304-306 | the three slices partition the items in order, with the clamped sizes of Python slicing |
| CleanWindow.InstructionEnds | training/slm_a2/scripts/clean_and_window_384.py:64-69 | the instruction starts with '#' and ends with '.', so it survives stripping |
| CleanWindow.PromptTextShape | training/slm_a2/scripts/clean_and_window_384.py:142-151 | the prompt is the instruction, then "\n### TASK" and the task when non-empty, then "\n### CONTEXT" and the context when non-empty |
| CleanWindow.TargetPairs | training/slm_a2/scripts/clean_and_window_384.py:154-159 | the payload holds exactly the requested keys that have labels, each with its label |
| CleanWindow.Stride | training/slm_a2/scripts/clean_and_window_384.py:214 | the stride is at least one |
| CleanWindow.StridedAt | training/slm_a2/scripts/clean_and_window_384.py:216 | the j-th strided window is the W tokens starting at j times the stride |
| CleanWindow.Windows | training/slm_a2/scripts/clean_and_window_384.py:208-222 | there is always at least one window, and none is wider than W |
| CleanWindow.WindowsEnd | training/slm_a2/scripts/clean_and_window_384.py:217-220 | when the content is longer than W, the last window is its last W tokens |
| CleanWindow.WindowsCover | training/slm_a2/scripts/clean_and_window_384.py:213-220 | with a stride of at most W, every content token lies in some window |
| CleanWindow.WindowsStrided | training/slm_a2/scripts/clean_and_window_384.py:216-220 | the strided windows come first, in order, before the tail window |
| CleanWindow.Placed | training/slm_a2/scripts/clean_and_window_384.py:228-239 | a placed window is the instruction and a head of the window within budget; a window that fits is kept whole; otherwise it is skipped |
| CleanWindow.Place | training/slm_a2/scripts/clean_and_window_384.py:228-239 | a window becomes the instruction followed by the window when that and the label tail fit max_len together, and nothing otherwise |
| CleanWindow.EmittedStep | training/slm_a2/scripts/clean_and_window_384.py:227-249 | a skipped window emits nothing; a placed one emits its row with its counts and its 1-based index of the total |
| CleanWindow.EmittedShape | training/slm_a2/scripts/clean_and_window_384.py:227-249 | every row starts with the instruction, fits the budget, has consistent counts, and window indices increase |
| CleanWindow.EmittedAll | training/slm_a2/scripts/clean_and_window_384.py:227-249 | when every window fits, each is emitted whole, in order, numbered 1..n |
| CleanWindow.WindowIds | training/slm_a2/scripts/clean_and_window_384.py:186-262 | there are no rows exactly when the label tail alone reaches the budget |
| CleanWindow.WindowIdsShape | training/slm_a2/scripts/clean_and_window_384.py:224-262 | every row starts with the instruction and has consistent counts; a row over budget only occurs as the single fallback row |
| CleanWindow.FallbackOverBudget | training/slm_a2/scripts/clean_and_window_384.py:251-260 | with a 3-token instruction, a 1-token label and a budget of 3, the only row has 4 tokens |
| CleanWindow.WindowIdsCappedFits | training/slm_a2/scripts/clean_and_window_384.py:184-262 | with the fallback capped every row fits; rows are empty exactly when the instruction and the labels do not fit together; otherwise every window is emitted whole |
| CleanWindow.Decoded | training/slm_a2/scripts/clean_and_window_384.py:241-249 | one window per row, each the decoded prompt with the whole label JSON and the row's counts |
| CleanWindow.EmitRows | training/slm_a2/scripts/clean_and_window_384.py:224-249 | every window that fits becomes a row in window order, holding the instruction plus the window and meta with prompt, target and total token counts, a 1-based index and the number of windows built |
| CleanWindow.WindowInputs | training/slm_a2/scripts/clean_and_window_384.py:170-262 | the rows are the token windows decoded with the label JSON: none when the label tail reaches max_len, one when the content fits, otherwise the strided windows that fit; when none fits, the instruction-only fallback row |
| CleanWindow.WindowInputsCapped | training/slm_a2/scripts/clean_and_window_384.py:170-262 | the same with the fallback kept within the budget |
| CleanWindow.FittedShape | training/slm_a2/scripts/clean_and_window_384.py:170-262 | on the corrected windowing (see Findings): every window carries the whole target and fits the 384-token limit, with consistent counts |
| CleanWindow.PerKeyShape | training/slm_a2/scripts/clean_and_window_384.py:334-348 | on the corrected windowing (see Findings): every per-key window carries the JSON of one of the keys and fits the limit |
| CleanWindow.ItemWindowsShape | training/slm_a2/scripts/clean_and_window_384.py:321-356 | on the corrected windowing (see Findings): an item yields windows that fit, carrying all sorted labels ("tgtALL") or one label each ("tgtSPLIT") |
| CleanWindow.WindowItem | training/slm_a2/scripts/clean_and_window_384.py:321-356 | on the corrected windowing (see Findings): the method computes exactly the item's windows and variant |
| CleanWindow.PerKeyWindows | training/slm_a2/scripts/clean_and_window_384.py:334-353 | on the corrected windowing (see Findings): the loop over keys gives the concatenated per-key windows, or nothing as soon as one key does not fit |
| CleanWindow.PerKeyStep | training/slm_a2/scripts/clean_and_window_384.py:336-348 | on the corrected windowing (see Findings): one key: nothing fits means give up, otherwise its windows come before the rest |
| CleanWindow.ItemRows | training/slm_a2/scripts/clean_and_window_384.py:359-367 | one row per window, with the id split_NNNNNN_wWW_variant and the window's prompt, target and counts |
| CleanWindow.SplitRowsStep | training/slm_a2/scripts/clean_and_window_384.py:315-368 | a skipped item emits nothing and keeps the counter; an emitted one adds its rows and advances it |
| CleanWindow.SplitRowsOk | training/slm_a2/scripts/clean_and_window_384.py:315-368 | on the corrected windowing (see Findings): every row fits the limit and carries a target made from some item's labels |
| CleanWindow.BuildSplitFits | training/slm_a2/scripts/clean_and_window_384.py:309-374 | on the corrected windowing (see Findings): every row of a split fits the 384-token limit and carries a target of one of its items: labels are never cut |
| CleanWindow.EmitItemRows | training/slm_a2/scripts/clean_and_window_384.py:360-367 | the loop emits exactly the item's rows |
| CleanWindow.BuildSplit | training/slm_a2/scripts/clean_and_window_384.py:309-374 | on the corrected windowing (see Findings): the loop builds exactly the split's rows |
| CleanWindow.BuildDataset | training/slm_a2/scripts/clean_and_window_384.py:267-378 | on the corrected windowing (see Findings): a non-list raw dataset is a ValueError; otherwise the unique items are split in three and each split is windowed |
| CleanSplit.LoadRaw | training/slm_a2/scripts/clean_and_split_dataset.py:113-118 | a list is returned as is; anything else raises ValueError with the source's message |
| CleanSplit.CandidateUnlabelled | training/slm_a2/scripts/clean_and_split_dataset.py:139-148 | a dict row is kept exactly when its task or context is non-empty; labels are not required, and are the non-empty label values |
| CleanSplit.RecordsNumbered | training/slm_a2/scripts/clean_and_split_dataset.py:150-160 | one record per unique item, numbered a2_000001 onward in order |
| CleanSplit.Process | training/slm_a2/scripts/clean_and_split_dataset.py:132-170 | a non-list raw dataset is a ValueError; otherwise the numbered unique records are split in three |
| CleanSplit.KeepFirst | training/slm_a2/scripts/clean_and_split_dataset.py:135-160 | the loop keeps and numbers exactly the first record of each fingerprint |
| A2Convert.Lines | training/slm_a2/scripts/a2_convert_for_openai.py:26 | splitlines gives at least one piece, none holding a line break |
| A2Convert.LineItem | training/slm_a2/scripts/a2_convert_for_openai.py:27-33 | a line yields at most one item: blank and unparsable lines yield none |
| A2Convert.JsonlItems | training/slm_a2/scripts/a2_convert_for_openai.py:26-33 | never more items than lines |
| A2Convert.JsonlStep | training/slm_a2/scripts/a2_convert_for_openai.py:26-33 | the items of a suffix of lines are the first line's item followed by the rest |
| A2Convert.ParseLines | training/slm_a2/scripts/a2_convert_for_openai.py:26-33 | the loop collects exactly the line items |
| A2Convert.LoadItems | training/slm_a2/scripts/a2_convert_for_openai.py:14-34 | the method returns what the loader specifies: the array for a text starting with '[' (or an exit when it does not parse), the line items otherwise |
| A2Convert.LinesOfJoin | training/slm_a2/scripts/a2_convert_for_openai.py:26 | splitting lines joined by "\n" gives the lines back |
| A2Convert.JsonlItemsClean | training/slm_a2/scripts/a2_convert_for_openai.py:26-33 | clean lines that each parse give exactly their values |
| A2Convert.JsonlRoundTrip | training/slm_a2/scripts/a2_convert_for_openai.py:14-34 | JSONL written one clean record per line loads back as the list of those records |
| A2Convert.LoadedLines | training/slm_a2/scripts/a2_convert_for_openai.py:15-34 | a text not starting with '[' after lstrip is read as JSONL |
| A2Convert.Clean | training/slm_a2/scripts/a2_convert_for_openai.py:38-39 | None gives "", a string gives itself stripped, and the result is always stripped |
| A2Convert.LabelledLines | training/slm_a2/scripts/a2_convert_for_openai.py:44-48 | the three parts read back as the lines "TASK: t", "PURPOSE: p", "CONTEXT: c" |
| A2Convert.UserContentLines | training/slm_a2/scripts/a2_convert_for_openai.py:36-48 | the user content is exactly three labelled lines in that order, holding the cleaned fields |
| A2Convert.MakeAssistantJson | training/slm_a2/scripts/a2_convert_for_openai.py:50-67 | a record that is not a dict fails on .get with the Python AttributeError naming its type |
| A2Convert.AssistantJsonShape | training/slm_a2/scripts/a2_convert_for_openai.py:50-67 | the target object has exactly the five lower-case keys, each the record's value or "", with "RESPONSE DEPTH" preferred to "RESPONSE_DEPTH" |
| A2Convert.ConvertOne | training/slm_a2/scripts/a2_convert_for_openai.py:71-87 | a dict record gives its user/assistant example; anything else fails on .get |
| A2Convert.ConvertShape | training/slm_a2/scripts/a2_convert_for_openai.py:69-88 | all records dicts: one example per record in order; otherwise the error of the first record that is not |
| A2Convert.Convert | training/slm_a2/scripts/a2_convert_for_openai.py:69-88 | one example per record in order, each a user message followed by an assistant message; the first record that is not a dict stops the loop with its error |
| A2Convert.SplitVal | training/slm_a2/scripts/a2_convert_for_openai.py:117-119 | validation and training partition the examples; validation has max(1, rounded) examples, clamped to the list |
| A2Convert.RunOutcomeShape | training/slm_a2/scripts/a2_convert_for_openai.py:96-132 | when files are written the validation part is non-empty, both parts together are the shuffled examples, and the final echo fails exactly when training is empty |
| A2Convert.OneRecordEcho | training/slm_a2/scripts/a2_convert_for_openai.py:117-132 | a single record goes entirely to validation, so echoing train[0] raises IndexError after both files are written |
| A2Convert.Run | training/slm_a2/scripts/a2_convert_for_openai.py:96-132 | a missing, unreadable or empty input exits with status 1; otherwise the records are converted, shuffled and split into a validation part and a training part, both files are written, and the first training example is echoed, or IndexError is raised when there is none |
| TrainLora.In | training/slm_a2/scripts/train_lora.py:130 | membership on a dict is key membership; on None, a bool or an int it raises TypeError |
| TrainLora.Subscript | training/slm_a2/scripts/train_lora.py:131 | indexing a dict by a present key gives its value |
| TrainLora.StripValue | training/slm_a2/scripts/train_lora.py:134-135 | only a string can be stripped, and gives its stripped text |
| TrainLora.PromptMatchesWindowing | training/slm_a2/scripts/train_lora.py:138-151 | the old-format prompt is built exactly as the windowing script builds it |
| TrainLora.Ordered | training/slm_a2/scripts/train_lora.py:152 | the labels re-listed under their sorted keys, each with its own value |
| TrainLora.OrderedShape | training/slm_a2/scripts/train_lora.py:152 | the keys are strictly sorted and the same as the labels' keys |
| TrainLora.GetOrEmpty | training/slm_a2/scripts/train_lora.py:134-136 | only a dict item can be read with .get |
| TrainLora.PassThrough | training/slm_a2/scripts/train_lora.py:130-131 | an item with both prompt and target is passed through unchanged |
| TrainLora.InputFieldOf | training/slm_a2/scripts/train_lora.py:134-135 | a string field of a non-empty input dict is read stripped |
| TrainLora.LabelsOf | training/slm_a2/scripts/train_lora.py:136 | a labels dict is read as it is |
| TrainLora.OldFormat | training/slm_a2/scripts/train_lora.py:133-154 | an old-format item gives the windowing prompt of its stripped task and context and the JSON of its labels in sorted key order |
| TrainLora.NotADict | training/slm_a2/scripts/train_lora.py:130 | an item that is not a dict raises an error |
| TrainLora.SliceTo | training/slm_a2/scripts/train_lora.py:192 | Python's [:m] on a list: a prefix, of length m clamped for m >= 0 and of length len+m clamped at 0 for negative m |
| TrainLora.MaskPrompt | training/slm_a2/scripts/train_lora.py:196-200 | the labels copy the ids, with the first prompt_len positions set to -100 |
| TrainLora.Encode | training/slm_a2/scripts/train_lora.py:181-206 | input_ids are prompt, target and EOS (when defined) truncated to max_length; labels equal them except the first min(len(prompt), len(full)) positions, which are -100; the attention mask is all ones |
| TrainLora.EncodingShape | training/slm_a2/scripts/train_lora.py:186-206 | the ids are a prefix of prompt, target and EOS, cut at max_length; labels mask exactly the prompt part and copy the rest; the attention mask is all ones |
| TrainLora.A2JsonlDataset.constructor | training/slm_a2/scripts/train_lora.py:164-174 | the rows and max length are stored and nothing is encoded yet |
| TrainLora.A2JsonlDataset.EncodeRows | training/slm_a2/scripts/train_lora.py:175-206 | every row is encoded in order; the first failing row's error is returned |
| TrainLora.A2JsonlDataset.Length | training/slm_a2/scripts/train_lora.py:208-209 | the number of encoded rows |
| TrainLora.A2JsonlDataset.GetItem | training/slm_a2/scripts/train_lora.py:211-212 | list indexing: valid exactly for -n <= idx < n, negative indices from the end |
| TrainLora.EncodeOne | training/slm_a2/scripts/train_lora.py:176-206 | one dataset row is turned into prompt and target text, tokenized and encoded with the prompt masked; a tokenizer error is returned |
| TrainLora.NewDataset | training/slm_a2/scripts/train_lora.py:164-206 | a new dataset holds the encodings of all its rows, or the construction fails with the first row's error |
| TrainLora.DatasetRows | training/slm_a2/scripts/train_lora.py:175-206 | the k-th encoding is the encoding of the k-th row |
| TrainLora.MaxLen | training/slm_a2/scripts/train_lora.py:219 | the longest input length of the batch: no feature is longer and one has it |
| TrainLora.BatchLengthRoundsUp | training/slm_a2/scripts/train_lora.py:220-222 | the batch length is the least multiple of N not below the longest length |
| TrainLora.Fill | training/slm_a2/scripts/train_lora.py:229-231 | n copies of the padding value |
| TrainLora.PadRow | training/slm_a2/scripts/train_lora.py:226-231 | padding fails exactly when the row is longer than the batch width |
| TrainLora.Stack | training/slm_a2/scripts/train_lora.py:237-241 | the batch holds the rows' ids, labels and masks in order |
| TrainLora.CollatedShape | training/slm_a2/scripts/train_lora.py:215-242 | every row is right-padded to the common length (a multiple of N): ids with pad_id, labels with -100, the mask with zeros |
| TrainLora.CollateBatch | training/slm_a2/scripts/train_lora.py:215-242 | an empty batch is a ValueError; otherwise every row is padded to the longest length rounded up to the multiple, ids with pad_id, labels with -100 and the mask with 0 |
| TrainLora.Longest | training/slm_a2/scripts/train_lora.py:219 | the loop finds the longest length |
| TrainLora.PadRows | training/slm_a2/scripts/train_lora.py:224-235 | the loop pads every row in order |
| TrainLora.MaxLenStep | training/slm_a2/scripts/train_lora.py:219 | the longest of one more row is the larger of the two |
| MakeTree.UnderBoundary | MD_Gen/MakeTree_MD.py:86 | a path under a different directory extends it by a separator, so "src2" is not under "src" |
| MakeTree.UnderAny | MD_Gen/MakeTree_MD.py:90-93 | some listed directory equals the normalised path or is a proper ancestor of it |
| MakeTree.DirFilterPrecedence | MD_Gen/MakeTree_MD.py:75-95 | a path at or under a filtered directory is refused; otherwise, with an only-list, it is allowed exactly when it is at or under a listed one; otherwise it is allowed |
| MakeTree.MatchesAny | MD_Gen/MakeTree_MD.py:106-110 | some pattern of the list matches the name |
| MakeTree.FileFilterPrecedence | MD_Gen/MakeTree_MD.py:98-112 | a name matching a filter pattern is refused; otherwise, with an only-list, it is allowed exactly when it matches one; otherwise it is allowed |
| MakeTree.TreeWriter.constructor | MD_Gen/MakeTree_MD.py:62-63 | a new writer holds no lines |
| MakeTree.TreeWriter.Write | MD_Gen/MakeTree_MD.py:65-67 | the text is appended as the last line, and nothing else changes |
| MakeTree.ItemsStep | MD_Gen/MakeTree_MD.py:125-137 | the lines of the items from idx on are the entry at idx followed by the rest |
| MakeTree.PrintTree | MD_Gen/MakeTree_MD.py:115-137 | the writer gains exactly the directory's lines: nothing for a refused directory, otherwise one connector line per shown entry in sorted order, each directory followed by its own lines under the extended prefix |
| MakeTree.PrintEntry | MD_Gen/MakeTree_MD.py:126-137 | the writer gains exactly the entry's lines: nothing for a refused file, otherwise its connector line (last by position among all sorted names) and, for a directory, its subtree |
| MakeTree.DirLinesPrefixed | MD_Gen/MakeTree_MD.py:133-137 | every line printed for a directory starts with the prefix it was given |
| MakeTree.ItemsLinesPrefixed | MD_Gen/MakeTree_MD.py:125-137 | the same for the lines of a run of its entries |
| MakeTree.EntryLinesPrefixed | MD_Gen/MakeTree_MD.py:131-137 | the same for the lines of one entry |
| MakeTree.LastFilteredKeepsTee | MD_Gen/MakeTree_MD.py:125-133 | when the last sorted name is a filtered file, the last shown entry still gets the "├── " connector, since is_last counts the skipped file |
| MakeTree.RootFileLines | MD_Gen/MakeTree_MD.py:149-152 | at most one line per root name: only allowed files are listed |
| MakeTree.MarkdownLines | MD_Gen/MakeTree_MD.py:170-174 | the file reads back as the title, a blank line, the opening fence, the tree lines, the closing fence and a final empty line |
| MakeTree.MarkdownJoin | MD_Gen/MakeTree_MD.py:170-174 | the file's text is the newline join of the title, the blank line, the opening fence, the tree lines, the closing fence and an empty last piece |
| MakeTree.WriteRootFiles | MD_Gen/MakeTree_MD.py:149-152 | the writer gains exactly the root file lines |
| MakeTree.WriteDirs | MD_Gen/MakeTree_MD.py:156-167 | the writer gains exactly the lines of the shown directories, each with its connector and subtree |
| MakeTree.WriteDir | MD_Gen/MakeTree_MD.py:157-167 | the writer gains nothing for a missing or refused directory, otherwise its connector line and its subtree under the matching prefix |
| MakeTree.WriteTree | MD_Gen/MakeTree_MD.py:144-167 | the lines are the base path, the root files and the shown directories' trees |
| MakeTree.MakeTreeMd | MD_Gen/MakeTree_MD.py:140-174 | with an empty only-list the undefined include_dirs raises NameError; otherwise the Markdown of the tree of the only-list directories |
| MakeTree.MakeTreeMdWith | MD_Gen/MakeTree_MD.py:140-174 | with include_dirs defined, the Markdown of the tree of the only-list, or of include_dirs when the only-list is empty |
| MakeTree.IncludeDirsShown | MD_Gen/MakeTree_MD.py:155-165 | every listed directory that exists and is allowed appears with its connector, the last one with "└── " |

## Left out

- File and persistence I/O is reduced to values. This covers:
  - reading files for `compute_sha256` and `load_manifest`;
  - the temp-file write and `os.replace` in `publish_atomic`, whose atomicity is not modelled;
  - `Path(manifest_path).resolve()`: `Ingestion.Run` reports the caller's manifest path as it was given;
  - the pickle `_save`/`_load` and `snapshot` of the NumPy store;
  - `PromptSchema._load` and `AgentFactory.load_config`;
  - `read_jsonl`;
  - the directory listing and the Markdown file write in `MakeTree_MD.py`.
- SHA-256 digests and the record fingerprints are opaque strings or parameters. Only equality and determinism are used.
- Floating point is not modelled:
  - cosine scores are a parameter returning reals, and the 1e-12 epsilon is left out;
  - the temperature's value is not kept: only whether `float()` accepts it (`AgentPromptEngine.PyFloat`) is modelled;
  - the window stride `round(W*(1-overlap))` is a parameter function, with the stride clamped to at least 1 as the code does;
  - the split sizes `int(0.8*n)`, `int(0.1*n)` and `round(val*n)` are given integers.
- The shuffles in the three dataset scripts are either left out (the split is applied to the given order) or a parameter (`A2Convert.Run`). The throwaway seeded `Random` instance is not modelled.
- Several external behaviours are parameters or oracles:
  - `json.loads` is a partial function parameter, and `json.dumps` a function parameter;
  - the Hugging Face tokenizer and `decode`, the embedder, the LLM client and the clock;
  - `fnmatch` and `os.path.normpath`;
  - Chroma's nearest-neighbour ranking is an oracle;
  - a Chroma `where` filter is read as a conjunction of metadata equalities, standing for the `$and` form the ingestion manager writes; a plain dict with several keys is modelled only in `ChromaStore.GetWherePlain`;
  - duplicate ids in one Chroma upsert are taken to raise DuplicateIdError, as Chroma validates ids.
- The `_pre_add`/`_post_add` hooks of the Chroma base class are their default identities. Subclass overrides are not modelled.
- `SimpleLogger` output is not modelled, and `ragstream/utils/logging.py` is reduced to the set of methods it defines (`log` and `error`). The factory and the A2 agent call `SimpleLogger.info`, which that class lacks; `AgentFactoryCache.AgentFactory.constructor`, `AgentFactoryCache.AgentFactory.GetAgent`, `AgentFactoryCache.AgentFactory.ClearCache`, `AgentFactoryCache.GetAgentTwice` and `A2Shaper.Run` read those calls as the intended `log`, a no-op here. The behaviour as written is modelled separately (see Findings).
- The stray `breakpoint()` in `preprocess` is not modelled.
- Console output is not modelled: the echo of tree lines in `MakeTree_MD.py`, the split summaries of the dataset scripts, and the error logs of `field_normalizer.py` and `json_parser.py`.
- The torch training and evaluation loop of `train_lora.py` is not modelled. Neither is the tokenizer's `pad_token` assignment in `clean_and_window_384.py`.
- Unicode NFKC normalisation in `normalize_key` is the identity. `\w` is read as ASCII letters, digits, `_` and every non-ASCII character that is not whitespace.
- `os.path.relpath` in `print_tree` is taken as the parent's relative path, the separator and the entry name.
- The header regex of `_parse_markdown_sections` needs no space after the hashes, although the comment above it says one is required. The model follows the regex; see `Preprocessing.NoSpaceNeededAfterHashes`.
- `VectorStoreNp.VectorStoreNP.Add` keeps `_id2idx[_ids[i]] == i` only for batches whose new ids are distinct. A new id repeated in one batch is appended twice, as the code does (`VectorStoreNp.DuplicateNewIdAppendedTwice`).
- FileManifest.PrevFilesRead: a previous "files" JSON list whose items all pass `{rec["path"]: rec ...}` is reported as a TypeError, where `diff` goes on with those items. Stored manifests hold records, so this only concerns hand-written manifests.
- FileManifest.Diff: inherits the `FileManifest.PrevFilesRead` gap above.
- Ingestion.Run: inherits the `FileManifest.PrevFilesRead` gap above.
- PyJson.KeyOf reads a truthy id that is not a string (an int, a list, a dict) as absent. Python keys its dicts by an int id, and raises TypeError (unhashable) for a list or a dict id. The members below inherit this:
- ConfigLoader.OptionStep: an option with such an id is dropped, as `PyJson.KeyOf` reads the id as absent.
- ConfigLoader.CollectOptions: options with such ids are skipped, and the unhashable-id TypeError is not raised, as `PyJson.KeyOf` reads the id as absent.
- ConfigLoader.FieldStep: an enum field with such an id changes nothing, as `PyJson.KeyOf` reads the id as absent.
- ConfigLoader.FieldIdsComeFromEnumFields: an int field id gets no entry, as `PyJson.KeyOf` reads the id as absent.
- ConfigLoader.EnumFieldKept: an enum field with an int id gets no defaults entry, as `PyJson.KeyOf` reads the id as absent.
- SchemaMap.KeysSpec: the unhashable-id TypeError is not raised, as `PyJson.KeyOf` reads the id as absent.
- SchemaMap.KeysAreFieldIds: an int field id is not a key, as `PyJson.KeyOf` reads the id as absent.
- SchemaMap.LastEntryKept: a field with an int id has no entry, as `PyJson.KeyOf` reads the id as absent.
- AgentPromptEngine.PyFloat accepts only ASCII digits in a float string, where Python also accepts other Unicode decimal digits.
- PyJson.Json has no float value. A JSON number with a fraction or an exponent (such as `"temperature": 0.7`, or a float `max_tokens`, which `int()` would truncate) cannot be an input to any member that reads JSON, and `str()` of a float label value is not modelled.
- PyJson.PyInt accepts only ASCII digits in a string, where Python's `int()` also accepts other Unicode decimal digits. Single underscores between digits are accepted, as in Python.
- AgentPromptEngine.LlmSettings reads `max_tokens` through `PyJson.PyInt`, so it inherits the ASCII-digit gap and cannot take a float value.
- AgentPromptEngine.FromConfig inherits the `AgentPromptEngine.LlmSettings` gaps on `max_tokens` and the float gap on `temperature`.
- ChromaStore.VectorStoreChroma.DeleteFileVersion models the corrected filter, the `$and` of the path and sha256 equalities; the source's plain two-key dict is `ChromaStore.DeleteFileVersionAsWritten`.
- PromptSchemaKeys.NormalizeKeyChars: case mapping is ASCII only, so "no upper-case letter" means no A-Z. Python's `str.lower` would also lower "Ü"; here "# ÜBERSICHT" keeps its "Ü".
- PromptSchemaKeys.LowerHasNoUpper: stated for the ASCII `lower` of the model, not for Python's Unicode `str.lower`.
- CleanWindow.UpperOfLower: stated for ASCII case mapping. Under Python's mapping it fails for the Kelvin sign, and "ſ" upper-cases to "S".
- CleanWindow.CanonKeySpelling, CleanWindow.CanonKeyIdempotent and the other `canon_key` members use the same ASCII case mapping.
- ComposeTexts.PayloadLinesAt: a value's `repr` escapes control characters only up to U+00A0. Python also escapes other non-printable characters above it (such as "\xad" and "\u200b"), so such a value prints differently.
- PyJson.ReprChar: writes every character above U+00A0 as it is, where Python escapes the non-printable ones.
- A2Shaper.Chosen: models `compose` as corrected. As written it always raises TypeError, which `A2Shaper.ChosenAsWritten` states.
- A2Shaper.Choose: models `compose` as corrected, so the LLM is reached; as written it never is.
- A2Shaper.Run: models `compose` as corrected; as written every run with a chooser agent ends in that TypeError with the SuperPrompt untouched.
- CleanWindow.FittedShape: runs on the corrected windowing (`CleanWindow.WindowInputsCapped`), whose fallback row stays within the budget. As written the fallback row can exceed it and the per-label fallback never runs (`CleanWindow.FallbackOverBudget`).
- CleanWindow.PerKeyShape: runs on the corrected windowing (`CleanWindow.WindowInputsCapped`), whose fallback row stays within the budget. As written the fallback row can exceed it and the per-label fallback never runs (`CleanWindow.FallbackOverBudget`).
- CleanWindow.ItemWindowsShape: runs on the corrected windowing (`CleanWindow.WindowInputsCapped`), whose fallback row stays within the budget. As written the fallback row can exceed it and the per-label fallback never runs (`CleanWindow.FallbackOverBudget`).
- CleanWindow.WindowItem: runs on the corrected windowing (`CleanWindow.WindowInputsCapped`), whose fallback row stays within the budget. As written the fallback row can exceed it and the per-label fallback never runs (`CleanWindow.FallbackOverBudget`).
- CleanWindow.PerKeyWindows: runs on the corrected windowing (`CleanWindow.WindowInputsCapped`), whose fallback row stays within the budget. As written the fallback row can exceed it and the per-label fallback never runs (`CleanWindow.FallbackOverBudget`).
- CleanWindow.PerKeyStep: runs on the corrected windowing (`CleanWindow.WindowInputsCapped`), whose fallback row stays within the budget. As written the fallback row can exceed it and the per-label fallback never runs (`CleanWindow.FallbackOverBudget`).
- CleanWindow.SplitRowsOk: runs on the corrected windowing (`CleanWindow.WindowInputsCapped`), whose fallback row stays within the budget. As written the fallback row can exceed it and the per-label fallback never runs (`CleanWindow.FallbackOverBudget`).
- CleanWindow.BuildSplitFits: runs on the corrected windowing (`CleanWindow.WindowInputsCapped`), whose fallback row stays within the budget. As written the fallback row can exceed it and the per-label fallback never runs (`CleanWindow.FallbackOverBudget`).
- CleanWindow.BuildSplit: runs on the corrected windowing (`CleanWindow.WindowInputsCapped`), whose fallback row stays within the budget. As written the fallback row can exceed it and the per-label fallback never runs (`CleanWindow.FallbackOverBudget`).
- CleanWindow.BuildDataset: runs on the corrected windowing (`CleanWindow.WindowInputsCapped`), whose fallback row stays within the budget. As written the fallback row can exceed it and the per-label fallback never runs (`CleanWindow.FallbackOverBudget`).
- AgentFactoryCache.ConfigPathInjective: pathlib normalisation of separators inside a version (such as "a//b") is not modelled; ConfigPath does not normalise a version or an id holding separators (such as "a//b"). pathlib would collapse the doubled "/".
- VectorStoreNp.VectorStoreNP.Add does not model the float32 cast. A ragged batch is one ValueError, whether NumPy raises it in `np.asarray` or at the 2-D check, and only the fact of the error is stated, not its message.
- The UI, the stubs, the drivers and the other training scripts are not part of this model.

## Findings

| source | as written | input that shows it | evidently intended | confidence | as-written member | corrected member |
|---|---|---|---|---|---|---|
| ragstream/orchestration/agent_prompt.py:193-200 | `compose` calls `build_user_text_for_chooser` without its required `option_labels` argument, so it always raises TypeError | any chooser agent whose texts are strings | pass `option_labels={}`, as the agent stores no labels | high, not executed | AgentPromptEngine.ComposeAsWritten | AgentPromptEngine.Compose |
| ragstream/preprocessing/preprocessing.py:126 | step 4 reads `schema.must`, but `PromptSchema` only has `must_keys`, so every prompt with a header raises AttributeError | the prompt "# Task\nx" | iterate over `schema.must_keys` | high, not executed | Preprocessing.PreprocessAsWrittenFailsOnHeaders | Preprocessing.Preprocess |
| ragstream/orchestration/agent_prompt.py:247-259 | `parse` calls `.get` on whatever `extract_json_object` returned, and that may be a list | raw output "[1]" with an active enum field | treat an answer that is not an object as {} | medium, not executed | AgentPromptEngine.ParseOfListAnswerFails | AgentPromptEngine.ParseNeverFails |
| training/slm_a2/scripts/clean_and_window_384.py:251-260 | when no window fits, one instruction-only row is returned without re-checking the budget, so the caller's per-label fallback never runs | instruction of 3 tokens, label tail of 1 token, max_len 3 | return [] when even the instruction and the labels do not fit, as the docstring says | high, not executed | CleanWindow.FallbackOverBudget | CleanWindow.WindowIdsCappedFits |
| MD_Gen/MakeTree_MD.py:155 | `include_dirs` is used but its definition is commented out, so an empty `only_dirs` raises NameError | `only_dirs = []` | show the `include_dirs` list | high, not executed | MakeTree.MakeTreeMd | MakeTree.MakeTreeMdWith |
| ragstream/orchestration/agent_factory.py:72 | `__init__`, `get_agent` (line 146) and `clear_cache` (line 163) call `SimpleLogger.info`, but the logger defines only `log` and `error` (ragstream/utils/logging.py:17-23), so each raises AttributeError; `get_agent` raises after caching the agent | `AgentFactory()` | call `SimpleLogger.log` | high, not executed | AgentFactoryCache.ShippedLoggerBreaksFactory | AgentFactoryCache.AgentFactory.GetAgent |
| ragstream/ingestion/vector_store_chroma.py:89 | `delete_file_version` passes `where={"path": rel_path, "sha256": sha256}`, a dict with two top-level keys; Chroma's `where` validation takes exactly one key (one field or one operator), so the lookup raises ValueError | any `delete_file_version("a.md", "x")` | `{"$and": [{"path": rel_path}, {"sha256": sha256}]}`, the form ingestion_manager.py:225 uses for the same test | medium, not executed (the validation is in Chroma, which is not part of this model) | ChromaStore.DeleteFileVersionAsWritten | ChromaStore.VectorStoreChroma.DeleteFileVersion |
