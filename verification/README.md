# Verified models of NeMo-Skills' stateful cores

NeMo-Skills runs language models over datasets, executes what they write in sandboxes, converts their checkpoints and
post-processes their answers. This project models the parts of it that keep state across steps, and proves what a user
relies on there. Every module is one component; `dafny verify dfyconfig.toml` checks all of them.

| module | component |
|---|---|
| `ShellManagers`, `Sandboxes` | the sandbox server's shells and the client that replays a session's history |
| `Generation` | resumable generation: the append-only log, any completion order, stops and restarts |
| `Chunking`, `Loading` | splitting a dataset, running the chunks, merging them; loading a file whole or by chunks |
| `QkvLayout`, `CheckpointNames`, `Checkpoints`, `ModelConfig` | HF to NeMo and back: packed attention layout, key names, whole checkpoints, vocabulary divisor |
| `Tournament` | the knockout tournament between proofs |
| `HybridCaches` | the in-memory cache that is saved in the background |
| `Translation` | taking documents apart line by line and putting the translations back |
| `BoxedAnswer` | the last `\boxed{...}` of a text |
| `ToolSchemas`, `ToolClients`, `ToolRouting` | renamed tools, hidden arguments, and the way of a call from model to server |
| `Prover` | the refinement conversation of the Lean prover |
| `MajorityFill` | majority voting and filling the winner in |
| `Wrappers`, `Arithmetic`, `Sequences` | shared helpers |

How to read it. Objects that the source updates in place are classes; their methods are proved against a function of the
old state, and the properties are proved about that function: over every sequence of events, every schedule, every input.
What the environment decides (a process dying, a reply of a model, a shuffle, the order in which tasks finish) is an
argument, so a theorem over all arguments holds whatever the environment does. Where the code meets a property only under
a condition, the condition is stated and proved in both directions, and cases that fail are lemmas with a concrete input.

## Results that differ from what one might expect

- `Sandboxes.CallKeepsAgreementIff`: a call loses session agreement in exactly two cases.
  - An interruption before the restore (`Sandboxes.InterruptionDiverges` shows one): the first request lands on a process
    that has run nothing, is interrupted without losing that process, and the client has a history. The reply is a timeout,
    after which the client never restores, and the server's flag is gone. `local_sandbox_server.py:112` installs `SIG_DFL`, so
    the interrupt of a timeout normally kills the process (the comment above that line says it raises `KeyboardInterrupt`).
    The case needs a cell that installs a Python handler for SIGINT again, such as `signal.default_int_handler`, and whose
    `KeyboardInterrupt` escapes IPython; a report may likewise arrive late from a process that survives or from one that dies.
  - A restart inside the restore (`Sandboxes.RestartInsideDiverges`): every replayed cell succeeds, but the worker restarts
    after the first of them, and the process that then serves the new cell answers and lives on.
- `Generation.StuckForever`: a run stopped after its last task but before the rewrite leaves a log that no later
  `skip_filled` run turns into an output file. `Chunking.MergeSucceedsIff` says which chunked runs end with a merge;
  a chunk's marker says only that a run was not stopped (`Chunking.DoneIff`).
- `Checkpoints.RoundTrip`: the round trip fails exactly for Qwen with `megatron_amp_O2`; the Qwen converter does not look
  below the renamed base, the Llama converter does.
- `Tournament.TooManyWinners`: with more winners asked for than participants the truncation index is negative and brings
  invalid participants back.
- `HybridCaches.CacheDurability`: with saves overlapping, the file ends up with the snapshot that was dumped last, which need
  not be the newest (`HybridCaches.OverlappingSavesLose`). `HybridCaches.DumpIsSnapshotIff`: a dump writes its snapshot unless a
  set that the snapshot shares was enlarged in between (`HybridCaches.AddInFlightTears`).
- `Loading.ChunkedLoadIff`: with several chunks, a parsable last line without a newline is in no chunk. `Loading.JLoadChunk`:
  the documentation of `jload_chunk` promises comma-separated lists of files, but several files can only be loaded as one
  chunk. `Loading.NegativeChunk`: a negative chunk number is not refused, it loads nothing.
- `ToolRouting.RelistingIff`: listing again without the cache raises as soon as there is any tool, because the routing
  table is never cleared. `ToolSchemas.MappingInvertsIff`: renames that collide send calls to the wrong parameter.
- `Prover.FullAlternatesIff`: the record kept for training data stops alternating as soon as one answer had no code.
  `Prover.ProverTask.SingleDataPointGenerate`: with refinement off a failed proof raises, since no refinement prompt exists.

## Model

| member | source | states |
|---|---|---|
| ShellManagers.ShellManager.FinishRestart | nemo_skills/code_execution/local_sandbox/local_sandbox_server.py:215-227 | A replacement shell is a new process whose restart is flagged as pending. |
| ShellManagers.ShellManager.RunCell | nemo_skills/code_execution/local_sandbox/local_sandbox_server.py:247-402 | On each outcome (a report in time, or late from a process that survives the interrupt or not; EOF, silence, send failure) the shells and the reply are those of the specification; no other session's entry changes. |
| ShellManagers.ShellManager.ExecuteIpythonSession | nemo_skills/code_execution/local_sandbox/local_sandbox_server.py:470-535 | The status and the new-session flag sent to the client are those the specification derives from the state before the request. |
| ShellManagers.ShellManager.DeleteSession | nemo_skills/code_execution/local_sandbox/local_sandbox_server.py:770-783 | Deleting removes only that session; 200 if it existed, 404 otherwise. |
| ShellManagers.StatusIff | nemo_skills/code_execution/local_sandbox/local_sandbox_server.py:470-535 | The client reads "completed" exactly if a living process ran the cell without an error, "timeout" exactly if the cell was interrupted or its process still silent when its time was up, and "error" otherwise. |
| ShellManagers.AfterRunKeepsFlagExact | nemo_skills/code_execution/local_sandbox/local_sandbox_server.py:215-402 | Every request keeps the flag exact: a shell is flagged as pending exactly if its process has run nothing yet. |
| ShellManagers.NoSilentStateLoss | nemo_skills/code_execution/local_sandbox/local_sandbox_server.py:247-535 | In every run of requests, deaths, deletions: a reply announces a new session exactly if its cell was the first its process received or the process was lost with it, and a lost process never receives another cell. |
| Sandboxes.Sandbox.ExecuteCode | nemo_skills/code_execution/sandbox.py:139-277 | The whole call (first request, restore by delete and replay, final request, history update; or, with restore disabled, dropping the history and a warning) as a function of client and server state. |
| Sandboxes.Sandbox.DeleteSession | nemo_skills/code_execution/sandbox.py:346-365 | Server entry and client history are both dropped, on 200 and on 404. |
| Sandboxes.ReplayLeaves | nemo_skills/code_execution/sandbox.py:189-240 | A replay that succeeds leaves exactly the cells since the last worker restart, and without one all of them, in order, on top of what the process held. |
| Sandboxes.ReplaySucceedsIff | nemo_skills/code_execution/sandbox.py:189-240 | After the deletion a replay succeeds if and only if every request finds its process alive and its cell runs without an error. |
| Sandboxes.OneRequestOtherwise | nemo_skills/code_execution/sandbox.py:153-192 | Only a named session that an answer other than a timeout announces as new is restored; any other call sends its cell once, to the named session or the uuid drawn, and changes at most that history. |
| Sandboxes.FailedReplayForgets | nemo_skills/code_execution/sandbox.py:221-242 | If a cell of the history does not complete again, the call reports an error, the session is gone from the server and its history from the client, and no other history changes. |
| Sandboxes.RestoredAgreesIff | nemo_skills/code_execution/sandbox.py:183-273 | A call that restores leaves its session in agreement if and only if the restore did not lose its replay to a restart; other sessions are untouched; the history is cleared exactly if the replay failed, and otherwise extended exactly if the new cell completed. |
| Sandboxes.CallKeepsAgreementIff | nemo_skills/code_execution/sandbox.py:139-277 | Whatever processes and workers do, one call keeps every session in agreement if and only if it was neither interrupted before a restore nor lost its replay to a restart; what the history is afterwards, cleared exactly by a failed replay; a completed cell ran on a process holding precisely the history before it if and only if the call did not restore with a restart inside. |
| Sandboxes.DeletingKeepsAgreement | nemo_skills/code_execution/sandbox.py:346-365 | A caller's own deletion keeps every session in agreement. |
| Sandboxes.AgreementInEveryRun | nemo_skills/code_execution/sandbox.py:139-277 | Over every run of calls and deletions, with processes dying and workers restarting before any request, agreement holds throughout if and only if neither failure happens to any call. |
| Sandboxes.RestartInsideDiverges | nemo_skills/code_execution/sandbox.py:189-273 | A concrete call in which a worker restart between two requests ends with "completed" and disagreement. |
| Sandboxes.InterruptionDiverges | nemo_skills/code_execution/sandbox.py:183-192 | A concrete call whose interrupted first cell ends with a timeout and disagreement. |
| Generation.GenerationTask.SkipCompletedSamples | nemo_skills/inference/generate.py:559-589 | Which data points remain, from the finished file, the partial log, or a merged marker. |
| Generation.GenerationTask.AsyncLoop | nemo_skills/inference/generate.py:858-903 | Outputs are appended to the log in completion order, then, unless stopped, the order is restored. |
| Generation.GenerationTask.RestoreAsyncOrder | nemo_skills/inference/generate.py:905-920 | Each row goes to its position, a later entry for the same position replacing an earlier one, and the log is removed; if a position is out of range it raises with the files as they were. |
| Generation.SlotIsLastEntry | nemo_skills/inference/generate.py:905-920 | A row of the output is the last entry logged for its position, and null without one. |
| Generation.GenerationTask.Generate | nemo_skills/inference/generate.py:952-977 | One run: skip, delete stale files unless resuming, generate, rewrite. |
| Generation.FreshRunForgets | nemo_skills/inference/generate.py:970-973 | Without `skip_filled` neither file survives the start of a run: whatever was on disk, a stopped run leaves what its own tasks appended and no output; only with no data nothing is deleted. |
| Generation.NothingToDoIff | nemo_skills/inference/generate.py:559-589 | A resumed run does nothing exactly if the output or the merged file exists or every position is in the log. |
| Generation.RunExtendsSoundly | nemo_skills/inference/generate.py:559-903 | A run appends only positions below N that are not in the log yet, and fills all of them if it is not stopped. |
| Generation.ResumeExactlyOnce | nemo_skills/inference/generate.py:559-920 | For any number of resuming runs, each stopped after any subset of tasks in any order: no position is generated twice, and the output, once written, has N rows with row i the one output ever generated for position i. |
| Generation.FreshRunCompletes | nemo_skills/inference/generate.py:952-977 | Without `skip_filled` a run that is not stopped writes the complete ordered file whatever was on disk. |
| Generation.ResumeFinishesIff | nemo_skills/inference/generate.py:952-977 | A resumed run that is not stopped finishes the file exactly if some position is still open. |
| Generation.StuckForever | nemo_skills/inference/generate.py:955-960 | If all positions are in the log but the file was not written, no number of further runs changes anything. |
| Chunking.ChunksTile | nemo_skills/file_utils.py:185-211 | The computed ranges are consecutive, cover [0, n), and differ in size by at most one, the larger ones first. |
| Chunking.LastChunkEmptyIff | nemo_skills/utils.py:406-414 | Some chunk is empty exactly if there are more chunks than rows, and then the last one is. |
| Chunking.OutputDirectory.Merge | nemo_skills/inference/merge_chunks.py:46-65 | Nothing changes unless every chunk has its marker and its file; then the files are concatenated in chunk order and removed, and the output gets its marker. |
| Chunking.ChunkRunSound | nemo_skills/inference/generate.py:559-920 | A chunk's files only ever hold outputs of its own rows, and a finished chunk holds all of them in order. |
| Chunking.DoneIff | nemo_skills/pipeline/utils/generation.py:505-511 | After any runs a chunk has its `.done` marker exactly if one of its runs was not stopped, whether or not that run wrote the output. |
| Chunking.MergedIsUnchunked | nemo_skills/inference/merge_chunks.py:46-65 | Whatever chunk runs, stops, resumptions and merge attempts happen, the merged file is absent or equals the output of an unchunked run; an attempt succeeds exactly if all chunks are marked and present. |
| Chunking.MergeSucceedsIff | nemo_skills/inference/merge_chunks.py:46-65 | For any runs, stops, resumptions and merge attempts, a final attempt leaves the merged file if and only if every chunk has a run that is not stopped before stopped ones have used up its rows. |
| Chunking.AnyOrderMerges | nemo_skills/inference/merge_chunks.py:46-65 | For 1 <= k <= n, running every chunk, in any order, then merging, gives the unchunked rows. |
| Loading.CountNewlinesBuffered | nemo_skills/file_utils.py:154-169 | The buffered count is the number of newlines however the file is cut into buffers. |
| Loading.JLoad | nemo_skills/file_utils.py:118-138 | The parsed lines of all files of a list in order, unparsable ones skipped. |
| Loading.FilesInOrder | nemo_skills/file_utils.py:118-138 | What several files hold is kept in the order of the files. |
| Loading.FilesAreOne | nemo_skills/file_utils.py:118-138 | Loading several files is loading the one file they make together, if each but the last ends in a newline. |
| Loading.JLoadChunk | nemo_skills/file_utils.py:240-271 | For a valid chunk number exactly the parsed lines of that chunk's range; the result for every other number and for lists of files, errors included. |
| Loading.NegativeChunk | nemo_skills/file_utils.py:240-271 | A negative chunk number loads nothing with two chunks or more; with none it divides by zero, and with fewer it is refused. |
| Loading.LinesVersusNewlines | nemo_skills/file_utils.py:141-169 | The number of lines is the number of newlines, plus one if the last line has none. |
| Loading.LinesAreText | nemo_skills/file_utils.py:123-129 | The lines laid end to end are the file. |
| Loading.LinesAreLines | nemo_skills/file_utils.py:123-129 | No line holds a newline except at its end, and each but the last ends in one. |
| Loading.ChunkedLoadIff | nemo_skills/file_utils.py:240-271 | All chunks together equal the whole file if and only if there is one chunk, the file ends in a newline, or its last line does not parse. |
| QkvLayout.Interleave | nemo_skills/conversion/hf_to_nemo_llama.py:240-245 | The loop packs the heads group by group: the group's queries, its key, its value. |
| QkvLayout.SlicesPartition | nemo_skills/conversion/nemo_to_hf_llama.py:166-173 | Every head of the packed tensor is in exactly one of q_slice, k_slice, v_slice; k and v have one entry per group. |
| QkvLayout.UnpackPacked | nemo_skills/conversion/nemo_to_hf_llama.py:166-190 | Selecting the slices from packed heads returns q, k and v. |
| QkvLayout.PackUnpacked | nemo_skills/conversion/hf_to_nemo_llama.py:240-245 | Packing the selected heads returns the packed heads. |
| QkvLayout.PackQkv | nemo_skills/conversion/hf_to_nemo_llama.py:234-246 | View as heads, interleave, reshape: the packed tensor of the specification. |
| QkvLayout.PackInterleavesIff | nemo_skills/conversion/hf_to_nemo_llama.py:234-246 | Row by row: the packed tensor is the one in which every group holds the rows of its query heads in order, then of its key, then of its value. |
| QkvLayout.UnpackDeinterleaves | nemo_skills/conversion/nemo_to_hf_llama.py:161-190 | The unpacked projections are the ones whose rows stand in those places. |
| QkvLayout.UnpackPackTensor | nemo_skills/conversion/nemo_to_hf_llama.py:161-190 | On whole tensors, through flattening and reshaping: unpacking undoes packing. |
| QkvLayout.PackUnpackTensor | nemo_skills/conversion/hf_to_nemo_llama.py:234-246 | On whole tensors: packing undoes unpacking, for every packed tensor. |
| CheckpointNames.HfNamesDistinct | nemo_skills/conversion/nemo_to_hf_llama.py:155-236 | No two HF parameters share a name, for any layer numbers. |
| CheckpointNames.NemoNamesDistinct | nemo_skills/conversion/hf_to_nemo_llama.py:208-309 | No two NeMo parameters share a name. |
| CheckpointNames.NemoEntries | nemo_skills/conversion/hf_to_nemo_llama.py:248-293 | The name of every tensor of a NeMo layer, written out. |
| CheckpointNames.HfAttentionEntries | nemo_skills/conversion/nemo_to_hf_llama.py:184-190 | The names of the query, key and value tensors of an HF layer, written out. |
| CheckpointNames.HfOtherEntries | nemo_skills/conversion/nemo_to_hf_llama.py:192-227 | The names of the other tensors of an HF layer, written out. |
| CheckpointNames.DecimalValue | nemo_skills/conversion/hf_to_nemo_llama.py:234 | The layer number in a name is its decimal numeral, without leading zeros. |
| CheckpointNames.BasesDisjoint | nemo_skills/conversion/nemo_to_hf_llama.py:150-152 | No name below `model` is a name below `model.module`. |
| CheckpointNames.RenameName | nemo_skills/conversion/hf_to_nemo_llama.py:318 | Replacing the first `model.` moves every name below `model.module` and changes nothing else of it. |
| CheckpointNames.RenameFirst | nemo_skills/conversion/hf_to_nemo_llama.py:318 | In any key exactly the first `model.` is replaced, wherever it stands. |
| CheckpointNames.RenameNothing | nemo_skills/conversion/hf_to_nemo_llama.py:318 | A key without one stays as it is. |
| Checkpoints.HfToNemo | nemo_skills/conversion/hf_to_nemo_llama.py:205-318 | The state dict holds exactly the model's parameters in the packed layout, renamed or not. |
| Checkpoints.ConvertHf | nemo_skills/conversion/hf_to_nemo_llama.py:205-318 | Entry by entry, under the names written out: embedding, norms, projections and output layer are copied, the attention tensors are interleaved row by row, gate rows come before up rows, and a rotary table is kept; below `model.module.` if renamed. There is no other entry, and no bias but Qwen's. |
| Checkpoints.RenameKeys | nemo_skills/conversion/hf_to_nemo_llama.py:315-318 | The pop-and-reinsert loop, in any key order, moves every tensor to its new name; none is lost, overwritten or invented. |
| Checkpoints.RenamesSafely | nemo_skills/conversion/hf_to_nemo_llama.py:315-318 | On every converted checkpoint the new names collide with nothing. |
| Checkpoints.NemoToHf | nemo_skills/conversion/nemo_to_hf_llama.py:150-237 | Exactly the HF parameters, unpacked; a lookup raises exactly for Qwen below the renamed base. |
| Checkpoints.ConvertNemo | nemo_skills/conversion/nemo_to_hf_llama.py:150-237 | The same correspondence, entry by entry, for the way back, whatever else the NeMo state dict holds; and no other entry. |
| Checkpoints.RestoreQkv | nemo_skills/conversion/nemo_to_hf_qwen.py:136-187 | Weights, and for Qwen the biases, of one layer are unpacked under their HF names. |
| Checkpoints.ConvertQkv | nemo_skills/conversion/hf_to_nemo_qwen.py:179-220 | Weights, and for Qwen the biases, of one layer are packed under their NeMo names. |
| Checkpoints.LayerRoundTrip | nemo_skills/conversion/nemo_to_hf_llama.py:158-227 | Every parameter of a layer comes back as it was, the MLP halves included. |
| Checkpoints.RoundTrip | nemo_skills/conversion/nemo_to_hf_llama.py:150-237 | For any number of layers, Llama or Qwen, with or without the renaming: HF to NeMo to HF is the identity on names and tensors of the model, and fails exactly for Qwen with the renaming. |
| ModelConfig.VocabDivisor | nemo_skills/conversion/hf_to_nemo_llama.py:111-114 | The loop ends at the largest divisor of 128 that divides the vocabulary size. |
| Tournament.ExtractWinner | nemo_skills/inference/tournament_utils.py:198-225 | The member that the parsed index names, from the front or, negative, from the end; the random one if it does not parse or is out of range; everybody else is knocked out. |
| Tournament.MakeBatches | nemo_skills/inference/tournament_utils.py:149-153 | The batches of two or more among consecutive slices. |
| Tournament.RoundConserves | nemo_skills/inference/tournament_utils.py:159-172 | A round's participants are its losers and its survivors, nobody twice. |
| Tournament.RoundContracts | nemo_skills/inference/tournament_utils.py:139-172 | Whatever the shuffle and the judge, one round leaves exactly ceil(r/p) of r, and nobody is knocked out twice. |
| Tournament.OneStaysOfGroup | nemo_skills/inference/tournament_utils.py:139-172 | Seat by seat: the shuffled participants still in the game sit in consecutive groups of p, and of each group exactly the one that its own game names stays in. |
| Tournament.CeilDivLeast | nemo_skills/inference/tournament_utils.py:150 | The recursive quotient is the least y with a <= y * b. |
| Tournament.AfterRoundsClosed | nemo_skills/inference/tournament_utils.py:139-172 | Rounding up t times is rounding up once: ceil(r / p^t). |
| Tournament.KnockedOutStanding | nemo_skills/inference/tournament_utils.py:139-172 | After t rounds exactly ceil(r / p^t) of the r valid participants are still in the game, and the log names nobody twice. |
| Tournament.RoundsAreLeast | nemo_skills/inference/tournament_utils.py:139-172 | A tournament ends after t rounds if and only if t is the least number with ceil(r / p^t) <= winner_count. |
| Tournament.PlayRounds | nemo_skills/inference/tournament_utils.py:119-172 | The loop terminates; with p >= 2 it ends by its guard and neither early exit is taken; p = 0 raises exactly if a round is needed. |
| Tournament.RunTournament | nemo_skills/inference/tournament_utils.py:103-183 | The winners are the participants left after the truncation; when it raises, and which error. |
| Tournament.TournamentOutcome | nemo_skills/inference/tournament_utils.py:174-183 | With enough participants and p >= 2: exactly winner_count indices, ascending; they are everybody never knocked out and, of those knocked out, the last ones in the log. |
| Tournament.ReinstatedLostLast | nemo_skills/inference/tournament_utils.py:174-183 | Every winner was still in the game when the last round began, and a winner who was knocked out is a loser of exactly that round. |
| Tournament.InvalidWinsIff | nemo_skills/inference/tournament_utils.py:125-137 | An invalid participant is returned if and only if fewer than winner_count are valid. |
| Tournament.TooManyWinners | nemo_skills/inference/tournament_utils.py:174-183 | With winner_count above the number of participants no round is played, and exactly the valid participants and so many of the last invalid ones are returned. |
| HybridCaches.HybridCache.SetCache | nemo_skills/inference/litellm_hybrid_cache.py:101-106 | Sets the value and the dirty flag, or raises on a TTL and changes nothing. |
| HybridCaches.HybridCache.GetCache | nemo_skills/inference/litellm_hybrid_cache.py:117-128 | Nothing exactly if the key is missing, else the stored value, a JSON text decoded. |
| HybridCaches.HybridCache.IncrementCache | nemo_skills/inference/litellm_hybrid_cache.py:142-148 | The new number is the old one (0 if missing or falsy, decoded if it is a JSON text) plus the increment; it raises exactly on a TTL or a truthy value that is no number. |
| HybridCaches.HybridCache.SetAdd | nemo_skills/inference/litellm_hybrid_cache.py:170-177 | A set is changed in place and then holds what it held and the values added, a missing or falsy value becomes a new set of exactly the values, anything else raises if there is something to add. |
| HybridCaches.AddedIsUnion | nemo_skills/inference/litellm_hybrid_cache.py:170-177 | A new or a changed set holds exactly what it held plus the values added, and every key that does not share it keeps its content. |
| HybridCaches.CacheIsPlainMap | nemo_skills/inference/litellm_hybrid_cache.py:61-177 | In every run from a freshly loaded cache, saves, crashes and restarts included, memory holds what a plain map holds after the same events: a write replaces, sadd is a union, an increment is a sum, a restart brings back the file; references and in-place changes never show. |
| HybridCaches.HybridCache.BeginSave | nemo_skills/inference/litellm_hybrid_cache.py:70-76 | The locked half of a save: snapshot and clear the flag, or nothing if clean. |
| HybridCaches.HybridCache.Replace | nemo_skills/inference/litellm_hybrid_cache.py:78-82 | The file becomes what was dumped; it raises if another thread has moved the temporary file away. |
| HybridCaches.HybridCache.ForceSave | nemo_skills/inference/litellm_hybrid_cache.py:179-182 | On its own, the file afterwards is exactly what memory holds. |
| HybridCaches.RestoredIsContent | nemo_skills/inference/litellm_hybrid_cache.py:61-66 | Loading the file gives a memory that pickles to the same content. |
| HybridCaches.DumpIsSnapshotIff | nemo_skills/inference/litellm_hybrid_cache.py:68-82 | A save dumps what it snapshot if and only if nothing in between enlarged a set that the snapshot shares. |
| HybridCaches.CacheDurability | nemo_skills/inference/litellm_hybrid_cache.py:61-106 | In every run from a freshly loaded cache, with any number of saves overlapping and crashes anywhere: the file holds a state memory was in; with no save in flight it holds the snapshot dumped last, so the newest one if and only if the save that took it dumped last, and then, with nothing dirty, what memory holds. |
| HybridCaches.SerialDurability | nemo_skills/inference/litellm_hybrid_cache.py:61-106 | With one save at a time, later saves never put an earlier snapshot back, and with nothing dirty or in flight the file is what memory holds. |
| HybridCaches.OverlappingSavesLose | nemo_skills/inference/litellm_hybrid_cache.py:68-82 | Two saves in flight can leave an older snapshot on disk with nothing dirty. |
| HybridCaches.AddInFlightTears | nemo_skills/inference/litellm_hybrid_cache.py:170-177 | An in-place set change between snapshot and dump can put a state on disk that memory never held. |
| Translation.JoinSplit | recipes/translation/translate_jsonl.py:176 | Joining the split lines gives the document back. |
| Translation.StripSplits | recipes/translation/translate_jsonl.py:181 | Every line is its stripped text between spaces, and that text neither begins nor ends with one. |
| Translation.ExtractedIff | recipes/translation/translate_jsonl.py:34-41 | A line is taken out exactly if what it holds between its spaces does not begin with a fence, an even number of fences precedes it, and it has a letter and is no tag from `<` to `>`. |
| Translation.TakeApart | recipes/translation/translate_jsonl.py:175-203 | The template keeps fences, fenced and untranslatable lines and has a placeholder for every other line; indices, indentations and stripped texts list exactly those. |
| Translation.TranslationTask.PreprocessData | recipes/translation/translate_jsonl.py:139-236 | The flat list is every document's extracted lines in order, and the boundaries mark exactly where each document's part begins and ends. |
| Translation.UnwrapsIff | recipes/translation/translate_jsonl.py:256-271 | For every response, whatever surrounds the marks: the result is exactly the text after the last opening mark, up to the last closing mark if that comes later; the whole response without an opening mark. |
| Translation.EchoUnwraps | recipes/translation/translate_jsonl.py:256-271 | A bare or wrapped source line unwraps to itself if it holds no opening mark, and to something shorter if it does. |
| Translation.PutTogether | recipes/translation/translate_jsonl.py:326-347 | Every placeholder is filled once, with its indentation and its own unwrapped response; nothing else changes. |
| Translation.TranslationTask.Postprocess | recipes/translation/translate_jsonl.py:323-381 | The mismatch branch is never taken, and each data point gets exactly its own documents, each rebuilt from its own stretch of the responses. |
| Translation.StructureKept | recipes/translation/translate_jsonl.py:326-347 | For arbitrary one-line responses: the rebuilt document has the same lines in number, those not extracted verbatim in place, and the others with their indentation followed by their own response. |
| Translation.OwnDocumentsFaithful | recipes/translation/translate_jsonl.py:355-377 | Handing the documents out by counts gives the data back exactly if every document is rebuilt as it was. |
| Translation.DocRoundTrip | recipes/translation/translate_jsonl.py:175-347 | If every response is its source line, bare or wrapped, the rebuilt document equals the original if and only if no extracted line holds an opening mark. |
| Translation.TranslationRoundTrip | recipes/translation/translate_jsonl.py:142-381 | The same for all documents of all data points. |
| BoxedAnswer.FindClosing | nemo_skills/evaluation/math_grader.py:135-146 | The loop finds the first closing brace at which the counter is back at zero, or none if there is none, negative counts included. |
| BoxedAnswer.SearchBoxed | nemo_skills/evaluation/math_grader.py:124-161 | The result is exactly the answer of the text: balanced, between the brace right after the last `\boxed` and the brace that closes it; None exactly if there is none. |
| BoxedAnswer.AnswerUnique | nemo_skills/evaluation/math_grader.py:124-161 | A text has at most one answer. |
| BoxedAnswer.AnswerOfText | nemo_skills/evaluation/math_grader.py:124-161 | For any prefix, body and suffix, body is the answer of prefix`\boxed{`body`}`suffix if and only if it is balanced and neither body nor suffix contains `\boxed`. |
| BoxedAnswer.AnswerSplitsText | nemo_skills/evaluation/math_grader.py:124-161 | Every text with an answer has that form. |
| ToolSchemas.ApplySchemaOverrides | nemo_skills/mcp/adapters.py:92-128 | Name, description and parameters are overridden, collisions overwriting in place; it raises exactly if an override names an unknown parameter or is no dictionary. |
| ToolSchemas.NewSchemaAt | nemo_skills/mcp/adapters.py:117-127 | With injective renames every parameter keeps its schema and whether it is required, under its new name. |
| ToolSchemas.NewNamesAt | nemo_skills/mcp/adapters.py:117-127 | Exactly the new names are shown. |
| ToolSchemas.NewOrderAt | nemo_skills/mcp/adapters.py:117-127 | With injective renames the new names stand in the order of the old ones. |
| ToolSchemas.MappingInvertsIff | nemo_skills/mcp/adapters.py:117-128 | The mapping leads every new name back to its parameter if and only if no two parameters get the same name. |
| ToolSchemas.FormatToolList | nemo_skills/mcp/adapters.py:139-190 | The entries for the endpoint and the recorded name mappings; it raises exactly for a bad override or another endpoint. |
| ToolSchemas.AllKnownIff | nemo_skills/mcp/adapters.py:111-115 | The list is formatted exactly if every parameter override written down for a listed tool is a dictionary and names a parameter that the tool has. |
| ToolSchemas.ShownTool | nemo_skills/mcp/adapters.py:92-109 | A tool is shown with the name and the description that the override of its provider and name gives, and otherwise with its own. |
| ToolSchemas.ShownParam | nemo_skills/mcp/adapters.py:92-128 | With injective renames every parameter is shown under the name its override gives, with the override's other keys put over its own schema, required exactly if it was. |
| ToolSchemas.ToolNamesLeadBackIff | nemo_skills/mcp/adapters.py:131-166 | Every shown tool name is remapped to its tool if and only if the shown names are distinct. |
| ToolSchemas.RecordedRenames | nemo_skills/mcp/adapters.py:162-166 | Only real renames are recorded. |
| ToolSchemas.InverseKeepsCall | nemo_skills/mcp/adapters.py:135 | Renaming the arguments with the inverse keeps the same values under the original names, and nothing else, in any argument order. |
| ToolSchemas.CallKeepsMeaning | nemo_skills/mcp/adapters.py:131-136 | With injective renames and distinct tool names, a call that uses only shown names is remapped to the original tool and parameters with the same values. |
| ToolClients.PrunedProps | nemo_skills/mcp/clients.py:31-46 | Exactly the hidden arguments are gone from the parameters. |
| ToolClients.PrunedRequired | nemo_skills/mcp/clients.py:40-42 | The other required parameters stay required; a hidden one stays only if it was listed twice. |
| ToolClients.Sanitized | nemo_skills/mcp/clients.py:95-106 | For a named tool no hidden key survives, and every other argument does. |
| ToolClients.SanitisingListedIsNoOp | nemo_skills/mcp/clients.py:31-106 | Sanitising changes nothing in a call that uses only listed arguments. |
| ToolClients.Client.ListTools | nemo_skills/mcp/clients.py:76-92 | Masked, then filtered tools; it raises exactly if an enabled tool does not exist. |
| ToolClients.Client.PermittedAt | nemo_skills/mcp/clients.py:49-73 | Permitted tools are listed in the order of the server. |
| ToolClients.Client.CallTool | nemo_skills/mcp/clients.py:156-182 | The server gets the sanitised arguments, with extra arguments on top; it raises exactly if the tool is not allowed. |
| ToolClients.Client.ListedIffAllowed | nemo_skills/mcp/clients.py:49-73 | A server tool is listed exactly if calling it is allowed. |
| ToolRouting.ResolveQualified | nemo_skills/mcp/tool_manager.py:174-181 | Splitting a qualified name at its first dot gives provider and tool back, whatever dots the tool name has. |
| ToolRouting.ResolveIff | nemo_skills/mcp/tool_manager.py:174-181 | Resolving succeeds exactly for a known provider, a dot and anything, and reports a name as not qualified exactly if it has no dot. |
| ToolRouting.ToolManager.ListAllTools | nemo_skills/mcp/tool_manager.py:132-172 | The cached list, or the merged one with the whole new routing table; on a duplicate it raises with the table as far as it got and the cache as it was. Either way every name in the table belongs to a provider and every listed tool is routed to the one that listed it. |
| ToolRouting.RegisterIff | nemo_skills/mcp/tool_manager.py:140-162 | Listing succeeds if and only if every raw name is new and none is listed by two providers. |
| ToolRouting.OfferedIff | nemo_skills/mcp/tool_manager.py:132-172 | A provider contributes a tool under a non-empty name exactly if it lists one, however often it lists it. |
| ToolRouting.DeploymentOffersIff | nemo_skills/mcp/tool_manager.py:132-172 | The merged list has a tool of a provider under a non-empty name exactly if its server has one and its client allows it. |
| ToolRouting.TagKeeps | nemo_skills/mcp/tool_manager.py:150-166 | Merging takes the titles of parameters away and notes the provider, and changes nothing else of a tool. |
| ToolRouting.RelistingIff | nemo_skills/mcp/tool_manager.py:132-172 | After a successful listing, listing again without the cache succeeds if and only if there are no tools. |
| ToolRouting.ToolManager.ExecuteTool | nemo_skills/mcp/tool_manager.py:174-185 | A name in the table goes, unchanged, to the provider it was recorded for, a cached tool to the provider that listed it; an unknown name raises, and the other errors of `_resolve` never occur. |
| ToolRouting.ListedIsRouted | nemo_skills/mcp/tool_manager.py:140-185 | Every listed tool is routed to the provider that listed it, under its raw name. |
| ToolRouting.CallReachesServer | nemo_skills/mcp/tool_manager.py:174-185 | End to end: a call with shown names is renamed back, routed, allowed and sanitised without loss; the server's tool gets the same values under its own parameter names. |
| Prover.ProverTask.SingleDataPointGenerate | nemo_skills/inference/prover.py:254-438 | What each turn is asked, every list entry, when the run ends and how; it raises exactly if refinement is off and the first proof fails. |
| Prover.PromptShape | nemo_skills/inference/prover.py:277-424 | Every turn starts from the base prompt followed by whole assistant/user exchanges; from the base prompt itself right after an answer without code; from at most one exchange more when wrong turns are deleted, whatever the number of turns. |
| Prover.PromptIsExchanges | nemo_skills/inference/prover.py:277-424 | The conversation of a turn, message by message: the base prompt and, since the start or the last answer without code, every answer (only its code if the reasoning is removed) with the error it got; of these only the last when wrong turns are deleted. |
| Prover.WhyItStops | nemo_skills/inference/prover.py:277-438 | A run without a proof has used up its turns, or the next conversation would not have fitted. |
| Prover.FullAlternatesIff | nemo_skills/inference/prover.py:259-424 | The full record alternates if and only if every answer so far had code. |
| Prover.RunShape | nemo_skills/inference/prover.py:277-438 | The lists have equal length and hold the code, the verdict and the answer of every turn; at most the allowed number of turns (one without refinement); success means that the last and only the last attempt is a proof; every turn is sent its conversation, or the single-turn prompt with the failed attempt and its error, and asked for as many tokens as are wanted or as there is room for. |
| MajorityFill.MostCommon | nemo_skills/evaluation/aggregate_answers.py:244 | Of the answers with the most votes, the one seen first. |
| MajorityFill.ReadProblem | nemo_skills/evaluation/aggregate_answers.py:196-249 | The top answer, its votes and the metadata of its last row, or the no-valid-answer entry with 0 votes exactly if no row has an answer. |
| MajorityFill.TopUnique | nemo_skills/evaluation/aggregate_answers.py:238-244 | The top answer is determined by the rows. |
| MajorityFill.FillProblem | nemo_skills/evaluation/aggregate_answers.py:258-293 | Each row is filled in place or, if it has an expected answer and that is to be kept, left alone; the result is the number of rows whose expected answer is not what it was. |
| MajorityFill.FilledIsMajority | nemo_skills/evaluation/aggregate_answers.py:258-293 | Every filled row expects the majority's answer (or says that there is none), with the number of rows that predict it, the number of rows, and whether it predicts it itself; everything else, and every row that is to be kept, is as it was. |
| MajorityFill.FillConserves | nemo_skills/evaluation/aggregate_answers.py:238-293 | At most as many filled rows are marked correct as the majority has votes; exactly as many if and only if no row with the top answer was skipped, so always without `ignore_if_not_none`, the no-valid-answer case included. |

## Assumptions

- Sandbox: one request in flight per session, every reply delivered, DELETE answered with 200 or 404, no idle expiry, the
  server's catch-all exception reply does not occur, uuids do not repeat. Shells die and workers restart before any request.
- Generation: the position key survives `postprocess_single_output`; a run stops between two appends, not inside one.
- Cache: values given to `set_cache` are not mutable objects, and callers do not change a set that they read; a dump is one step (two dumps writing the shared temporary file
  at once, or one that pickles a set while it changes, would tear the file; of such runs nothing is claimed).
- Translation: the output file holds one response per extracted line, in order, which `Generation` proves of a finished run.
- Prover: `extract_code`, `replace_statement_in_proof`, Lean and the tokenizer are arbitrary; the refinement prompt fills to
  one user message where alternation is claimed.
- Tools: provider ids are class names, so they hold no dot; tools have a name (possibly empty) and an object schema.

## Left out

- HTTP, SSH, subprocesses, signals, clocks, output text and languages other than ipython sessions: only outcomes remain.
- Two requests at once on one session, lost replies, failed DELETEs, idle expiry: the code promises nothing there.
- A crash inside `restore_async_order` or inside a merge, a torn last log line, and two merges racing: the code is not atomic there.
- Evaluation of outputs, dry runs, `max_samples`, `drop_content_types` and dictionary merging in `postprocess_single_output`; prefilled rows count as tasks that finish first.
- File names of chunks (`get_chunked_filename`) and the post-merge command of `merge_chunks.py`.
- Loading: separators other than a newline, such as `\r`.
- Checkpoints in the non-mcore layout, dtypes and casts, dimensions of a tensor other than the first, key order, config loading other than the vocabulary divisor.
- Tournament logs, prompts and seeds, and the parsing of the judge's text, which is reduced to an optional integer.
- HybridCaches: JSON values other than numbers, `StableLiteLLMCache` key hashing, the pipelined and batched wrappers, and the join timeout in `_shutdown`.
- Translation.TranslationTask.PreprocessData: takes the documents of each data point as given; finding its text fields by path and the `_skipme` filter concern dictionaries of arbitrary JSON.
- Translation.TranslationTask.Postprocess: gives each data point its rebuilt documents as a list; grouping them by field key, with or without a wildcard, and the list of source and target segments beside them are not modelled.
- BoxedAnswer: `extract_answer`'s choice between the regular expression and the box, `math_equal` and judge parsing, which rest on regular expressions and other libraries.
- ToolRouting.ToolManager.ListAllTools: providers are loaded in order; the code loads them concurrently, so after a duplicate other providers may still add names.
- Prover: `pass_at_N`, the missing sandbox, adaptive reasoning and the text of error messages.
- MajorityFill: reward-model modes (a running maximum starting at 0 makes negative scores special), a fill key other than `expected_answer`, the `fill_mode` key, the number of problems changed, extract mode's output file, and the loop over files.
- Proof text handling (`proof_utils.py`), pipeline command builders, prompts and dataset preparation.
