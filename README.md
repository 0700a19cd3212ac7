# alaf, modelled in Dafny

alaf is an active-learning annotation system. It has two sides:

- **Client.** A client process (`SvmALModel`, with the least-confidence or the random strategy) keeps a pool of unlabelled utterances and a labelled set. It repeatedly picks the pool utterance its classifier is least sure of, or a random unseen one, and sends it to the server. It then learns from the human annotation it gets back.
- **Server.** The server keeps projects, models (one per client), instances and scores in a database. Clients talk to it over a socket namespace; a web page talks to it over HTTP views. The server:
  - binds a client session to its model;
  - stores each utterance the client sends;
  - serves waiting instances to annotators, keeping models within five instances of each other;
  - forwards each annotation to the model that asked for it;
  - stops a model once it reaches the project's budget.

The model covers both sides. Each core source file has its own Dafny module.

| file | module | form |
|---|---|---|
| `common.dfy` | `Common` | `Option`, `Result`, bytes |
| `pytext.dfy` | `PyText` | Python's `isspace`, `rstrip`, `strip`, `str(int)` and `int(str)` as functions, with their specification lemmas |
| `pyio.dfy` | `PyIO` | files as sequences: `readline`, iteration over lines, `seek` to a line start, appending lines |
| `datasets.dfy` | `Datasets` | `get_dataset`: label files and the pool offset index (a loop, proved against `IsPoolIndex`) |
| `selection.dfy` | `Selection` | the two strategies: chunking, the per-chunk worker scan (loops), the reduction over the workers' results, and the drawing loop |
| `labelled_set.dfy` | `LabelledSet` | class `SvmALModel`: the labelled set, its two files and the training set |
| `protocol.dfy` | `Protocol` | the messages client and server exchange |
| `session.dfy` | `Session` | class `Client` (`BaseALModel`): connection, event handlers and the simulation loop |
| `sockets.dfy` | `Coordination` | class `Database`: the server's tables and its socket handlers |
| `views.dfy` | `Views` | the views `next_instance`, `annotate`, `check_model_status` and `edit_project`'s model diff |
| `forms.dfy` | `Forms` | the project form's validators |

Some things become parameters of the model:

- The classifier is a function from its training data to a confidence per utterance. Its scores are a function from the training data to a triple of reals.
- `random.choice` is a sequence of draws.
- Files are strings, or byte sequences for the pool file, which is read in binary mode.
- The database is a set of maps from primary keys to rows. Every emission the server makes is appended to a log, together with its room.

Two client copies of the same classes exist: `alaf_client/example.py` and `alaf_client/alaf_client/svm_al_model.py`. The model follows `example.py`, for two reasons:

- Its constructor passes `simulation`, which `base.py` accepts.
- It raises `'no unseen pool instances left'` from a worker whose chunk is exhausted. At that point the packaged copy indexes `lines_pool[None]`, which also fails the whole selection, but with a TypeError.

Two behaviours of the server are worth stating outright:

- `on_register` does not check the budget. A client that registers with a count already at the budget is asked for an utterance, and is told it has finished only when that utterance arrives.
- Load balancing uses `models[0]` only: annotators are steered to the first model in count order, not to every model that shares the least count.

Where the code has a defect (see "## Findings"), the members that model the program (the `SvmALModel` class, the socket handlers, the views and the form) follow the code as written; the corrected definitions stand beside them with the property the code evidently intends.

## Model

| member | source | states |
|---|---|---|
| `PyText.RStripSpec` | alaf_client/example.py:52 | `rstrip()` keeps a prefix that does not end in whitespace, and everything it drops is whitespace |
| `PyText.RStripCharsSpec` | alaf_client/example.py:272 | `rstrip(chars)` keeps a prefix that does not end in one of `chars`, and everything it drops is in `chars` |
| `PyText.ParseInts` | alaf_client/example.py:54 | the list comprehension of `int()` fails exactly when some line is rejected, and names the first such line; otherwise it yields one value per line, in order |
| `PyText.ParseIntDecimal` | alaf_client/example.py:92 | `int(str(n)) == n` for every integer, so an annotation written with `str` is read back by `int` |
| `Datasets.PoolFileOffsets` | alaf_client/example.py:282-287 | the offsets hold, for every pool line in order, the total byte length of the lines before it; they are empty exactly when the pool file is empty, and otherwise start at 0 |
| `Datasets.OffsetsIncreasing` | alaf_client/example.py:285-287 | pool lines are never empty, so the offsets strictly increase |
| `Datasets.ReadAtOffset` | alaf_client/example.py:166-170 | a `seek` to `offsets[k]` followed by a line read yields pool line `k`, and the lines from there on are lines `k..` |
| `Datasets.SlashNKeepsNewline` | alaf_client/example.py:272 | `rstrip('/n')` removes slashes and the letter n, so it leaves a newline-terminated line unchanged |
| `Datasets.LabelFileRoundTrip` | alaf_client/example.py:271-272 | a label file written one `str(label)` per line is read back by `get_labels` as the same labels |
| `Datasets.GetDataset` | alaf_client/example.py:249-301 | the dataset loads exactly when all four label files parse; otherwise the error names the first failing file in the order train, dev, test, pool, and its first bad line. The inputs of the three splits are their files' lines, their labels are those the label files hold, the offsets index the pool, and pool labels are always present |
| `Selection.ChunksShape` | alaf_client/example.py:199-201 | the chunks follow each other without gaps from line 0 to the last pool line; each holds at most `batch_size` lines; there are none exactly when the pool is empty |
| `Selection.ChunksDisjoint` | alaf_client/example.py:201 | every line of an earlier chunk precedes every line of a later one |
| `Selection.ChunkContaining` | alaf_client/example.py:201 | every pool line lies in some chunk |
| `Selection.ReadLinesUntil` | alaf_client/example.py:166-171 | the worker's read loop yields the `rstrip()`ped lines from the seek position up to and including line `end`, or to the end of the file |
| `Selection.ReadChunk` | alaf_client/example.py:164-171 | a worker reads exactly the utterances of pool lines `start..end` |
| `Selection.LeastConfident` | alaf_client/example.py:174-182 | the scan finds nothing exactly when every line is seen; otherwise it finds the first unseen line of least confidence |
| `Selection.FirstLeastUnique` | alaf_client/example.py:178-182 | the line the scan picks is unique: ties go to the lowest index |
| `Selection.ChunkWorker` | alaf_client/example.py:153-189 | a worker raises `no unseen pool instances left` exactly when every line of its chunk is seen; otherwise it finds the chunk's first least-confident unseen line, and raises IndexError exactly when the pool labels are non-empty and stop before that line; otherwise it returns that line, its confidence and `pool_labels[idx]` (or `None` for empty labels) |
| `Selection.MapWorkers` | alaf_client/example.py:212 | `map` yields every chunk's outcome, in chunk order |
| `Selection.FirstMin` | alaf_client/example.py:213 | taking the first of the results sorted by confidence (a stable sort) gives the first result of least confidence |
| `Selection.FailedIffExhausted` | alaf_client/example.py:184-185 | some worker raises `no unseen pool instances left` exactly when some chunk has every line seen |
| `Selection.LabelFailedIffMissing` | alaf_client/example.py:187 | some worker raises IndexError exactly when the line some chunk's scan finds lies past the non-empty pool labels |
| `Selection.LabelMissingNeedsUnseen` | alaf_client/example.py:184-187 | a label lookup can only fail where some pool line is unseen |
| `Selection.ReduceAll` | alaf_client/example.py:212-213 | when no worker failed on a label, the successful workers' results, reduced in chunk order, are empty exactly when the whole pool is seen; otherwise their first least-confident result is the first least-confident unseen line of the pool, and its label lookup succeeded |
| `Selection.SelectLeastConfidentAsWritten` | alaf_client/example.py:191-215 | a batch size of 0 fails as `range` does (ValueError), and a negative one yields no chunks and so fails on `[0]`; with a positive batch size, selection as written fails exactly when the pool is empty (IndexError on `[0]`), some chunk is exhausted, or some chunk's line lies past the pool labels, and each error names its cause; otherwise it picks the pool's first least-confident unseen line, with its label |
| `Selection.ExhaustedChunkWithUnseenPool` | alaf_client/example.py:184-185 | a two-line pool with batch size 1 and its first line seen has an exhausted chunk, yet its second line is unseen |
| `Selection.SelectLeastConfident` | alaf_client/example.py:191-215 | with exhausted chunks skipped, selection fails with `no unseen pool instances left` (or `EmptyPool` for an empty pool) exactly when every pool line is seen, and otherwise fails exactly when some chunk's line lies past the pool labels; a pick is the pool's first least-confident unseen line, with its label |
| `Selection.ReadPoolLine` | alaf_client/example.py:236-240 | a seek to `offsets[idx]` followed by `readline().rstrip()` gives the utterance of pool line `idx` |
| `Selection.DrawUnseen` | alaf_client/example.py:233-240 | draws are consumed until one hits an unseen line; every earlier draw hit a seen line; it fails only on an empty pool or when the draws run out, and then every draw hit a seen line |
| `Selection.SelectRandom` | alaf_client/example.py:228-246 | random choice finds an unseen pool utterance by the draws; with pool labels present, `pool_labels[idx]` raises IndexError exactly when the labels stop before that line, and otherwise the pick carries it; it never reports `no unseen pool instances left` |
| `LabelledSet.AlafAppend` | alaf_client/example.py:88-90 | an utterance appended as a line to `alaf.txt` is read back after the utterances already there |
| `LabelledSet.AnnotationAppend` | alaf_client/example.py:91-92 | an annotation appended as `str(a)` to `alaf_annotation.txt` is read back after the annotations already there |
| `LabelledSet.ReopenAfterAdd` | alaf_client/example.py:52-55 | after `add_instance`, reopening the two files restores the same utterance list, seen set and annotations as the in-memory state |
| `LabelledSet.PoolUtteranceClean` | alaf_client/example.py:237-240 | a pool utterance contains no newline and has nothing for `rstrip` to drop, so it survives the round trip through `alaf.txt` |
| `LabelledSet.SvmALModel.constructor` | alaf_client/example.py:44-60 | the labelled set is restored from the two files: the utterance rows, the annotations, the seen set, the count (the number of annotations), and a training set made of the seed split followed by the rows when there are any |
| `LabelledSet.SvmALModel.AddInstance` | alaf_client/example.py:71-95 | the first annotation replaces the rows and later ones are appended; both files grow by one line; the utterance joins the seen set; the count goes up by one; the classifier is refit on seed plus rows |
| `LabelledSet.SvmALModel.GetNextUtterance` | alaf_client/example.py:191-246 | the strategy's pick is an unseen, clean pool utterance. Least confidence runs as written: it fails on a batch size of 0 or below, and otherwise exactly on an empty pool, an exhausted chunk or a chunk's line past the pool labels, and otherwise picks the first least-confident line. Random choice ignores the batch size; its pick (or its IndexError on a line past the pool labels) is the first draw to hit an unseen line, every earlier draw having hit a seen one. A pick carries its pool label |
| `LabelledSet.ChosenHasLabel` | alaf_client/example.py:242-244 | with non-empty pool labels, whatever either strategy picks lies within them and carries `pool_labels[idx]` |
| `LabelledSet.Open` | alaf_client/example.py:52-60 | restoring fails exactly on an annotation line `int` rejects (naming it) or on rows and annotations of different lengths; otherwise it yields a valid model with the count of the annotations |
| `Session.Client.constructor` | alaf_client/alaf_client/base.py:35-42 | start-up registers with the current count, then reports the current scores at that count |
| `Session.Client.OnConnect` | alaf_client/alaf_client/base.py:67-70 | connecting emits one registration with project name, model name and current count |
| `Session.Client.OnReconnect` | alaf_client/alaf_client/base.py:72-75 | reconnecting emits the same registration |
| `Session.Client.EmitScores` | alaf_client/alaf_client/base.py:192-204 | one scores message, at the given count or else at the current count |
| `Session.Client.EmitNextUtterance` | alaf_client/alaf_client/base.py:165-190 | the strategy's pick is emitted once at the current count, with its label only in simulation mode; a failed pick emits nothing |
| `Session.Client.OnAnnotation` | alaf_client/alaf_client/base.py:99-116 | the annotated instance is added, with the whole new labelled set: count + 1, annotation appended, rows replaced or appended, utterance seen, both files one line longer, classifier refit on seed plus rows; the connection is unchanged; then the new scores and the next pick are emitted, both at the new count |
| `Session.Client.OnNextUtterance` | alaf_client/alaf_client/base.py:127-136 | in simulation mode nothing happens; otherwise one pick is emitted, without label |
| `Session.Client.OnFinished` | alaf_client/alaf_client/base.py:118-125 | the client disconnects and emits nothing |
| `Session.Client.SimulationRound` | alaf_client/alaf_client/base.py:242-247 | one round picks, by the model's strategy on the state before the round, the unseen utterance of a pool line; it emits it with that line's pool label, adds it under that label, and reports the scores at the new count; a round fails only when the pick fails (as written, including an exhausted chunk), and the error is one selection gives on that state; a failed round changes nothing |
| `Session.Client.RecordRound` | alaf_client/alaf_client/base.py:244-247 | the second half of a round appends the instance to the labelled set, refits on training plus alaf data, and reports the new scores at the new count |
| `Session.Client.SimulationStep` | alaf_client/alaf_client/base.py:242-247 | one pass of the loop extends the simulation record by the round's instance, or leaves it as it was when the round fails, and a failure is one the selection gives on the current state with that round's draws |
| `Session.RoundKeepsLog` | alaf_client/alaf_client/base.py:242-247 | one more round extends the added instances, the rows, the seen set and the emitted log by exactly that round |
| `Session.SimulatedStep` | alaf_client/alaf_client/base.py:242-247 | a round that adds an unseen pool line with its pool label keeps the whole record: every added instance is a pool line, none was seen before, and rows, annotations, seen set and log grow by exactly that round |
| `Session.Client.RunSimulation` | alaf_client/alaf_client/base.py:235-247 | the loop stops early only when a selection fails, and the reported error is one the model's strategy gives on the final state with that round's draws; every added instance is a pool line annotated with its pool label; none was seen before and none repeats; after the rounds, the count, annotations, rows and seen set are the old ones plus the added instances, and the log holds, per round, the utterance with its label at count `c + k` and then the scores at `c + k + 1` |
| `Coordination.Database.ReceiveUtterance` | alaf_server/app/sockets.py:8-71 | with the instance built from the table's columns: it fails with no change unless exactly one model has the sender's session. At or over the budget, that model loses its session and the sender alone is told `max count: N reached`. Otherwise the model adopts the count and a new instance (project, model, utterance, client label) is stored under the next id. The tables stay consistent |
| `Coordination.Database.ReceiveUtteranceAsWritten` | alaf_server/app/sockets.py:20-64 | as written, every utterance below the budget makes the handler raise before its commit, with no change; at the budget it finishes the sender as above |
| `Coordination.ReceivedKeywordsRejected` | alaf_server/app/sockets.py:53-62 | `show_time`, `submit_time` and `copied` are exactly the keywords of the handler's `Instance(...)` that are not columns of the table |
| `Coordination.InstanceAddKeeps` | alaf_server/app/sockets.py:52-64 | adding an instance of an existing model, in that model's project, under the next id keeps the foreign keys and key counters consistent |
| `Coordination.ModelUpdateKeeps` | alaf_server/app/sockets.py:115-117 | rewriting a model's session or count keeps the tables consistent |
| `Coordination.NamedProjectUnique` | alaf_server/app/models.py:9 | project names are unique, so a project that has the name is the only one with it |
| `Coordination.Database.ReceiveScores` | alaf_server/app/sockets.py:74-89 | the scores are stored under (sender's model, count) unless that key already exists, in which case the commit fails and nothing changes; it fails without a unique sender model; no other table, id counter or emission changes |
| `Coordination.Database.OnRegister` | alaf_server/app/sockets.py:92-125 | an unknown project or model name makes the sender alone get `finished` with the not-found cause, and changes no table. Several models of that name make it raise, with no change. Otherwise the model takes the sender's session and count, and the sender is asked for an utterance exactly when none of the model's instances awaits annotation. Projects, instances, scores and the id counters never change |
| `Coordination.Database.BindSession` | alaf_server/app/sockets.py:115-125 | the found model takes the sender's session and count, and the sender is asked for an utterance exactly when none of the model's instances awaits annotation; no other model row and no other table changes |
| `Coordination.Database.OnDisconnect` | alaf_server/app/sockets.py:137-147 | the sender's model, if any, loses its session and keeps its count, and nothing else changes; without a model nothing changes; several models make `one_or_none` raise |
| `Coordination.AnnotationBroadcastWhenOffline` | alaf_server/app/sockets.py:164-167 | as written, an annotation for a model without session is emitted with no room, so every client receives it |
| `Coordination.AnnotationReachesOnlyOwner` | alaf_server/app/sockets.py:150-167 | an annotation is sent exactly when the instance is annotated and its model has a session, and it reaches exactly that session |
| `Coordination.Database.SendAnnotation` | alaf_server/app/sockets.py:150-167 | as written, the emission log grows by the annotation addressed to the owner's session, or to no room (every client) when the owner has none, and by nothing else; no table changes |
| `Views.LeastCountExists` | alaf_server/app/views.py:193 | ordering the project's models by count puts a model of least count first |
| `Views.NextInstance` | alaf_server/app/views.py:178-203 | it fails with `No instance without annotation left` exactly when nothing of the project awaits annotation. When some model is more than 5 ahead of the first model in count order, only that model's waiting instances are served, and none waiting fails. It fails in no other case: otherwise a waiting instance of the project is served with its utterance |
| `Views.Annotate` | alaf_server/app/views.py:157-175 | a missing instance id is refused; an unknown one fails with no change; otherwise only that instance's annotation changes (no other table or id counter), and the annotation is emitted as `send_annotation` does as written |
| `Views.ModelStatuses` | alaf_server/app/views.py:206-222 | one entry per model of the project: its name, online exactly when it has a session, and its count plus one (none before it registered); an unknown project fails |
| `Views.ModelIdOfDecimal` | alaf_server/app/views.py:132 | a model id is recognised from its decimal spelling `str(model.id)` |
| `Views.LookupModelSpec` | alaf_server/app/views.py:135 | the lookup by submitted id finds the model whose id it spells, of any project, whenever one exists |
| `Views.EntryStepSpec` | alaf_server/app/views.py:134-142 | an entry whose id names a model renames that model and changes nothing else; any other entry adds a model of the project, with no session and no count, under the next id |
| `Views.ApplyEntriesKeys` | alaf_server/app/views.py:134-142 | after the loop over the entries, the models are the old ones plus new ones keyed from the old counter up to the new one; the counter only grows and bounds every key |
| `Views.ApplyEntriesKept` | alaf_server/app/views.py:134-142 | after the loop, an existing model differs only in its name, which is the last name submitted with its id |
| `Views.ApplyEntriesCreated` | alaf_server/app/views.py:134-139 | every model the loop creates belongs to the project, has no session or count, and carries a submitted name |
| `Views.EditModelsSpec` | alaf_server/app/views.py:131-147 | after the edit, an existing model is gone exactly when it belongs to the project and its id was not submitted; a kept model changes only its name, to the last name submitted with its id; every other model is new, of the project, with no session or count and a submitted name |
| `Views.EditKeepsSubmittedNames` | alaf_server/app/views.py:131-147 | from a well-formed form, the project's models after the edit carry exactly the submitted names |
| `Views.EditKeepsConsistent` | alaf_server/app/views.py:144-149 | deleting the dropped models together with their instances and scores (the cascade), after the renames and creations, keeps the tables consistent |
| `Views.ApplyModelEntries` | alaf_server/app/views.py:134-142 | the loop's result is the entries applied in order, including the branch that leaves an unchanged name alone; the other tables do not change |
| `Views.CommitEdit` | alaf_server/app/views.py:128-149 | the project takes the new name and budget; the models become the edited models; the instances and scores of deleted models go; the tables stay consistent |
| `Views.EditProject` | alaf_server/app/views.py:117-150 | an unknown project fails, and so does a name used by another project (the commit fails); both leave everything unchanged. Otherwise the commit above happens |
| `Forms.WordRunSpec` | alaf_server/app/forms.py:15 | greedy `\w+` consumes the leading run of word characters and stops at the first other character |
| `Forms.MatchesWordPatternSpec` | alaf_server/app/forms.py:15-16 | `^\w+$` accepts exactly one or more word characters, optionally followed by one final newline |
| `Forms.PatternImpliesPresent` | alaf_server/app/forms.py:63-65 | a name the pattern accepts is never refused by `DataRequired` |
| `Forms.ValidModelNameSpec` | alaf_server/app/forms.py:63-65 | a model name passes exactly when it is 4 to 75 characters of `\w`, except possibly a final newline |
| `Forms.ElementsCount` | alaf_server/app/forms.py:51-52 | `len(data) == len(set(data))` exactly when no two entries are equal |
| `Forms.DistinctNamesSpec` | alaf_server/app/forms.py:44-55 | `distinct('name')` refuses a model list exactly when two entries share a name |
| `Forms.OwnNameRefusedAsWritten` | alaf_server/app/forms.py:36-41 | as written, saving a project under its own name is always refused |
| `Forms.UniqueProjectNameSpec` | alaf_server/app/forms.py:29-41 | a name passes exactly when no project other than the edited one uses it; on the create form, exactly when no project uses it |
| `Forms.FormEntries` | alaf_server/app/forms.py:82-85 | the model list holds 1 to 20 entries (`min_entries`, and `max_entries` = the number of plot colours); a list of 1 to 20 is kept as submitted |
| `Forms.EmptyListRefused` | alaf_server/app/forms.py:82-85 | an empty list gets one empty entry, whose name is refused |
| `Forms.MaxCountValue` | alaf_server/app/forms.py:81 | a budget that is not submitted takes its default; a submitted one is accepted exactly when, with surrounding whitespace removed, it is a digit or a sign followed by digits only, and it is negative only when written with `-` |
| `Forms.NewProjectDefaultBudget` | alaf_server/app/forms.py:81 | a new project whose form leaves the budget out gets 500 instances |
| `Forms.MaxCountValueDecimal` | alaf_server/app/forms.py:81 | a budget submitted as a decimal number is read as that number |
| `Forms.ValidateProjectFormSpec` | alaf_server/app/forms.py:71-85 | a form passes only with a project name of 4 to 75 word characters that no project uses, not even the one being edited (`unique_project_name` as written); 1 to 20 models whose names are pairwise different and of the same shape; and a budget that is an integer or left to its default |

## Left out

- The classifier (SVM training, `predict_proba`, precision/recall/F1) and the vectorizer. Confidences and scores are functions of the training data, passed in. Confidences are integers here; the ordering is all that matters.
- `multiprocessing`: the workers run one after another, in chunk order, which is the order `map` returns. Threads: the simulation thread is a method call.
- The socket transport, Flask, SQLAlchemy sessions and `time.time()`. The timing fields (`client_time`, `al_time`, `io_time`, `io_time_start`) are left out of every message and row.
- Text encoding: the pool file is read one character per byte, with no UTF-8 decoding, and `'\r'` gets no universal-newline handling. `int()` is modelled on ASCII digits, an optional sign and surrounding whitespace; underscores and non-ASCII digits are not modelled.
- `Forms.IsWordChar`: `\w` is modelled on ASCII letters, digits and underscore only; Unicode word characters are not modelled.
- `Views.ModelIdOf`: a submitted id that spells a model id non-canonically (`"03"`, `" 3"`) counts as naming no model.
- `Selection.DrawUnseen`: the source draws without bound. The model takes a finite sequence of draws and reports `DrawsExhausted` when it runs out.
- `Session.Client.RunSimulation`: the source loops until selection raises; the model runs at most `rounds` rounds. A selection error ends the loop with no emission, as the raising thread would.
- `Session.Client.SimulationRound` and `Session.Client.RunSimulation` require non-empty pool labels. With an empty `pool_label.txt`, least confidence picks with label `None`, and the source then adds an instance annotated `None`, which the refit rejects; that path is not modelled.
- `Selection.SelectLeastConfident`: the corrected selection requires a batch size of at least 1; what a corrected client should do with a batch size of 0 or below is not evident from the code. The as-written selection, which the client uses, handles those batch sizes.
- `Selection.SelectLeastConfidentAsWritten`: when some workers raise `no unseen pool instances left` and others IndexError, which exception `map` re-raises depends on which worker finishes first. The model reports `no unseen pool instances left`; its contract only ties each error to its cause.
- `Coordination.Database.ReceiveUtterance`: the commented-out copy of already-labelled instances (`sockets.py:42-50`) is dead code and is not modelled. This member stores the instance the code evidently intends; as written, the handler passes `show_time`, `submit_time` and `copied`, which the `Instance` table does not have, so it raises instead (see "## Findings" and `Coordination.Database.ReceiveUtteranceAsWritten`). Nothing else in the model calls either member.
- `Views.NextInstance`: a model row with no count, which `models[-1].count - models[0].count` cannot subtract, is modelled as the error `UncountedModel`. Which instance `choice` serves, and which of several least-advanced models the ordering lists first, is left open.
- `Views.EditProject`: models are looked up by submitted id across all projects, as `Model.query.get` does. A model created by an earlier entry can be renamed by a later entry that spells its new id. Flash messages are not modelled.
- `Forms.ValidateProjectFormSpec`: it states what a passing form guarantees, not the converse. Validator error messages are modelled only as accept or refuse.
- `Forms.UniqueProjectName` (the corrected validator) assumes the form's hidden id holds the project's id, which the edit page fills in from the project. The form itself (`Forms.ValidateProjectForm`) uses the validator as written.
- `create_project` and project deletion in `views.py`, the plots, `main.js`, `cmd.py` and the configuration are outside the core.

## Findings

| source | as written | input that shows it | evidently intended | confidence | as-written member | corrected member |
|---|---|---|---|---|---|---|
| alaf_client/example.py:184-185 | a worker whose chunk has no unseen line raises, and `map` propagates it, so selection fails for the whole pool | pool `"a\nb\n"`, `batch_size` 1, `"a"` already annotated: chunk (0, 0) raises although `"b"` is unseen | skip exhausted chunks; fail for want of a line only when every pool line is seen | not executed; high | `Selection.SelectLeastConfidentAsWritten`, `Selection.ExhaustedChunkWithUnseenPool` | `Selection.SelectLeastConfident` |
| alaf_server/app/sockets.py:164-167 | `send_annotation` emits to `room=model.sid` even when the model has no session, and a `None` room broadcasts to every client of the namespace | annotate an instance whose model has disconnected while another client is connected: that client receives the annotation | send only to the owning model's session, and nothing when it is offline | not executed; medium | `Coordination.AnnotationEmissionAsWritten`, `Coordination.AnnotationBroadcastWhenOffline` | `Coordination.AnnotationEmission`, `Coordination.AnnotationReachesOnlyOwner` |
| alaf_server/app/forms.py:40 | `project.id != form.id.data` compares an integer with the submitted text, which is never equal | edit project 3 named `proj1` and keep the name: the form is refused with `Project name already taken` | compare the id in its text form, as `views.py:132` does | not executed; medium (assumes the hidden id is posted as text) | `Forms.UniqueProjectNameAsWritten`, `Forms.OwnNameRefusedAsWritten` | `Forms.UniqueProjectName`, `Forms.UniqueProjectNameSpec` |
| alaf_server/app/sockets.py:53-62 | `Instance(...)` is given `show_time`, `submit_time` and `copied`, which are not columns of `Instance` (`models.py:18-29`), and the declarative constructor raises TypeError on them | any utterance a registered client sends below its budget: the handler raises before `db.session.commit()`, and no instance is stored | build the instance from the columns the table has, and store it | not executed; medium (rests on the declarative constructor refusing unknown keywords) | `Coordination.Database.ReceiveUtteranceAsWritten`, `Coordination.ReceivedKeywordsRejected` | `Coordination.Database.ReceiveUtterance` |
