# financial-smart-qa-angent, modelled in Dafny

This project models the core of a financial question-answering agent, written in Python. The core has these parts:

- **Planner.** The planning agent with its memory store. It builds a five- or six-step plan for a query, executes the plan step by step and records memories. The memories can be retrieved by keyword overlap and by recency.
- **Knowledge manager.** It turns a saved database-context document into retrieval chunks. It also lists tables, finds a table's schema and summarises the database.
- **SQL context module.** It maps SQLite `PRAGMA table_info` rows and writes each table's business description. It enumerates the fixed table relationships, renders a database context as text, and looks up the loaded contexts.
- **SQL context agent example.** It scores a query's complexity by SQL keywords and builds the generation prompt.
- **Configuration manager.** It has a dotted-path lookup with a cache and typed getters. It merges configuration, substitutes `${VAR}` environment placeholders, updates values in place, and notifies change listeners when a configuration file is reloaded.
- **Query-understanding subgraph.** Its nodes share one `completed_tasks` set.
- **Model wrappers.** The LangChain streaming adapter and the QWEN model wrapper fold DashScope replies and streams into answers and reasoning.
- **Context registry.** It keeps contexts keyed by id.

The clock, the id generator, DashScope, Milvus, the embedding model, the file system and the environment are parameters of the model.

Each Python source becomes the matching Dafny form:

- **Stateful objects become classes.** The memory store, the planner agent, the configuration manager, the task set and the context registry are Dafny classes whose methods modify their fields. The plan that `execute_plan` updates in place is an `array`.
- **Loops become methods.** Each loop in the source is a method with invariants, proved equal to a specification function. The properties are proved about those functions as lemmas.
- **Pure code stays pure.** Dictionaries and lists that are only read are maps and sequences, and pure code is functions.

Files:

- `wrappers.dfy`: Option and Result.
- `text.dfy`: Python string operations on ASCII.
- `py_value.dfy`: JSON-like values, truthiness, `int()` and `==`.
- `date_times.dfy`: `isoformat` and `fromisoformat`.
- `memories.dfy`, `memory_stores.dfy`, `planner.dfy`: the planner.
- `schema_docs.dfy`, `knowledge.dfy`: the knowledge manager.
- `sql_contexts.dfy`, `sql_context_usage.dfy`: the SQL context module and its agent example.
- `config.dfy`: the configuration manager.
- `query_subgraph.dfy`: the query-understanding subgraph.
- `dash_scope.dfy`, `streaming_adapter.dfy`, `qwen.dfy`: the model wrappers.
- `context_manager.dfy`: the context registry.

## Model

| member | source | states |
|---|---|---|
| DateTimes.IsoFormat | src/planner/planner.py:35 | `isoformat()` has 19 characters, or 26 when the microseconds are not zero |
| DateTimes.FromIsoFormat | src/planner/planner.py:47 | the two shapes `isoformat()` produces, `YYYY-MM-DDTHH:MM:SS` and the same with `.ffffff`, parse to a valid datetime; text of neither shape, or with an out-of-range field, is the ValueError case |
| DateTimes.IsoLayout | src/planner/planner.py:35 | each field of the datetime sits at its fixed offset in `isoformat()`, zero-padded, with `-`, `T`, `:` and `.` between |
| DateTimes.IsoRoundTrip | src/planner/planner.py:35-47 | `fromisoformat(d.isoformat()) == d` for every valid datetime |
| Memories.ToDict | src/planner/planner.py:29-38 | `to_dict` has exactly the six keys id, content, memory_type, timestamp, relevance_score and metadata |
| Memories.RequiredStr | src/planner/planner.py:44-46 | a required key holding a string gives that string, and a missing key is `KeyError: '<key>'` |
| Memories.FromDict | src/planner/planner.py:40-50 | `from_dict` succeeds iff the four required keys hold strings, the timestamp parses, a present score is a float or an int, and present metadata is a dict; the memory then carries those fields, with a score of 0.0 and metadata `{}` for missing keys; a missing `id` is `KeyError: 'id'` |
| Memories.DictRoundTrip | src/planner/planner.py:29-50 | `from_dict(to_dict(m)) == m` for every memory with a valid timestamp |
| Memories.ScoreBounds | src/planner/planner.py:109-110 | the relevance score is in [0, 1], and it is positive iff the query and the content share a lower-cased token |
| Memories.SortDescPermutation | src/planner/planner.py:117 | `sort(key, reverse=True)` returns a permutation of its input |
| Memories.SortDescSorted | src/planner/planner.py:117 | the sorted list is in non-increasing key order |
| Memories.SortDescStable | src/planner/planner.py:117 | the sort is stable: elements with the same key keep their input order |
| MemoryStores.Rescored | src/planner/planner.py:106-114 | rescoring keeps the store's length |
| MemoryStores.Selected | src/planner/planner.py:98-100 | the type filter keeps only stored memories of the requested type, and never more than there were |
| MemoryStores.InMemoryStore.constructor | src/planner/planner.py:80-82 | a new store is empty |
| MemoryStores.InMemoryStore.Store | src/planner/planner.py:84-92 | `store` appends the memory at the end and reports success |
| MemoryStores.InMemoryStore.Retrieve | src/planner/planner.py:94-122 | `retrieve` rewrites the scores of the eligible stored memories, and returns the ranking of `RetrieveResult` |
| MemoryStores.InMemoryStore.Clear | src/planner/planner.py:139-147 | `clear` empties the store and reports success |
| MemoryStores.ScoreAll | src/planner/planner.py:106-114 | the scoring loop produces the rescored store and, in store order, the memories with a positive score |
| MemoryStores.RelevantSound | src/planner/planner.py:106-114 | every relevant memory is an eligible stored memory, and it carries its own positive score |
| MemoryStores.RelevantComplete | src/planner/planner.py:106-114 | every eligible stored memory, rescored, is among the relevant ones |
| MemoryStores.RetrieveFacts | src/planner/planner.py:94-118 | `retrieve` returns at most `top_k` memories, each of the requested type with a positive score equal to its relevance; they are in non-increasing score order and form a prefix of the stable ranking |
| MemoryStores.RetrieveComplete | src/planner/planner.py:94-118 | with `top_k` at least the store size, every eligible memory is returned |
| MemoryStores.RescoredKeepsContent | src/planner/planner.py:112-113 | retrieval changes nothing of a stored memory except its relevance |
| MemoryStores.RecentFacts | src/planner/planner.py:124-133 | `get_recent_memories` (modelled by `MemoryStores.InMemoryStore.RecentMemories`) returns at most `limit` stored memories of the requested type, newest first, with ties in store order |
| Planner.StepParametersFacts | src/planner/planner.py:282-301 | the parameters hold the query, the context and the action's own extras; extras win over the context, and the context wins over the query |
| Planner.PlanShape | src/planner/planner.py:247-280 | the plan has 5 steps, or 6 when the query asks for data; the steps are numbered from 1, pending and unstarted, with the parameters of their action |
| Planner.PlanActionsKnown | src/planner/planner.py:182-192 | every planned action is one of the agent's available actions |
| Planner.PlanOrder | src/planner/planner.py:253-268 | the actions are exactly query_understanding, information_retrieval, data_analysis, answer_generation, validation in that order, with sql_generation inserted as the third step (index 2) iff a data keyword occurs in the lower-cased query; every step keeps its template description |
| Planner.ExecuteStep | src/planner/planner.py:383-395 | the simulated executor always returns a non-empty result |
| Planner.ResultLinesFacts | src/planner/planner.py:403-407 | every non-empty step result gets a `- ` bullet line, and there are no more lines than actions |
| Planner.CompletedCount | src/planner/planner.py:310-361 | the number of steps completed before the first raising step is at most the plan length |
| Planner.CompletedBefore | src/planner/planner.py:310-361 | every step before the first raising step succeeds |
| Planner.ExecutedActions | src/planner/planner.py:341-346 | one executed-action entry per completed step, with its id, action, status and result |
| Planner.ExecutedSteps | src/planner/planner.py:310-361 | the executed plan has as many steps as the input plan |
| Planner.Attempted | src/planner/planner.py:310-361 | the loop attempts the completed steps plus the failing one, and never more than the plan holds |
| Planner.PlannerAgent.constructor | src/planner/planner.py:177-180 | the agent is built on the given store, with the clock at its first reading |
| Planner.PlannerAgent.StoreMemory | src/planner/planner.py:200-217 | `store_memory` appends one memory stamped with the next id and time, with relevance 0, and returns that id |
| Planner.PlannerAgent.RetrieveRelevantMemories | src/planner/planner.py:219-223 | the agent's retrieval is the store's `retrieve` |
| Planner.PlannerAgent.GeneratePlanSteps | src/planner/planner.py:247-280 | the plan does not depend on the memories found |
| Planner.PlannerAgent.CreatePlan | src/planner/planner.py:225-245 | `create_plan` returns a fresh plan equal to `PlanSteps`; it leaves both retrievals' rescoring and two new memories, the start and the plan size, in the store |
| Planner.PlannerAgent.PlanQuery | src/planner/planner.py:228-243 | the memories and clock readings of planning are those of `PlanningMemories` |
| Planner.PlannerAgent.AttemptStep | src/planner/planner.py:310-357 | one attempt changes that plan step alone to its attempted form, makes four clock readings and records its start and its end |
| Planner.PlannerAgent.BeginStep | src/planner/planner.py:314-323 | a started step is executing with its start time set, and its start is recorded |
| Planner.PlannerAgent.EndStep | src/planner/planner.py:328-357 | an ended step is completed with its result or failed, with its end time set, and its end is recorded |
| Planner.PlannerAgent.RunSteps | src/planner/planner.py:307-361 | the loop completes exactly the steps before the first failure, builds their executed actions, reports the failure and leaves the plan as `ExecutedSteps` |
| Planner.PlannerAgent.ExecutePlan | src/planner/planner.py:303-381 | `execute_plan` leaves the plan as `ExecutedSteps` and returns `ExecutedState` |
| Planner.PlannerAgent.Conclude | src/planner/planner.py:363-381 | the final state is updated, and the final answer and its memory appear only when no error is set |
| Planner.PlannerAgent.PlanAndExecute | src/planner/planner.py:411-434 | with the simulated executor, every planned step completes, `current_step` is the plan length + 1, there is no error, and the final answer is `FinalResult`; the store gains the planning memories, both memories of every step and the final answer's memory, and the clock advances by 2 + 4n + 1 |
| Planner.PlannerAgent.ExecuteBuiltIn | src/planner/planner.py:303-381 | `execute_plan` with the simulated executor and no earlier error completes every step with its canned result, stores both memories of each step and the final answer's memory, and reads the clock 4n + 1 times |
| Planner.BuiltInTrail | src/planner/planner.py:303-381 | with the simulated executor, `execute_plan` attempts every step, stores the final answer's memory, and reads the clock 4n + 1 times |
| Planner.PlannerAgent.GetMemorySummary | src/planner/planner.py:446-459 | the summary counts the 20 most recent memories and their types, and shows the newest as a dict |
| Planner.ResultsOfRun | src/planner/planner.py:363-381 | `execute_plan`'s state, memories and clock follow from what its loop returned |
| Planner.CountTypes | src/planner/planner.py:451-453 | the counting loop gives each occurring memory type its number of occurrences, and no other types |
| Planner.NumberSteps | src/planner/planner.py:271-278 | the numbering loop turns each (action, description) pair into the pending step with id i + 1 |
| Planner.CountOfBounds | src/planner/planner.py:451-453 | a type's count is positive iff the type occurs, and it is at most the number of memories |
| Planner.BuiltInCompletes | src/planner/planner.py:383-395 | the simulated executor never raises, so every step of any plan completes |
| Planner.BuiltInRun | src/planner/planner.py:303-381 | with the simulated executor and no earlier error, every step is completed with its canned result and the final answer is produced |
| Planner.FinalResultHeader | src/planner/planner.py:397-409 | with no actions the answer is `未能生成有效结果`; otherwise it opens with the step count and the query |
| Planner.FinalResultMentions | src/planner/planner.py:403-407 | the final answer contains a bullet for every non-empty step result |
| Planner.CompletedStepsFacts | src/planner/planner.py:310-348 | the steps before the first failure end completed with their results, keeping their id, action and parameters |
| Planner.FailedStepFacts | src/planner/planner.py:350-361 | the failing step ends failed with its result untouched, and the steps after it are not touched |
| Planner.ExecutionErrorFacts | src/planner/planner.py:350-381 | an error is reported iff a step failed or the state already had one; a failure blocks the final answer |
| Knowledge.GenerateContextChunks | src/knowledge/knowledge.py:207-251 | the chunking loop produces `ContextChunks` of the document |
| Knowledge.ColumnPass | src/knowledge/knowledge.py:226-237 | the column loop gives one chunk per column, in order |
| Knowledge.ChunkCount | src/knowledge/knowledge.py:214-249 | the chunk count is the sum over tables of 1 + the number of columns + 1 when the table has sample rows, and at least one chunk per table |
| Knowledge.TableChunksFacts | src/knowledge/knowledge.py:214-249 | a table yields its description chunk first, then its column chunks in order, then a sample chunk only when the sample has rows |
| Knowledge.ChunksNameListedTables | src/knowledge/knowledge.py:214-249 | every chunk names a table of the document |
| Knowledge.NoChunks | src/knowledge/knowledge.py:211-212 | there are no chunks iff the document has no tables |
| Knowledge.FirstChunkNamesTable | src/knowledge/knowledge.py:217-223 | the first chunk describes the first table |
| Knowledge.ListTables | src/knowledge/knowledge.py:307-312 | `list_tables` names the tables in order, or returns nothing without a tables key |
| Knowledge.FindTable | src/knowledge/knowledge.py:301-305 | the search finds a table iff one has the name, and returns the first such table |
| Knowledge.SchemaIffListed | src/knowledge/knowledge.py:296-312 | `get_table_schema` (modelled by `Knowledge.GetTableSchema`) finds a table iff `list_tables` lists its name |
| Knowledge.GetDatabaseSummary | src/knowledge/knowledge.py:314-324 | a missing document or one without any key gives `No database context available`; any other gives the four-line summary |
| Knowledge.OtherKeysOnlySummary | src/knowledge/knowledge.py:316-322 | a document holding only keys other than the five read is not empty, and its summary shows `Unknown`, `0` and `No description available` |
| SchemaDoc.EmptyIffNoKeys | src/knowledge/knowledge.py:316 | `not context_data` holds for a loaded document iff it has none of the five keys and no other key |
| Knowledge.SummaryFacts | src/knowledge/knowledge.py:319-322 | the summary opens with the name line and holds the path and table-count lines; it ends with the business line; missing keys read `Unknown` or `No description available` |
| Knowledge.CreateKnowledgeManager | src/knowledge/knowledge.py:339-344 | the factory succeeds iff the type is `financial`; otherwise it raises `Unknown knowledge manager type: …` |
| Knowledge.FreshManagerIsEmpty | src/knowledge/knowledge.py:46-62 | a fresh manager has no context, so it lists no tables and yields no chunks |
| SqlContext.MapColumns | src/embedding/sql_context.py:63-71 | one column per PRAGMA row: nullable is `YES` iff notnull = 0, the primary key iff pk = 1, and a falsy default becomes `None` |
| SqlContext.BusinessDescriptionFacts | src/embedding/sql_context.py:108-129 | the description opens with the table's fixed text (or `<name>表的相关业务数据` for an unknown table) and ends with `。` |
| SqlContext.BusinessDescriptionFields | src/embedding/sql_context.py:126-127 | the key fields are the names of the first five columns, and each occurs in the description |
| SqlContext.AnalyzeRelationships | src/embedding/sql_context.py:171-195 | the relationship loops produce `Relationships()`, the i<j pairs of each field's table list in order |
| SqlContext.PairsOf | src/embedding/sql_context.py:185-193 | the nested i<j loop over one field's tables yields `PairsUpTo` |
| SqlContext.PairsCount | src/embedding/sql_context.py:185-193 | the first n rows of the i<j enumeration hold n(2·len - n - 1)/2 pairs |
| SqlContext.RowMembership | src/embedding/sql_context.py:186-193 | row i holds exactly the links from table i to each later table |
| SqlContext.PairsMembership | src/embedding/sql_context.py:185-193 | a relationship is enumerated iff it links some table i to some j > i |
| SqlContext.LinksOfFacts | src/embedding/sql_context.py:183-193 | every relationship is a FOREIGN_KEY with the description `<from>和<to>通过<field>关联`, and comes from a field with more than one table |
| SqlContext.LinksCount | src/embedding/sql_context.py:183-193 | the relationship count is the sum of n(n-1)/2 over fields with n > 1 tables |
| SqlContext.RelationshipsCount | src/embedding/sql_context.py:176-195 | the fixed mapping yields 28 relationships |
| SqlContext.RelationshipsFields | src/embedding/sql_context.py:180-184 | no relationship uses the field `交易日期`, whose table list has one entry |
| SqlContext.GenerateContextText | src/embedding/sql_context.py:258-315 | the rendering loops produce `ContextText`, the lines joined with newlines |
| SqlContext.OverviewPass | src/embedding/sql_context.py:262-272 | the overview part is the name, path, time, table-count and business-summary lines |
| SqlContext.TablesPass | src/embedding/sql_context.py:283-313 | the table loop renders each table in order |
| SqlContext.RelationshipPass | src/embedding/sql_context.py:275-279 | relationships are rendered as a heading, a `- ` line per description, and a blank line |
| SqlContext.TablePass | src/embedding/sql_context.py:284-313 | one table renders as `TableLines` |
| SqlContext.ColumnPass | src/embedding/sql_context.py:289-292 | the column loop renders each column line in order |
| SqlContext.ConstraintPass | src/embedding/sql_context.py:299-302 | constraints are rendered as a heading and one indented line each |
| SqlContext.SamplePass | src/embedding/sql_context.py:305-311 | the sample section is the heading, the first five column names and at most two rows |
| SqlContext.RowPass | src/embedding/sql_context.py:310 | the row cells for the first n columns |
| SqlContext.ContextTextOpening | src/embedding/sql_context.py:262-266 | the text opens with the name, path, creation-time and table-count lines |
| SqlContext.RelationshipSection | src/embedding/sql_context.py:274-282 | the relationship heading appears iff there are relationships, each description follows as a `- ` line, and without them the table heading comes next |
| SqlContext.ColumnLineFlags | src/embedding/sql_context.py:289-292 | a column line ends with ` (主键)` iff the column is a primary key, and it names `可空` iff the column is nullable |
| SqlContext.SampleSectionFacts | src/embedding/sql_context.py:305-311 | the sample section appears iff there are rows; it shows at most 5 columns and 2 rows, numbered from 1 |
| SqlContext.RowCellsFacts | src/embedding/sql_context.py:310 | a sample row has one cell per shown column; cells past the row's end are `NULL` |
| SqlContext.TablesRendered | src/embedding/sql_context.py:283-284 | every table's name line is in the text |
| SqlContext.LoadedValid | src/embedding/sql_context.py:377-384 | loading a document stores it under its name, leaves other names alone and keeps the name list duplicate-free |
| SqlContext.AvailableIffLoaded | src/embedding/sql_context.py:397-415 | `list_available_contexts` (modelled by `SqlContext.ListAvailableContexts`) names exactly the loaded contexts, each once |
| SqlContextUsage.HitsFacts | examples/sql_context_usage.py:81-87 | the detected keywords are exactly the keywords occurring in the text, in list order, and their number is the score |
| SqlContextUsage.ComplexityFacts | examples/sql_context_usage.py:81-88 | for `analyze_query_complexity` (modelled by `SqlContextUsage.AnalyzeQueryComplexity`), the score is the number of keywords in the lower-cased query, at most 6, and equals the detected list's length; the query is complex iff the score > 2 |
| SqlContextUsage.ComplexityIgnoresCase | examples/sql_context_usage.py:82 | a query and its lower-cased form get the same analysis |
| SqlContextUsage.LookupsNeedLoadedContext | examples/sql_context_usage.py:30-68 | over the retriever's lookups `get_context`, `get_embedding` and `get_context_text` (modelled by `SqlContext.GetContext`, `SqlContext.GetEmbedding` and `SqlContext.GetContextText`), an unloaded database has neither text nor vector; a loaded one has the retriever's text and vector; a database is listed iff it is loaded |
| SqlContextUsage.PromptFacts | examples/sql_context_usage.py:113-125 | the prompt opens with the context heading and the context, and it contains the query |
| SqlContextUsage.GenerateSqlFacts | examples/sql_context_usage.py:90-136 | `generate_sql_with_context` (modelled by `SqlContextUsage.GenerateSqlWithContext`) fails with `数据库 <db> 的上下文不存在` iff the context text is missing or empty; otherwise it reports the context length, the query's complexity, and a prompt holding both the context and the query |
| SqlContextUsage.UnlistedDatabaseFails | examples/sql_context_usage.py:47-49 | a database not listed at construction never gets a suggestion |
| SqlContextUsage.SummaryFacts | examples/sql_context_usage.py:157-167 | no summary iff the document is missing or holds no key at all; otherwise the table count equals the number of table names, which are listed in order, and name, summary and time are copied |
| SqlContextUsage.SummaryIsListed | examples/sql_context_usage.py:157-159 | a summarised database is one the agent lists |
| Config.LookupAppend | src/config/config_manager.py:147-148 | walking a path in two parts is walking the first part and then the rest |
| Config.Walk | src/config/config_manager.py:144-152 | the key walk yields `Lookup`; a missing key or a non-dict on the way gives nothing |
| Config.GetThroughSoundCache | src/config/config_manager.py:139-152 | with a cache that agrees with the configuration, `get` returns the dotted-path lookup, and the cache still agrees afterwards |
| Config.GetIsCached | src/config/config_manager.py:141-150 | after a successful `get`, the key is cached and later reads return that value whatever the configuration becomes |
| Config.IntSettingFacts | src/config/config_manager.py:159-165 | `get_int` returns an int as is, parses its decimal text, and gives the default for None, lists and dicts |
| Config.BoolSettingFacts | src/config/config_manager.py:167-172 | string settings are matched case-insensitively; a true string is truthy, but `no` is false though truthy |
| Config.MergeFacts | src/config/config_manager.py:108-117 | merging keeps all keys; new values win over old ones, and merging the same data twice changes nothing more |
| Config.PlaceholderName | src/config/config_manager.py:132-134 | the placeholder is `${` + the name + `}` |
| Config.ReplaceEnvShape | src/config/config_manager.py:126-137 | `_replace_env_vars` (modelled by `Config.ReplaceEnv`) keeps every dict's keys and every list's length; a set variable replaces its placeholder; everything else is unchanged |
| Config.ReplaceEnvUnset | src/config/config_manager.py:126-137 | with no variables set, substitution is the identity |
| Config.ReplaceEnvIdempotent | src/config/config_manager.py:126-137 | when no variable's value is itself a placeholder, substituting twice is substituting once |
| Config.SetPathLands | src/config/config_manager.py:217-227 | after the path walk of `update_config` (modelled by `Config.SetPath`), the path holds the value; the top-level keys only gain the first key; other top-level entries are unchanged |
| Config.SetPathFails | src/config/config_manager.py:221-227 | the update raises TypeError iff some proper prefix of the path leads to an existing non-dict |
| Config.Fanout | src/config/config_manager.py:184-186 | every listener gets the event, in registration order |
| Config.Notify | src/config/config_manager.py:182-188 | the notification loop calls every listener even when some raise, and collects those that raised |
| Config.ChangedEventsExact | src/config/config_manager.py:38-47 | an event is emitted iff its key is in both the old and new configuration with values that differ under Python `==`, carrying both values |
| Config.UnchangedSendsNothing | src/config/config_manager.py:38-40 | reloading an unchanged configuration emits no event |
| Config.ChangedEventsDistinct | src/config/config_manager.py:38-47 | over keys iterated once each, no two events share a key |
| Config.NoneChanged | src/config/config_manager.py:40 | no key counts as changed when a configuration is compared with itself |
| Config.DeliveriesCount | src/config/config_manager.py:38-47 | every event reaches every listener: |listeners| × |events| deliveries |
| Config.EmitEvents | src/config/config_manager.py:38-47 | the event loop emits `ChangedEvents` and delivers each to every listener |
| Config.ConfigManager.constructor | src/config/config_manager.py:62-68 | a new manager has empty configuration, cache and listener list |
| Config.ConfigManager.Get | src/config/config_manager.py:139-152 | `get` returns the cached or looked-up value, or else the default, and caches a successful lookup |
| Config.ConfigManager.GetInt | src/config/config_manager.py:159-165 | `get_int` converts the fetched value, falling back to the default |
| Config.ConfigManager.GetBoolean | src/config/config_manager.py:167-172 | `get_boolean` interprets the fetched value |
| Config.ConfigManager.MergeDirect | src/config/config_manager.py:108-117 | empty data changes nothing; otherwise the configuration is updated and the cache cleared |
| Config.ConfigManager.MergeDocument | src/config/config_manager.py:119-124 | a reloaded document is substituted and merged; a truthy non-dict document raises and changes nothing |
| Config.ConfigManager.UpdateConfig | src/config/config_manager.py:206-227 | an uninitialised manager raises the fixed ValueError; otherwise the path is set, creating dicts and raising on a non-dict; the cache is left as it was |
| Config.ConfigManager.UpdateConfigInvalidating | src/config/config_manager.py:206-227 | the same update, but it clears the cache, so every later `get` reads the new configuration |
| Config.ConfigManager.AddListener | src/config/config_manager.py:174-176 | the listener is appended |
| Config.ConfigManager.RemoveListener | src/config/config_manager.py:178-180 | removal succeeds iff the listener is registered, and drops its first occurrence only; otherwise it raises ValueError and changes nothing |
| Config.ConfigManager.NotifyListeners | src/config/config_manager.py:182-188 | every registered listener is called in order, and raising listeners are collected |
| Config.ConfigManager.OnModified | src/config/config_manager.py:29-49 | for the new configuration's keys iterated once each, only `.yaml` files reload; a reload failure changes nothing; an event is sent iff a key present before and after changed under `==`, with both values, once per key, and each event reaches every listener |
| Config.StaleReadAfterUpdate | src/config/config_manager.py:141-149 | a value read before `update_config` is still returned after it, though the configuration now holds another |
| Config.StaleReadExample | src/config/config_manager.py:206-227 | `get("db.port")` returns 1 after `update_config("db.port", 2)` |
| Config.DottedPath | src/config/config_manager.py:144 | `"db.port".split('.')` is `["db", "port"]` |
| Config.InvalidatedReadIsFresh | src/config/config_manager.py:139-152 | after the corrected update, `get` of the updated path returns the new value |
| QuerySubgraph.TaskSet.constructor | src/query_understanding/qu_subgraph.py:26 | `set()`: a new task set is empty |
| QuerySubgraph.TaskSet.Add | src/query_understanding/qu_subgraph.py:27 | `add` inserts the task |
| QuerySubgraph.Complete | src/query_understanding/qu_subgraph.py:26-27 | the state's own set gains the task, or a fresh set holding only it is made when the state has none |
| QuerySubgraph.WordSegmentation | src/query_understanding/qu_subgraph.py:17-34 | a missing or empty query gives the fixed error; a segmenter exception gives the prefixed error; otherwise the words are recorded and `word_segmentation` is added to the shared set |
| QuerySubgraph.WordEntities | src/query_understanding/qu_subgraph.py:48 | one `UNKNOWN` entity per whitespace-separated word, in order |
| QuerySubgraph.WordEntitiesFacts | src/query_understanding/qu_subgraph.py:48 | every entity's text is non-empty and has no whitespace |
| QuerySubgraph.Ner | src/query_understanding/qu_subgraph.py:36-57 | the same three outcomes for entity extraction, adding `ner` |
| QuerySubgraph.IntentRecognition | src/query_understanding/qu_subgraph.py:59-79 | the same three outcomes for intent recognition, recording `["QUERY_INTENT"]` |
| QuerySubgraph.MissingTasksExact | src/query_understanding/qu_subgraph.py:85-88 | the missing tasks are exactly the expected ones not done, each once, and there are none iff all three are done |
| QuerySubgraph.JoinResultsFacts | src/query_understanding/qu_subgraph.py:81-92 | the join passes the state through when all three tasks are done; otherwise it changes only the error, naming the missing tasks |
| DashScope.ConcatAppend | src/models/streaming_adapter.py:229-301 | concatenating tokens distributes over appending token lists |
| DashScope.TokensMakeContents | src/models/streaming_adapter.py:229-301 | the tokens streamed to the callback are non-empty and together make the answer |
| DashScope.FoldAppend | src/models/qwen.py:109-131 | folding a stream in two parts is folding each part and joining the answers, the reasoning and the tokens |
| DashScope.BlankChunkIgnored | src/models/qwen.py:112-114 | a chunk with neither content nor reasoning changes nothing |
| StreamingAdapter.NewAdapterFacts | src/models/streaming_adapter.py:47-85 | construction fails with `API key is required` iff neither the caller nor the configuration gives a key; an empty model list keeps the default |
| StreamingAdapter.ConvertedRoles | src/models/streaming_adapter.py:104-139 | human and other messages speak as the user, AI as the assistant; only function messages carry a name; content is kept |
| StreamingAdapter.ConvertMessages | src/models/streaming_adapter.py:104-139 | the conversion loop gives one DashScope message per chat message, in order |
| StreamingAdapter.CallParamsFacts | src/models/streaming_adapter.py:141-176 | call arguments win over defaults, the stop list wins over both, and nothing else is added |
| StreamingAdapter.OutcomeFacts | src/models/streaming_adapter.py:178-301 | a plain reply succeeds iff its status is 200, and otherwise raises `Model call failed: …`; a stream succeeds iff it did not raise; its answer is the tokens joined, and it carries reasoning iff there is any |
| StreamingAdapter.NonStreamGenerate | src/models/streaming_adapter.py:178-227 | on success, the callback receives the whole content as one token |
| StreamingAdapter.StreamGenerate | src/models/streaming_adapter.py:229-301 | the stream loop folds the chunks into `StreamOutcome` and passes each non-empty content to the callback |
| StreamingAdapter.Generate | src/models/streaming_adapter.py:141-176 | the call streams iff the model is a streaming model, with the converted messages and the merged parameters; its result is that path's outcome |
| Qwen.NewQwenModel | src/models/qwen.py:12-26 | construction fails iff `api_key` is missing or falsy; otherwise the model version defaults to `qwen-turbo` and the parameters to `{}` |
| Qwen.Generate | src/models/qwen.py:37-87 | success iff the status is 200, with the content; other statuses report their message and code; an exception reports no status |
| Qwen.StreamResultFacts | src/models/qwen.py:89-149 | a stream succeeds with status 200, answer and reasoning iff it did not raise; a failure has no status |
| Qwen.StreamGenerate | src/models/qwen.py:89-149 | the stream loop accumulates reasoning from chunks without content and the answer from content chunks |
| Qwen.GenerateDistributor | src/models/qwen.py:28-35 | the three `qwq` versions stream, and every other version uses `generate` |
| ContextManagers.Lookup | src/embedding/context_manager.py:8-9 | an id is found iff it is stored, giving its context; otherwise the lookup raises KeyError |
| ContextManagers.AddThenGet | src/embedding/context_manager.py:5-9 | after `add_context(c)`, `get_context(c.id)` returns c |
| ContextManagers.AddReplaces | src/embedding/context_manager.py:6 | adding under an existing id replaces the entry without adding any |
| ContextManagers.AddKeepsOthers | src/embedding/context_manager.py:6 | adding leaves the lookup of every other id unchanged |
| ContextManagers.ContextManager.constructor | src/embedding/context_manager.py:2-3 | a new registry is empty |
| ContextManagers.ContextManager.AddContext | src/embedding/context_manager.py:5-6 | the registry now maps the context's id to it, and its ids gain that id only |
| ContextManagers.ContextManager.GetContext | src/embedding/context_manager.py:8-9 | `get_context` is `Lookup` on the registry |
| PyValue.TruncateReal | src/config/config_manager.py:163 | `int()` of a float truncates toward zero |
| PyValue.ToInt | src/config/config_manager.py:162-165 | `int()` keeps ints and refuses None, lists and dicts |
| PyValue.IntLiteralRoundTrip | src/config/config_manager.py:163 | `int(str(i)) == i` |
| PyValue.PyEqReflexive | src/config/config_manager.py:40 | every modelled configuration value equals itself under `==` (floats are reals here, so there is no NaN) |
| PyValue.PyEqAcrossNumbers | src/config/config_manager.py:40 | `True == 1 == 1.0` but `1 != "1"` |
| Text.Lower | src/planner/planner.py:103 | lower-casing keeps the length |
| Text.LowerIdempotent | examples/sql_context_usage.py:82 | lower-casing twice is lower-casing once |
| Text.WordsFacts | src/planner/planner.py:109 | `split()` gives non-empty words without whitespace |
| Text.JoinSplit | src/config/config_manager.py:144 | joining the pieces of `split('.')` with `.` gives back the key |
| Text.PyTake | src/planner/planner.py:118 | `xs[:k]` is the first k elements, clamped, and empty for a negative k below the length |
| Text.NatToStringInjective | src/planner/planner.py:242 | different numbers print differently |

## Left out

- I/O and services are not modelled. These are the SQLite extraction queries, the JSON, pickle and text files, the embedding model and `vectorize_context`, Milvus (`init`, `_load_embedding_data`, `_init_milvus`, `_create_collection`, `_load_data_to_milvus`, `retrieve`, `close`), the DashScope and OpenAI network calls, YAML parsing, `_load_configs`, the file-system watcher and logging. What they return is a parameter: `Retriever`, `ContextDoc`, `Reply`, `Stream`, `doc`, `env`.
- `_generate_memory_id` is not modelled. It takes md5 of the content, the type and `datetime.now()`; the id and the clock are an injected `stamp` function, read once per call.
- The `execution_time` metadata entry is left out, because it is elapsed wall-clock time.
- `Planner.PlannerAgent.PlanAndExecute` models the `try` branch of `plan_and_execute` only. The `except` branch (planner.py:436-444) sets the error message and stores a `fatal_error` memory. It is not modelled, because nothing modelled in `create_plan` or `execute_plan` raises.
- Memory objects are values. `retrieve` rewrites the stored memories' scores, but the aliasing between the returned memories and the stored ones is not modelled.
- Dictionary insertion order is not modelled. Maps stand for dictionaries. `on_modified` walks the keys in insertion order, which `OnModified` takes as the parameter `keys`.
- The configuration cache holds values, not references. In the source, a cached nested dictionary would see later in-place updates; the model does not capture that aliasing.
- Lower-casing is modelled on ASCII letters only. Python's `int()` is modelled on decimal ASCII text, without underscores or Unicode digits.
- `Config.ConfigManager.MergeDocument` does not model a YAML document that is a list of pairs, which `dict.update` would accept. It also does not model the exact text of the built-in TypeError and ValueError messages.
- `get_string` is left out: it is `str()` of an arbitrary value.
- The configuration singleton and its lock, `get_config`, and `_merge_env_specific_config` are left out. The latter refers to an environment attribute that is never set.
- The query-understanding graph wiring and jieba itself are left out; the segmenter is a parameter. A `completed_tasks` key that holds `None` is not modelled.
- `QuerySubgraph.JoinResults` lists the missing tasks in a fixed order. Python's set repr may order them differently.
- `StreamingAdapter.Generate` does not model the `_stream` wrapper or the assignment to the global `dashscope.api_key`. A stream that raises part-way is modelled as the chunks it delivered followed by the failure.
- `Qwen.Generate` drops the `raw_response` and `usage` entries of its success result (qwen.py:69-71): they are the DashScope response object and its token usage, which the model does not represent.
- `Qwen.StreamGenerate` and `StreamingAdapter.StreamGenerate` treat a chunk without `reasoning_content` as having empty reasoning.
- Stored sample cells are their `str()` text.
- `DateTimes.FromIsoFormat` accepts only the two shapes `isoformat()` produces. It refuses other text that Python's `datetime.fromisoformat` accepts: a date alone (`2024-01-05`), any separator other than `T` at offset 10, `HH:MM` without seconds, fractions of 3 digits, and UTC offsets such as `+08:00`. So `from_dict` gives Err for such timestamps in the model.
- `Memories.FromDict` and `Memories.RequiredStr` hold `id`, `content` and `memory_type` as strings, a score as a float or an int, and metadata as a dict. Python's `from_dict` copies any value into those fields; the model refuses values of other types with an error.
- `GetDatabaseSummary`, `SummaryFacts` and `SchemaDoc.IsEmpty` read a key that is present with value `null` as absent. Python's `.get` then returns `None`, so the source prints `None` where the model prints the default, and the source treats a document holding only such keys as non-empty.
- `PyEqReflexive`: floats are exact reals, without NaN or infinities. In Python `nan != nan`, so `on_modified` would report a NaN setting on every reload, contrary to `UnchangedSendsNothing`. `int(inf)` raises OverflowError, which `get_int` does not catch.
- Context ids are strings.
- `ContextManagers.Lookup` reports KeyError without the key's repr.

## Findings

| source | as written | input that shows it | evidently intended | confidence | as-written member | corrected member |
|---|---|---|---|---|---|---|
| src/config/config_manager.py:206-227 | `update_config` changes `_config` in place but never clears `_cache`, so `get` keeps returning the value it cached before the update | config `{"db": {"port": 1}}`; `get("db.port")` returns 1; `update_config("db.port", 2)`; `get("db.port")` still returns 1 | an update is visible to later reads, as after every merge, which clears the cache (lines 106, 117) | not executed | Config.ConfigManager.UpdateConfig, Config.StaleReadAfterUpdate, Config.StaleReadExample | Config.ConfigManager.UpdateConfigInvalidating, Config.InvalidatedReadIsFresh |
