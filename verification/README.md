# bhootai memory and plot bookkeeping, modelled in Dafny

bhootai is a text horror RPG. A language model narrates, and the game code
around it keeps track of what happened. This project models that bookkeeping
and proves properties of it. The language models, the SQLite tables and the
ChromaDB vector store are not modelled: what they return comes in as
parameters, and what is written to them is recorded in the model's state.

The model covers seven parts of the program:

- **The buffered world** (`world.py`, module `BufferedWorld`).
  - It keeps a running buffer of the last ten exchanges.
  - When the buffer is full, the oldest exchange moves onto a stack.
  - When the stack reaches ten entries, it is written as one summary document and cleared.
  - It assembles the two-message request for the narrator from the first-turn lore or a searched context, plus the last five entries of the ten most recent interactions. The store returns those ten newest first, so the five shown are the oldest of the ten.
  - It reads the JSON object out of the narrator's reply.
- **The episodic world** (`src/world/world.py`, module `EpisodicWorld`).
  - The lore is cut into overlapping 50-word windows and stored.
  - A counter lets every twentieth non-empty conversation through as one narrative memory ("Player: … | Dungeon Master: …").
  - Search replies are rendered as context.
  - The game-state row is kept and overwritten.
- **The dungeon master** (`src/agents/dungeon_master/dm.py`, module `DungeonMasterAgent`).
  - It keeps the plot as a list of points and an index to the current point.
  - Completing a point removes it and splices in up to three generated points.
  - It keeps the plot status and summary.
  - It assembles the context for the narrator.
  - It keeps the conversation history, of which the last ten messages are sent.
- **Lore chunking for the vector store** (`database_setup.py`, module `WorldChunks`): full 50-word windows with step 40, a tail window if it is new, and ids `world_context_chunk_NNNN`.
- **The Gemini wrapper** (`llm.py`, module `GeminiLlm`): which API key is used, and how chat messages are flattened into one prompt.
- **The multi-provider client** (`src/utils/llm.py`, module `LlmClient`).
  - It falls back to another provider when the chosen one has no key.
  - It builds a request for each provider.
- **The box layout of the terminal UI** (`src/utils/terminal_ui.py`, module `TerminalLayout`): word wrap, box width, padded rows and centring.

`Common` holds the shared datatypes: Option, Result, the error kinds and chat messages. `Text` models the Python string operations the program uses:
- `strip`, `split()`, `split(c)` and `join`;
- ASCII `lower` and `title`;
- decimal and zero-padded number formatting.

A Python exception is modelled as an `Err`/`Raised` value carrying its kind. The model follows the code where the code's behaviour is surprising:
- once every plot point is completed, the status reads "Complete", but the next player turn raises `IndexError`;
- the stack status can never report "full", because the stack is cleared as soon as it reaches ten entries;
- the summary stack is cleared even when the summary write fails;
- the dungeon master's context assembly lets a store failure propagate.

## Model

| member | source | states |
|---|---|---|
| Text.Strip | llm.py:119 | `str.strip()`: result is a slice of the input with no leading/trailing whitespace, empty exactly when the input is all whitespace, identity on already-stripped text |
| Text.StripLeft | llm.py:119 | `lstrip()`: a suffix of the input that does not open with whitespace, and everything cut is whitespace |
| Text.StripRight | llm.py:119 | `rstrip()`: a prefix of the input that does not end with whitespace, and everything cut is whitespace |
| Text.LeadingSpace | llm.py:119 | the length of the whitespace run that opens the text: every character before it is whitespace, the one at it is not |
| Text.StripIsSlice | llm.py:119 | `strip()` is the slice that starts where the opening whitespace ends, and everything after the slice is whitespace |
| Text.StripUnindented | llm.py:119 | on text that does not open with whitespace, `strip()` keeps a prefix and cuts only whitespace after it |
| Text.Words | database_setup.py:105 | `str.split()`: every piece is a non-empty whitespace-free word; no words exactly when the text is all whitespace |
| Text.WordsOfSpacePrefix | database_setup.py:105 | `split()` skips whitespace before the first word |
| Text.WordsOfWord | database_setup.py:105 | a lone run of non-whitespace is one word |
| Text.WordsOfWordSpace | database_setup.py:105 | a run of non-whitespace ended by whitespace is the first word, and splitting goes on after the whitespace |
| Text.WordsOfJoin | database_setup.py:115-116 | splitting words joined by single spaces gives the same words back |
| Text.SplitOn | src/agents/dungeon_master/dm.py:140 | `str.split('\n')`: at least one piece, no piece contains the separator |
| Text.JoinSplitOn | src/agents/dungeon_master/dm.py:140 | joining the pieces of a split with the separator rebuilds the text |
| Text.SplitOnJoin | src/agents/dungeon_master/dm.py:140 | splitting a join of separator-free pieces gives the pieces back |
| Text.SplitTerminated | world.py:198-201 | text built as newline-terminated lines splits back into those lines plus a final empty piece |
| Text.Join | src/agents/dungeon_master/dm.py:173 | `sep.join`: "" for no parts, otherwise opening with the first part; `SplitOnJoin` and `JoinSplitOn` relate it to `split` |
| Text.Slice | world.py:211 | `s[lo:hi]` for non-negative bounds: the length clipped to the sequence, element k being s[lo+k] |
| Text.Lower | llm.py:109 | `str.lower()` on ASCII: same length, each character lower-cased |
| Text.TitleCase | src/world/world.py:131 | `str.title()` on ASCII: same length, non-letters kept, first character upper-cased |
| Text.Decimal | src/agents/dungeon_master/dm.py:238-239 | `str(n)`: at least one character, all decimal digits, no leading zero except for 0 itself |
| Text.DecimalRoundTrip | src/agents/dungeon_master/dm.py:238-239 | reading back the decimal rendering of n gives n |
| Text.ZeroPaddedValue | database_setup.py:86 | the `{i:04d}` rendering reads back as i |
| Text.ZeroPadded | database_setup.py:86 | `{i:04d}`: digits, four wide or as wide as i's own digits when longer, ending with the decimal of i |
| Text.ZeroPaddedInjective | database_setup.py:86 | different indices get different zero-padded renderings |
| EpisodicWorld.WindowsFrom | src/world/world.py:71-77 | the `range(0, n, step)` loop with early break produces at least one window; `WindowAt` gives each window and `WindowsStopAtEnd` where the loop stops |
| EpisodicWorld.ChunkWords | src/world/world.py:68-77 | ValueError exactly when window equals overlap; no chunks for a negative step or no words; otherwise at least one window, the first being words[0:window] |
| EpisodicWorld.CreateContextChunks | src/world/world.py:66-79 | all-whitespace text gives no chunks; a zero step (window equal to overlap) is the ValueError of `range`; otherwise chunking succeeds |
| EpisodicWorld.WindowAt | src/world/world.py:71-74 | window k starts at word k*step and holds up to `window` words, clipped at the end |
| EpisodicWorld.LastWindowReachesEnd | src/world/world.py:71-77 | with a non-negative overlap the last window ends at the last word, and no earlier window reaches it |
| EpisodicWorld.WindowsStopAtEnd | src/world/world.py:71-77 | every window but the last stops short of the last word and has a further `range` start; the last is the first window that reaches the last word or has none |
| EpisodicWorld.ContextLastChunkEnds | src/world/world.py:66-79 | for non-empty text and overlap below the window, chunking succeeds and the last chunk is non-empty and ends at the last word; every earlier chunk holds a full window of words and stops short of the last word |
| EpisodicWorld.ContextChunksOf120Words | src/world/world.py:66-79 | 120 words with window 50 / overlap 10 give exactly words [0:50], [40:90], [80:120] |
| EpisodicWorld.LoreMemories | src/world/world.py:52-59 | one memory per chunk, with its index, the chunk total and the "initial_context" source |
| EpisodicWorld.Speaker | src/world/world.py:123-131 | "user" is the Player, "assistant" the Dungeon Master, a missing role "Unknown", any other role title-cased |
| EpisodicWorld.NarrativePart | src/world/world.py:123-131 | the speaker, ": ", then the content, "" when the content is missing |
| EpisodicWorld.NarrativeParts | src/world/world.py:120-131 | one part per message, in order |
| EpisodicWorld.MessagesToNarrative | src/world/world.py:118-133 | no messages give "", one message gives its part |
| EpisodicWorld.NarrativeAppend | src/world/world.py:122-133 | one more message appends " \| " and its part to the narrative |
| EpisodicWorld.Gate | src/world/world.py:91-116 | empty input changes nothing; otherwise the counter rises, and a memory is written (and the counter reset) exactly when it reaches 20 and the write succeeds; the memory written is the narrative of the messages with their count, the raised counter value and the timestamp "current"; a failed write raises and leaves the counter raised |
| EpisodicWorld.GateCounterBounded | src/world/world.py:97-116 | a successful call keeps the counter below the threshold |
| EpisodicWorld.GateRun | src/world/world.py:91-116 | over any run of successful calls the counter stays below 20 |
| EpisodicWorld.GateCommitsEveryTwentieth | src/world/world.py:97-116 | after n successful non-empty calls from counter c, the counter is (c+n) mod 20 and (c+n) div 20 memories were written |
| EpisodicWorld.FirstDocuments | src/world/world.py:138-141 | nothing exactly when the documents are missing or empty; otherwise the first document list, with the first metadata list or [] when there is none |
| EpisodicWorld.WorldContext | src/world/world.py:135-150 | no documents give two empty lists; otherwise the first query's documents, with its metadatas when present |
| EpisodicWorld.MemoryLines | src/world/world.py:161-167 | document k is rendered "Memory k+1: doc", one line per document in order |
| EpisodicWorld.EpisodicContext | src/world/world.py:152-170 | no documents give the "No relevant episodic memory found" sentinel; otherwise the "Memory k+1: doc" lines of the first list joined with " \| " ("" for an empty list) |
| EpisodicWorld.EpisodicContextOfDocuments | src/world/world.py:156-168 | a reply with documents never renders as the sentinel and starts with "Memory 1: " and the first document |
| EpisodicWorld.World.constructor | src/world/world.py:17-63 | the counter starts at 0; the lore memories are those of the chunks of the stripped context file, cut where the store first refuses one (the error is swallowed), and none when the file cannot be read; a default game-state row exists |
| EpisodicWorld.World.StoreLore | src/world/world.py:52-60 | the `enumerate` loop stores the lore memories in order until the store refuses one: exactly the first min(accepted, n) |
| EpisodicWorld.World.AddEpisodicMemoryFromMessages | src/world/world.py:91-116 | counter, stored memories and outcome are exactly those of `Gate`; the game state is unchanged |
| EpisodicWorld.World.UpdateWorldState | src/world/world.py:198-205 | the row's fields are overwritten, or nothing happens when there is no row; counter and memories unchanged |
| EpisodicWorld.UpdatedState | src/world/world.py:198-205 | a row exists afterwards exactly when it did before, and carries the new plot progress and world state |
| DungeonMasterAgent.Insert | src/agents/dungeon_master/dm.py:90-91 | `list.insert`: one longer, element placed at the index, or appended when the index is past the end |
| DungeonMasterAgent.Pop | src/agents/dungeon_master/dm.py:82-84 | `list.pop(i)`: one shorter, elements after i shift down by one |
| DungeonMasterAgent.PlotLines | src/agents/dungeon_master/dm.py:140 | keeps at most as many lines as there were pieces |
| DungeonMasterAgent.PlotLinesOfOne | src/agents/dungeon_master/dm.py:140 | one piece contributes its stripped text exactly when that is non-empty |
| DungeonMasterAgent.PlotLinesAppend | src/agents/dungeon_master/dm.py:140 | pieces are kept or dropped independently and in order: parsing a concatenation concatenates the parses |
| DungeonMasterAgent.PlotLinesAreLines | src/agents/dungeon_master/dm.py:140 | every kept line is stripped, non-empty and single-line |
| DungeonMasterAgent.ParsePlotExtension | src/agents/dungeon_master/dm.py:140-141 | exactly the first three of the stripped non-blank pieces of `split('\n')`; each stripped, non-empty and single-line; a blank reply gives none |
| DungeonMasterAgent.AllSpacePieces | src/agents/dungeon_master/dm.py:140 | a blank reply splits into pieces that all strip to nothing |
| DungeonMasterAgent.AllSpacePlotLines | src/agents/dungeon_master/dm.py:140 | blank pieces contribute no plot points |
| DungeonMasterAgent.PlotLinesOfPlotLines | src/agents/dungeon_master/dm.py:140 | pieces that are already plot lines are kept unchanged |
| DungeonMasterAgent.ParsePlotExtensionOfLines | src/agents/dungeon_master/dm.py:140-141 | a reply of clean lines joined by newlines parses back to those lines, cut to the first three |
| DungeonMasterAgent.ParsePlotExtensionOfPieces | src/agents/dungeon_master/dm.py:140-141 | a reply written as newline-free lines parses to their stripped non-blank forms, in order, cut to the first three |
| DungeonMasterAgent.AdvancePlot | src/agents/dungeon_master/dm.py:65-93 | an index past the end raises IndexError; otherwise the list loses one point and gains the new ones, and the index moves on by one only when new points came |
| DungeonMasterAgent.AdvanceSplicesNewPoints | src/agents/dungeon_master/dm.py:81-91 | the points before the index are kept, the new points take the completed point's place, the rest follow unchanged |
| DungeonMasterAgent.CurrentPointAfterAdvance | src/agents/dungeon_master/dm.py:81-93 | after an advance with new points, the current point is the second new point, or the old next point, or the plot is complete |
| DungeonMasterAgent.CompleteIsNotAbsorbing | src/agents/dungeon_master/dm.py:65-93 | completing the last point without new ones reaches "Complete", and advancing from there raises IndexError |
| DungeonMasterAgent.PlotStatusOf | src/agents/dungeon_master/dm.py:231-240 | the current point or "Complete", up to three upcoming points that follow it, and the counts and "i/n" progress |
| DungeonMasterAgent.PlotSummaryLines | src/agents/dungeon_master/dm.py:242-247 | the summary reads back as exactly three lines: progress, current, upcoming |
| DungeonMasterAgent.PlotSummary | src/agents/dungeon_master/dm.py:242-247 | opens with the line "Plot Progress: … points completed" |
| DungeonMasterAgent.CompletedPlotPoints | src/agents/dungeon_master/dm.py:249-253 | the stored "completed_plots" value when the row has one, otherwise nothing |
| DungeonMasterAgent.CurrentPointLabel | src/agents/dungeon_master/dm.py:204 | the current point, or "Plot complete" past the end |
| DungeonMasterAgent.LocationLine | src/agents/dungeon_master/dm.py:155-161 | no line without a location row; with one, "Current location: " and the name, " - ", then the description |
| DungeonMasterAgent.ContextParts | src/agents/dungeon_master/dm.py:164-173 | the documents first; then "Episodic context: …" when there is an episodic context other than the sentinel; then the location line when present; then "Plot progress: …" last when present |
| DungeonMasterAgent.AssembleContext | src/agents/dungeon_master/dm.py:173 | no parts give "No specific context available"; a single part stands alone; otherwise the context opens with the first part |
| DungeonMasterAgent.AssembleContextFallback | src/agents/dungeon_master/dm.py:164-173 | with nothing to say, the context is "No specific context available" |
| DungeonMasterAgent.AssembleContextOpens | src/agents/dungeon_master/dm.py:164-173 | the assembled context starts with the first document |
| DungeonMasterAgent.AssembleContextOrder | src/agents/dungeon_master/dm.py:164-173 | with a document and a plot progress, the context ends with " \| Plot progress: " and the progress |
| DungeonMasterAgent.SessionLocation | src/agents/dungeon_master/dm.py:153-161 | a location line exactly when the row's session names a non-zero location id and the lookup found that location |
| DungeonMasterAgent.RelevantContext | src/agents/dungeon_master/dm.py:143-173 | a failing world search or episodic search propagates its error; otherwise exactly the assembly of the first query's documents, the episodic context, the session's location line and the row's plot progress |
| DungeonMasterAgent.OpeningScenePrompt | src/agents/dungeon_master/dm.py:175-182 | the prompt starts with "Context: " and the relevant context; a context failure propagates |
| DungeonMasterAgent.RecentHistory | src/agents/dungeon_master/dm.py:199 | the last ten messages (all when fewer), as a suffix of the history |
| DungeonMasterAgent.NarratorPrompt | src/agents/dungeon_master/dm.py:202-206 | "Context: " and the context, then "Current plot point: " and the point label after a blank line, then "Player says: " and the input after another; nothing else |
| DungeonMasterAgent.CompletionRecord | src/agents/dungeon_master/dm.py:72-76 | three messages: "Completed plot point: " and the completed point as the system turn, the action as the user turn, and an assistant turn naming the completed point and ending with the action |
| DungeonMasterAgent.PlotRow | src/agents/dungeon_master/dm.py:94-103 | the world-state row after an advance holds the plot list, the index, the action and "Completed N plot points" |
| DungeonMasterAgent.DungeonMaster.constructor | src/agents/dungeon_master/dm.py:9-32 | five initial plot points, index 0, empty history, and the initial plot stored in the world's row |
| DungeonMasterAgent.DungeonMaster.SetupInitialScenario | src/agents/dungeon_master/dm.py:46-63 | resets the plot to the initial five points at index 0 and stores them as "initial_setup" |
| DungeonMasterAgent.DungeonMaster.GetCurrentPlotStatus | src/agents/dungeon_master/dm.py:231-240 | the status of the current plot list and index |
| DungeonMasterAgent.DungeonMaster.ReplaceCurrentPoint | src/agents/dungeon_master/dm.py:81-93 | the new plot list and index are exactly those of `AdvancePlot` |
| DungeonMasterAgent.DungeonMaster.UpdatePlotProgression | src/agents/dungeon_master/dm.py:65-103 | past the end it raises IndexError and changes nothing; otherwise the completion record goes through the gate; when the gate and the generator succeed the plot advances and the row records "plot_point_i" |
| DungeonMasterAgent.DungeonMaster.RecordExchange | src/agents/dungeon_master/dm.py:218-227 | the exchange is appended to the history and handed to the gate. If that gate raises, or the plot index is already past the end (`IndexError`), the counter and memories are the first gate's and the plot, index and row are unchanged. Otherwise the completion record follows through the gate, which fixes the counter and memories. A raise from that gate, or a failed extension, leaves the plot, index and row as they were. On success the plot has advanced by the parsed extension and the row holds `plot_point_<new index>` |
| DungeonMasterAgent.DungeonMaster.RespondToPlayer | src/agents/dungeon_master/dm.py:193-229 | a context failure stops everything; the narrator gets the last ten messages and the context, plot point and player prompt; a narration failure changes nothing. After a narration, the counter, memories, plot, index and row are those of recording the exchange. The result is `Err` with the error whenever the recording raises, and the narrator's reply when it completes |
| BufferedWorld.DequeAppend | world.py:31-32 | `deque(maxlen)` append: grows below the bound, otherwise drops the oldest |
| BufferedWorld.Push | world.py:142-151 | both buffers stay bounded, the new entry is last in the running buffer, and a summary takes exactly ten entries and leaves the stack empty |
| BufferedWorld.Step | world.py:142-151 | the buffers stay bounded and the summary count rises by at most one |
| BufferedWorld.PushFacts | world.py:142-151 | one message keeps both buffers bounded, puts the entry last, loses nothing (summarised + stack + buffer = old stack + old buffer + entry), and summarises exactly when a full buffer meets a nine-entry stack |
| BufferedWorld.PushAll | world.py:142-151 | any sequence of messages keeps the buffers bounded |
| BufferedWorld.PushAllSuffix | world.py:142-151 | after any run, the stack followed by the buffer is a suffix of the messages sent |
| BufferedWorld.PushAllCounts | world.py:142-151 | after n messages the buffer holds min(n,10); from n ≥ 10 on the stack holds (n-10) mod 10 and (n-10) div 10 summaries were made |
| BufferedWorld.PushAllSizes | world.py:142-151 | the buffer is the last min(n,10) messages and the stack the ones just before them |
| BufferedWorld.SummaryOnCall | world.py:143-149 | the n-th message triggers a summary exactly when n ≥ 20 and n is a multiple of 10 |
| BufferedWorld.Find | world.py:207 | `str.find`: -1 exactly when absent, otherwise the first occurrence |
| BufferedWorld.RFind | world.py:208 | `str.rfind`: -1 exactly when absent, otherwise the last occurrence |
| BufferedWorld.JsonCandidate | world.py:206-211 | a candidate exists exactly when both braces occur |
| BufferedWorld.JsonObject | world.py:212 | nothing decodes from the empty string |
| BufferedWorld.ParseLlmResponse | world.py:203-228 | no braces or an undecodable candidate give the raw reply with "User interaction with the world" |
| BufferedWorld.ParseEmbeddedObject | world.py:206-216 | an object embedded in text yields its fields, the raw reply and "Interaction occurred" standing in for missing ones |
| BufferedWorld.ParseReversedBraces | world.py:206-228 | when every '}' precedes every '{', the reply is taken as plain text |
| BufferedWorld.ResponseOf | world.py:115-123 | a failed narrator call gives the "state of flux" reply and "User said: …"; otherwise the parsed reply |
| BufferedWorld.ContextBlocks | world.py:179-181 | one "Context i+1" block per (document, metadata) pair of `zip`, in order |
| BufferedWorld.SearchResultsText | world.py:171-183 | no documents give the "No relevant world context found." text; documents without metadatas fail; otherwise the text starts with the header |
| BufferedWorld.LastShown | world.py:199 | the last five list elements (all when fewer), as a suffix; the list comes newest first from the store (models.py:133), and the model keeps list positions |
| BufferedWorld.InteractionLines | world.py:198-200 | one "- entity: description" line per interaction, in order |
| BufferedWorld.RecentInteractionsLines | world.py:193-201 | the formatted text reads back as one line per shown interaction |
| BufferedWorld.RecentInteractionsText | world.py:193-201 | no interactions give "No recent interactions."; otherwise the text holds a line break |
| BufferedWorld.ContextMessages | world.py:185-191 | two messages: the world prompt as system, then a user message made of the world context and recent interactions, "User Message: " and the message after a blank line, and the JSON instruction, nothing else |
| BufferedWorld.FullContext | world.py:185-191 | the same two messages with the recent interactions rendered by `RecentInteractionsText`; with no interactions the context is followed by "No recent interactions." |
| BufferedWorld.WorldPrompt | world.py:39-52 | the built-in prompt when there is no file; otherwise `strip()` of the file (`Text.StripIsSlice`: the slice after its leading whitespace, with only whitespace after it): no longer than the file, no surrounding whitespace, empty exactly when the file is blank |
| BufferedWorld.InitialWorldContext | world.py:155-169 | a missing or blank file gives the welcome text; otherwise the header and the stripped file, followed by exactly the first-interaction note |
| BufferedWorld.SummaryInput | world.py:78-89 | one message per stored interaction, "user" exactly for the player's own, then the new message as "user" |
| BufferedWorld.WorldContextFor | world.py:70-109 | the first turn uses the initial context; a failed search gives the no-context text; otherwise the formatted search results, or the no-context text when formatting them fails |
| BufferedWorld.SummaryLines | world.py:237-238 | one "- timestamp: description" line per stacked entry, in order |
| BufferedWorld.SummaryWriteLines | world.py:236-238 | the summary reads back as the header, a blank line and one line per stacked entry |
| BufferedWorld.SummaryWrite | world.py:235-248 | id "interaction_summary_" and the time, type "interaction_summary", category "player_interactions", the stack size as message count, and a text that starts with the header |
| BufferedWorld.World.constructor | world.py:13-37 | the prompt from the file (stripped) or the default, and empty buffers |
| BufferedWorld.World.LoadWorldPrompt | world.py:39-52 | the stripped file contents when the file exists, otherwise the built-in prompt |
| BufferedWorld.World.SummarizeAndRefreshStack | world.py:230-256 | the stack is cleared whether or not the write succeeds; a non-empty stack is written only when the store accepts it |
| BufferedWorld.World.BuildSummaryText | world.py:235-238 | the loop builds exactly the summary document's text |
| BufferedWorld.World.FormatSearchResults | world.py:171-183 | the loop builds exactly `SearchResultsText` |
| BufferedWorld.World.FormatRecentInteractions | world.py:193-201 | the loop builds exactly `RecentInteractionsText` |
| BufferedWorld.World.PrepareRequest | world.py:65-112 | on the first turn there is no summary or search; otherwise the summariser sees the conversation and the search uses the summary, or the message when summarising fails; the request carries the chosen context |
| BufferedWorld.World.RecordResponse | world.py:125-151 | the interaction is saved, the entry is pushed through the buffers, and a summary is written when the stack fills |
| BufferedWorld.World.ProcessUserMessage | world.py:54-153 | the whole turn: request, reply or flux fallback, saved interaction, buffer update, and the reply text returned |
| BufferedWorld.World.GetStackStatus | world.py:262-268 | stack size, the stack's entries, and "full" exactly at ten or more |
| BufferedWorld.World.GetMessageHistory | world.py:258-260 | the running buffer, in order |
| BufferedWorld.StackNeverReportedFull | world.py:148-149 | between calls the stack holds at most nine entries, so the status never reports full |
| WorldChunks.FullWindowsFrom | database_setup.py:114-117 | there are no more full windows exactly when one would run past the end; `FullWindowsCount` and `FullWindowAt` fix every window |
| WorldChunks.FullWindowsCount | database_setup.py:114 | as many full windows as `range(i, n - window + 1, step)` has starts: (n - i - window) / step + 1 |
| WorldChunks.WindowChunks | database_setup.py:112-124 | a zero step is the ValueError of `range`; a negative step gives only the tail; otherwise every full window in order, without deduplication, followed by the tail exactly when it is not already one of them |
| WorldChunks.SlidingWindowChunks | database_setup.py:103-126 | text of at most `window` words is one chunk as it is; longer text gets the ValueError, the tail alone, or the full windows in order followed by the tail unless it is already there |
| WorldChunks.FullWindowAt | database_setup.py:114-116 | full window k is words [k*step, k*step+window) |
| WorldChunks.FullWindowWords | database_setup.py:114-116 | each joined full window re-splits into exactly the words of that window |
| WorldChunks.WindowChunkSource | database_setup.py:114-124 | every chunk is the tail window or a full window |
| WorldChunks.FullChunkWords | database_setup.py:114-117 | every full-window chunk has exactly `window` words |
| WorldChunks.TailChunkWords | database_setup.py:121-122 | the tail chunk reads back as the last `window` words |
| WorldChunks.TailChunk | database_setup.py:121-122 | the last window joined by spaces, opening with its first word |
| WorldChunks.WindowChunksHaveWindowWords | database_setup.py:112-124 | every chunk of a long text has exactly `window` words |
| WorldChunks.ChunksHaveWindowWords | database_setup.py:103-126 | for text longer than one window, every chunk has exactly `window` words |
| WorldChunks.FullWindowsOf120 | database_setup.py:114-117 | 120 words with window 50 / step 40 give the windows [0:50] and [40:90] |
| WorldChunks.JoinedStretchesDiffer | database_setup.py:123 | different stretches of distinct words join to different chunks |
| WorldChunks.WindowChunksOf120 | database_setup.py:112-124 | 120 distinct words give exactly [0:50], [40:90] and the tail [70:120] |
| WorldChunks.ChunksOf120Words | database_setup.py:103-126 | the same for a text of 120 distinct words |
| WorldChunks.CreateSlidingWindowChunks | database_setup.py:103-126 | the loop builds exactly `SlidingWindowChunks` |
| WorldChunks.FullWindowChunks | database_setup.py:113-117 | the `range` loop appends one joined chunk per full window, in order |
| WorldChunks.ChunkRecords | database_setup.py:85-99 | one record per chunk, with its id, index, total and word count |
| WorldChunks.ChunkIdsDistinct | database_setup.py:86 | no two chunks get the same id |
| WorldChunks.ChunkId | database_setup.py:86 | every id starts with "world_context_chunk_" |
| WorldChunks.ChunkIdValue | database_setup.py:86 | the digits after the prefix read back as the chunk index |
| WorldChunks.LoreText | database_setup.py:70-79 | the default text when the file is missing or empty; otherwise `strip()` of the file (`Text.StripIsSlice`: the slice after its leading whitespace, with only whitespace after it): no longer than the file, no surrounding whitespace, empty exactly when it is blank |
| WorldChunks.InitializeWorldContext | database_setup.py:68-101 | writes exactly the records of the chunks of the stripped file, or of the default text when the file is absent or empty |
| WorldChunks.WriteChunkRecords | database_setup.py:85-99 | the `enumerate` loop writes exactly one record per chunk, chunk i under index i |
| WorldChunks.LoreRecordsCountFullWindows | database_setup.py:82-92 | for lore longer than one window, every stored record counts 50 words |
| GeminiLlm.Getenv | llm.py:25-27 | `os.getenv`: present exactly when the variable is set, with its value |
| GeminiLlm.FirstTruthy | llm.py:24-28 | the first truthy candidate, which is non-empty; none exactly when no candidate is truthy |
| GeminiLlm.ResolveGoogleKey | llm.py:20-34 | the key is non-empty; ValueError exactly when no candidate is truthy |
| GeminiLlm.ResolveGoogleKeyOrder | llm.py:20-28 | the argument wins, then GOOGLE_API_KEY, then GOOGLE_API, then GEMINI_API_KEY |
| GeminiLlm.GeminiFormat | llm.py:119 | the prompt has no surrounding whitespace and is empty exactly when the built text is blank; it is a prefix of the built text, and everything after it is whitespace |
| GeminiLlm.GeminiTextStart | llm.py:106-117 | the built text never opens with whitespace: every entry starts with its role prefix |
| GeminiLlm.ConvertMessagesToGeminiFormat | llm.py:94-119 | the loop builds exactly the stripped text of `GeminiFormat` |
| GeminiLlm.RolePrefixIgnoresCase | llm.py:109 | a role and its lower-cased form get the same prefix |
| GeminiLlm.RolePrefixCases | llm.py:112-117 | only user, assistant and system roles contribute, with prefixes "User: ", "Assistant: ", "System: " |
| GeminiLlm.RolePrefix | llm.py:109-117 | a missing role has no prefix, and the only prefixes are "User: ", "Assistant: " and "System: " |
| GeminiLlm.Entries | llm.py:108-117 | at most one entry per message |
| GeminiLlm.EntriesAppend | llm.py:108-117 | entries of concatenated message lists are concatenated in order |
| GeminiLlm.EntriesOfOne | llm.py:112-117 | an unrecognised role contributes nothing; a recognised one its prefix and content |
| GeminiLlm.GeminiTextTerminated | llm.py:106-117 | the built text is the entries, each terminated by a newline |
| GeminiLlm.GeminiTextLines | llm.py:106-117 | with newline-free contents, the built text splits back into the entries |
| LlmClient.ResolveProvider | src/utils/llm.py:15-72 | the provider chosen has a key; unknown providers and keyless configurations raise ValueError |
| LlmClient.KeyOf | src/utils/llm.py:15-72 | only the three known providers have a key |
| LlmClient.ModelFor | src/utils/llm.py:12 | `LLM_MODELS.get`: a model exactly when the provider is in the table, and then that entry |
| LlmClient.Preference | src/utils/llm.py:17-69 | each provider's fallback order starts with itself and covers all three |
| LlmClient.FirstKeyed | src/utils/llm.py:17-69 | the first provider in the order that has a key, if any |
| LlmClient.ResolveProviderIsFirstKeyed | src/utils/llm.py:15-72 | a known provider resolves to the first keyed one in its fallback order |
| LlmClient.ResolveKeepsKeyedProvider | src/utils/llm.py:17-53 | a known provider with a key is kept |
| LlmClient.ResolveFailsOnlyWithoutKeys | src/utils/llm.py:17-69 | a known provider fails exactly when no provider has a key |
| LlmClient.Client.constructor | src/utils/llm.py:10-12 | the provider asked for or the default, with that provider's model |
| LlmClient.Client.SetupClient | src/utils/llm.py:15-72 | on success provider and model switch to the resolved provider; on failure ValueError |
| LlmClient.NewClient | src/utils/llm.py:10-13 | construction followed by setup, raising what setup raises |
| LlmClient.PromptTurn | src/utils/llm.py:99-100 | an empty prompt adds no turn, otherwise one user turn |
| LlmClient.AnthropicMessages | src/utils/llm.py:111-117 | the history, then the prompt as a user turn when non-empty |
| LlmClient.OpenAiMessages | src/utils/llm.py:91-100 | a truthy system prompt goes first, then the Anthropic-style list |
| LlmClient.AnthropicMaxTokens | src/utils/llm.py:121 | `max_tokens or 1000`: a non-zero limit is kept, otherwise 1000 |
| LlmClient.UserTurns | src/utils/llm.py:133-138 | a message without a role, or a user message without content, raises KeyError |
| LlmClient.UserIndicesExact | src/utils/llm.py:133-138 | the user positions `UserTurnsInOrder` reads from are exactly the messages with role "user", in strictly increasing order |
| LlmClient.UserTurnsFailIffUnreadable | src/utils/llm.py:133-138 | the history fails exactly when some message is unreadable; otherwise there is one turn per user message |
| LlmClient.UserTurnsInOrder | src/utils/llm.py:133-138 | the turns sent are the user messages' contents, in order |
| LlmClient.UserTurnsKeepsError | src/utils/llm.py:133-138 | once a prefix of the history fails, the whole history fails the same way |
| LlmClient.GeminiPrompt | src/utils/llm.py:146-148 | the system prompt and a blank line go before the prompt when truthy |
| LlmClient.GeminiRequest | src/utils/llm.py:128-156 | with no history one single generation of the system-prefixed prompt; with history it fails exactly when reading the history fails, and otherwise the chat turns are the history's user turns followed by the prompt, or "Continue" for an empty prompt |
| LlmClient.Generate | src/utils/llm.py:74-88 | each known provider gets its own request, Gemini exactly `GeminiRequest`; an unknown provider gets none |
| LlmClient.SendHistory | src/utils/llm.py:133-138 | the loop sends exactly `UserTurns` |
| TerminalLayout.ContentWidth | src/utils/terminal_ui.py:35-37 | at most 76, and the box with its frame fits the terminal |
| TerminalLayout.Repeat | src/utils/terminal_ui.py:27 | `char * n`: n copies of the character |
| TerminalLayout.CenterPadding | src/utils/terminal_ui.py:24-26 | the padding is never negative; when there is room the padded text fits and is at most one short |
| TerminalLayout.CenteredLine | src/utils/terminal_ui.py:22-27 | the text sits between two equal fills and a one-character fill fills every other position; the line is at most one short of the width; text too wide stays as it is |
| TerminalLayout.FlattenAppend | src/utils/terminal_ui.py:39-56 | flattening concatenated line groups concatenates the flattenings |
| TerminalLayout.WrapFrom | src/utils/terminal_ui.py:46-56 | lines already emitted stay in front, unchanged |
| TerminalLayout.WrapKeepsWords | src/utils/terminal_ui.py:46-56 | wrapping neither loses, reorders nor duplicates words |
| TerminalLayout.WrapGroupsShape | src/utils/terminal_ui.py:46-56 | every wrapped line is non-empty and fits, unless it is a single word |
| TerminalLayout.ReadBackGroups | src/utils/terminal_ui.py:50 | each joined line splits back into its words |
| TerminalLayout.WrappedLines | src/utils/terminal_ui.py:46-56 | a blank paragraph wraps to no lines |
| TerminalLayout.WrappedLinesFacts | src/utils/terminal_ui.py:46-56 | the words of the wrapped lines are the paragraph's words; each line is non-empty and fits unless it is one long word |
| TerminalLayout.ParagraphLines | src/utils/terminal_ui.py:42-56 | a short paragraph is kept as it is, a long one is wrapped |
| TerminalLayout.BoxLinesFit | src/utils/terminal_ui.py:41-56 | every box line fits the content width unless it is one long word |
| TerminalLayout.LinesOf | src/utils/terminal_ui.py:41-56 | when every paragraph fits the width, the lines are the paragraphs |
| TerminalLayout.BoxLines | src/utils/terminal_ui.py:40-56 | when every line of the text fits the width, the box shows it line for line |
| TerminalLayout.WrapParagraph | src/utils/terminal_ui.py:46-56 | the loop builds exactly `WrappedLines` |
| TerminalLayout.WrapText | src/utils/terminal_ui.py:40-56 | the loop builds exactly the box lines |
| TerminalLayout.MaxLen | src/utils/terminal_ui.py:59 | the longest line's length, 0 for no lines |
| TerminalLayout.BoxWidth | src/utils/terminal_ui.py:59-60 | at least 60, room for every line and the title, and equal to one of those bounds |
| TerminalLayout.PadRight | src/utils/terminal_ui.py:73 | `ljust`: the text followed by spaces up to the width; long text unchanged |
| TerminalLayout.CenterLeft | src/utils/terminal_ui.py:67 | the left margin of `center`: both margins fill the width and differ by at most one |
| TerminalLayout.Center | src/utils/terminal_ui.py:67 | `center`: exactly the width, the text at the left margin `CenterLeft` and spaces everywhere else; long text unchanged |
| TerminalLayout.BoxRow | src/utils/terminal_ui.py:72-74 | exactly the box width when the line fits; the line follows the left border and the right border closes the row |
| TerminalLayout.Rows | src/utils/terminal_ui.py:62-77 | one row per line plus the two borders, and two more rows with a title |
| TerminalLayout.RowsPlaceLines | src/utils/terminal_ui.py:62-74 | line k is the row after the top border, or after the top border, title and rule |
| TerminalLayout.BoxRows | src/utils/terminal_ui.py:33-77 | one row per box line plus the borders, and two more with a title |
| TerminalLayout.RowsAreRectangular | src/utils/terminal_ui.py:62-77 | when everything fits, every printed row has the box width |
| TerminalLayout.BoxIsRectangular | src/utils/terminal_ui.py:33-77 | every row of a box, borders, title and content, has the same width |

## Left out

- SQLite, ChromaDB and the vendor SDKs (OpenAI, Anthropic, Gemini) are not modelled. Their replies are parameters: generated text, query replies, and whether a write succeeded. What is written is recorded in the model's state.
- `json.loads` is a parameter `decode` from text to an optional string-to-string map. `json.dumps` of the summariser's input is left out; the model records the messages instead.
- BufferedWorld.ParseLlmResponse: JSON values that are not strings are not modelled. The decoded object maps keys to strings only.
- Timestamps (`datetime.now`) and the store's ids come in as parameters. The "current" timestamp of episodic memories is kept as written.
- Text.Lower and Text.TitleCase: only ASCII letters change case. Python's Unicode case mapping is not modelled.
- TerminalLayout.ContentWidth: `int(width * 0.8)` is modelled as `width * 4 / 5` in integers, which floors the same way for non-negative widths.
- A window size of 0 is not modelled. The chunkers require a window of at least one word, which every caller passes.
- Saving an interaction row in `process_user_message` is assumed to succeed. The source does not catch a failure there.
- `get_initial_welcome_message` (world.py) is left out; it is an LLM call on a fixed prompt.
- Generating the opening scene, the narration and the plot extension is left out. Their prompts' fixed texts are kept only where the model states something about their structure.
- DungeonMasterAgent.CompletedPlotPoints returns the stored "Completed N plot points" string, as the source does, despite its declared list type.
- Sampling temperature (a float) is not modelled.
- `chat_call`, `start_chat`, `llm_call` and `get_model_info` in llm.py only forward to the SDK and are left out.
- The terminal UI's printing, `clear_screen`, `print_separator`, the screens and the text animation are not modelled. The box is modelled as the list of rows it prints.
- The prompt files and the lore file are parameters (their contents, or None when missing). The default lore text of `initialize_world_context` is the parameter `defaultText`.
- DungeonMasterAgent.DungeonMaster.constructor: assumes that constructing the LLM client succeeds. The source raises ValueError there (src/agents/dungeon_master/dm.py:12) when no provider has a key; that failure is `LlmClient.NewClient`'s error case, and a Dafny constructor cannot fail.
- BufferedWorld.World.constructor: assumes that `LLM()` succeeds (world.py:28). Its key failure is modelled by `GeminiLlm.ResolveGoogleKey`, and a Dafny constructor cannot fail.
- EpisodicWorld.World.constructor: errors of `_setup_databases` and `_initialize_game_state` are not modelled; only the lore loading, whose errors the source swallows, is.
- LlmClient.SendHistory: when a message raises KeyError, the turns already sent to the chat are not part of the result; the model returns only the error.
- A message whose role or content is an explicit None is treated like one without that key. In Python, `get` returns the None and formatting it gives "None" (or `.title()` raises). Callers in this program always pass strings.
- EpisodicWorld.Gate: the optional `metadata` argument is not modelled. No caller passes it, so the stored metadata is always the four fixed keys.
