/** The newer `World` (src/world/world.py): an episodic-memory gate that
    commits one conversation memory every `EpisodicMemoryThreshold`
    non-empty calls, the sliding-window chunker for the initial lore, the
    message-to-narrative formatter, the rendering of vector-store query
    replies, and the single game-state row the dungeon master writes to.

    The vector store and the SQLite row are external: a query reply is a
    parameter, a write is an append to `memories` (or a parameter saying it
    raised), and the game-state row is the field `gameState`. */
module EpisodicWorld {
  import opened Common
  import opened Text

  const EpisodicMemoryThreshold: nat := 20
  const NoEpisodicMemory := "No relevant episodic memory found"
  const LoreWindow: nat := 50
  const LoreOverlap: nat := 10

  // ---------------------------------------------------------------- store rows

  /** The `world_state` JSON of the game-state row. */
  datatype WorldStateData =
    | Initialized
    | PlotSnapshot(plotPoints: seq<string>, currentIndex: nat, lastAction: Option<string>, completedPlots: Option<string>)

  /** The `session_data` JSON of the game-state row. */
  datatype SessionData = SessionData(sessionId: string, started: bool, interactionCount: int, currentLocationId: Option<int>)

  datatype GameState = GameState(plotProgress: string, sessionData: SessionData, worldState: WorldStateData)

  const DefaultGameState := GameState("initial", SessionData("1", true, 0, None), Initialized)

  /** Metadata stored beside an episodic memory. */
  datatype MemoryMeta =
    | ConversationMeta(messageCount: nat, interactionCount: nat, timestamp: string)
    | WorldContextMeta(chunkIndex: nat, totalChunks: nat, source: string)

  datatype Memory = Memory(text: string, meta: MemoryMeta)

  // ---------------------------------------------------------------- chunker

  /** The windows the `range(0, n, step)` loop produces from word `i` on,
      stopping after the first window that reaches the last word. */
  function WindowsFrom(words: seq<string>, window: nat, step: nat, i: nat): (ws: seq<seq<string>>)
    requires window >= 1 && step >= 1 && i < |words|
    ensures |ws| >= 1
    decreases |words| - i
  {
    var chunk := words[i..Min(i + window, |words|)];
    if i + window >= |words| || i + step >= |words| then [chunk]
    else [chunk] + WindowsFrom(words, window, step, i + step)
  }

  /** `_create_context_chunks` on the words of the text: a zero step makes
      `range` raise, a negative step gives an empty range. */
  function ChunkWords(words: seq<string>, window: nat, overlap: int): (r: Result<seq<seq<string>>>)
    requires window >= 1
    ensures r.Err? <==> window == overlap
    ensures r.Err? ==> r.error == ValueError
    ensures overlap > window || (overlap != window && words == []) ==> r == Ok([])
    ensures overlap < window && words != [] ==> r.Ok? && r.value != [] && r.value[0] == words[..Min(window, |words|)]
  {
    var step := window - overlap;
    if step == 0 then Err(ValueError)
    else if step < 0 || words == [] then Ok([])
    else Ok(WindowsFrom(words, window, step, 0))
  }

  /** `_create_context_chunks(text, window_size, overlap)`. */
  function CreateContextChunks(text: string, window: nat, overlap: int): (r: Result<seq<string>>)
    requires window >= 1
    ensures AllSpace(text) && window != overlap ==> r == Ok([])
    ensures window == overlap ==> r == Err(ValueError)
    ensures window != overlap ==> r.Ok?
  {
    match ChunkWords(Words(text), window, overlap)
    case Ok(cs) => Ok(JoinWords(cs))
    case Err(e) => Err(e)
  }

  /** Window k (counted from the window at word i) starts at word i + k*step
      and holds the next `window` words, clipped to the text; `ChunkWords`
      uses i = 0 and step = window - overlap. */
  lemma {:induction false} WindowAt(words: seq<string>, window: nat, step: nat, i: nat, k: nat)
    requires window >= 1 && step >= 1 && i < |words|
    requires k < |WindowsFrom(words, window, step, i)|
    ensures i + k * step < |words|
    ensures WindowsFrom(words, window, step, i)[k] == words[i + k * step..Min(i + k * step + window, |words|)]
    decreases |words| - i
  {
    if k == 0 {
      assert k * step == 0;
    } else {
      WindowsFromLater(words, window, step, i, k);
      WindowAt(words, window, step, i + step, k - 1);
      StepAhead(i, step, k);
    }
  }

  /** Window k from word i is window k - 1 from word i + step. */
  lemma WindowsFromLater(words: seq<string>, window: nat, step: nat, i: nat, k: nat)
    requires window >= 1 && step >= 1 && i < |words|
    requires 1 <= k < |WindowsFrom(words, window, step, i)|
    ensures i + step < |words|
    ensures k - 1 < |WindowsFrom(words, window, step, i + step)|
    ensures WindowsFrom(words, window, step, i)[k] == WindowsFrom(words, window, step, i + step)[k - 1]
  {
  }

  /** Starting one step later and taking one window fewer lands on the same
      word. */
  lemma StepAhead(i: nat, step: nat, k: nat)
    requires k >= 1
    ensures i + step + (k - 1) * step == i + k * step
  {
    assert k * step == (k - 1) * step + step;
  }

  /** The word at which window k (counted from word i) starts. */
  function WindowStart(i: nat, step: nat, k: nat): nat {
    i + k * step
  }

  /** The loop goes on past a window only while that window stops short of
      the last word and `range` has another start; the last window is the
      first one at which either runs out. */
  lemma {:induction false} WindowsStopAtEnd(words: seq<string>, window: nat, step: nat, i: nat)
    requires window >= 1 && step >= 1 && i < |words|
    ensures var ws := WindowsFrom(words, window, step, i);
      forall k :: 0 <= k < |ws| - 1 ==>
        WindowStart(i, step, k) + window < |words| && WindowStart(i, step, k) + step < |words|
    ensures var ws := WindowsFrom(words, window, step, i); var last := WindowStart(i, step, |ws| - 1);
      last + window >= |words| || last + step >= |words|
    decreases |words| - i
  {
    var ws := WindowsFrom(words, window, step, i);
    if i + window >= |words| || i + step >= |words| {
      assert |ws| == 1 && WindowStart(i, step, 0) == i;
    } else {
      var rest := WindowsFrom(words, window, step, i + step);
      assert |ws| == |rest| + 1;
      WindowsStopAtEnd(words, window, step, i + step);
      forall k | 1 <= k < |ws|
        ensures WindowStart(i, step, k) == WindowStart(i + step, step, k - 1)
      {
        StepAhead(i, step, k);
      }
      assert WindowStart(i, step, 0) == i;
    }
  }

  /** With a non-negative overlap the last window ends at the last word, and
      it is the first window that does. */
  lemma {:induction false} LastWindowReachesEnd(words: seq<string>, window: nat, step: nat, i: nat)
    requires window >= 1 && 1 <= step <= window && i < |words|
    ensures var ws := WindowsFrom(words, window, step, i);
      1 <= |ws[|ws| - 1]| <= |words| - i && ws[|ws| - 1] == words[|words| - |ws[|ws| - 1]|..]
    ensures var ws := WindowsFrom(words, window, step, i);
      forall k :: 0 <= k < |ws| - 1 ==> WindowStart(i, step, k) + window < |words|
    decreases |words| - i
  {
    WindowsStopAtEnd(words, window, step, i);
    if !(i + window >= |words| || i + step >= |words|) {
      LastWindowReachesEnd(words, window, step, i + step);
    }
  }

  /** With a non-negative overlap the last chunk is non-empty and ends at the
      last word; every earlier chunk is a full window that stops short of it. */
  lemma ContextLastChunkEnds(words: seq<string>, window: nat, overlap: nat)
    requires window >= 1 && overlap < window && words != []
    ensures ChunkWords(words, window, overlap).Ok?
    ensures var cs := ChunkWords(words, window, overlap).value;
      && cs != []
      && 1 <= |cs[|cs| - 1]| <= |words|
      && cs[|cs| - 1] == words[|words| - |cs[|cs| - 1]|..]
    ensures var cs := ChunkWords(words, window, overlap).value;
      forall k :: 0 <= k < |cs| - 1 ==>
        |cs[k]| == window && WindowStart(0, window - overlap, k) + window < |words|
  {
    var step := window - overlap;
    LastWindowReachesEnd(words, window, step, 0);
    var cs := WindowsFrom(words, window, step, 0);
    forall k | 0 <= k < |cs| - 1 ensures |cs[k]| == window {
      WindowAt(words, window, step, 0, k);
      assert WindowStart(0, step, k) == 0 + k * step;
    }
  }

  /** The 120-word example: windows [0:50], [40:90], [80:120]. */
  lemma ContextChunksOf120Words(words: seq<string>)
    requires |words| == 120
    ensures ChunkWords(words, 50, 10) == Ok([words[0..50], words[40..90], words[80..120]])
  {
    var w2 := WindowsFrom(words, 50, 40, 80);
    assert Min(80 + 50, 120) == 120;
    assert w2 == [words[80..120]];
    var w1 := WindowsFrom(words, 50, 40, 40);
    assert Min(40 + 50, 120) == 90;
    assert w1 == [words[40..90]] + w2;
    var w0 := WindowsFrom(words, 50, 40, 0);
    assert Min(0 + 50, 120) == 50;
    assert w0 == [words[0..50]] + w1;
    assert ChunkWords(words, 50, 10) == Ok(w0);
    assert [words[0..50]] + ([words[40..90]] + [words[80..120]]) == [words[0..50], words[40..90], words[80..120]];
  }

  /** The initial lore as stored by the constructor: one memory per chunk with
      its index and the chunk total. */
  function LoreMemories(chunks: seq<string>): (ms: seq<Memory>)
    ensures |ms| == |chunks|
    ensures forall i :: 0 <= i < |ms| ==>
      ms[i].text == chunks[i] && ms[i].meta == WorldContextMeta(i, |chunks|, "initial_context")
  {
    seq(|chunks|, i requires 0 <= i < |chunks| => Memory(chunks[i], WorldContextMeta(i, |chunks|, "initial_context")))
  }

  // ---------------------------------------------------------------- narrative

  /** The speaker a message is attributed to in a narrative. */
  function Speaker(role: Option<string>): (s: string)
    ensures role == Some("user") ==> s == "Player"
    ensures role == Some("assistant") ==> s == "Dungeon Master"
    ensures role == None ==> s == "Unknown"
    ensures role.Some? && role.value != "user" && role.value != "assistant" ==> s == TitleCase(role.value)
  {
    var r := role.GetOr("unknown");
    if r == "user" then "Player"
    else if r == "assistant" then "Dungeon Master"
    else TitleCase(r)
  }

  /** One message of a narrative: its speaker, ": ", then its content (a
      missing content reads as empty). */
  function NarrativePart(m: Message): (part: string)
    ensures var sp := Speaker(m.role) + ": ";
      |part| >= |sp| && part[..|sp|] == sp && part[|sp|..] == m.content.GetOr("")
  {
    Speaker(m.role) + ": " + m.content.GetOr("")
  }

  function NarrativeParts(messages: seq<Message>): (parts: seq<string>)
    ensures |parts| == |messages|
    ensures forall k :: 0 <= k < |parts| ==> parts[k] == NarrativePart(messages[k])
  {
    seq(|messages|, k requires 0 <= k < |messages| => NarrativePart(messages[k]))
  }

  /** `_messages_to_narrative`: one part per message, joined with " | ". */
  function MessagesToNarrative(messages: seq<Message>): (r: string)
    ensures messages == [] ==> r == ""
    ensures |messages| == 1 ==> r == NarrativePart(messages[0])
  {
    Join(" | ", NarrativeParts(messages))
  }

  /** Parts appear in message order: one more message appends one part. */
  lemma NarrativeAppend(messages: seq<Message>, m: Message)
    requires messages != []
    ensures MessagesToNarrative(messages + [m]) == MessagesToNarrative(messages) + " | " + NarrativePart(m)
  {
    assert NarrativeParts(messages + [m]) == NarrativeParts(messages) + [NarrativePart(m)];
    JoinAppend(" | ", NarrativeParts(messages), NarrativePart(m));
  }

  // ---------------------------------------------------------------- gate

  /** What one call of the gate does to the counter and the store. */
  datatype GateEffect = GateEffect(count: nat, written: seq<Memory>, outcome: Outcome)

  /** `add_episodic_memory_from_messages` on the counter, given whether the
      store write succeeds. */
  function Gate(count: nat, messages: seq<Message>, writeOk: bool): (e: GateEffect)
    ensures messages == [] ==> e == GateEffect(count, [], Done)
    ensures messages != [] ==> (e.written != [] <==> count + 1 >= EpisodicMemoryThreshold && writeOk)
    ensures e.written != [] ==> e.count == 0
    ensures e.written != [] ==>
      e.written == [Memory(MessagesToNarrative(messages), ConversationMeta(|messages|, count + 1, "current"))]
    ensures e.written == [] && messages != [] ==> e.count == count + 1
    ensures e.outcome.Raised? <==> messages != [] && count + 1 >= EpisodicMemoryThreshold && !writeOk
  {
    if messages == [] then GateEffect(count, [], Done)
    else if count + 1 < EpisodicMemoryThreshold then GateEffect(count + 1, [], Done)
    else if writeOk then
      GateEffect(0, [Memory(MessagesToNarrative(messages), ConversationMeta(|messages|, count + 1, "current"))], Done)
    else GateEffect(count + 1, [], Raised(StoreFailed))
  }

  /** Between successful calls the counter stays below the threshold. */
  lemma GateCounterBounded(count: nat, messages: seq<Message>, writeOk: bool)
    requires count < EpisodicMemoryThreshold
    requires Gate(count, messages, writeOk).outcome == Done
    ensures Gate(count, messages, writeOk).count < EpisodicMemoryThreshold
  {
  }

  /** `n` successful non-empty calls from counter `count`: the final counter and
      the number of memories written. */
  function GateRun(count: nat, n: nat): (nat, nat)
    requires count < EpisodicMemoryThreshold
    ensures GateRun(count, n).0 < EpisodicMemoryThreshold
    decreases n
  {
    if n == 0 then (count, 0)
    else
      var e := Gate(count, [Msg("user", "")], true);
      var rest := GateRun(e.count, n - 1);
      (rest.0, rest.1 + |e.written|)
  }

  /** From a fresh counter, a memory is committed on every 20th call and the
      counter is the number of calls since the last commit. */
  lemma {:induction false} GateCommitsEveryTwentieth(count: nat, n: nat)
    requires count < EpisodicMemoryThreshold
    ensures GateRun(count, n) == ((count + n) % 20, (count + n) / 20)
    decreases n
  {
    if n > 0 {
      var e := Gate(count, [Msg("user", "")], true);
      GateCommitsEveryTwentieth(e.count, n - 1);
      if count + 1 < 20 {
        assert e.count == count + 1 && e.written == [];
      } else {
        assert e.count == 0 && |e.written| == 1;
        assert count + n == 20 + (n - 1);
      }
    }
  }

  // ---------------------------------------------------------------- queries

  /** The first query's lists, as `get_world_context` and `get_episodic_context`
      pick them out of a reply (None when there are no documents). */
  function FirstDocuments(reply: QueryReply): (r: Option<(seq<string>, seq<Meta>)>)
    ensures r.None? <==> reply.documents.None? || reply.documents.value == []
    ensures r.Some? ==> r.value.0 == reply.documents.value[0]
    ensures r.Some? && (reply.metadatas.None? || reply.metadatas.value == []) ==> r.value.1 == []
    ensures r.Some? && reply.metadatas.Some? && reply.metadatas.value != [] ==> r.value.1 == reply.metadatas.value[0]
  {
    if reply.documents.Some? && reply.documents.value != [] then
      var metas := if reply.metadatas.Some? && reply.metadatas.value != [] then reply.metadatas.value[0] else [];
      Some((reply.documents.value[0], metas))
    else None
  }

  /** `get_world_context`: the first query's documents and metadatas, or two
      empty lists. */
  function WorldContext(reply: QueryReply): (r: (seq<string>, seq<Meta>))
    ensures reply.documents.None? || reply.documents == Some([]) ==> r == ([], [])
    ensures reply.documents.Some? && reply.documents.value != [] ==> r.0 == reply.documents.value[0]
    ensures reply.metadatas.Some? && reply.metadatas.value != [] && reply.documents.Some? && reply.documents.value != []
      ==> r.1 == reply.metadatas.value[0]
  {
    match FirstDocuments(reply)
    case Some(p) => p
    case None => ([], [])
  }

  function MemoryLine(k: nat, doc: string): string {
    "Memory " + Decimal(k + 1) + ": " + doc
  }

  function MemoryLines(docs: seq<string>): (lines: seq<string>)
    ensures |lines| == |docs|
    ensures forall k :: 0 <= k < |docs| ==> lines[k] == MemoryLine(k, docs[k])
  {
    seq(|docs|, k requires 0 <= k < |docs| => MemoryLine(k, docs[k]))
  }

  /** `get_episodic_context`: "Memory k: doc" for the first query's documents,
      numbered from 1 and joined with " | "; the fixed sentinel when the reply
      has no document lists. */
  function EpisodicContext(reply: QueryReply): (r: string)
    ensures reply.documents.None? || reply.documents == Some([]) ==> r == NoEpisodicMemory
    ensures reply.documents.Some? && reply.documents.value != [] ==>
      r == Join(" | ", MemoryLines(reply.documents.value[0]))
    ensures reply.documents.Some? && reply.documents.value != [] && reply.documents.value[0] == [] ==> r == ""
  {
    match FirstDocuments(reply)
    case Some(p) => Join(" | ", MemoryLines(p.0))
    case None => NoEpisodicMemory
  }

  /** A reply with at least one document never renders as the sentinel, and it
      opens with the first document's "Memory 1: " line. */
  lemma EpisodicContextOfDocuments(reply: QueryReply)
    requires reply.documents.Some? && reply.documents.value != [] && reply.documents.value[0] != []
    ensures EpisodicContext(reply) != NoEpisodicMemory
    ensures var first := MemoryLine(0, reply.documents.value[0][0]);
      |EpisodicContext(reply)| >= |first| && EpisodicContext(reply)[..|first|] == first
  {
    var docs := reply.documents.value[0];
    var lines := MemoryLines(docs);
    var r := EpisodicContext(reply);
    assert r == Join(" | ", lines);
    assert r[..7] == lines[0][..7] == "Memory ";
    assert NoEpisodicMemory[..7] == "No rele";
  }

  // ---------------------------------------------------------------- the world object

  class World {
    /** Number of non-empty gate calls since the last commit. */
    var interactionCount: nat
    /** The episodic memories this world has written to the store, in order. */
    var memories: seq<Memory>
    /** The latest game-state row (None when the table holds no row). */
    var gameState: Option<GameState>
    /** Every message list the gate has been handed, in call order. */
    ghost var gateLog: seq<seq<Message>>

    /** `__init__`: store the chunked lore (when the context file could be
        read), create the default game-state row when none exists, start the
        counter at 0. The store accepts the first `loreAccepted` lore writes;
        the write after them raises, and `__init__` swallows the error with
        the chunks before it already stored. */
    constructor(contextFile: Option<string>, loreAccepted: nat, existingState: Option<GameState>)
      ensures interactionCount == 0 && gateLog == []
      ensures contextFile.None? ==> memories == []
      ensures contextFile.Some? ==>
        var lore := LoreMemories(CreateContextChunks(Strip(contextFile.value), LoreWindow, LoreOverlap).value);
        memories == lore[..Min(loreAccepted, |lore|)]
      ensures gameState == if existingState.None? then Some(DefaultGameState) else existingState
    {
      interactionCount := 0;
      gateLog := [];
      match contextFile {
        case None =>
          memories := [];
        case Some(text) =>
          var chunks := CreateContextChunks(Strip(text), LoreWindow, LoreOverlap);
          var stored := World.StoreLore(chunks.value, loreAccepted);
          memories := stored;
      }
      gameState := if existingState.None? then Some(DefaultGameState) else existingState;
    }

    /** The `for i, chunk in enumerate(chunks)` loop of
        `_initialize_world_context`: each chunk is written with its index and
        the chunk total, until the store has accepted `accepted` writes and
        the next one raises. */
    static method StoreLore(chunks: seq<string>, accepted: nat) returns (stored: seq<Memory>)
      ensures stored == LoreMemories(chunks)[..Min(accepted, |chunks|)]
      ensures |stored| == Min(accepted, |chunks|)
    {
      stored := [];
      var i := 0;
      while i < |chunks|
        invariant 0 <= i <= |chunks| && i <= accepted
        invariant stored == LoreMemories(chunks)[..i]
      {
        if i == accepted {
          return;
        }
        var metadata := WorldContextMeta(i, |chunks|, "initial_context");
        stored := stored + [Memory(chunks[i], metadata)];
        i := i + 1;
      }
    }

    /** `add_episodic_memory_from_messages`: count a non-empty call, and once
        the count reaches the threshold write one conversation memory and reset
        the count. The reset follows the write, so a failed write leaves the
        count where it was raised to. */
    method AddEpisodicMemoryFromMessages(messages: seq<Message>, writeOk: bool) returns (outcome: Outcome)
      modifies this
      ensures var e := Gate(old(interactionCount), messages, writeOk);
        && interactionCount == e.count
        && memories == old(memories) + e.written
        && outcome == e.outcome
      ensures gameState == old(gameState)
      ensures gateLog == old(gateLog) + [messages]
    {
      gateLog := gateLog + [messages];
      outcome := Done;
      if messages == [] {
        return;
      }
      interactionCount := interactionCount + 1;
      if interactionCount >= EpisodicMemoryThreshold {
        var narrative := MessagesToNarrative(messages);
        var meta := ConversationMeta(|messages|, interactionCount, "current");
        if !writeOk {
          outcome := Raised(StoreFailed);
          return;
        }
        memories := memories + [Memory(narrative, meta)];
        interactionCount := 0;
      }
    }

    /** `update_world_state(plot_progress=..., world_state=...)`: overwrite the
        row's fields, or do nothing when there is no row. */
    method UpdateWorldState(plotProgress: string, worldState: WorldStateData)
      modifies this
      ensures gameState == UpdatedState(old(gameState), plotProgress, worldState)
      ensures interactionCount == old(interactionCount) && memories == old(memories) && gateLog == old(gateLog)
    {
      if gameState.None? {
        return;
      }
      gameState := Some(gameState.value.(plotProgress := plotProgress, worldState := worldState));
    }
  }

  function UpdatedState(row: Option<GameState>, plotProgress: string, worldState: WorldStateData): (r: Option<GameState>)
    ensures r.None? <==> row.None?
    ensures r.Some? ==> (
      && r.value.plotProgress == plotProgress && r.value.worldState == worldState
      && r.value.sessionData == row.value.sessionData)
  {
    match row
    case None => None
    case Some(g) => Some(g.(plotProgress := plotProgress, worldState := worldState))
  }
}
