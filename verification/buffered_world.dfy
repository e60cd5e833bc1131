/** The older top-level `World` (world.py): a running buffer of the last ten
    exchanges whose evictions fill an overflow stack, the stack summarised into
    the world-context store and cleared in the call that fills it, the
    extraction of a JSON object from the generator's text, and the context
    formatters used to build the generator's prompt.

    The generator's replies, the store's replies, the interactions the database
    returns, file contents, timestamps and `json.loads` are parameters; the
    interactions saved and the summaries written are fields of the world. */
module BufferedWorld {
  import opened Common
  import opened Text

  const BufferSize: nat := 10
  const RecentShown: nat := 5
  const FluxText := "The world seems to be in a state of flux. Try again."
  const NoWorldContext := "No relevant world context found."
  const NoRecentInteractions := "No recent interactions."
  const NoJsonDescription := "User interaction with the world"
  const MissingDescription := "Interaction occurred"
  const Welcome := "Welcome to a mysterious world. This is your first interaction here."
  const SummaryHeader := "Summary of recent interactions:\n\n"
  const SearchHeader := "Relevant world context:\n\n"
  const JsonInstruction := "\n\nPlease respond with a JSON object containing 'response_text' and 'interaction_description'."
  const FirstInteractionNote := "\n\nThis is your first interaction with this world. Use this context to establish the setting and atmosphere."

  const DefaultWorldPrompt :=
    "You are the narrator and controller of a supernatural world. \n"
    + "            You respond to players in character, describing the world around them and their interactions with it.\n"
    + "            Always respond with a JSON object containing:\n"
    + "            - \"response_text\": Your narrative response to the player\n"
    + "            - \"interaction_description\": A brief description of what happened for the database\n"
    + "            \n"
    + "            Keep responses engaging and atmospheric, drawing from the world context provided."

  /** One exchange kept in the running buffer; the timestamp is already
      rendered as the summary prints it. */
  datatype Entry = Entry(timestamp: string, userMessage: string, worldResponse: string, interactionDescription: string)

  /** A row of the interactions table. */
  datatype Interaction = Interaction(entity: string, description: string)

  datatype ResponseData = ResponseData(responseText: string, interactionDescription: string)

  /** A document added to the world-context store with its id and metadata. */
  datatype ContextWrite = ContextWrite(text: string, id: string, kind: string, category: string, messageCount: nat)

  datatype StackStatus = StackStatus(stackSize: nat, messagesInStack: seq<Entry>, isFull: bool)

  // ---------------------------------------------------------------- buffers

  /** `append` on a `deque(maxlen=...)`: the element goes at the right end and,
      when the deque is full, the leftmost element falls off. */
  function DequeAppend<T>(d: seq<T>, x: T, maxlen: nat): (r: seq<T>)
    requires 1 <= maxlen && |d| <= maxlen
    ensures |d| < maxlen ==> r == d + [x]
    ensures |d| == maxlen ==> r == d[1..] + [x]
  {
    if |d| < maxlen then d + [x] else d[1..] + [x]
  }

  datatype Buffers = Buffers(messages: seq<Entry>, stack: seq<Entry>)

  const NoBuffers := Buffers([], [])

  /** The sizes every call leaves behind. */
  predicate Bounded(b: Buffers) {
    |b.messages| <= BufferSize && |b.stack| < BufferSize
  }

  /** The buffer bookkeeping of one `process_user_message` call: when the
      running buffer is full its oldest entry moves to the end of the stack,
      and a stack that thereby reaches ten entries is handed to the summariser
      and emptied; then the new entry goes at the end of the buffer. The
      second component is what the summariser received ([] when it was not
      called). */
  function Push(b: Buffers, e: Entry): (r: (Buffers, seq<Entry>))
    requires Bounded(b)
    ensures Bounded(r.0) && r.0.messages != [] && r.0.messages[|r.0.messages| - 1] == e
    ensures r.1 != [] ==> |r.1| == BufferSize && r.0.stack == []
  {
    if |b.messages| < BufferSize then (Buffers(b.messages + [e], b.stack), [])
    else if |b.stack| + 1 < BufferSize then (Buffers(b.messages[1..] + [e], b.stack + [b.messages[0]]), [])
    else (Buffers(b.messages[1..] + [e], []), b.stack + [b.messages[0]])
  }

  /** A push keeps both bounds, puts the new entry last in the buffer, and
      loses nothing: everything summarised, stacked and buffered afterwards is
      what was stacked and buffered before plus the new entry, in order. A
      summary takes exactly the ten stacked entries, the last of them the
      evicted one. */
  lemma PushFacts(b: Buffers, e: Entry)
    requires Bounded(b)
    ensures var (b2, summarised) := Push(b, e);
      && Bounded(b2)
      && b2.messages[|b2.messages| - 1] == e
      && summarised + b2.stack + b2.messages == b.stack + b.messages + [e]
      && (summarised != [] <==> |b.messages| == BufferSize && |b.stack| == BufferSize - 1)
      && (summarised != [] ==> |summarised| == BufferSize && b2.stack == [])
      && |b2.messages| == (if |b.messages| < BufferSize then |b.messages| + 1 else BufferSize)
      && |b2.stack| == (if |b.messages| < BufferSize then |b.stack|
                        else if |b.stack| == BufferSize - 1 then 0 else |b.stack| + 1)
  {
    var (b2, summarised) := Push(b, e);
    if |b.messages| >= BufferSize {
      assert b.messages == [b.messages[0]] + b.messages[1..];
      assert b.stack + b.messages + [e] == (b.stack + [b.messages[0]]) + (b.messages[1..] + [e]);
    }
  }

  /** The buffers after a run of calls, and how many summaries it made. */
  datatype Run = Run(buffers: Buffers, summaries: nat)

  function Step(r: Run, e: Entry): (r2: Run)
    requires Bounded(r.buffers)
    ensures Bounded(r2.buffers)
    ensures r2.summaries == r.summaries || r2.summaries == r.summaries + 1
  {
    var p := Push(r.buffers, e);
    Run(p.0, if p.1 == [] then r.summaries else r.summaries + 1)
  }

  /** The run of `es`, pushed in order onto empty buffers. */
  function PushAll(es: seq<Entry>): (r: Run)
    ensures Bounded(r.buffers)
  {
    if es == [] then Run(NoBuffers, 0)
    else
      var r := PushAll(es[..|es| - 1]);
      PushFacts(r.buffers, es[|es| - 1]);
      Step(r, es[|es| - 1])
  }

  /** A push loses nothing: summarised, stacked and buffered entries are the
      old stacked and buffered ones plus the new entry, in order. */
  lemma PushConserves(b: Buffers, e: Entry)
    requires Bounded(b)
    ensures Push(b, e).1 + (Push(b, e).0.stack + Push(b, e).0.messages) == (b.stack + b.messages) + [e]
  {
    PushFacts(b, e);
  }

  lemma SliceOfFront<T>(es: seq<T>, k: nat)
    requires k < |es|
    ensures es[k..] == es[..|es| - 1][k..] + [es[|es| - 1]]
  {
  }

  lemma DropPrefix<T>(s: seq<T>, a: seq<T>, c: seq<T>)
    requires a + c == s
    ensures c == s[|a|..]
  {
  }

  /** The stack followed by the buffer is always the latest stretch of the
      pushed entries. */
  lemma {:induction false} PushAllSuffix(es: seq<Entry>)
    ensures var b := PushAll(es).buffers;
      |b.stack| + |b.messages| <= |es| && b.stack + b.messages == es[|es| - |b.stack| - |b.messages|..]
  {
    if es != [] {
      var n := |es|;
      var front := es[..n - 1];
      var e := es[n - 1];
      var b := PushAll(front).buffers;
      var p := Push(b, e);
      assert PushAll(es).buffers == p.0;
      var k := n - 1 - |b.stack| - |b.messages|;
      assert 0 <= k && es[k..] == p.1 + (p.0.stack + p.0.messages) by {
        PushAllSuffix(front);
        SliceOfFront(es, k);
        PushConserves(b, e);
      }
      DropPrefix(es[k..], p.1, p.0.stack + p.0.messages);
      assert es[k..][|p.1|..] == es[k + |p.1|..];
    }
  }

  function StackCount(n: nat): nat {
    if n <= BufferSize then 0 else (n - BufferSize) % BufferSize
  }

  function SummaryCount(n: nat): nat {
    if n < 2 * BufferSize then 0 else (n - BufferSize) / BufferSize
  }

  lemma CountStep(n: nat)
    requires n >= 1
    ensures StackCount(n) == (if n - 1 < BufferSize then 0 else if StackCount(n - 1) == BufferSize - 1 then 0 else StackCount(n - 1) + 1)
    ensures SummaryCount(n) == SummaryCount(n - 1) + (if n - 1 >= BufferSize && StackCount(n - 1) == BufferSize - 1 then 1 else 0)
  {
    if n - 1 >= BufferSize {
      var q, rem := (n - 1 - BufferSize) / BufferSize, (n - 1 - BufferSize) % BufferSize;
      assert n - 1 - BufferSize == BufferSize * q + rem;
      if rem == BufferSize - 1 {
        assert n - BufferSize == BufferSize * (q + 1);
      } else {
        assert n - BufferSize == BufferSize * q + (rem + 1);
      }
    }
  }

  lemma {:induction false} PushAllCounts(es: seq<Entry>)
    ensures var r := PushAll(es);
      && |r.buffers.messages| == (if |es| < BufferSize then |es| else BufferSize)
      && |r.buffers.stack| == StackCount(|es|)
      && r.summaries == SummaryCount(|es|)
  {
    if es != [] {
      var front := es[..|es| - 1];
      PushAllCounts(front);
      var r := PushAll(front);
      PushFacts(r.buffers, es[|es| - 1]);
      assert PushAll(es) == Step(r, es[|es| - 1]);
      CountStep(|es|);
    }
  }

  /** From empty buffers, after n calls: the buffer holds the last min(n, 10)
      entries, the stack holds the (n - 10) % 10 entries evicted since the last
      summary, just before them, and there have been (n - 10) / 10 summaries
      once n reaches 20. */
  lemma PushAllSizes(es: seq<Entry>)
    ensures var r := PushAll(es);
      var n := |es|;
      && |r.buffers.messages| == (if n < BufferSize then n else BufferSize)
      && r.buffers.messages == es[n - |r.buffers.messages|..]
      && |r.buffers.stack| == (if n <= BufferSize then 0 else (n - BufferSize) % BufferSize)
      && r.buffers.stack == es[n - |r.buffers.messages| - |r.buffers.stack|..n - |r.buffers.messages|]
      && r.summaries == (if n < 2 * BufferSize then 0 else (n - BufferSize) / BufferSize)
  {
    PushAllCounts(es);
    PushAllSuffix(es);
    var b := PushAll(es).buffers;
    SplitSuffix(es, b.stack, b.messages);
  }

  lemma SplitSuffix<T>(es: seq<T>, a: seq<T>, c: seq<T>)
    requires |a| + |c| <= |es| && a + c == es[|es| - |a| - |c|..]
    ensures c == es[|es| - |c|..] && a == es[|es| - |a| - |c|..|es| - |c|]
  {
    var tail := es[|es| - |a| - |c|..];
    assert c == tail[|a|..];
    assert a == tail[..|a|];
  }

  /** The summariser runs exactly on the calls numbered 20, 30, 40, ... */
  lemma SummaryOnCall(es: seq<Entry>)
    requires es != []
    ensures var b := PushAll(es[..|es| - 1]).buffers;
      Push(b, es[|es| - 1]).1 != [] <==> |es| >= 2 * BufferSize && |es| % BufferSize == 0
  {
    var front := es[..|es| - 1];
    PushAllCounts(front);
    PushFacts(PushAll(front).buffers, es[|es| - 1]);
    var n := |es|;
    if n - 1 >= BufferSize {
      var q, rem := (n - 1 - BufferSize) / BufferSize, (n - 1 - BufferSize) % BufferSize;
      assert n == BufferSize * (q + 1) + rem + 1;
    }
  }

  // ---------------------------------------------------------------- parsing

  /** `str.find`: the first index of c, or -1. */
  function Find(s: string, c: char): (r: int)
    ensures -1 <= r < |s|
    ensures r == -1 <==> c !in s
    ensures r >= 0 ==> s[r] == c && c !in s[..r]
  {
    if s == [] then -1
    else if s[0] == c then 0
    else
      var r := Find(s[1..], c);
      assert s[1..][..if r < 0 then 0 else r] == s[1..if r < 0 then 1 else r + 1];
      if r == -1 then -1 else r + 1
  }

  /** `str.rfind`: the last index of c, or -1. */
  function RFind(s: string, c: char): (r: int)
    ensures -1 <= r < |s|
    ensures r == -1 <==> c !in s
    ensures r >= 0 ==> s[r] == c && c !in s[r + 1..]
  {
    if s == [] then -1
    else if s[|s| - 1] == c then |s| - 1
    else
      var front := s[..|s| - 1];
      var r := RFind(front, c);
      assert s == front + [s[|s| - 1]];
      assert r >= 0 ==> s[r + 1..] == front[r + 1..] + [s[|s| - 1]];
      r
  }

  /** `json.loads` on the candidate text, yielding the object's string members
      or None for a decode error. Nothing decodes from the empty string. */
  function JsonObject(decode: string -> Option<map<string, string>>, text: string): (r: Option<map<string, string>>)
    ensures text == "" ==> r.None?
  {
    if text == "" then None else decode(text)
  }

  function Get(obj: map<string, string>, key: string, default: string): string {
    if key in obj then obj[key] else default
  }

  /** The slice from the first '{' through the last '}', when both exist. */
  function JsonCandidate(response: string): (candidate: Option<string>)
    ensures candidate.None? <==> '{' !in response || '}' !in response
  {
    var start := Find(response, '{');
    var end := RFind(response, '}') + 1;
    if start != -1 && end != 0 then Some(Slice(response, start, end)) else None
  }

  /** `_parse_llm_response`. */
  function ParseLlmResponse(response: string, decode: string -> Option<map<string, string>>): (r: ResponseData)
    ensures '{' !in response || '}' !in response ==> r == ResponseData(response, NoJsonDescription)
    ensures JsonCandidate(response).Some? && JsonObject(decode, JsonCandidate(response).value).None? ==>
      r == ResponseData(response, NoJsonDescription)
  {
    match JsonCandidate(response)
    case None => ResponseData(response, NoJsonDescription)
    case Some(candidate) =>
      match JsonObject(decode, candidate)
      case None => ResponseData(response, NoJsonDescription)
      case Some(obj) => ResponseData(Get(obj, "response_text", response), Get(obj, "interaction_description", MissingDescription))
  }

  /** A brace pair around a JSON object, with no '{' before it and no '}'
      after it, is cut out exactly and its members are used; missing members
      default to the raw response and "Interaction occurred". */
  lemma ParseEmbeddedObject(before: string, body: string, after: string,
                            decode: string -> Option<map<string, string>>, obj: map<string, string>)
    requires '{' !in before && '}' !in after
    requires |body| >= 2 && body[0] == '{' && body[|body| - 1] == '}'
    requires decode(body) == Some(obj)
    ensures var response := before + body + after;
      ParseLlmResponse(response, decode) == ResponseData(
        if "response_text" in obj then obj["response_text"] else response,
        if "interaction_description" in obj then obj["interaction_description"] else MissingDescription)
  {
    EmbeddedCandidate(before, body, after);
  }

  /** The candidate of such a response is exactly the braced body. */
  lemma EmbeddedCandidate(before: string, body: string, after: string)
    requires '{' !in before && '}' !in after
    requires |body| >= 2 && body[0] == '{' && body[|body| - 1] == '}'
    ensures JsonCandidate(before + body + after) == Some(body)
  {
    var response := before + body + after;
    assert response == before + (body + after);
    FindAfter(before, body + after, '{');
    RFindBefore(before + body, after, '}');
    assert Slice(response, |before|, |before| + |body|) == body;
  }

  /** The first c of a text is where a part starting with c follows a part
      without c. */
  lemma FindAfter(before: string, rest: string, c: char)
    requires c !in before && rest != [] && rest[0] == c
    ensures Find(before + rest, c) == |before|
  {
    var s := before + rest;
    assert s[..|before|] == before;
    assert s[|before|] == c;
  }

  /** The last c of a text is the end of a part ending in c that is followed
      by a part without c. */
  lemma RFindBefore(front: string, after: string, c: char)
    requires c !in after && front != [] && front[|front| - 1] == c
    ensures RFind(front + after, c) == |front| - 1
  {
    var s := front + after;
    assert s[|front|..] == after;
    assert s[|front| - 1] == c;
  }

  /** Every '}' before every '{' leaves an empty slice, which cannot decode, so
      the raw response is kept. */
  lemma ParseReversedBraces(response: string, decode: string -> Option<map<string, string>>)
    requires forall i, j :: 0 <= i < |response| && 0 <= j < |response| && response[i] == '}' && response[j] == '{' ==> i < j
    ensures ParseLlmResponse(response, decode) == ResponseData(response, NoJsonDescription)
  {
    var start := Find(response, '{');
    var end := RFind(response, '}') + 1;
    if start != -1 && end != 0 {
      assert end - 1 < start;
      assert Slice(response, start, end) == "";
    }
  }

  /** The response data of one call: the parsed reply, or the fixed "state of
      flux" text when the generator raised. */
  function ResponseOf(reply: Result<string>, decode: string -> Option<map<string, string>>, userMessage: string): (r: ResponseData)
    ensures reply.Err? ==> r == ResponseData(FluxText, "User said: " + userMessage)
    ensures reply.Ok? ==> r == ParseLlmResponse(reply.value, decode)
  {
    if reply.Err? then ResponseData(FluxText, "User said: " + userMessage)
    else ParseLlmResponse(reply.value, decode)
  }

  // ---------------------------------------------------------------- formatters

  function ContextBlock(i: nat, doc: string): string {
    "Context " + Decimal(i + 1) + ":\n" + doc + "\n\n"
  }

  /** One block per (document, metadata) pair that `zip` forms. */
  function ContextBlocks(docs: seq<string>, metaCount: nat): (blocks: seq<string>)
    ensures |blocks| == Min(|docs|, metaCount)
    ensures forall i :: 0 <= i < |blocks| ==> blocks[i] == ContextBlock(i, docs[i])
  {
    seq(Min(|docs|, metaCount), i requires 0 <= i < Min(|docs|, metaCount) => ContextBlock(i, docs[i]))
  }

  /** One more (document, metadata) pair adds its block at the end. */
  lemma SearchTextStep(docs: seq<string>, metaCount: nat, i: nat)
    requires i < Min(|docs|, metaCount)
    ensures Concat(ContextBlocks(docs, metaCount)[..i + 1])
      == Concat(ContextBlocks(docs, metaCount)[..i]) + ContextBlock(i, docs[i])
  {
    var blocks := ContextBlocks(docs, metaCount);
    assert blocks[..i + 1] == blocks[..i] + [ContextBlock(i, docs[i])];
    ConcatAppend(blocks[..i], ContextBlock(i, docs[i]));
  }

  /** `_format_search_results` on a store reply: the fixed fallback without
      documents, an error when the metadata list cannot be indexed, and
      otherwise the header and one block per zipped pair of the first query. */
  function SearchResultsText(reply: QueryReply): (r: Result<string>)
    ensures reply.documents.None? || reply.documents == Some([]) ==> r == Ok(NoWorldContext)
    ensures r.Err? <==> reply.documents.Some? && reply.documents.value != [] && (reply.metadatas.None? || reply.metadatas.value == [])
    ensures r.Ok? && r.value != NoWorldContext ==> |r.value| >= |SearchHeader| && r.value[..|SearchHeader|] == SearchHeader
  {
    if reply.documents.None? || reply.documents.value == [] then Ok(NoWorldContext)
    else if reply.metadatas.None? then Err(TypeError)
    else if reply.metadatas.value == [] then Err(IndexError)
    else Ok(SearchHeader + Concat(ContextBlocks(reply.documents.value[0], |reply.metadatas.value[0]|)))
  }

  function InteractionLine(i: Interaction): string {
    "- " + i.entity + ": " + i.description
  }

  /** `interactions[-5:]`. */
  function LastShown(interactions: seq<Interaction>): (r: seq<Interaction>)
    ensures |r| == Min(|interactions|, RecentShown)
    ensures r == interactions[|interactions| - |r|..]
  {
    if |interactions| <= RecentShown then interactions else interactions[|interactions| - RecentShown..]
  }

  function InteractionLines(interactions: seq<Interaction>): (lines: seq<string>)
    ensures |lines| == |interactions|
    ensures forall i :: 0 <= i < |lines| ==> lines[i] == InteractionLine(interactions[i])
  {
    seq(|interactions|, i requires 0 <= i < |interactions| => InteractionLine(interactions[i]))
  }

  /** `_format_recent_interactions`. */
  function RecentInteractionsText(interactions: seq<Interaction>): (r: string)
    ensures interactions == [] ==> r == NoRecentInteractions
    ensures interactions != [] ==> '\n' in r
  {
    if interactions == [] then NoRecentInteractions
    else
      var lines := InteractionLines(LastShown(interactions));
      assert lines == [lines[0]] + lines[1..];
      ConcatTerminatedCons(lines[0], lines[1..]);
      Concat(Terminated(lines))
  }

  /** One more shown interaction adds its line at the end of the text. */
  lemma InteractionTextStep(shown: seq<Interaction>, i: nat)
    requires i < |shown|
    ensures Concat(Terminated(InteractionLines(shown[..i + 1])))
      == Concat(Terminated(InteractionLines(shown[..i]))) + (InteractionLine(shown[i]) + "\n")
  {
    var before := Terminated(InteractionLines(shown[..i]));
    assert Terminated(InteractionLines(shown[..i + 1])) == before + [InteractionLine(shown[i]) + "\n"];
    ConcatAppend(before, InteractionLine(shown[i]) + "\n");
  }

  /** When no entity or description spans lines, the text reads back as one
      "- entity: description" line per element of the last five, in order. */
  lemma RecentInteractionsLines(interactions: seq<Interaction>)
    requires interactions != []
    requires forall i :: 0 <= i < |interactions| ==>
      '\n' !in interactions[i].entity && '\n' !in interactions[i].description
    ensures SplitOn(RecentInteractionsText(interactions), '\n')
      == InteractionLines(LastShown(interactions)) + [""]
  {
    var shown := LastShown(interactions);
    var lines := InteractionLines(shown);
    forall i | 0 <= i < |lines| ensures '\n' !in lines[i] {
      assert shown[i] == interactions[|interactions| - |shown| + i];
    }
    SplitTerminated(lines);
  }

  /** The messages `_prepare_full_context` hands to the generator, given the
      rendered recent interactions. */
  function ContextMessages(worldPrompt: string, userMessage: string, worldContext: string, recentText: string): (ms: seq<Message>)
    ensures |ms| == 2 && ms[0] == Msg("system", worldPrompt) && ms[1].role == Some("user") && ms[1].content.Some?
    ensures var c := ms[1].content.value; var head := "World Context:\n" + worldContext + "\n\nRecent Interactions:\n" + recentText;
      |c| >= |head| + |JsonInstruction| && c[..|head|] == head && c[|c| - |JsonInstruction|..] == JsonInstruction
    ensures var c := ms[1].content.value; var head := "World Context:\n" + worldContext + "\n\nRecent Interactions:\n" + recentText;
      var message := "\n\nUser Message: " + userMessage;
      |c| == |head| + |message| + |JsonInstruction| && c[|head|..|head| + |message|] == message
  {
    [ Msg("system", worldPrompt),
      Msg("user", "World Context:\n" + worldContext + "\n\nRecent Interactions:\n" + recentText
        + "\n\nUser Message: " + userMessage
        + JsonInstruction) ]
  }

  function FullContext(worldPrompt: string, userMessage: string, worldContext: string, recent: seq<Interaction>): (ms: seq<Message>)
    ensures |ms| == 2 && ms[0] == Msg("system", worldPrompt) && ms[1].role == Some("user") && ms[1].content.Some?
    ensures recent == [] ==> var head := "World Context:\n" + worldContext + "\n\nRecent Interactions:\n" + NoRecentInteractions;
      |ms[1].content.value| >= |head| && ms[1].content.value[..|head|] == head
    ensures var c := ms[1].content.value;
      var head := "World Context:\n" + worldContext + "\n\nRecent Interactions:\n" + RecentInteractionsText(recent);
      var message := "\n\nUser Message: " + userMessage;
      |c| == |head| + |message| + |JsonInstruction| && c[..|head|] == head
      && c[|head|..|head| + |message|] == message && c[|c| - |JsonInstruction|..] == JsonInstruction
  {
    ContextMessages(worldPrompt, userMessage, worldContext, RecentInteractionsText(recent))
  }

  /** `_get_initial_world_context` on the context file (None when it cannot be
      read). */
  function InitialWorldContext(file: Option<string>): (r: string)
    ensures file.None? || AllSpace(file.value) ==> r == Welcome
    ensures file.Some? && !AllSpace(file.value) ==>
      var prefix := "Initial World Context:\n\n" + Strip(file.value);
      |r| == |prefix| + |FirstInteractionNote| && r[..|prefix|] == prefix && r[|prefix|..] == FirstInteractionNote
  {
    if file.None? then Welcome
    else
      var text := Strip(file.value);
      if text != "" then
        "Initial World Context:\n\n" + text
          + FirstInteractionNote
      else Welcome
  }

  /** `_load_world_prompt` on the prompt file (None when it is not found). */
  function WorldPrompt(file: Option<string>): (r: string)
    ensures file.None? ==> r == DefaultWorldPrompt
    ensures file.Some? ==> |r| <= |file.value| && (r == [] <==> AllSpace(file.value))
    ensures file.Some? && r != [] ==> !IsSpace(r[0]) && !IsSpace(r[|r| - 1])
    ensures file.Some? ==> r == Strip(file.value)
  {
    match file
    case None => DefaultWorldPrompt
    case Some(text) => Strip(text)
  }

  /** The conversation handed to the summariser: each stored interaction as a
      user turn when its entity is the player and an assistant turn otherwise,
      then the new message. */
  function SummaryInput(recent: seq<Interaction>, userId: string, userMessage: string): (ms: seq<Message>)
    ensures |ms| == |recent| + 1
    ensures forall i :: 0 <= i < |recent| ==>
      ms[i] == Msg(if recent[i].entity == userId then "user" else "assistant", recent[i].description)
    ensures ms[|recent|] == Msg("user", userMessage)
  {
    seq(|recent|, i requires 0 <= i < |recent| =>
      Msg(if recent[i].entity == userId then "user" else "assistant", recent[i].description))
      + [Msg("user", userMessage)]
  }

  /** The world context of one call: the initial context when the database
      holds no interactions, otherwise the formatted search results or the
      fixed fallback when the search or its formatting raised. */
  function WorldContextFor(recent: seq<Interaction>, initialFile: Option<string>, search: Result<QueryReply>): (r: string)
    ensures recent == [] ==> r == InitialWorldContext(initialFile)
    ensures recent != [] && search.Err? ==> r == NoWorldContext
    ensures recent != [] && search.Ok? && SearchResultsText(search.value).Ok? ==>
      r == SearchResultsText(search.value).value
    ensures recent != [] && search.Ok? && SearchResultsText(search.value).Err? ==> r == NoWorldContext
  {
    if recent == [] then InitialWorldContext(initialFile)
    else if search.Err? then NoWorldContext
    else match SearchResultsText(search.value)
      case Ok(text) => text
      case Err(_) => NoWorldContext
  }

  function SummaryLine(e: Entry): string {
    "- " + e.timestamp + ": " + e.interactionDescription
  }

  function SummaryLines(es: seq<Entry>): (lines: seq<string>)
    ensures |lines| == |es|
    ensures forall i :: 0 <= i < |es| ==> lines[i] == SummaryLine(es[i])
  {
    seq(|es|, i requires 0 <= i < |es| => SummaryLine(es[i]))
  }

  /** The document written for a summarised stack. */
  function SummaryWrite(stack: seq<Entry>, time: string): (w: ContextWrite)
    ensures w.id == "interaction_summary_" + time && w.kind == "interaction_summary" && w.category == "player_interactions"
    ensures w.messageCount == |stack| && |w.text| >= |SummaryHeader| && w.text[..|SummaryHeader|] == SummaryHeader
  {
    ContextWrite(SummaryHeader + Concat(Terminated(SummaryLines(stack))),
                 "interaction_summary_" + time, "interaction_summary", "player_interactions", |stack|)
  }

  /** One more stacked entry adds its line at the end of the summary text. */
  lemma SummaryTextStep(stack: seq<Entry>, k: nat)
    requires k < |stack|
    ensures Concat(Terminated(SummaryLines(stack[..k + 1])))
      == Concat(Terminated(SummaryLines(stack[..k]))) + (SummaryLine(stack[k]) + "\n")
  {
    var before := Terminated(SummaryLines(stack[..k]));
    assert Terminated(SummaryLines(stack[..k + 1])) == before + [SummaryLine(stack[k]) + "\n"];
    ConcatAppend(before, SummaryLine(stack[k]) + "\n");
  }

  /** A summary reads back as its header line, a blank line, then one
      "- timestamp: description" line per stacked entry in stack order. */
  lemma SummaryWriteLines(stack: seq<Entry>, time: string)
    requires forall i :: 0 <= i < |stack| ==>
      '\n' !in stack[i].timestamp && '\n' !in stack[i].interactionDescription
    ensures SplitOn(SummaryWrite(stack, time).text, '\n')
      == [SummaryTitle, ""] + SummaryLines(stack) + [""]
  {
    var lines := SummaryLines(stack);
    var all := [SummaryTitle, ""] + lines;
    forall i | 0 <= i < |all| ensures '\n' !in all[i] {
      if i >= 2 {
        SummaryLineSingle(stack[i - 2]);
      }
    }
    SummaryTextLines(stack);
    SplitTerminated(all);
  }

  const SummaryTitle := "Summary of recent interactions:"

  /** The summary text is its title, a blank line and the entry lines, each
      newline-terminated. */
  lemma SummaryTextLines(stack: seq<Entry>)
    ensures Concat(Terminated([SummaryTitle, ""] + SummaryLines(stack))) == SummaryHeader + Concat(Terminated(SummaryLines(stack)))
  {
    var lines := SummaryLines(stack);
    assert [SummaryTitle, ""] + lines == [SummaryTitle] + ([""] + lines);
    ConcatTerminatedCons(SummaryTitle, [""] + lines);
    ConcatTerminatedCons("", lines);
    assert SummaryTitle + "\n" + ("" + "\n") == SummaryHeader;
  }

  /** A summary line spans lines only if its timestamp or description does. */
  lemma SummaryLineSingle(e: Entry)
    requires '\n' !in e.timestamp && '\n' !in e.interactionDescription
    ensures '\n' !in SummaryLine(e)
  {
  }

  // ---------------------------------------------------------------- the world object

  class World {
    const worldPrompt: string
    /** The running buffer (`messages`, at most ten entries). */
    var messages: seq<Entry>
    /** The overflow stack (`message_stack`). */
    var messageStack: seq<Entry>
    /** The interactions this world has saved to the database, in order. */
    var savedInteractions: seq<Interaction>
    /** The summaries this world has added to the world-context store. */
    var contextWrites: seq<ContextWrite>
    /** Every entry ever appended to the buffer, and every entry that has left
        the stack through the summariser. */
    ghost var pushed: seq<Entry>
    ghost var summarised: seq<Entry>

    ghost predicate Valid()
      reads this
    {
      && Bounded(Buffers(messages, messageStack))
      && pushed == summarised + messageStack + messages
    }

    /** `_load_world_prompt`. */
    static method LoadWorldPrompt(promptFile: Option<string>) returns (prompt: string)
      ensures prompt == WorldPrompt(promptFile)
    {
      if promptFile.None? {
        prompt := DefaultWorldPrompt;
      } else {
        prompt := Strip(promptFile.value);
      }
    }

    constructor(promptFile: Option<string>)
      ensures Valid()
      ensures worldPrompt == WorldPrompt(promptFile)
      ensures messages == [] && messageStack == [] && savedInteractions == [] && contextWrites == []
    {
      var prompt := LoadWorldPrompt(promptFile);
      worldPrompt := prompt;
      messages := [];
      messageStack := [];
      savedInteractions := [];
      contextWrites := [];
      pushed := [];
      summarised := [];
      new;
      assert summarised + messageStack + messages == [];
    }

    /** `_summarize_and_refresh_stack`: nothing on an empty stack; otherwise
        one document with a line per stacked entry, then the stack is cleared,
        whether or not the write succeeded. */
    method SummarizeAndRefreshStack(writeOk: bool, time: string)
      modifies this
      ensures messageStack == []
      ensures summarised == old(summarised) + old(messageStack)
      ensures contextWrites == old(contextWrites)
        + (if old(messageStack) != [] && writeOk then [SummaryWrite(old(messageStack), time)] else [])
      ensures messages == old(messages) && pushed == old(pushed) && savedInteractions == old(savedInteractions)
    {
      if messageStack == [] {
        return;
      }
      var content := BuildSummaryText(messageStack);
      if writeOk {
        contextWrites := contextWrites
          + [ContextWrite(content, "interaction_summary_" + time, "interaction_summary", "player_interactions", |messageStack|)];
      }
      summarised := summarised + messageStack;
      messageStack := [];
    }

    /** The summary document, accumulated line by line. */
    static method BuildSummaryText(stack: seq<Entry>) returns (content: string)
      ensures content == SummaryWrite(stack, "").text
    {
      content := SummaryHeader;
      var k := 0;
      while k < |stack|
        invariant 0 <= k <= |stack|
        invariant content == SummaryHeader + Concat(Terminated(SummaryLines(stack[..k])))
      {
        SummaryTextStep(stack, k);
        content := content + (SummaryLine(stack[k]) + "\n");
        k := k + 1;
      }
      assert stack[..k] == stack;
    }

    /** `_format_search_results`, accumulating the text block by block. */
    static method FormatSearchResults(reply: QueryReply) returns (r: Result<string>)
      ensures r == SearchResultsText(reply)
    {
      if reply.documents.None? || reply.documents.value == [] {
        return Ok(NoWorldContext);
      }
      if reply.metadatas.None? {
        return Err(TypeError);
      }
      if reply.metadatas.value == [] {
        return Err(IndexError);
      }
      var documents := reply.documents.value[0];
      var metadatas := reply.metadatas.value[0];
      var text := SearchHeader;
      var i := 0;
      while i < |documents| && i < |metadatas|
        invariant 0 <= i <= Min(|documents|, |metadatas|)
        invariant text == SearchHeader + Concat(ContextBlocks(documents, |metadatas|)[..i])
      {
        SearchTextStep(documents, |metadatas|, i);
        text := text + ContextBlock(i, documents[i]);
        i := i + 1;
      }
      assert ContextBlocks(documents, |metadatas|)[..i] == ContextBlocks(documents, |metadatas|);
      return Ok(text);
    }

    /** `_format_recent_interactions`, accumulating one line per shown element. */
    static method FormatRecentInteractions(interactions: seq<Interaction>) returns (text: string)
      ensures text == RecentInteractionsText(interactions)
    {
      if interactions == [] {
        return NoRecentInteractions;
      }
      var shown := LastShown(interactions);
      text := "";
      var i := 0;
      while i < |shown|
        invariant 0 <= i <= |shown|
        invariant text == Concat(Terminated(InteractionLines(shown[..i])))
      {
        InteractionTextStep(shown, i);
        text := text + (InteractionLine(shown[i]) + "\n");
        i := i + 1;
      }
      assert shown[..i] == shown;
    }

    /** The part of `process_user_message` before the generator is called:
        the world context (the initial context when the database holds no
        interactions, otherwise the search results for the summariser's
        answer, or the user message when the summariser raised) and the
        messages handed to the generator. */
    static method PrepareRequest(
      worldPrompt: string, userMessage: string, userId: string, recent: seq<Interaction>,
      initialFile: Option<string>, summary: Result<string>, search: Result<QueryReply>)
      returns (summaryInput: Option<seq<Message>>, searchQuery: Option<string>, request: seq<Message>)
      ensures recent == [] ==> summaryInput == None && searchQuery == None
      ensures recent != [] ==>
        && summaryInput == Some(SummaryInput(recent, userId, userMessage))
        && searchQuery == Some(if summary.Ok? then summary.value else userMessage)
      ensures request == FullContext(worldPrompt, userMessage, WorldContextFor(recent, initialFile, search), recent)
    {
      var worldContext: string;
      if recent == [] {
        worldContext := InitialWorldContext(initialFile);
        summaryInput, searchQuery := None, None;
      } else {
        summaryInput := Some(SummaryInput(recent, userId, userMessage));
        searchQuery := Some(if summary.Ok? then summary.value else userMessage);
        if search.Err? {
          worldContext := NoWorldContext;
        } else {
          var formatted := FormatSearchResults(search.value);
          worldContext := if formatted.Ok? then formatted.value else NoWorldContext;
        }
      }
      var recentText := FormatRecentInteractions(recent);
      request := ContextMessages(worldPrompt, userMessage, worldContext, recentText);
    }

    /** The part of `process_user_message` after the generator answered: save
        the interaction, then push the new entry through the buffers. */
    method RecordResponse(userId: string, userMessage: string, data: ResponseData,
                          timestamp: string, summaryWriteOk: bool, summaryTime: string)
      requires Valid()
      modifies this
      ensures Valid()
      ensures savedInteractions == old(savedInteractions) + [Interaction(userId, data.interactionDescription)]
      ensures var entry := Entry(timestamp, userMessage, data.responseText, data.interactionDescription);
        var p := Push(Buffers(old(messages), old(messageStack)), entry);
        && messages == p.0.messages && messageStack == p.0.stack
        && contextWrites == old(contextWrites) + (if p.1 != [] && summaryWriteOk then [SummaryWrite(p.1, summaryTime)] else [])
        && pushed == old(pushed) + [entry]
    {
      savedInteractions := savedInteractions + [Interaction(userId, data.interactionDescription)];
      var entry := Entry(timestamp, userMessage, data.responseText, data.interactionDescription);
      PushFacts(Buffers(messages, messageStack), entry);
      if |messages| >= BufferSize {
        var popped := messages[0];
        messages := messages[1..];
        messageStack := DequeAppend(messageStack, popped, BufferSize);
        assert messageStack == old(messageStack) + [popped];
        if |messageStack| >= BufferSize {
          SummarizeAndRefreshStack(summaryWriteOk, summaryTime);
        }
      }
      messages := DequeAppend(messages, entry, BufferSize);
      pushed := pushed + [entry];
    }

    /** `process_user_message`. `recent` is what the database returns for the
        last ten interactions; `summary` and `search` are the summariser's and
        the store's replies (consulted only when `recent` is non-empty);
        `reply` is the generator's reply and `decode` stands for `json.loads`.
        Returns the response text, the conversation handed to the summariser,
        the search query and the messages handed to the generator. */
    method ProcessUserMessage(
      userMessage: string, userId: string, recent: seq<Interaction>, initialFile: Option<string>,
      summary: Result<string>, search: Result<QueryReply>,
      reply: Result<string>, decode: string -> Option<map<string, string>>,
      timestamp: string, summaryWriteOk: bool, summaryTime: string)
      returns (responseText: string, summaryInput: Option<seq<Message>>, searchQuery: Option<string>, request: seq<Message>)
      requires Valid()
      modifies this
      ensures Valid()
      ensures recent == [] ==> summaryInput == None && searchQuery == None
      ensures recent != [] ==>
        && summaryInput == Some(SummaryInput(recent, userId, userMessage))
        && searchQuery == Some(if summary.Ok? then summary.value else userMessage)
      ensures request == FullContext(worldPrompt, userMessage, WorldContextFor(recent, initialFile, search), recent)
      ensures var data := ResponseOf(reply, decode, userMessage);
        var entry := Entry(timestamp, userMessage, data.responseText, data.interactionDescription);
        var p := Push(Buffers(old(messages), old(messageStack)), entry);
        && responseText == data.responseText
        && savedInteractions == old(savedInteractions) + [Interaction(userId, data.interactionDescription)]
        && messages == p.0.messages && messageStack == p.0.stack
        && contextWrites == old(contextWrites) + (if p.1 != [] && summaryWriteOk then [SummaryWrite(p.1, summaryTime)] else [])
        && pushed == old(pushed) + [entry]
    {
      summaryInput, searchQuery, request := PrepareRequest(worldPrompt, userMessage, userId, recent, initialFile, summary, search);
      var data := if reply.Err? then ResponseData(FluxText, "User said: " + userMessage)
                  else ParseLlmResponse(reply.value, decode);
      RecordResponse(userId, userMessage, data, timestamp, summaryWriteOk, summaryTime);
      responseText := data.responseText;
    }

    /** `get_stack_status`. */
    function GetStackStatus(): (s: StackStatus)
      reads this
      ensures s.stackSize == |messageStack| && s.messagesInStack == messageStack
      ensures s.isFull <==> |messageStack| >= BufferSize
    {
      StackStatus(|messageStack|, messageStack, |messageStack| >= BufferSize)
    }

    /** `get_message_history`. */
    function GetMessageHistory(): (h: seq<Entry>)
      reads this
      ensures h == messages
    {
      messages
    }
  }

  /** After any call the stack is below ten, so the status never reports it
      full. */
  lemma StackNeverReportedFull(w: World)
    requires w.Valid()
    ensures !w.GetStackStatus().isFull
  {
  }
}
