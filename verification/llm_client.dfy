/** The multi-vendor language-model client (src/utils/llm.py): which provider
    a client ends up with given the configured keys, and the request each
    vendor is sent. The vendor calls themselves are not modelled; a request
    is the value that would be handed to them. */
module LlmClient {
  import opened Common

  const OpenAi := "openai"
  const Anthropic := "anthropic"
  const Gemini := "gemini"
  const Providers := [OpenAi, Anthropic, Gemini]

  const DefaultMaxTokens := 1000
  const ContinueTurn := "Continue"
  const ParagraphBreak := "\n\n"

  /** The configuration module's values: the default provider, the three
      optional keys and the model table. */
  datatype Config = Config(
    defaultProvider: string,
    openAiKey: Option<string>,
    anthropicKey: Option<string>,
    geminiKey: Option<string>,
    models: map<string, string>)

  /** The key a provider uses; None for a provider the client does not know. */
  function KeyOf(cfg: Config, provider: string): (key: Option<string>)
    ensures key.Some? ==> provider in Providers
  {
    if provider == OpenAi then cfg.openAiKey
    else if provider == Anthropic then cfg.anthropicKey
    else if provider == Gemini then cfg.geminiKey
    else None
  }

  /** `LLM_MODELS.get(provider)`. */
  function ModelFor(cfg: Config, provider: string): (model: Option<string>)
    ensures model.Some? <==> provider in cfg.models
    ensures model.Some? ==> model.value == cfg.models[provider]
  {
    if provider in cfg.models then Some(cfg.models[provider]) else None
  }

  /** `_setup_client`: the provider the client keeps or switches to, or the
      ValueError it raises (no key anywhere, or an unsupported provider). */
  function ResolveProvider(provider: string, cfg: Config): (r: Result<string>)
    ensures r.Ok? ==> r.value in Providers && Truthy(KeyOf(cfg, r.value))
    ensures r.Err? ==> r.error == ValueError
  {
    if provider == OpenAi then
      if Truthy(cfg.openAiKey) then Ok(OpenAi)
      else if Truthy(cfg.anthropicKey) then Ok(Anthropic)
      else if Truthy(cfg.geminiKey) then Ok(Gemini)
      else Err(ValueError)
    else if provider == Anthropic then
      if Truthy(cfg.anthropicKey) then Ok(Anthropic)
      else if Truthy(cfg.openAiKey) then Ok(OpenAi)
      else if Truthy(cfg.geminiKey) then Ok(Gemini)
      else Err(ValueError)
    else if provider == Gemini then
      if Truthy(cfg.geminiKey) then Ok(Gemini)
      else if Truthy(cfg.openAiKey) then Ok(OpenAi)
      else if Truthy(cfg.anthropicKey) then Ok(Anthropic)
      else Err(ValueError)
    else Err(ValueError)
  }

  /** The order in which each provider looks for a usable key: itself first,
      then the other two. */
  function Preference(provider: string): (order: seq<string>)
    requires provider in Providers
    ensures |order| == 3 && order[0] == provider
    ensures forall p :: p in Providers <==> p in order
  {
    if provider == OpenAi then [OpenAi, Anthropic, Gemini]
    else if provider == Anthropic then [Anthropic, OpenAi, Gemini]
    else [Gemini, OpenAi, Anthropic]
  }

  /** The first provider in `order` whose key is set and non-empty. */
  function FirstKeyed(order: seq<string>, cfg: Config): (r: Option<string>)
    ensures r.Some? <==> exists i :: 0 <= i < |order| && Truthy(KeyOf(cfg, order[i]))
    ensures r.Some? ==> r.value in order && Truthy(KeyOf(cfg, r.value))
  {
    if order == [] then None
    else if Truthy(KeyOf(cfg, order[0])) then Some(order[0])
    else
      assert forall i :: 1 <= i < |order| ==> order[i] == order[1..][i - 1];
      FirstKeyed(order[1..], cfg)
  }

  /** The fallback is exactly "the first keyed provider in the preference
      order", and an unknown provider fails whatever keys exist. */
  lemma ResolveProviderIsFirstKeyed(provider: string, cfg: Config)
    ensures provider in Providers ==>
      ResolveProvider(provider, cfg) ==
        (var f := FirstKeyed(Preference(provider), cfg); if f.Some? then Ok(f.value) else Err(ValueError))
    ensures provider !in Providers ==> ResolveProvider(provider, cfg) == Err(ValueError)
  {
    if provider in Providers {
      var order := Preference(provider);
      assert order[1..][1..] == [order[2]];
      assert order[1..][1..][1..] == [];
    }
  }

  /** A provider whose key is present is kept; no switch happens. */
  lemma ResolveKeepsKeyedProvider(provider: string, cfg: Config)
    requires provider in Providers && Truthy(KeyOf(cfg, provider))
    ensures ResolveProvider(provider, cfg) == Ok(provider)
  {
    ResolveProviderIsFirstKeyed(provider, cfg);
  }

  /** A known provider fails exactly when none of the three keys is usable. */
  lemma ResolveFailsOnlyWithoutKeys(provider: string, cfg: Config)
    requires provider in Providers
    ensures ResolveProvider(provider, cfg).Err? <==>
      !Truthy(cfg.openAiKey) && !Truthy(cfg.anthropicKey) && !Truthy(cfg.geminiKey)
  {
    ResolveProviderIsFirstKeyed(provider, cfg);
    var order := Preference(provider);
    if Truthy(cfg.openAiKey) {
      assert OpenAi in order;
      var i :| 0 <= i < 3 && order[i] == OpenAi;
      assert Truthy(KeyOf(cfg, order[i]));
    } else if Truthy(cfg.anthropicKey) {
      assert Anthropic in order;
      var i :| 0 <= i < 3 && order[i] == Anthropic;
      assert Truthy(KeyOf(cfg, order[i]));
    } else if Truthy(cfg.geminiKey) {
      assert Gemini in order;
      var i :| 0 <= i < 3 && order[i] == Gemini;
      assert Truthy(KeyOf(cfg, order[i]));
    }
  }

  /** `LLMClient`: the provider in use and its model name. */
  class Client {
    var provider: string
    var model: Option<string>

    /** The first two lines of `__init__`: the argument when truthy, else the
        configured default, and that provider's model. */
    constructor(provider: Option<string>, cfg: Config)
      ensures this.provider == (if Truthy(provider) then provider.value else cfg.defaultProvider)
      ensures model == ModelFor(cfg, this.provider)
    {
      this.provider := if Truthy(provider) then provider.value else cfg.defaultProvider;
      this.model := ModelFor(cfg, if Truthy(provider) then provider.value else cfg.defaultProvider);
    }

    /** `_setup_client`: switch provider (and model) when the key is missing,
        or raise; a kept provider keeps its model. */
    method SetupClient(cfg: Config) returns (outcome: Outcome)
      modifies this
      ensures var r := ResolveProvider(old(provider), cfg);
        if r.Err? then (outcome == Raised(r.error) && provider == old(provider) && model == old(model))
        else (outcome == Done && provider == r.value &&
              model == (if r.value == old(provider) then old(model) else ModelFor(cfg, r.value)))
    {
      var r := ResolveProvider(provider, cfg);
      if r.Err? {
        return Raised(r.error);
      }
      if r.value != provider {
        provider := r.value;
        model := ModelFor(cfg, r.value);
      }
      return Done;
    }
  }

  /** `LLMClient(provider)`: construct, then set up. After a successful
      set-up the provider has a key and the model is that provider's. */
  method NewClient(provider: Option<string>, cfg: Config) returns (c: Client, outcome: Outcome)
    ensures var requested := if Truthy(provider) then provider.value else cfg.defaultProvider;
      var r := ResolveProvider(requested, cfg);
      (outcome == Done <==> r.Ok?) &&
      (r.Ok? ==> c.provider == r.value && c.model == ModelFor(cfg, c.provider) && Truthy(KeyOf(cfg, c.provider)))
  {
    c := new Client(provider, cfg);
    outcome := c.SetupClient(cfg);
  }

  // ---------------------------------------------------------------- requests

  /** What one `generate` call hands to a vendor. */
  datatype Request =
    | OpenAiChat(model: Option<string>, messages: seq<Message>, maxTokens: Option<int>)
    | AnthropicChat(model: Option<string>, system: Option<string>, messages: seq<Message>, tokenLimit: int)
    | GeminiChat(model: Option<string>, turns: seq<string>)
    | GeminiSingle(model: Option<string>, text: string, maxTokens: Option<int>)

  /** The history list when it is truthy, nothing otherwise. */
  function History(messages: Option<seq<Message>>): seq<Message> {
    if messages.Some? then messages.value else []
  }

  /** The prompt as a trailing user message, when it is non-empty. */
  function PromptTurn(prompt: string): (r: seq<Message>)
    ensures prompt == "" <==> r == []
    ensures r != [] ==> r == [Msg("user", prompt)]
  {
    if prompt != "" then [Msg("user", prompt)] else []
  }

  /** `_generate_anthropic`'s message list: the history, then the prompt. */
  function AnthropicMessages(messages: Option<seq<Message>>, prompt: string): (r: seq<Message>)
    ensures |r| == |History(messages)| + (if prompt != "" then 1 else 0)
    ensures r[..|History(messages)|] == History(messages)
    ensures prompt != "" ==> r[|r| - 1] == Msg("user", prompt)
  {
    History(messages) + PromptTurn(prompt)
  }

  /** `_generate_openai`'s message list: the system prompt as a system
      message when it is truthy, then the Anthropic list. */
  function OpenAiMessages(system: Option<string>, messages: Option<seq<Message>>, prompt: string): (r: seq<Message>)
    ensures |r| == |AnthropicMessages(messages, prompt)| + (if Truthy(system) then 1 else 0)
    ensures Truthy(system) ==> r[0] == Msg("system", system.value) && r[1..] == AnthropicMessages(messages, prompt)
    ensures !Truthy(system) ==> r == AnthropicMessages(messages, prompt)
  {
    (if Truthy(system) then [Msg("system", system.value)] else []) + History(messages) + PromptTurn(prompt)
  }

  /** The `max_tokens or 1000` of the Anthropic call. */
  function AnthropicMaxTokens(maxTokens: Option<int>): (n: int)
    ensures n != 0
    ensures maxTokens == Some(n) || n == DefaultMaxTokens
    ensures maxTokens.Some? && maxTokens.value != 0 ==> n == maxTokens.value
  {
    if maxTokens.Some? && maxTokens.value != 0 then maxTokens.value else DefaultMaxTokens
  }

  /** The user turns `_generate_gemini` sends from a history, in order; a
      message without a role, or a user message without content, is the
      KeyError of the dict lookup. Roles are matched exactly. */
  function UserTurns(ms: seq<Message>): (r: Result<seq<string>>)
    ensures r.Err? ==> r.error == KeyError
  {
    if ms == [] then Ok([])
    else
      var init := UserTurns(ms[..|ms| - 1]);
      var m := ms[|ms| - 1];
      if init.Err? then init
      else if m.role.None? then Err(KeyError)
      else if m.role.value == "user" then
        if m.content.None? then Err(KeyError) else Ok(init.value + [m.content.value])
      else init
  }

  /** A history entry the loop cannot read. */
  predicate Unreadable(m: Message) {
    m.role.None? || (m.role.value == "user" && m.content.None?)
  }

  /** The history fails exactly when one of its entries is unreadable, and
      otherwise yields one turn per user message. */
  lemma {:induction false} UserTurnsFailIffUnreadable(ms: seq<Message>)
    ensures UserTurns(ms).Err? <==> exists k :: 0 <= k < |ms| && Unreadable(ms[k])
    ensures UserTurns(ms).Ok? ==> |UserTurns(ms).value| == |UserIndices(ms)|
    decreases |ms|
  {
    if ms != [] {
      var init := ms[..|ms| - 1];
      UserTurnsFailIffUnreadable(init);
      assert forall k :: 0 <= k < |init| ==> init[k] == ms[k];
      if exists k :: 0 <= k < |ms| && Unreadable(ms[k]) {
        var k :| 0 <= k < |ms| && Unreadable(ms[k]);
        if k < |init| {
          assert Unreadable(init[k]);
        }
      }
    }
  }

  /** The positions of the user-role messages, in order. */
  function UserIndices(ms: seq<Message>): seq<nat> {
    if ms == [] then []
    else
      UserIndices(ms[..|ms| - 1]) +
        (if ms[|ms| - 1].role == Some("user") then [|ms| - 1] else [])
  }

  /** `UserIndices` lists, in strictly increasing order, exactly the positions
      of the messages whose role is "user". */
  lemma UserIndicesExact(ms: seq<Message>)
    ensures forall t :: 0 <= t < |UserIndices(ms)| ==>
      UserIndices(ms)[t] < |ms| && ms[UserIndices(ms)[t]].role == Some("user")
    ensures forall s, t :: 0 <= s < t < |UserIndices(ms)| ==> UserIndices(ms)[s] < UserIndices(ms)[t]
    ensures forall k :: 0 <= k < |ms| && ms[k].role == Some("user") ==> k in UserIndices(ms)
  {
    UserIndicesAreUsers(ms);
    UserIndicesIncrease(ms);
    UserIndicesComplete(ms);
  }

  /** Every listed index is a user position. */
  lemma {:induction false} UserIndicesAreUsers(ms: seq<Message>)
    ensures forall t :: 0 <= t < |UserIndices(ms)| ==>
      UserIndices(ms)[t] < |ms| && ms[UserIndices(ms)[t]].role == Some("user")
    decreases |ms|
  {
    if ms != [] {
      var init := ms[..|ms| - 1];
      var ix := UserIndices(init);
      UserIndicesAreUsers(init);
      var all := UserIndices(ms);
      assert all[..|ix|] == ix;
      forall t | 0 <= t < |all|
        ensures all[t] < |ms| && ms[all[t]].role == Some("user")
      {
        if t < |ix| {
          assert all[t] == ix[t] && ms[ix[t]] == init[ix[t]];
        }
      }
    }
  }

  /** The listed indices increase strictly. */
  lemma {:induction false} UserIndicesIncrease(ms: seq<Message>)
    ensures forall s, t :: 0 <= s < t < |UserIndices(ms)| ==> UserIndices(ms)[s] < UserIndices(ms)[t]
    decreases |ms|
  {
    if ms != [] {
      var init := ms[..|ms| - 1];
      var ix := UserIndices(init);
      UserIndicesIncrease(init);
      UserIndicesAreUsers(init);
      var all := UserIndices(ms);
      assert all[..|ix|] == ix;
      forall s, t | 0 <= s < t < |all|
        ensures all[s] < all[t]
      {
        assert all[s] == ix[s];
        if t < |ix| {
          assert all[t] == ix[t];
        } else {
          assert all[t] == |ms| - 1;
        }
      }
    }
  }

  /** Every user position is listed. */
  lemma {:induction false} UserIndicesComplete(ms: seq<Message>)
    ensures forall k :: 0 <= k < |ms| && ms[k].role == Some("user") ==> k in UserIndices(ms)
    decreases |ms|
  {
    if ms != [] {
      var init := ms[..|ms| - 1];
      var ix := UserIndices(init);
      UserIndicesComplete(init);
      var all := UserIndices(ms);
      assert all[..|ix|] == ix;
      forall k | 0 <= k < |ms| && ms[k].role == Some("user")
        ensures k in all
      {
        if k < |init| {
          assert init[k] == ms[k];
          var t :| 0 <= t < |ix| && ix[t] == k;
          assert all[t] == k;
        } else {
          assert all[|all| - 1] == k;
        }
      }
    }
  }

  /** The turns of a readable history are the user contents in input order. */
  lemma {:induction false} UserTurnsInOrder(ms: seq<Message>)
    requires UserTurns(ms).Ok?
    ensures |UserTurns(ms).value| == |UserIndices(ms)|
    ensures forall t :: 0 <= t < |UserIndices(ms)| ==>
      UserIndices(ms)[t] < |ms| && ms[UserIndices(ms)[t]].role == Some("user") &&
      ms[UserIndices(ms)[t]].content == Some(UserTurns(ms).value[t])
    decreases |ms|
  {
    if ms != [] {
      var init := ms[..|ms| - 1];
      var m := ms[|ms| - 1];
      UserTurnsInOrder(init);
      var ts := UserTurns(init).value;
      var ix := UserIndices(init);
      assert forall t :: 0 <= t < |ix| ==> ms[ix[t]] == init[ix[t]];
      if m.role == Some("user") {
        assert UserTurns(ms).value == ts + [m.content.value];
        assert UserIndices(ms) == ix + [|ms| - 1];
      } else {
        assert UserTurns(ms).value == ts;
        assert UserIndices(ms) == ix;
      }
    }
  }

  /** The text of `_generate_gemini` without history: the prompt, preceded by
      the system prompt and a blank line when the system prompt is truthy. */
  function GeminiPrompt(system: Option<string>, prompt: string): (text: string)
    ensures |text| == |prompt| + (if Truthy(system) then |system.value| + 2 else 0)
    ensures Truthy(system) ==>
      (text[..|system.value|] == system.value &&
       text[|system.value|..|system.value| + 2] == "\n\n" && text[|system.value| + 2..] == prompt)
    ensures !Truthy(system) ==> text == prompt
  {
    if Truthy(system) then system.value + ParagraphBreak + prompt else prompt
  }

  /** `_generate_gemini`: a chat replaying the user turns and ending with the
      prompt (or "Continue" for an empty prompt) when there is history;
      otherwise one generation. */
  function GeminiRequest(model: Option<string>, system: Option<string>, messages: Option<seq<Message>>,
                         prompt: string, maxTokens: Option<int>): (r: Result<Request>)
    ensures History(messages) == [] ==> r == Ok(GeminiSingle(model, GeminiPrompt(system, prompt), maxTokens))
    ensures History(messages) != [] ==> (r.Err? <==> UserTurns(History(messages)).Err?)
    ensures History(messages) != [] && r.Ok? ==>
      r.value == GeminiChat(model, UserTurns(History(messages)).value + [if prompt != "" then prompt else ContinueTurn])
    ensures History(messages) != [] && r.Ok? ==> r.value.turns[|r.value.turns| - 1] != ""
  {
    var ms := History(messages);
    if ms != [] then
      var turns := UserTurns(ms);
      if turns.Err? then Err(turns.error)
      else Ok(GeminiChat(model, turns.value + [if prompt != "" then prompt else ContinueTurn]))
    else Ok(GeminiSingle(model, GeminiPrompt(system, prompt), maxTokens))
  }

  /** `generate`: the request for the client's provider; None for a provider
      that the set-up would have refused. */
  function Generate(provider: string, model: Option<string>, system: Option<string>,
                    messages: Option<seq<Message>>, prompt: string, maxTokens: Option<int>): (r: Option<Result<Request>>)
    ensures r.Some? <==> provider in Providers
    ensures provider == OpenAi ==> r == Some(Ok(OpenAiChat(model, OpenAiMessages(system, messages, prompt), maxTokens)))
    ensures provider == Anthropic ==>
      r == Some(Ok(AnthropicChat(model, system, AnthropicMessages(messages, prompt), AnthropicMaxTokens(maxTokens))))
    ensures provider == Gemini ==> r == Some(GeminiRequest(model, system, messages, prompt, maxTokens))
  {
    if provider == OpenAi then Some(Ok(OpenAiChat(model, OpenAiMessages(system, messages, prompt), maxTokens)))
    else if provider == Anthropic then
      Some(Ok(AnthropicChat(model, system, AnthropicMessages(messages, prompt), AnthropicMaxTokens(maxTokens))))
    else if provider == Gemini then Some(GeminiRequest(model, system, messages, prompt, maxTokens))
    else None
  }

  /** The Gemini history loop: the turns it sends, or the KeyError that
      stops it. */
  method SendHistory(messages: seq<Message>) returns (r: Result<seq<string>>)
    ensures r == UserTurns(messages)
  {
    var sent: seq<string> := [];
    var i := 0;
    while i < |messages|
      invariant 0 <= i <= |messages|
      invariant UserTurns(messages[..i]) == Ok(sent)
    {
      var msg := messages[i];
      assert messages[..i + 1][..i] == messages[..i];
      if msg.role.None? {
        UserTurnsKeepsError(messages, i + 1);
        assert messages[..i + 1][i] == msg;
        return Err(KeyError);
      }
      if msg.role.value == "user" {
        if msg.content.None? {
          UserTurnsKeepsError(messages, i + 1);
          return Err(KeyError);
        }
        sent := sent + [msg.content.value];
      }
      i := i + 1;
    }
    assert messages[..i] == messages;
    return Ok(sent);
  }

  /** Once a prefix of the history fails, the whole history fails the same
      way. */
  lemma {:induction false} UserTurnsKeepsError(ms: seq<Message>, n: nat)
    requires n <= |ms|
    requires UserTurns(ms[..n]).Err?
    ensures UserTurns(ms) == UserTurns(ms[..n])
    decreases |ms| - n
  {
    if n < |ms| {
      assert ms[..n + 1][..n] == ms[..n];
      UserTurnsKeepsError(ms, n + 1);
    } else {
      assert ms[..n] == ms;
    }
  }
}
