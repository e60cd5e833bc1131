/** The Gemini wrapper of the first generation (llm.py): the choice of API key
    and the flattening of role/content chat messages into one prompt text. */
module GeminiLlm {
  import opened Common
  import opened Text

  const GoogleApiKeyVar := "GOOGLE_API_KEY"
  const GoogleApiVar := "GOOGLE_API"
  const GeminiApiKeyVar := "GEMINI_API_KEY"

  const UserPrefix := "User: "
  const AssistantPrefix := "Assistant: "
  const SystemPrefix := "System: "

  /** `os.getenv(name)` over an environment given as a map. */
  function Getenv(env: map<string, string>, name: string): (v: Option<string>)
    ensures v.Some? <==> name in env
    ensures v.Some? ==> v.value == env[name]
  {
    if name in env then Some(env[name]) else None
  }

  /** Python's `a or b or ...` over optional strings, when only a truthy value
      is accepted afterwards: the first truthy candidate. */
  function FirstTruthy(cands: seq<Option<string>>): (r: Option<string>)
    ensures r.Some? <==> exists i :: 0 <= i < |cands| && Truthy(cands[i])
    ensures r.Some? ==> r.value != ""
    ensures forall i :: 0 <= i < |cands| && Truthy(cands[i]) && (forall j :: 0 <= j < i ==> !Truthy(cands[j])) ==>
      r == cands[i]
  {
    if cands == [] then None
    else if Truthy(cands[0]) then cands[0]
    else
      assert forall i :: 1 <= i < |cands| ==> cands[i] == cands[1..][i - 1];
      FirstTruthy(cands[1..])
  }

  /** The candidates `LLM.__init__` looks at, in order. */
  function KeyCandidates(apiKey: Option<string>, env: map<string, string>): seq<Option<string>> {
    [apiKey, Getenv(env, GoogleApiKeyVar), Getenv(env, GoogleApiVar), Getenv(env, GeminiApiKeyVar)]
  }

  /** The key `LLM.__init__` settles on, or the ValueError it raises. */
  function ResolveGoogleKey(apiKey: Option<string>, env: map<string, string>): (r: Result<string>)
    ensures r.Ok? ==> r.value != ""
    ensures r.Err? <==> forall i :: 0 <= i < 4 ==> !Truthy(KeyCandidates(apiKey, env)[i])
    ensures r.Err? ==> r.error == ValueError
  {
    var key := FirstTruthy(KeyCandidates(apiKey, env));
    if key.Some? then Ok(key.value) else Err(ValueError)
  }

  /** The explicit argument wins when truthy; otherwise GOOGLE_API_KEY, then
      GOOGLE_API, then GEMINI_API_KEY, the first that is set and non-empty. */
  lemma ResolveGoogleKeyOrder(apiKey: Option<string>, env: map<string, string>)
    ensures Truthy(apiKey) ==> ResolveGoogleKey(apiKey, env) == Ok(apiKey.value)
    ensures !Truthy(apiKey) && Truthy(Getenv(env, GoogleApiKeyVar)) ==>
      ResolveGoogleKey(apiKey, env) == Ok(env[GoogleApiKeyVar])
    ensures !Truthy(apiKey) && !Truthy(Getenv(env, GoogleApiKeyVar)) && Truthy(Getenv(env, GoogleApiVar)) ==>
      ResolveGoogleKey(apiKey, env) == Ok(env[GoogleApiVar])
    ensures (!Truthy(apiKey) && !Truthy(Getenv(env, GoogleApiKeyVar)) && !Truthy(Getenv(env, GoogleApiVar)) &&
             Truthy(Getenv(env, GeminiApiKeyVar))) ==>
      ResolveGoogleKey(apiKey, env) == Ok(env[GeminiApiKeyVar])
  {
    var cands := KeyCandidates(apiKey, env);
    if Truthy(cands[0]) {
    } else if Truthy(cands[1]) {
      assert forall j :: 0 <= j < 1 ==> !Truthy(cands[j]);
    } else if Truthy(cands[2]) {
      assert forall j :: 0 <= j < 2 ==> !Truthy(cands[j]);
    } else if Truthy(cands[3]) {
      assert forall j :: 0 <= j < 3 ==> !Truthy(cands[j]);
    }
  }

  // ---------------------------------------------------------------- messages

  /** The line prefix of a role, matched after lower-casing; a missing role is
      the empty string and, like any other role, has no prefix. */
  function RolePrefix(role: Option<string>): (prefix: Option<string>)
    ensures role.None? ==> prefix.None?
    ensures prefix.Some? ==> prefix.value == UserPrefix || prefix.value == AssistantPrefix || prefix.value == SystemPrefix
  {
    var r := Lower(role.GetOr(""));
    if r == "user" then Some(UserPrefix)
    else if r == "assistant" then Some(AssistantPrefix)
    else if r == "system" then Some(SystemPrefix)
    else None
  }

  /** The entry a message contributes (without its newline): its role prefix
      and its content, a missing content read as empty. */
  function Entry(m: Message): Option<string> {
    var p := RolePrefix(m.role);
    if p.Some? then Some(p.value + m.content.GetOr("")) else None
  }

  /** The entries of the recognised messages, in input order. */
  function Entries(ms: seq<Message>): (es: seq<string>)
    ensures |es| <= |ms|
  {
    if ms == [] then []
    else
      var e := Entry(ms[|ms| - 1]);
      Entries(ms[..|ms| - 1]) + (if e.Some? then [e.value] else [])
  }

  /** The text built up before stripping: every entry followed by a newline. */
  function GeminiText(ms: seq<Message>): string {
    if ms == [] then ""
    else
      var e := Entry(ms[|ms| - 1]);
      GeminiText(ms[..|ms| - 1]) + (if e.Some? then e.value + "\n" else "")
  }

  /** `_convert_messages_to_gemini_format`: the built text, stripped. */
  function GeminiFormat(ms: seq<Message>): (r: string)
    ensures r == [] || (!IsSpace(r[0]) && !IsSpace(r[|r| - 1]))
    ensures r == [] <==> AllSpace(GeminiText(ms))
    ensures ms == [] ==> r == ""
    ensures |r| <= |GeminiText(ms)| && r == GeminiText(ms)[..|r|] && AllSpace(GeminiText(ms)[|r|..])
  {
    GeminiTextStart(ms);
    StripUnindented(GeminiText(ms));
    Strip(GeminiText(ms))
  }

  /** The built text never opens with whitespace: every entry starts with
      the capital letter of its role prefix. */
  lemma {:induction false} GeminiTextStart(ms: seq<Message>)
    ensures LeadingSpace(GeminiText(ms)) == 0
    decreases |ms|
  {
    var t := GeminiText(ms);
    if ms != [] {
      var init := ms[..|ms| - 1];
      var e := Entry(ms[|ms| - 1]);
      GeminiTextStart(init);
      if GeminiText(init) != [] {
        assert t[0] == GeminiText(init)[0];
      } else if e.Some? {
        assert t == e.value + "\n";
        assert t[0] in "USA";
      }
    }
  }

  /** The loop of `_convert_messages_to_gemini_format`. */
  method ConvertMessagesToGeminiFormat(messages: seq<Message>) returns (text: string)
    ensures text == GeminiFormat(messages)
  {
    var formatted := "";
    var i := 0;
    while i < |messages|
      invariant 0 <= i <= |messages|
      invariant formatted == GeminiText(messages[..i])
    {
      var message := messages[i];
      var role := Lower(message.role.GetOr(""));
      var content := message.content.GetOr("");
      assert messages[..i + 1][..i] == messages[..i];
      if role == "user" {
        formatted := formatted + UserPrefix + content + "\n";
      } else if role == "assistant" {
        formatted := formatted + AssistantPrefix + content + "\n";
      } else if role == "system" {
        formatted := formatted + SystemPrefix + content + "\n";
      }
      i := i + 1;
    }
    assert messages[..i] == messages;
    text := Strip(formatted);
  }

  // ---------------------------------------------------------------- properties

  /** Lower-casing twice is lower-casing once. */
  lemma LowerIdempotent(s: string)
    ensures Lower(Lower(s)) == Lower(s)
  {
  }

  /** Role matching ignores case: a role and its lower-cased form get the same
      prefix. */
  lemma RolePrefixIgnoresCase(role: string)
    ensures RolePrefix(Some(role)) == RolePrefix(Some(Lower(role)))
  {
    LowerIdempotent(role);
  }

  /** Only the three roles are recognised; the role name is capitalised in the
      prefix. */
  lemma RolePrefixCases(role: Option<string>)
    ensures RolePrefix(role).Some? <==> Lower(role.GetOr("")) in ["user", "assistant", "system"]
    ensures Lower(role.GetOr("")) == "user" ==> RolePrefix(role) == Some("User: ")
    ensures Lower(role.GetOr("")) == "assistant" ==> RolePrefix(role) == Some("Assistant: ")
    ensures Lower(role.GetOr("")) == "system" ==> RolePrefix(role) == Some("System: ")
  {
  }

  /** Entries of a concatenation: order is kept, nothing is shared. */
  lemma {:induction false} EntriesAppend(a: seq<Message>, b: seq<Message>)
    ensures Entries(a + b) == Entries(a) + Entries(b)
    decreases |b|
  {
    if b == [] {
      assert a + b == a;
    } else {
      var n := |b| - 1;
      assert (a + b)[..|a + b| - 1] == a + b[..n];
      assert (a + b)[|a + b| - 1] == b[n];
      EntriesAppend(a, b[..n]);
    }
  }

  /** A message whose role is not recognised contributes nothing; one whose
      role is contributes exactly its entry. */
  lemma EntriesOfOne(m: Message)
    ensures RolePrefix(m.role).None? ==> Entries([m]) == []
    ensures RolePrefix(m.role).Some? ==> Entries([m]) == [RolePrefix(m.role).value + m.content.GetOr("")]
  {
    assert [m][..0] == [];
  }

  /** The built text is the entries, each terminated by a newline. */
  lemma {:induction false} GeminiTextTerminated(ms: seq<Message>)
    ensures GeminiText(ms) == Concat(Terminated(Entries(ms)))
    decreases |ms|
  {
    if ms != [] {
      var init := ms[..|ms| - 1];
      var e := Entry(ms[|ms| - 1]);
      GeminiTextTerminated(init);
      if e.Some? {
        assert Terminated(Entries(ms)) == Terminated(Entries(init)) + [e.value + "\n"];
        ConcatAppend(Terminated(Entries(init)), e.value + "\n");
      } else {
        assert Entries(ms) == Entries(init);
      }
    }
  }

  /** Whenever no content holds a newline, splitting the built text on
      newlines gives back the entries, then the empty remainder after the last
      newline. */
  lemma GeminiTextLines(ms: seq<Message>)
    requires forall k :: 0 <= k < |ms| ==> '\n' !in ms[k].content.GetOr("")
    ensures SplitOn(GeminiText(ms), '\n') == Entries(ms) + [""]
  {
    EntriesAvoidNewline(ms);
    GeminiTextTerminated(ms);
    SplitTerminated(Entries(ms));
  }

  lemma {:induction false} EntriesAvoidNewline(ms: seq<Message>)
    requires forall k :: 0 <= k < |ms| ==> '\n' !in ms[k].content.GetOr("")
    ensures forall k :: 0 <= k < |Entries(ms)| ==> '\n' !in Entries(ms)[k]
    decreases |ms|
  {
    if ms != [] {
      var init := ms[..|ms| - 1];
      var m := ms[|ms| - 1];
      EntriesAvoidNewline(init);
      var p := RolePrefix(m.role);
      if p.Some? {
        var e := p.value + m.content.GetOr("");
        assert '\n' !in p.value;
        assert forall c :: c in e ==> c in p.value || c in m.content.GetOr("");
      }
    }
  }
}
