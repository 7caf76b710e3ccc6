/** Runtime-build options: capabilities and the environment handed to a new agent. */
module Types {
  import opened Common

  /** Features a running agent was built with; `None` means the version was never set. */
  datatype RuntimeCapabilities = RuntimeCapabilities(contextVersion: Option<nat>) {
    /** Can an agent with these capabilities serve a caller that asks for `requested`? */
    predicate Satisfies(requested: RuntimeCapabilities) {
      match requested.contextVersion
      case Some(version) => contextVersion.Some? && contextVersion.value >= version
      case None => true
    }
  }

  /** `Satisfies` is a total preorder: what a stronger agent serves, a weaker request also gets. */
  lemma SatisfiesIsPreorder(a: RuntimeCapabilities, b: RuntimeCapabilities, c: RuntimeCapabilities)
    ensures a.Satisfies(a)
    ensures a.Satisfies(b) && b.Satisfies(c) ==> a.Satisfies(c)
    ensures a.Satisfies(b) || b.Satisfies(a)
  {
  }

  // ---------------------------------------------------------------- environments

  type Env = seq<(string, string)>

  const USER_ID_ENV := "AIONUI_USER_ID"
  const CONVERSATION_ID_ENV := "AIONUI_CONVERSATION_ID"
  const HELPER_BIN_ENV := "AIONUI_HELPER_BIN"
  const BASE_URL_ENV := "AIONUI_BASE_URL"
  const RUNTIME_TOKEN_ENV := "AIONUI_RUNTIME_TOKEN"
  const CONVERSATION_RUNTIME_CONTEXT_VERSION: nat := 2

  const CONTEXT_KEYS: set<string> :=
    {USER_ID_ENV, CONVERSATION_ID_ENV, HELPER_BIN_ENV, BASE_URL_ENV, RUNTIME_TOKEN_ENV}

  /** `retain`: the entries whose key is not in `keys`, in order. */
  function Without(env: Env, keys: set<string>): Env {
    if env == [] then []
    else (if env[0].0 in keys then [] else [env[0]]) + Without(env[1..], keys)
  }

  /** The values an environment holds for `key`, in order. */
  function ValuesOf(env: Env, key: string): seq<string> {
    if env == [] then []
    else (if env[0].0 == key then [env[0].1] else []) + ValuesOf(env[1..], key)
  }

  function Entry(key: string, value: Option<string>): Env {
    if value.Some? then [(key, value.value)] else []
  }

  lemma {:induction false} WithoutConcat(a: Env, b: Env, keys: set<string>)
    ensures Without(a + b, keys) == Without(a, keys) + Without(b, keys)
  {
    if a == [] {
      assert a + b == b;
    } else {
      WithoutConcat(a[1..], b, keys);
      assert (a + b)[1..] == a[1..] + b && (a + b)[0] == a[0];
      var first: Env := if a[0].0 in keys then [] else [a[0]];
      assert first + (Without(a[1..], keys) + Without(b, keys)) == first + Without(a[1..], keys) + Without(b, keys);
    }
  }

  lemma {:induction false} ValuesConcat(a: Env, b: Env, key: string)
    ensures ValuesOf(a + b, key) == ValuesOf(a, key) + ValuesOf(b, key)
  {
    if a == [] {
      assert a + b == b;
    } else {
      ValuesConcat(a[1..], b, key);
      assert (a + b)[1..] == a[1..] + b;
    }
  }

  /** Retaining removes every value of the dropped keys and none of the others. */
  lemma {:induction false} WithoutValues(env: Env, keys: set<string>, key: string)
    ensures ValuesOf(Without(env, keys), key) == if key in keys then [] else ValuesOf(env, key)
  {
    if env != [] {
      WithoutValues(env[1..], keys, key);
      ValuesConcat(if env[0].0 in keys then [] else [env[0]], Without(env[1..], keys), key);
      assert [env[0]][1..] == [];
    }
  }

  lemma {:induction false} WithoutTwice(env: Env, keys: set<string>)
    ensures Without(Without(env, keys), keys) == Without(env, keys)
  {
    if env != [] {
      WithoutTwice(env[1..], keys);
      if env[0].0 in keys {
        assert Without(env, keys) == Without(env[1..], keys);
      } else {
        assert Without(env, keys) == [env[0]] + Without(env[1..], keys);
        assert Without(env, keys)[1..] == Without(env[1..], keys);
      }
    }
  }

  /** Dropping one key and pushing a value leaves exactly that value, and the other keys alone. */
  lemma ReplacedEntry(env: Env, key: string, value: string, other: string)
    ensures ValuesOf(Without(env, {key}) + [(key, value)], key) == [value]
    ensures other != key ==> ValuesOf(Without(env, {key}) + [(key, value)], other) == ValuesOf(env, other)
  {
    var pushed: Env := [(key, value)];
    assert pushed[1..] == [];
    ValuesConcat(Without(env, {key}), pushed, key);
    ValuesConcat(Without(env, {key}), pushed, other);
    WithoutValues(env, {key}, key);
    WithoutValues(env, {key}, other);
  }

  // ---------------------------------------------------------------- the conversation context

  /** What one application of the conversation context adds. */
  datatype ConversationContext = ConversationContext(
    userId: string, conversationId: string, helperBin: Option<string>, baseUrl: Option<string>, token: Option<string>)
  {
    function Entries(): Env {
      [(USER_ID_ENV, userId), (CONVERSATION_ID_ENV, conversationId)]
      + Entry(HELPER_BIN_ENV, helperBin) + Entry(BASE_URL_ENV, baseUrl) + Entry(RUNTIME_TOKEN_ENV, token)
    }
  }

  lemma EntriesAreOwned(c: ConversationContext)
    ensures Without(c.Entries(), CONTEXT_KEYS) == []
  {
    var e := c.Entries();
    assert forall i :: 0 <= i < |e| ==> e[i].0 in CONTEXT_KEYS;
    AllDropped(e, CONTEXT_KEYS);
  }

  lemma {:induction false} AllDropped(env: Env, keys: set<string>)
    requires forall i :: 0 <= i < |env| ==> env[i].0 in keys
    ensures Without(env, keys) == []
  {
    if env != [] { AllDropped(env[1..], keys); }
  }

  class BuildTaskOptions {
    const userId: string
    const conversationId: string
    const teamBound: bool
    var runtimeEnv: Env
    var capabilities: RuntimeCapabilities

    constructor (userId: string, conversationId: string, teamBound: bool, env: Env, capabilities: RuntimeCapabilities)
      ensures this.userId == userId && this.conversationId == conversationId && this.teamBound == teamBound
      ensures runtimeEnv == env && this.capabilities == capabilities
    {
      this.userId, this.conversationId, this.teamBound := userId, conversationId, teamBound;
      runtimeEnv, this.capabilities := env, capabilities;
    }

    /** Appends an entry when there is a value for it. */
    method Push(key: string, value: Option<string>)
      modifies `runtimeEnv
      ensures runtimeEnv == old(runtimeEnv) + Entry(key, value)
    {
      if value.Some? { runtimeEnv := runtimeEnv + [(key, value.value)]; }
    }

    method ApplyConversationRuntimeContext(c: ConversationContext)
      modifies this
      ensures runtimeEnv == Without(old(runtimeEnv), CONTEXT_KEYS) + c.Entries()
      ensures capabilities == RuntimeCapabilities(Some(2))
    {
      runtimeEnv := Without(runtimeEnv, CONTEXT_KEYS);
      Push(USER_ID_ENV, Some(c.userId));
      Push(CONVERSATION_ID_ENV, Some(c.conversationId));
      Push(HELPER_BIN_ENV, c.helperBin);
      Push(BASE_URL_ENV, c.baseUrl);
      Push(RUNTIME_TOKEN_ENV, c.token);
      assert c.Entries() == Entry(USER_ID_ENV, Some(c.userId)) + Entry(CONVERSATION_ID_ENV, Some(c.conversationId))
                            + Entry(HELPER_BIN_ENV, c.helperBin) + Entry(BASE_URL_ENV, c.baseUrl)
                            + Entry(RUNTIME_TOKEN_ENV, c.token);
      capabilities := RuntimeCapabilities(Some(CONVERSATION_RUNTIME_CONTEXT_VERSION));
    }

    /** Replaces the runtime-token entry. */
    method SetRuntimeToken(token: string)
      modifies `runtimeEnv
      ensures runtimeEnv == Without(old(runtimeEnv), {RUNTIME_TOKEN_ENV}) + [(RUNTIME_TOKEN_ENV, token)]
    {
      runtimeEnv := Without(runtimeEnv, {RUNTIME_TOKEN_ENV});
      runtimeEnv := runtimeEnv + [(RUNTIME_TOKEN_ENV, token)];
    }
  }

  /** Applying a second context leaves no trace of the first. */
  lemma LastContextWins(env: Env, first: ConversationContext, second: ConversationContext)
    ensures Without(Without(env, CONTEXT_KEYS) + first.Entries(), CONTEXT_KEYS) + second.Entries()
            == Without(env, CONTEXT_KEYS) + second.Entries()
  {
    WithoutConcat(Without(env, CONTEXT_KEYS), first.Entries(), CONTEXT_KEYS);
    WithoutTwice(env, CONTEXT_KEYS);
    EntriesAreOwned(first);
  }

  lemma OneEntry(key: string, value: Option<string>, other: string)
    ensures ValuesOf(Entry(key, value), other) == if other == key && value.Some? then [value.value] else []
  {
    if value.Some? { assert [(key, value.value)][1..] == []; }
  }

  lemma EntriesRead(c: ConversationContext, key: string)
    ensures ValuesOf(c.Entries(), key)
            == ValuesOf(Entry(USER_ID_ENV, Some(c.userId)), key)
               + ValuesOf(Entry(CONVERSATION_ID_ENV, Some(c.conversationId)), key)
               + ValuesOf(Entry(HELPER_BIN_ENV, c.helperBin), key) + ValuesOf(Entry(BASE_URL_ENV, c.baseUrl), key)
               + ValuesOf(Entry(RUNTIME_TOKEN_ENV, c.token), key)
  {
    var ids: Env := Entry(USER_ID_ENV, Some(c.userId)) + Entry(CONVERSATION_ID_ENV, Some(c.conversationId));
    assert c.Entries() == ids + Entry(HELPER_BIN_ENV, c.helperBin) + Entry(BASE_URL_ENV, c.baseUrl)
                          + Entry(RUNTIME_TOKEN_ENV, c.token);
    ValuesConcat(Entry(USER_ID_ENV, Some(c.userId)), Entry(CONVERSATION_ID_ENV, Some(c.conversationId)), key);
    ValuesConcat(ids, Entry(HELPER_BIN_ENV, c.helperBin), key);
    ValuesConcat(ids + Entry(HELPER_BIN_ENV, c.helperBin), Entry(BASE_URL_ENV, c.baseUrl), key);
    ValuesConcat(ids + Entry(HELPER_BIN_ENV, c.helperBin) + Entry(BASE_URL_ENV, c.baseUrl),
                 Entry(RUNTIME_TOKEN_ENV, c.token), key);
  }

  /** The five names are different: by length, or by their first letter after the common prefix. */
  lemma NamesDiffer()
    ensures |USER_ID_ENV| == 14 && |CONVERSATION_ID_ENV| == 22 && |HELPER_BIN_ENV| == 17 && |BASE_URL_ENV| == 15
            && |RUNTIME_TOKEN_ENV| == 20
  {
  }

  /** The value of an option, as the list of what an environment then holds. */
  function AsList(value: Option<string>): seq<string> { if value.Some? then [value.value] else [] }

  /**
   A process started after the context has been applied reads each of the five variables exactly as given, whatever
   they were before, and every other variable as it was.
   */
  lemma ContextIsRead(env: Env, c: ConversationContext, key: string)
    ensures ValuesOf(Without(env, CONTEXT_KEYS) + c.Entries(), key)
            == if key == "AIONUI_USER_ID" then [c.userId]
               else if key == "AIONUI_CONVERSATION_ID" then [c.conversationId]
               else if key == "AIONUI_HELPER_BIN" then AsList(c.helperBin)
               else if key == "AIONUI_BASE_URL" then AsList(c.baseUrl)
               else if key == "AIONUI_RUNTIME_TOKEN" then AsList(c.token)
               else ValuesOf(env, key)
  {
    NamesDiffer();
    ValuesConcat(Without(env, CONTEXT_KEYS), c.Entries(), key);
    WithoutValues(env, CONTEXT_KEYS, key);
    EntriesRead(c, key);
    OneEntry(USER_ID_ENV, Some(c.userId), key);
    OneEntry(CONVERSATION_ID_ENV, Some(c.conversationId), key);
    OneEntry(HELPER_BIN_ENV, c.helperBin, key);
    OneEntry(BASE_URL_ENV, c.baseUrl, key);
    OneEntry(RUNTIME_TOKEN_ENV, c.token, key);
  }
}
