/**
 * The conversation store of backend/conversation_manager.py: messages and
 * conversations, their dictionary form (to_dict / from_dict), and the manager
 * that keeps conversations by id, appends messages with a running token
 * total, projects the transcript for the model, trims old messages, lists,
 * deletes, retitles, exports and imports.
 *
 * The clock is abstract: an Instant is ordered by its tick and carries the
 * "%Y-%m-%d %H:%M" text used in default titles. Fresh uuid4 values are
 * supplied by the caller.
 */
module Conversations {
  import opened Wrappers
  import opened Sorting

  datatype Instant = Instant(tick: nat, minuteStamp: string)

  /**
   * A JSON-compatible value as to_dict produces it. JTime stands for the
   * ISO-8601 text of an instant: isoformat and fromisoformat are taken to be
   * exact inverses.
   */
  datatype Json =
    | JNull
    | JBool(b: bool)
    | JInt(i: int)
    | JString(s: string)
    | JTime(t: Instant)
    | JArray(items: seq<Json>)
    | JObject(fields: map<string, Json>)

  /** ChatMessage; metadata is a JSON object or JNull for None */
  datatype Message = Message(
    id: string,
    role: string,
    content: string,
    timestamp: Instant,
    tokenCount: Option<int>,
    metadata: Json)

  datatype Conversation = Conversation(
    id: string,
    title: string,
    modelId: string,
    messages: seq<Message>,
    createdAt: Instant,
    updatedAt: Instant,
    totalTokens: int,
    maxTokens: int,
    systemPrompt: Option<string>)

  /** ValueError for an unknown id; Malformed for what from_dict raises on (KeyError, TypeError, ValueError) */
  datatype Error = NotFound(id: string) | Malformed

  /** one entry of the OpenAI-style transcript */
  datatype Turn = Turn(role: string, content: string)

  /** one entry of list_conversations */
  datatype Summary = Summary(
    id: string,
    title: string,
    modelId: string,
    messageCount: nat,
    createdAt: Instant,
    updatedAt: Instant)

  const DefaultMaxTokens: int := 8192

  const DefaultSystemPrompt: string :=
    "You are a helpful AI assistant running locally on the user's device. You are knowledgeable, friendly, and concise. You can help with a wide variety of tasks including:\n"
    + "- Answering questions and providing information\n"
    + "- Writing and creative tasks  \n"
    + "- Analysis and reasoning\n"
    + "- Coding and technical help\n"
    + "- General conversation\n"
    + "\n"
    + "Respond naturally and be helpful while being mindful of context length."

  /** `if s:` for an optional string: present and non-empty */
  predicate Truthy(s: Option<string>) {
    s.Some? && s.value != ""
  }

  // ---------------------------------------------------------------------
  // Token accounting

  /** what a message adds to the running total: its token count when truthy, else nothing */
  function Credit(m: Message): int {
    match m.tokenCount
    case Some(n) => n
    case None => 0
  }

  function Credits(ms: seq<Message>): int {
    if ms == [] then 0 else Credits(ms[..|ms| - 1]) + Credit(ms[|ms| - 1])
  }

  // ---------------------------------------------------------------------
  // create_conversation

  /**
   * The conversation create_conversation stores: no tokens counted, and one
   * system message holding the given prompt, or the default prompt when the
   * given one is missing or empty, so the message is never empty. A missing
   * or empty title becomes "Chat <minute stamp>".
   */
  function NewConversation(
    id: string, modelId: string, title: Option<string>, systemPrompt: Option<string>,
    maxTokens: int, messageId: string, now: Instant): (c: Conversation)
    ensures c.id == id && c.modelId == modelId && c.maxTokens == maxTokens
    ensures c.createdAt == now && c.updatedAt == now
    ensures c.totalTokens == 0
    ensures c.title == if Truthy(title) then title.value else "Chat " + now.minuteStamp
    ensures |c.messages| == 1 && c.messages[0].role == "system" && c.messages[0].content != ""
    ensures c.messages[0].content == if Truthy(systemPrompt) then systemPrompt.value else DefaultSystemPrompt
    ensures c.systemPrompt == Some(c.messages[0].content)
  {
    var title := if Truthy(title) then title.value else "Chat " + now.minuteStamp;
    var prompt := if Truthy(systemPrompt) then systemPrompt.value else DefaultSystemPrompt;
    var system := Message(messageId, "system", prompt, now, None, JNull);
    Conversation(id, title, modelId, [system], now, now, 0, maxTokens, Some(prompt))
  }

  // ---------------------------------------------------------------------
  // trim_conversation, as a function of the conversation

  predicate IsSystem(m: Message) {
    m.role == "system"
  }

  /** `[msg for msg in messages if msg.role == 'system']` */
  function SystemPart(ms: seq<Message>): (r: seq<Message>)
    ensures |r| <= |ms|
    ensures forall i :: 0 <= i < |r| ==> IsSystem(r[i])
  {
    if ms == [] then [] else (if IsSystem(ms[0]) then [ms[0]] else []) + SystemPart(ms[1..])
  }

  /** `[msg for msg in messages if msg.role != 'system']` */
  function OtherPart(ms: seq<Message>): (r: seq<Message>)
    ensures |r| <= |ms|
    ensures forall i :: 0 <= i < |r| ==> !IsSystem(r[i])
  {
    if ms == [] then [] else (if IsSystem(ms[0]) then [] else [ms[0]]) + OtherPart(ms[1..])
  }

  /**
   * total <= target, where the default target is 75% of max_tokens
   * (`max_tokens * 0.75`, exact in binary, scaled to integers)
   */
  predicate WithinTarget(total: int, target: Option<int>, maxTokens: int) {
    match target
    case Some(t) => total <= t
    case None => 4 * total <= 3 * maxTokens
  }

  /** how many of the oldest non-system messages the loop pops, starting from the given total */
  function TrimCount(others: seq<Message>, current: int, target: Option<int>, maxTokens: int): (k: nat)
    ensures |others| <= 2 ==> k == 0
    ensures |others| > 2 ==> k <= |others| - 2
    decreases |others|
  {
    if WithinTarget(current, target, maxTokens) || |others| <= 2 then 0
    else 1 + TrimCount(others[1..], current - Credit(others[0]), target, maxTokens)
  }

  /** the trimmed conversation and the number of messages removed */
  function Trimmed(c: Conversation, target: Option<int>): (Conversation, nat) {
    if WithinTarget(c.totalTokens, target, c.maxTokens) then (c, 0)
    else
      var others := OtherPart(c.messages);
      var k := TrimCount(others, c.totalTokens, target, c.maxTokens);
      (c.(messages := SystemPart(c.messages) + others[k..], totalTokens := c.totalTokens - Credits(others[..k])), k)
  }

  // ---------------------------------------------------------------------
  // Properties of trimming

  /** The two filters split the messages: every message lands in exactly one part. */
  lemma {:induction false} PartsSplit(ms: seq<Message>)
    ensures |SystemPart(ms)| + |OtherPart(ms)| == |ms|
    ensures multiset(SystemPart(ms)) + multiset(OtherPart(ms)) == multiset(ms)
    decreases |ms|
  {
    if ms != [] {
      PartsSplit(ms[1..]);
      assert ms == [ms[0]] + ms[1..];
    }
  }

  lemma PartsOfConcat(a: seq<Message>, b: seq<Message>)
    ensures SystemPart(a + b) == SystemPart(a) + SystemPart(b)
    ensures OtherPart(a + b) == OtherPart(a) + OtherPart(b)
  {
    SystemPartConcat(a, b);
    OtherPartConcat(a, b);
  }

  lemma {:induction false} SystemPartConcat(a: seq<Message>, b: seq<Message>)
    ensures SystemPart(a + b) == SystemPart(a) + SystemPart(b)
    decreases |a|
  {
    if a == [] {
      assert a + b == b;
    } else {
      var ab := a + b;
      assert ab[0] == a[0] && ab[1..] == a[1..] + b;
      var h: seq<Message> := if IsSystem(a[0]) then [a[0]] else [];
      calc {
        SystemPart(ab);
        h + SystemPart(a[1..] + b);
        { SystemPartConcat(a[1..], b); }
        h + (SystemPart(a[1..]) + SystemPart(b));
        (h + SystemPart(a[1..])) + SystemPart(b);
      }
    }
  }

  lemma {:induction false} OtherPartConcat(a: seq<Message>, b: seq<Message>)
    ensures OtherPart(a + b) == OtherPart(a) + OtherPart(b)
    decreases |a|
  {
    if a == [] {
      assert a + b == b;
    } else {
      var ab := a + b;
      assert ab[0] == a[0] && ab[1..] == a[1..] + b;
      var h: seq<Message> := if IsSystem(a[0]) then [] else [a[0]];
      calc {
        OtherPart(ab);
        h + OtherPart(a[1..] + b);
        { OtherPartConcat(a[1..], b); }
        h + (OtherPart(a[1..]) + OtherPart(b));
        (h + OtherPart(a[1..])) + OtherPart(b);
      }
    }
  }

  /** Filtering messages that are all system messages keeps them all. */
  lemma {:induction false} AllSystemParts(ms: seq<Message>)
    requires forall i :: 0 <= i < |ms| ==> IsSystem(ms[i])
    ensures SystemPart(ms) == ms && OtherPart(ms) == []
    decreases |ms|
  {
    if ms != [] {
      assert forall i :: 0 <= i < |ms[1..]| ==> ms[1..][i] == ms[i + 1];
      AllSystemParts(ms[1..]);
    }
  }

  /** Filtering messages none of which is a system message keeps them all among the others. */
  lemma {:induction false} NoSystemParts(ms: seq<Message>)
    requires forall i :: 0 <= i < |ms| ==> !IsSystem(ms[i])
    ensures SystemPart(ms) == [] && OtherPart(ms) == ms
    decreases |ms|
  {
    if ms != [] {
      assert forall i :: 0 <= i < |ms[1..]| ==> ms[1..][i] == ms[i + 1];
      NoSystemParts(ms[1..]);
    }
  }

  lemma {:induction false} CreditsConcat(a: seq<Message>, b: seq<Message>)
    ensures Credits(a + b) == Credits(a) + Credits(b)
    decreases |b|
  {
    if b == [] {
      assert a + b == a;
    } else {
      CreditsConcat(a, b[..|b| - 1]);
      assert (a + b)[..|a + b| - 1] == a + b[..|b| - 1];
    }
  }

  /** the running total splits over the two parts */
  lemma {:induction false} CreditsOfParts(ms: seq<Message>)
    ensures Credits(ms) == Credits(SystemPart(ms)) + Credits(OtherPart(ms))
    decreases |ms|
  {
    if ms != [] {
      CreditsOfParts(ms[1..]);
      CreditsConcat([ms[0]], ms[1..]);
      var h: seq<Message> := if IsSystem(ms[0]) then [ms[0]] else [];
      var g: seq<Message> := if IsSystem(ms[0]) then [] else [ms[0]];
      CreditsConcat(h, SystemPart(ms[1..]));
      CreditsConcat(g, OtherPart(ms[1..]));
      assert Credits([ms[0]]) == Credit(ms[0]);
      assert [ms[0]] + ms[1..] == ms;
    }
  }

  /** The loop stops when the total is within the target or only two messages are left. */
  lemma {:induction false} TrimCountStops(others: seq<Message>, current: int, target: Option<int>, maxTokens: int)
    ensures var k := TrimCount(others, current, target, maxTokens);
      k <= |others| && (WithinTarget(current - Credits(others[..k]), target, maxTokens) || |others| - k <= 2)
    decreases |others|
  {
    var k := TrimCount(others, current, target, maxTokens);
    if k == 0 {
      assert others[..0] == [];
    } else {
      TrimCountStops(others[1..], current - Credit(others[0]), target, maxTokens);
      CreditsConcat([others[0]], others[1..][..k - 1]);
      assert others[..k] == [others[0]] + others[1..][..k - 1];
      assert Credits([others[0]]) == Credit(others[0]);
    }
  }

  /** Before each removal the total was over the target and more than two messages were left. */
  lemma {:induction false} TrimCountMinimal(others: seq<Message>, current: int, target: Option<int>, maxTokens: int, j: nat)
    requires j < TrimCount(others, current, target, maxTokens)
    ensures !WithinTarget(current - Credits(others[..j]), target, maxTokens) && |others| - j > 2
    decreases |others|
  {
    if j == 0 {
      assert others[..0] == [];
    } else {
      TrimCountMinimal(others[1..], current - Credit(others[0]), target, maxTokens, j - 1);
      CreditsConcat([others[0]], others[1..][..j - 1]);
      assert others[..j] == [others[0]] + others[1..][..j - 1];
      assert Credits([others[0]]) == Credit(others[0]);
    }
  }

  /** Within the target, trimming is a no-op that reports zero. */
  lemma TrimWithinTargetNoop(c: Conversation, target: Option<int>)
    requires WithinTarget(c.totalTokens, target, c.maxTokens)
    ensures Trimmed(c, target) == (c, 0)
  {
  }

  /**
   * Trimming removes only the k oldest non-system messages, never a system
   * message; over the target it also moves the system messages to the front.
   * The total drops by exactly what the removed messages counted, and nothing
   * else about the conversation changes.
   */
  lemma TrimRemovesOldestOthers(c: Conversation, target: Option<int>)
    ensures var (t, k) := Trimmed(c, target);
      && k <= |OtherPart(c.messages)|
      && SystemPart(t.messages) == SystemPart(c.messages)
      && OtherPart(t.messages) == OtherPart(c.messages)[k..]
      && |t.messages| == |c.messages| - k
      && t.totalTokens == c.totalTokens - Credits(OtherPart(c.messages)[..k])
      && t == c.(messages := t.messages, totalTokens := t.totalTokens)
      && (!WithinTarget(c.totalTokens, target, c.maxTokens) ==> t.messages == SystemPart(c.messages) + OtherPart(t.messages))
  {
    var (t, k) := Trimmed(c, target);
    PartsSplit(c.messages);
    if !WithinTarget(c.totalTokens, target, c.maxTokens) {
      var sys := SystemPart(c.messages);
      var rest := OtherPart(c.messages)[k..];
      PartsOfConcat(sys, rest);
      AllSystemParts(sys);
      NoSystemParts(rest);
    }
  }

  /**
   * The result is within the target unless only two (or fewer) non-system
   * messages are left, and at least two are kept whenever there were two.
   */
  lemma TrimStops(c: Conversation, target: Option<int>)
    ensures var t := Trimmed(c, target).0;
      && (WithinTarget(t.totalTokens, target, t.maxTokens) || |OtherPart(t.messages)| <= 2)
      && (|OtherPart(c.messages)| >= 2 ==> |OtherPart(t.messages)| >= 2)
      && (|OtherPart(c.messages)| < 2 ==> Trimmed(c, target).1 == 0)
  {
    TrimRemovesOldestOthers(c, target);
    if !WithinTarget(c.totalTokens, target, c.maxTokens) {
      TrimCountStops(OtherPart(c.messages), c.totalTokens, target, c.maxTokens);
    }
  }

  /** Each removal happened while the total was still over the target: no fewer removals would do. */
  lemma TrimMinimal(c: Conversation, target: Option<int>, j: nat)
    requires j < Trimmed(c, target).1
    ensures !WithinTarget(c.totalTokens - Credits(OtherPart(c.messages)[..j]), target, c.maxTokens)
  {
    TrimCountMinimal(OtherPart(c.messages), c.totalTokens, target, c.maxTokens, j);
  }

  /**
   * With every non-system message counting w tokens, trimming to a target t
   * keeps the left most recent ones, where left is the largest count not above
   * t / w, but never fewer than two nor more than there were.
   */
  lemma {:induction false} TrimCountUniform(others: seq<Message>, w: int, t: int, maxTokens: int)
    requires w > 0
    requires forall i :: 0 <= i < |others| ==> Credit(others[i]) == w
    ensures var n := |others|;
      var left := n - TrimCount(others, w * n, Some(t), maxTokens);
      && (n <= 2 ==> left == n)
      && (n > 2 ==> 2 <= left && (w * left <= t || left == 2) && (left == n || w * (left + 1) > t))
    decreases |others|
  {
    var n := |others|;
    if n > 2 && w * n > t {
      TrimCountUniform(others[1..], w, t, maxTokens);
      assert w * n - Credit(others[0]) == w * (n - 1);
    }
  }

  lemma {:induction false} CreditsUniform(ms: seq<Message>, w: int)
    requires forall i :: 0 <= i < |ms| ==> Credit(ms[i]) == w
    ensures Credits(ms) == w * |ms|
    decreases |ms|
  {
    if ms != [] {
      CreditsUniform(ms[..|ms| - 1], w);
    }
  }

  /**
   * A system message and ten others of 50 tokens each, 500 in all, trimmed
   * to 120: the eight oldest go and the two most recent (100 tokens) stay.
   */
  lemma TrimTenMessagesTo120(c: Conversation)
    requires |c.messages| == 11 && IsSystem(c.messages[0]) && c.totalTokens == 500
    requires forall i :: 1 <= i < 11 ==> !IsSystem(c.messages[i]) && Credit(c.messages[i]) == 50
    ensures Trimmed(c, Some(120)) == (c.(messages := [c.messages[0]] + c.messages[9..], totalTokens := 100), 8)
  {
    var rest := c.messages[1..];
    SystemFirst(c.messages);
    assert forall i :: 0 <= i < |rest| ==> Credit(rest[i]) == 50 by {
      forall i | 0 <= i < |rest| ensures Credit(rest[i]) == 50 {
        assert rest[i] == c.messages[i + 1];
      }
    }
    TrimCountUniform(rest, 50, 120, c.maxTokens);
    assert TrimCount(rest, 500, Some(120), c.maxTokens) == 8;
    CreditsUniform(rest[..8], 50);
    assert rest[8..] == c.messages[9..];
  }

  /** A system message followed by non-system ones splits into the first and the rest. */
  lemma SystemFirst(ms: seq<Message>)
    requires |ms| >= 1 && IsSystem(ms[0])
    requires forall i :: 1 <= i < |ms| ==> !IsSystem(ms[i])
    ensures SystemPart(ms) == [ms[0]] && OtherPart(ms) == ms[1..]
  {
    var rest := ms[1..];
    forall i | 0 <= i < |rest|
      ensures !IsSystem(rest[i])
    {
      assert rest[i] == ms[i + 1];
    }
    NoSystemParts(rest);
    assert SystemPart(ms) == [ms[0]] + SystemPart(rest);
    assert OtherPart(ms) == [] + OtherPart(rest);
  }

  /** the stored total is the sum of what the messages count */
  predicate Consistent(c: Conversation) {
    c.totalTokens == Credits(c.messages)
  }

  /** A new conversation is consistent: its one message counts nothing. */
  lemma NewConversationConsistent(
    id: string, modelId: string, title: Option<string>, systemPrompt: Option<string>,
    maxTokens: int, messageId: string, now: Instant)
    ensures Consistent(NewConversation(id, modelId, title, systemPrompt, maxTokens, messageId, now))
  {
    var c := NewConversation(id, modelId, title, systemPrompt, maxTokens, messageId, now);
    assert c.messages[..0] == [];
  }

  /** Appending a message as add_message does keeps the total consistent. */
  lemma AppendConsistent(c: Conversation, m: Message, now: Instant)
    requires Consistent(c)
    ensures Consistent(c.(messages := c.messages + [m], updatedAt := now, totalTokens := c.totalTokens + Credit(m)))
  {
    assert (c.messages + [m])[..|c.messages|] == c.messages;
  }

  /** Trimming keeps the total consistent. */
  lemma TrimConsistent(c: Conversation, target: Option<int>)
    requires Consistent(c)
    ensures Consistent(Trimmed(c, target).0)
  {
    if !WithinTarget(c.totalTokens, target, c.maxTokens) {
      var sys := SystemPart(c.messages);
      var others := OtherPart(c.messages);
      var k := TrimCount(others, c.totalTokens, target, c.maxTokens);
      var pre, post := others[..k], others[k..];
      var t := Trimmed(c, target).0;
      assert t.messages == sys + post;
      assert t.totalTokens == c.totalTokens - Credits(pre);
      CreditsOfParts(c.messages);
      assert pre + post == others;
      CreditsConcat(pre, post);
      CreditsConcat(sys, post);
      assert Credits(t.messages) == Credits(sys) + Credits(post);
      assert c.totalTokens == Credits(sys) + Credits(pre) + Credits(post);
    }
  }

  lemma CreditsStep(ms: seq<Message>, k: nat)
    requires k < |ms|
    ensures Credits(ms[..k + 1]) == Credits(ms[..k]) + Credit(ms[k])
  {
    assert ms[..k + 1][..k] == ms[..k];
  }

  /**
   * One turn of the trimming loop: over the target with more than two left,
   * popping the oldest message keeps the loop's bookkeeping in step.
   */
  lemma TrimLoopStep(
    others0: seq<Message>, k: nat, others: seq<Message>, current: int, total: int,
    target: Option<int>, maxTokens: int, toRemove: nat)
    requires k <= |others0| && others == others0[k..]
    requires current == total - Credits(others0[..k])
    requires k + TrimCount(others, current, target, maxTokens) == toRemove
    requires !WithinTarget(current, target, maxTokens) && |others| > 2
    ensures k + 1 <= |others0| && others[1..] == others0[k + 1..]
    ensures current - Credit(others[0]) == total - Credits(others0[..k + 1])
    ensures k + 1 + TrimCount(others[1..], current - Credit(others[0]), target, maxTokens) == toRemove
  {
    CreditsStep(others0, k);
  }

  // ---------------------------------------------------------------------
  // The dictionary form: to_dict and from_dict

  function JsonOfOptInt(v: Option<int>): Json {
    match v
    case Some(n) => JInt(n)
    case None => JNull
  }

  function JsonOfOptString(v: Option<string>): Json {
    match v
    case Some(s) => JString(s)
    case None => JNull
  }

  /** ChatMessage.to_dict */
  function MessageToJson(m: Message): Json {
    JObject(map[
      "id" := JString(m.id),
      "role" := JString(m.role),
      "content" := JString(m.content),
      "timestamp" := JTime(m.timestamp),
      "token_count" := JsonOfOptInt(m.tokenCount),
      "metadata" := m.metadata])
  }

  /** the keywords ChatMessage accepts, and those without a default */
  const MessageFields: set<string> := {"id", "role", "content", "timestamp", "token_count", "metadata"}
  const MessageRequired: set<string> := {"id", "role", "content", "timestamp"}

  /** the keywords Conversation accepts, and those without a default */
  const ConversationFields: set<string> :=
    {"id", "title", "model_id", "messages", "created_at", "updated_at", "total_tokens", "max_tokens", "system_prompt"}
  const ConversationRequired: set<string> := {"id", "title", "model_id", "messages", "created_at", "updated_at"}

  /** the object's keys are accepted keywords and include every one without a default */
  predicate KeywordsFit(f: map<string, Json>, accepted: set<string>, required: set<string>) {
    f.Keys <= accepted && required <= f.Keys
  }

  /** the field if present, else the dataclass default */
  function FieldOr(f: map<string, Json>, key: string, default: Json): Json {
    if key in f then f[key] else default
  }

  /** ChatMessage.from_dict */
  function MessageFromJson(data: Json): Result<Message, Error> {
    if !data.JObject? || !KeywordsFit(data.fields, MessageFields, MessageRequired) then Err(Malformed)
    else
      var f := data.fields;
      var tokenCount := FieldOr(f, "token_count", JNull);
      if !(f["id"].JString? && f["role"].JString? && f["content"].JString? && f["timestamp"].JTime?) then Err(Malformed)
      else if !(tokenCount.JNull? || tokenCount.JInt?) then Err(Malformed)
      else
        Ok(Message(f["id"].s, f["role"].s, f["content"].s, f["timestamp"].t,
          if tokenCount.JInt? then Some(tokenCount.i) else None,
          FieldOr(f, "metadata", JNull)))
  }

  function MessagesToJson(ms: seq<Message>): (items: seq<Json>)
    ensures |items| == |ms|
  {
    if ms == [] then [] else [MessageToJson(ms[0])] + MessagesToJson(ms[1..])
  }

  /** `[ChatMessage.from_dict(msg) for msg in data['messages']]`: the first failure propagates */
  function MessagesFromJson(items: seq<Json>): Result<seq<Message>, Error> {
    if items == [] then Ok([])
    else
      match MessageFromJson(items[0])
      case Err(e) => Err(e)
      case Ok(m) =>
        match MessagesFromJson(items[1..])
        case Err(e) => Err(e)
        case Ok(rest) => Ok([m] + rest)
  }

  /** Conversation.to_dict */
  function ConversationToJson(c: Conversation): Json {
    JObject(map[
      "id" := JString(c.id),
      "title" := JString(c.title),
      "model_id" := JString(c.modelId),
      "messages" := JArray(MessagesToJson(c.messages)),
      "created_at" := JTime(c.createdAt),
      "updated_at" := JTime(c.updatedAt),
      "total_tokens" := JInt(c.totalTokens),
      "max_tokens" := JInt(c.maxTokens),
      "system_prompt" := JsonOfOptString(c.systemPrompt)])
  }

  /** every field from_dict reads has the type it needs */
  predicate ConversationFieldsTyped(f: map<string, Json>)
    requires KeywordsFit(f, ConversationFields, ConversationRequired)
  {
    var prompt := FieldOr(f, "system_prompt", JNull);
    && f["id"].JString? && f["title"].JString? && f["model_id"].JString? && f["messages"].JArray?
    && f["created_at"].JTime? && f["updated_at"].JTime?
    && FieldOr(f, "total_tokens", JInt(0)).JInt? && FieldOr(f, "max_tokens", JInt(DefaultMaxTokens)).JInt?
    && (prompt.JNull? || prompt.JString?)
  }

  /** Conversation.from_dict */
  function ConversationFromJson(data: Json): Result<Conversation, Error> {
    if !data.JObject? || !KeywordsFit(data.fields, ConversationFields, ConversationRequired) then Err(Malformed)
    else if !ConversationFieldsTyped(data.fields) then Err(Malformed)
    else
      var f := data.fields;
      match MessagesFromJson(f["messages"].items)
      case Err(e) => Err(e)
      case Ok(ms) => Ok(ConversationOfFields(f, ms))
  }

  function ConversationOfFields(f: map<string, Json>, ms: seq<Message>): Conversation
    requires KeywordsFit(f, ConversationFields, ConversationRequired) && ConversationFieldsTyped(f)
  {
    var prompt := FieldOr(f, "system_prompt", JNull);
    Conversation(f["id"].s, f["title"].s, f["model_id"].s, ms, f["created_at"].t, f["updated_at"].t,
      FieldOr(f, "total_tokens", JInt(0)).i, FieldOr(f, "max_tokens", JInt(DefaultMaxTokens)).i,
      if prompt.JString? then Some(prompt.s) else None)
  }

  /** from_dict undoes to_dict for a message */
  lemma MessageRoundTrip(m: Message)
    ensures MessageFromJson(MessageToJson(m)) == Ok(m)
  {
    var f := MessageToJson(m).fields;
    assert f.Keys == MessageFields;
  }

  lemma {:induction false} MessagesRoundTrip(ms: seq<Message>)
    ensures MessagesFromJson(MessagesToJson(ms)) == Ok(ms)
    decreases |ms|
  {
    if ms != [] {
      MessageRoundTrip(ms[0]);
      MessagesRoundTrip(ms[1..]);
      var items := MessagesToJson(ms);
      assert items[0] == MessageToJson(ms[0]) && items[1..] == MessagesToJson(ms[1..]);
      assert [ms[0]] + ms[1..] == ms;
    }
  }

  /** from_dict undoes to_dict for a conversation, messages included */
  lemma ConversationRoundTrip(c: Conversation)
    ensures ConversationFromJson(ConversationToJson(c)) == Ok(c)
  {
    var f := ConversationToJson(c).fields;
    ConversationJsonFields(c);
    MessagesRoundTrip(c.messages);
    ConversationJsonValues(c);
    OfFieldsInverse(f, c);
  }

  /** fields holding a conversation's values give that conversation back */
  lemma OfFieldsInverse(f: map<string, Json>, c: Conversation)
    requires KeywordsFit(f, ConversationFields, ConversationRequired) && ConversationFieldsTyped(f)
    requires FieldOr(f, "total_tokens", JInt(0)) == JInt(c.totalTokens)
    requires FieldOr(f, "max_tokens", JInt(DefaultMaxTokens)) == JInt(c.maxTokens)
    requires FieldOr(f, "system_prompt", JNull) == JsonOfOptString(c.systemPrompt)
    requires f["id"] == JString(c.id) && f["title"] == JString(c.title) && f["model_id"] == JString(c.modelId)
    requires f["created_at"] == JTime(c.createdAt) && f["updated_at"] == JTime(c.updatedAt)
    ensures ConversationOfFields(f, c.messages) == c
  {
  }

  lemma ConversationJsonValues(c: Conversation)
    ensures var f := ConversationToJson(c).fields;
      && FieldOr(f, "total_tokens", JInt(0)) == JInt(c.totalTokens)
      && FieldOr(f, "max_tokens", JInt(DefaultMaxTokens)) == JInt(c.maxTokens)
      && FieldOr(f, "system_prompt", JNull) == JsonOfOptString(c.systemPrompt)
      && f["id"] == JString(c.id) && f["title"] == JString(c.title) && f["model_id"] == JString(c.modelId)
      && f["created_at"] == JTime(c.createdAt) && f["updated_at"] == JTime(c.updatedAt)
  {
  }

  lemma ConversationJsonFields(c: Conversation)
    ensures var f := ConversationToJson(c).fields;
      && f.Keys == ConversationFields
      && KeywordsFit(f, ConversationFields, ConversationRequired)
      && ConversationFieldsTyped(f)
      && f["id"] == JString(c.id) && f["title"] == JString(c.title) && f["model_id"] == JString(c.modelId)
      && f["messages"] == JArray(MessagesToJson(c.messages))
      && f["created_at"] == JTime(c.createdAt) && f["updated_at"] == JTime(c.updatedAt)
      && f["total_tokens"] == JInt(c.totalTokens) && f["max_tokens"] == JInt(c.maxTokens)
      && f["system_prompt"] == JsonOfOptString(c.systemPrompt)
  {
    var f := ConversationToJson(c).fields;
    ConversationJsonKeys(c);
    ConversationRequiredAccepted();
    ConversationJsonValues(c);
  }

  lemma ConversationJsonKeys(c: Conversation)
    ensures ConversationToJson(c).fields.Keys == ConversationFields
  {
  }

  lemma ConversationRequiredAccepted()
    ensures ConversationRequired <= ConversationFields
  {
  }

  // ---------------------------------------------------------------------
  // Keys in insertion order

  predicate Distinct(s: seq<string>) {
    forall i, j :: 0 <= i < j < |s| ==> s[i] != s[j]
  }

  /** the key order after `del d[x]` */
  function Remove(s: seq<string>, x: string): (r: seq<string>)
    ensures forall y :: y in r <==> y in s && y != x
    ensures Distinct(s) ==> Distinct(r)
    ensures x !in s ==> r == s
  {
    if s == [] then []
    else if s[0] == x then Remove(s[1..], x)
    else
      var rest := Remove(s[1..], x);
      assert Distinct(s) ==> s[0] !in s[1..];
      [s[0]] + rest
  }

  /** Storing a conversation under a fresh key, appended to the order, keeps the order and the keys in step. */
  lemma AppendFresh(order: seq<string>, convs: map<string, Conversation>, c: Conversation, after: map<string, Conversation>)
    requires Distinct(order) && (forall k :: k in convs <==> k in order)
    requires forall k :: k in convs ==> convs[k].id == k
    requires c.id !in convs && after == convs[c.id := c]
    ensures Distinct(order + [c.id])
    ensures forall k :: k in after <==> k in order + [c.id]
    ensures forall k :: k in after ==> after[k].id == k
  {
    var o := order + [c.id];
    forall i, j | 0 <= i < j < |o|
      ensures o[i] != o[j]
    {
      if j == |order| {
        assert o[i] == order[i] && order[i] in order;
      } else {
        assert o[i] == order[i] && o[j] == order[j];
      }
    }
  }

  lemma {:induction false} DistinctCardinality(s: seq<string>)
    requires Distinct(s)
    ensures |set x | x in s| == |s|
    decreases |s|
  {
    if s != [] {
      DistinctCardinality(s[1..]);
      assert (set x | x in s) == {s[0]} + (set x | x in s[1..]);
      assert s[0] !in (set x | x in s[1..]);
    }
  }

  /** the conversations under the given keys, in key order */
  function Values(keys: seq<string>, convs: map<string, Conversation>): (vs: seq<Conversation>)
    requires forall k :: k in keys ==> k in convs
    ensures |vs| == |keys|
    ensures forall i :: 0 <= i < |keys| ==> vs[i] == convs[keys[i]]
  {
    seq(|keys|, i requires 0 <= i < |keys| => convs[keys[i]])
  }

  /** the key of `sorted(..., key=lambda x: x.updated_at, reverse=True)` as a comparison */
  predicate NewerOrSame(a: Conversation, b: Conversation) {
    a.updatedAt.tick >= b.updatedAt.tick
  }

  function Summarize(c: Conversation): Summary {
    Summary(c.id, c.title, c.modelId, |c.messages|, c.createdAt, c.updatedAt)
  }

  lemma NewerOrSameTotal()
    ensures TotalPreorder(NewerOrSame)
  {
  }

  /**
   * Sorting the stored conversations by update time gives each of them once:
   * the keys are distinct and every stored conversation carries its own key.
   */
  lemma SortedValues(order: seq<string>, convs: map<string, Conversation>)
    requires Distinct(order)
    requires forall k :: k in convs <==> k in order
    requires forall k :: k in convs ==> convs[k].id == k
    ensures var sorted := SortBy(Values(order, convs), NewerOrSame);
      && |sorted| == |convs|
      && SortedBy(sorted, NewerOrSame)
      && (forall i :: 0 <= i < |sorted| ==> sorted[i].id in convs && sorted[i] == convs[sorted[i].id])
      && (forall k :: k in convs ==> exists i :: 0 <= i < |sorted| && sorted[i].id == k)
  {
    var values := Values(order, convs);
    var sorted := SortBy(values, NewerOrSame);
    SortByPermutation(values, NewerOrSame);
    NewerOrSameTotal();
    SortBySorted(values, NewerOrSame);
    SameElements(sorted, values);
    DistinctCardinality(order);
    assert convs.Keys == set x | x in order;
    forall i | 0 <= i < |sorted|
      ensures sorted[i].id in convs && sorted[i] == convs[sorted[i].id]
    {
      assert sorted[i] in values;
      var j :| 0 <= j < |values| && values[j] == sorted[i];
      assert values[j] == convs[order[j]];
    }
    forall k | k in convs
      ensures exists i :: 0 <= i < |sorted| && sorted[i].id == k
    {
      var j :| 0 <= j < |order| && order[j] == k;
      assert values[j] in sorted;
      var i :| 0 <= i < |sorted| && sorted[i] == values[j];
    }
  }

  /**
   * The loop of trim_conversation: pops the oldest of the non-system
   * messages while the running total is over the target and more than two
   * are left, subtracting each popped message's truthy token count.
   */
  method PopOldest(others: seq<Message>, total: int, target: Option<int>, maxTokens: int)
    returns (kept: seq<Message>, count: nat, current: int)
    ensures count == TrimCount(others, total, target, maxTokens)
    ensures count <= |others| && kept == others[count..]
    ensures current == total - Credits(others[..count])
  {
    kept := others;
    count := 0;
    current := total;
    ghost var toRemove := TrimCount(others, total, target, maxTokens);
    while !WithinTarget(current, target, maxTokens) && |kept| > 2
      invariant count <= |others| && kept == others[count..]
      invariant current == total - Credits(others[..count])
      invariant count + TrimCount(kept, current, target, maxTokens) == toRemove
      decreases |kept|
    {
      var removed := kept[0];
      TrimLoopStep(others, count, kept, current, total, target, maxTokens, toRemove);
      kept := kept[1..];
      ghost var before := current;
      if removed.tokenCount.Some? && removed.tokenCount.value != 0 {
        current := current - removed.tokenCount.value;
      }
      assert current == before - Credit(removed);
      count := count + 1;
    }
  }

  /** the conversation manager */
  class ConversationManager {
    var conversations: map<string, Conversation>
    /** the keys of `conversations` in the order the dictionary iterates them */
    var order: seq<string>

    ghost predicate Valid()
      reads this
    {
      && Distinct(order)
      && (forall k :: k in conversations <==> k in order)
      && (forall k :: k in conversations ==> conversations[k].id == k)
    }

    constructor ()
      ensures Valid() && conversations == map[] && order == []
    {
      conversations := map[];
      order := [];
    }

    /** create_conversation with `newId` and `messageId` as the two uuid4 values and `now` as the clock reading */
    method CreateConversation(
      modelId: string, title: Option<string>, systemPrompt: Option<string>, maxTokens: int,
      newId: string, messageId: string, now: Instant)
      returns (id: string)
      requires Valid() && newId !in conversations
      modifies this
      ensures Valid()
      ensures id == newId && id !in old(conversations)
      ensures conversations == old(conversations)[id := NewConversation(id, modelId, title, systemPrompt, maxTokens, messageId, now)]
      ensures order == old(order) + [id]
    {
      id := newId;
      var conversation := NewConversation(id, modelId, title, systemPrompt, maxTokens, messageId, now);
      AppendFresh(order, conversations, conversation, conversations[id := conversation]);
      conversations := conversations[id := conversation];
      order := order + [id];
    }

    /**
     * add_message, with `stampedAt` and `now` the two clock readings it takes
     * (the message's timestamp, then the conversation's update time): on an
     * unknown id nothing changes and NotFound is returned;
     * otherwise exactly one message goes at the end, the total grows by the
     * message's token count when that is truthy, and no other conversation changes.
     */
    method AddMessage(
      id: string, role: string, content: string, tokenCount: Option<int>, metadata: Json,
      messageId: string, stampedAt: Instant, now: Instant)
      returns (r: Result<Message, Error>)
      requires Valid()
      modifies this
      ensures Valid() && order == old(order)
      ensures id !in old(conversations) ==> r == Err(NotFound(id)) && conversations == old(conversations)
      ensures id in old(conversations) ==>
        var before := old(conversations)[id];
        var m := Message(messageId, role, content, stampedAt, tokenCount, metadata);
        && r == Ok(m)
        && conversations == old(conversations)[id := before.(
             messages := before.messages + [m],
             updatedAt := now,
             totalTokens := before.totalTokens + (if tokenCount.Some? && tokenCount.value != 0 then tokenCount.value else 0))]
    {
      if id !in conversations {
        return Err(NotFound(id));
      }
      var conversation := conversations[id];
      var message := Message(messageId, role, content, stampedAt, tokenCount, metadata);
      conversation := conversation.(messages := conversation.messages + [message], updatedAt := now);
      if tokenCount.Some? && tokenCount.value != 0 {
        conversation := conversation.(totalTokens := conversation.totalTokens + tokenCount.value);
      }
      conversations := conversations[id := conversation];
      r := Ok(message);
    }

    /** get_conversation_for_model: role and content of every message, in order */
    method GetConversationForModel(id: string) returns (r: Result<seq<Turn>, Error>)
      ensures id !in conversations ==> r == Err(NotFound(id))
      ensures id in conversations ==>
        && r.Ok?
        && |r.value| == |conversations[id].messages|
        && forall i :: 0 <= i < |r.value| ==>
             r.value[i] == Turn(conversations[id].messages[i].role, conversations[id].messages[i].content)
    {
      if id !in conversations {
        return Err(NotFound(id));
      }
      var messages := conversations[id].messages;
      var turns: seq<Turn> := [];
      for i := 0 to |messages|
        invariant |turns| == i
        invariant forall j :: 0 <= j < i ==> turns[j] == Turn(messages[j].role, messages[j].content)
      {
        turns := turns + [Turn(messages[i].role, messages[i].content)];
      }
      r := Ok(turns);
    }

    /**
     * trim_conversation: pops the oldest non-system messages while the total
     * is over the target and more than two of them remain, then puts the
     * system messages first. The new state is Trimmed of the old one.
     */
    method TrimConversation(id: string, target: Option<int>) returns (r: Result<nat, Error>)
      requires Valid()
      modifies this
      ensures Valid() && order == old(order)
      ensures id !in old(conversations) ==> r == Err(NotFound(id)) && conversations == old(conversations)
      ensures id in old(conversations) ==>
        var (trimmed, count) := Trimmed(old(conversations)[id], target);
        r == Ok(count) && conversations == old(conversations)[id := trimmed]
    {
      if id !in conversations {
        return Err(NotFound(id));
      }
      var conversation := conversations[id];
      if WithinTarget(conversation.totalTokens, target, conversation.maxTokens) {
        return Ok(0);
      }
      var systemMessages := SystemPart(conversation.messages);
      var otherMessages := OtherPart(conversation.messages);
      var kept, trimmedCount, currentTokens := PopOldest(otherMessages, conversation.totalTokens, target, conversation.maxTokens);
      var trimmed := conversation.(messages := systemMessages + kept, totalTokens := currentTokens);
      assert Trimmed(conversation, target) == (trimmed, trimmedCount);
      assert trimmed.id == id;
      conversations := conversations[id := trimmed];
      r := Ok(trimmedCount);
    }

    /** get_conversation */
    function GetConversation(id: string): (r: Option<Conversation>)
      reads this
      ensures r.Some? <==> id in conversations
      ensures r.Some? ==> r.value == conversations[id]
    {
      if id in conversations then Some(conversations[id]) else None
    }

    /**
     * list_conversations: one summary per stored conversation, newest update
     * first, each with its message count.
     */
    function ListConversations(): (r: seq<Summary>)
      reads this
      requires Valid()
      ensures |r| == |conversations|
      ensures forall i, j :: 0 <= i < j < |r| ==> r[i].updatedAt.tick >= r[j].updatedAt.tick
      ensures forall i :: 0 <= i < |r| ==>
        r[i].id in conversations && r[i] == Summarize(conversations[r[i].id])
        && r[i].messageCount == |conversations[r[i].id].messages|
      ensures forall k :: k in conversations ==> exists i :: 0 <= i < |r| && r[i].id == k
    {
      var sorted := SortBy(Values(order, conversations), NewerOrSame);
      var summaries := seq(|sorted|, i requires 0 <= i < |sorted| => Summarize(sorted[i]));
      ListingFacts(sorted, summaries);
      summaries
    }

    lemma ListingFacts(sorted: seq<Conversation>, summaries: seq<Summary>)
      requires Valid()
      requires sorted == SortBy(Values(order, conversations), NewerOrSame)
      requires |summaries| == |sorted| && forall i :: 0 <= i < |sorted| ==> summaries[i] == Summarize(sorted[i])
      ensures |summaries| == |conversations|
      ensures forall i, j :: 0 <= i < j < |summaries| ==> summaries[i].updatedAt.tick >= summaries[j].updatedAt.tick
      ensures forall i :: 0 <= i < |summaries| ==>
        summaries[i].id in conversations && summaries[i] == Summarize(conversations[summaries[i].id])
        && summaries[i].messageCount == |conversations[summaries[i].id].messages|
      ensures forall k :: k in conversations ==> exists i :: 0 <= i < |summaries| && summaries[i].id == k
    {
      SortedValues(order, conversations);
      forall i, j | 0 <= i < j < |summaries|
        ensures summaries[i].updatedAt.tick >= summaries[j].updatedAt.tick
      {
        assert NewerOrSame(sorted[i], sorted[j]);
      }
      forall k | k in conversations
        ensures exists i :: 0 <= i < |summaries| && summaries[i].id == k
      {
        var i :| 0 <= i < |sorted| && sorted[i].id == k;
        assert summaries[i].id == k;
      }
    }

    /** delete_conversation: true and removed exactly when the id was present */
    method DeleteConversation(id: string) returns (deleted: bool)
      requires Valid()
      modifies this
      ensures Valid()
      ensures deleted <==> id in old(conversations)
      ensures conversations == old(conversations) - {id}
      ensures order == Remove(old(order), id)
    {
      deleted := id in conversations;
      if deleted {
        conversations := conversations - {id};
        order := Remove(order, id);
      } else {
        assert id !in order;
      }
    }

    /** update_conversation_title: false for an absent id; otherwise a new title and update time */
    method UpdateConversationTitle(id: string, title: string, now: Instant) returns (updated: bool)
      requires Valid()
      modifies this
      ensures Valid() && order == old(order)
      ensures updated <==> id in old(conversations)
      ensures !updated ==> conversations == old(conversations)
      ensures updated ==> conversations == old(conversations)[id := old(conversations)[id].(title := title, updatedAt := now)]
    {
      updated := id in conversations;
      if updated {
        conversations := conversations[id := conversations[id].(title := title, updatedAt := now)];
      }
    }

    /** export_conversation: the dictionary form, from which from_dict recovers the conversation */
    function ExportConversation(id: string): (r: Option<Json>)
      reads this
      ensures r.Some? <==> id in conversations
      ensures r.Some? ==> ConversationFromJson(r.value) == Ok(conversations[id])
    {
      if id in conversations then
        ConversationRoundTrip(conversations[id]);
        Some(ConversationToJson(conversations[id]))
      else None
    }

    /**
     * import_conversation: stores the decoded conversation under its own id
     * (a known id keeps its place in the order); what from_dict rejects
     * changes nothing.
     */
    method ImportConversation(data: Json) returns (r: Result<string, Error>)
      requires Valid()
      modifies this
      ensures Valid()
      ensures ConversationFromJson(data).Err? ==>
        r == Err(Malformed) && conversations == old(conversations) && order == old(order)
      ensures ConversationFromJson(data).Ok? ==>
        var c := ConversationFromJson(data).value;
        && r == Ok(c.id)
        && conversations == old(conversations)[c.id := c]
        && order == if c.id in old(conversations) then old(order) else old(order) + [c.id]
    {
      var decoded := ConversationFromJson(data);
      if decoded.Err? {
        return Err(Malformed);
      }
      var conversation := decoded.value;
      if conversation.id !in conversations {
        order := order + [conversation.id];
      }
      conversations := conversations[conversation.id := conversation];
      r := Ok(conversation.id);
    }

    /** Importing an exported conversation stores it unchanged under the same id. */
    method ReimportExported(id: string) returns (r: Result<string, Error>)
      requires Valid() && id in conversations
      modifies this
      ensures Valid()
      ensures r == Ok(id) && conversations == old(conversations) && order == old(order)
    {
      var data := ExportConversation(id);
      r := ImportConversation(data.value);
      assert old(conversations)[id := old(conversations)[id]] == old(conversations);
    }
  }
}
