/** The conversation domain model of `app/models/message.py`: validated
    messages, and conversations as append-only message lists with filtering,
    "most recent first" selection and dictionary round-trips.

    Ids and clock readings (`uuid4`, `datetime.utcnow`) are parameters;
    timestamps are logical clock values and are written to dictionaries as
    integers rather than ISO-8601 text. */
module Messages {
  import opened Wrappers
  import opened Text
  import opened Dicts
  import opened Validation

  // ---------------------------------------------------------------------------
  // Message types

  datatype MessageType = User | Ai | System

  /** `MessageType.value`, the text written by `to_dict`. */
  function TypeValue(t: MessageType): string {
    match t
    case User => "user"
    case Ai => "ai"
    case System => "system"
  }

  /** `MessageType(s)`: the member whose value is `s`, if any. */
  function ParseType(s: string): (r: Option<MessageType>)
    ensures r.Some? <==> s in {"user", "ai", "system"}
    ensures r.Some? ==> TypeValue(r.value) == s
  {
    if s == "user" then Some(User)
    else if s == "ai" then Some(Ai)
    else if s == "system" then Some(System)
    else None
  }

  /** Writing a type and reading it back gives the same type, so distinct types
      are written differently. */
  lemma ParseTypeValue(t: MessageType)
    ensures ParseType(TypeValue(t)) == Some(t)
  {
  }

  // ---------------------------------------------------------------------------
  // Messages

  /** `Field(..., min_length=1, max_length=10000)` on `Message.content`. */
  const MaxContentLength: nat := 10000

  /** `Optional[Dict[str, Any]]`. */
  type Metadata = Option<Dict>

  datatype Message = Message(
    id: string,
    content: string,
    msgType: MessageType,
    timestamp: nat,
    conversationId: string,
    metadata: Metadata)

  /** What every constructed `Message` satisfies: its content is non-blank,
      already stripped and within the length bound. */
  predicate ValidMessage(m: Message) {
    1 <= |m.content| <= MaxContentLength && IsStripped(m.content)
  }

  /** `Message(id=..., content=..., ...)`: pydantic validation of the content. */
  function NewMessage(id: string, content: string, t: MessageType, timestamp: nat,
                      conversationId: string, metadata: Metadata): (r: Result<Message, FieldError>)
    ensures r.Success? <==> 1 <= |content| <= MaxContentLength && !IsBlank(content)
    ensures r.Success? ==> ValidMessage(r.value) && r.value.content == Strip(content)
    ensures r.Success? ==> r.value.id == id && r.value.msgType == t && r.value.timestamp == timestamp
                           && r.value.conversationId == conversationId && r.value.metadata == metadata
    ensures r.Failure? ==> r.error.field == "content"
  {
    var c :- ValidateText("content", content, MaxContentLength);
    Success(Message(id, c, t, timestamp, conversationId, metadata))
  }

  /** `Message.to_dict`. */
  function MessageToDict(m: Message): Dict {
    map[
      "id" := JStr(m.id),
      "content" := JStr(m.content),
      "type" := JStr(TypeValue(m.msgType)),
      "timestamp" := JInt(m.timestamp),
      "conversation_id" := JStr(m.conversationId),
      "metadata" := MetadataJson(m.metadata)
    ]
  }

  /** `Message.from_dict`: `id`, `timestamp` and `metadata` take their defaults
      when absent; `content`, `type` and `conversation_id` are required. The
      first failing field is reported. */
  function MessageFromDict(d: Dict, freshId: string, now: nat): (r: Result<Message, FieldError>)
    ensures r.Success? ==> ValidMessage(r.value)
    ensures r.Success? ==> "type" in d && d["type"] == JStr(TypeValue(r.value.msgType))
    ensures r.Success? ==> "conversation_id" in d && d["conversation_id"] == JStr(r.value.conversationId)
    ensures r.Success? ==> "content" in d && d["content"].JStr? && r.value.content == Strip(d["content"].s)
    ensures ("content" !in d || "type" !in d || "conversation_id" !in d) ==> r.Failure?
  {
    var id :- StringOr(d, "id", freshId);
    var raw :- RequiredString(d, "content");
    var typeText :- RequiredString(d, "type");
    var t :- match ParseType(typeText)
             case Some(t) => Success(t)
             case None => Failure(FieldError("type", UnknownChoice));
    var timestamp :- TimestampOr(d, "timestamp", now);
    var conversationId :- RequiredString(d, "conversation_id");
    var metadata :- MetadataOr(d, "metadata");
    NewMessage(id, raw, t, timestamp, conversationId, metadata)
  }

  /** The fields of `m.to_dict()` read back as written. */
  lemma MessageFieldsRoundTrip(m: Message, freshId: string, now: nat)
    ensures var d := MessageToDict(m);
            && StringOr(d, "id", freshId) == Success(m.id)
            && RequiredString(d, "content") == Success(m.content)
            && RequiredString(d, "type") == Success(TypeValue(m.msgType))
            && TimestampOr(d, "timestamp", now) == Success(m.timestamp)
            && RequiredString(d, "conversation_id") == Success(m.conversationId)
            && MetadataOr(d, "metadata") == Success(m.metadata)
  {
    var d := MessageToDict(m);
    assert MetadataOr(d, "metadata") == Success(m.metadata) by {
      match m.metadata
      case None =>
      case Some(_) =>
    }
  }

  /** `Message.from_dict` on a dictionary whose fields all read successfully. */
  lemma MessageFromFields(d: Dict, freshId: string, now: nat, m: Message)
    requires ValidMessage(m)
    requires StringOr(d, "id", freshId) == Success(m.id)
    requires RequiredString(d, "content") == Success(m.content)
    requires RequiredString(d, "type") == Success(TypeValue(m.msgType))
    requires TimestampOr(d, "timestamp", now) == Success(m.timestamp)
    requires RequiredString(d, "conversation_id") == Success(m.conversationId)
    requires MetadataOr(d, "metadata") == Success(m.metadata)
    ensures MessageFromDict(d, freshId, now) == Success(m)
  {
    StripFixpoint(m.content);
    ParseTypeValue(m.msgType);
  }

  /** `Message.from_dict(m.to_dict())` rebuilds `m` exactly: id, content, type,
      timestamp, conversation id and metadata all survive. */
  lemma MessageDictRoundTrip(m: Message, freshId: string, now: nat)
    requires ValidMessage(m)
    ensures MessageFromDict(MessageToDict(m), freshId, now) == Success(m)
  {
    MessageFieldsRoundTrip(m, freshId, now);
    MessageFromFields(MessageToDict(m), freshId, now, m);
  }

  // ---------------------------------------------------------------------------
  // Conversations

  datatype Conversation = Conversation(
    id: string,
    messages: seq<Message>,
    createdAt: nat,
    updatedAt: nat,
    metadata: Metadata)

  predicate ValidConversation(c: Conversation) {
    forall i :: 0 <= i < |c.messages| ==> ValidMessage(c.messages[i])
  }

  /** `Conversation(id=id)` created at time `now`. */
  function NewConversation(id: string, now: nat): Conversation {
    Conversation(id, [], now, now, Some(map[]))
  }

  predicate IsLowerHex(c: char) {
    '0' <= c <= '9' || 'a' <= c <= 'f'
  }

  /** The shape of the default conversation id: `"conv_"` and twelve hex digits. */
  predicate IsDefaultConversationId(s: string) {
    |s| == 17 && StartsWith(s, "conv_") && forall i :: 5 <= i < 17 ==> IsLowerHex(s[i])
  }

  /** A conversation id of the generated shape. */
  type DefaultId = s: string | IsDefaultConversationId(s) witness "conv_000000000000"

  /** `f"conv_{uuid.uuid4().hex[:12]}"`, given the 32 hex digits of the uuid. */
  function DefaultConversationId(uuidHex: string): (r: string)
    requires |uuidHex| == 32 && forall i :: 0 <= i < |uuidHex| ==> IsLowerHex(uuidHex[i])
    ensures IsDefaultConversationId(r)
    ensures r[5..] == uuidHex[..12]
  {
    "conv_" + uuidHex[..12]
  }

  /** Default ids are distinct exactly when the uuids differ in their first twelve digits. */
  lemma DefaultConversationIdInjective(h1: string, h2: string)
    requires |h1| == 32 && forall i :: 0 <= i < |h1| ==> IsLowerHex(h1[i])
    requires |h2| == 32 && forall i :: 0 <= i < |h2| ==> IsLowerHex(h2[i])
    ensures DefaultConversationId(h1) == DefaultConversationId(h2) <==> h1[..12] == h2[..12]
  {
    var a := DefaultConversationId(h1);
    var b := DefaultConversationId(h2);
    if a == b {
      assert a[5..] == b[5..];
    }
  }

  /** The last message of a non-empty conversation (`messages[-1]`). */
  function LastMessage(c: Conversation): Message
    requires c.messages != []
  {
    c.messages[|c.messages| - 1]
  }

  /** `Conversation.add_message`: validates the content into a new message
      owned by this conversation, appends it, and sets `updated_at` to `now`.
      Fails, leaving the conversation as it was, when the content is rejected. */
  function AddMessage(c: Conversation, msgId: string, content: string, t: MessageType,
                      metadata: Metadata, now: nat): (r: Result<Conversation, FieldError>)
    ensures r.Success? <==> 1 <= |content| <= MaxContentLength && !IsBlank(content)
    ensures r.Success? ==>
      && |r.value.messages| == |c.messages| + 1
      && r.value.messages[..|c.messages|] == c.messages
      && LastMessage(r.value).content == Strip(content)
      && LastMessage(r.value).msgType == t
      && LastMessage(r.value).conversationId == c.id
      && LastMessage(r.value).id == msgId
      && LastMessage(r.value).timestamp == now
      && LastMessage(r.value).metadata == Some(metadata.GetOr(map[]))
    ensures r.Success? ==> r.value == c.(messages := r.value.messages, updatedAt := now)
    ensures r.Success? ==> (ValidConversation(r.value) <==> ValidConversation(c))
  {
    var m :- NewMessage(msgId, content, t, now, c.id, Some(metadata.GetOr(map[])));
    Success(c.(messages := c.messages + [m], updatedAt := now))
  }

  /** With a clock that never runs backwards, `add_message` never moves
      `updated_at` back. */
  lemma AddMessageAdvancesUpdatedAt(c: Conversation, msgId: string, content: string, t: MessageType,
                                    metadata: Metadata, now: nat)
    requires c.updatedAt <= now
    requires AddMessage(c, msgId, content, t, metadata, now).Success?
    ensures c.updatedAt <= AddMessage(c, msgId, content, t, metadata, now).value.updatedAt
  {
  }

  // ---------------------------------------------------------------------------
  // Filtering by type

  /** `a` is `b` with some elements left out, the rest in their original order. */
  predicate IsSubsequence<T(==)>(a: seq<T>, b: seq<T>)
    decreases |b|
  {
    if a == [] then true
    else if b == [] then false
    else if a[0] == b[0] then IsSubsequence(a[1..], b[1..])
    else IsSubsequence(a, b[1..])
  }

  /** `get_messages_by_type`: the messages of type `t`, in conversation order. */
  function MessagesByType(ms: seq<Message>, t: MessageType): (r: seq<Message>)
    ensures |r| <= |ms|
    ensures forall i :: 0 <= i < |r| ==> r[i].msgType == t
    ensures forall i :: 0 <= i < |ms| && ms[i].msgType == t ==> ms[i] in r
    ensures IsSubsequence(r, ms)
  {
    if ms == [] then []
    else if ms[0].msgType == t then [ms[0]] + MessagesByType(ms[1..], t)
    else MessagesByType(ms[1..], t)
  }

  /** Every message has exactly one type, so the three filters partition the conversation. */
  lemma {:induction false} MessagesByTypePartition(ms: seq<Message>)
    ensures |MessagesByType(ms, User)| + |MessagesByType(ms, Ai)| + |MessagesByType(ms, System)| == |ms|
  {
    if ms != [] {
      MessagesByTypePartition(ms[1..]);
    }
  }

  // ---------------------------------------------------------------------------
  // Most recent messages

  /** Timestamps never increase along `s`. */
  predicate NewestFirst(s: seq<Message>) {
    forall i :: 0 <= i < |s| - 1 ==> s[i].timestamp >= s[i + 1].timestamp
  }

  /** A newest-first list is ordered between any two positions, not only neighbours. */
  lemma {:induction false} NewestFirstOrdered(s: seq<Message>, i: nat, j: nat)
    requires NewestFirst(s)
    requires i <= j < |s|
    ensures s[i].timestamp >= s[j].timestamp
    decreases j - i
  {
    if i < j {
      NewestFirstOrdered(s, i + 1, j);
    }
  }

  /** Place `m` before the first element that is not newer than it, so `m`
      goes ahead of the elements with its own timestamp. */
  function InsertNewestFirst(m: Message, s: seq<Message>): (r: seq<Message>)
    ensures |r| == |s| + 1
    ensures multiset(r) == multiset(s) + multiset{m}
    ensures r[0] == m || (s != [] && r[0] == s[0])
  {
    if s == [] || s[0].timestamp <= m.timestamp then [m] + s
    else
      assert s == [s[0]] + s[1..];
      [s[0]] + InsertNewestFirst(m, s[1..])
  }

  lemma {:induction false} InsertKeepsNewestFirst(m: Message, s: seq<Message>)
    requires NewestFirst(s)
    ensures NewestFirst(InsertNewestFirst(m, s))
  {
    if s != [] && s[0].timestamp > m.timestamp {
      var rest := InsertNewestFirst(m, s[1..]);
      InsertKeepsNewestFirst(m, s[1..]);
      var r := [s[0]] + rest;
      assert r == InsertNewestFirst(m, s);
      forall i | 0 <= i < |r| - 1
        ensures r[i].timestamp >= r[i + 1].timestamp
      {
        if i > 0 {
          assert r[i] == rest[i - 1] && r[i + 1] == rest[i];
        }
      }
    }
  }

  /** `sorted(messages, key=lambda x: x.timestamp, reverse=True)`: an insertion
      sort from the back. Each element goes ahead of the later elements with
      its timestamp, so ties keep their input order, as Python's stable sort
      with `reverse=True` keeps them (`SortKeepsTies`). */
  function SortNewestFirst(s: seq<Message>): (r: seq<Message>)
    ensures |r| == |s|
    ensures multiset(r) == multiset(s)
  {
    if s == [] then []
    else
      assert s == [s[0]] + s[1..];
      InsertNewestFirst(s[0], SortNewestFirst(s[1..]))
  }

  /** The sort really orders newest first. */
  lemma {:induction false} SortIsNewestFirst(s: seq<Message>)
    ensures NewestFirst(SortNewestFirst(s))
  {
    if s != [] {
      SortIsNewestFirst(s[1..]);
      InsertKeepsNewestFirst(s[0], SortNewestFirst(s[1..]));
    }
  }

  /** Messages that all share one timestamp come out in their input order,
      not reversed. */
  lemma {:induction false} SortKeepsTies(s: seq<Message>, t: nat)
    requires forall i :: 0 <= i < |s| ==> s[i].timestamp == t
    ensures SortNewestFirst(s) == s
  {
    if s != [] {
      SortKeepsTies(s[1..], t);
      assert s == [s[0]] + s[1..];
    }
  }

  /** The messages of `s` stamped `t`, in their order in `s`. */
  function WithTime(s: seq<Message>, t: nat): seq<Message> {
    if s == [] then [] else (if s[0].timestamp == t then [s[0]] else []) + WithTime(s[1..], t)
  }

  /** Inserting `m` puts it ahead of every message that has its timestamp:
      among the messages stamped `t`, the order is `m` (if stamped `t`)
      followed by the order they had in `s`. */
  lemma {:induction false} InsertTies(m: Message, s: seq<Message>, t: nat)
    ensures WithTime(InsertNewestFirst(m, s), t) == (if m.timestamp == t then [m] else []) + WithTime(s, t)
  {
    var r := InsertNewestFirst(m, s);
    if s == [] || s[0].timestamp <= m.timestamp {
      assert r[0] == m && r[1..] == s;
    } else {
      var rest := InsertNewestFirst(m, s[1..]);
      InsertTies(m, s[1..], t);
      assert r[0] == s[0] && r[1..] == rest;
    }
  }

  /** The sort is stable, as Python's `list.sort(reverse=True)` is: for every
      timestamp, the messages carrying it come out in their input order, even
      when other messages lie between them. */
  lemma {:induction false} SortIsStable(s: seq<Message>, t: nat)
    ensures WithTime(SortNewestFirst(s), t) == WithTime(s, t)
  {
    if s != [] {
      SortIsStable(s[1..], t);
      InsertTies(s[0], SortNewestFirst(s[1..]), t);
    }
  }

  /** The end index of Python's slice `xs[:limit]` on a list of length `n`:
      a negative limit counts from the end. */
  function SliceEnd(n: nat, limit: int): (k: nat)
    ensures k <= n
  {
    if limit >= 0 then (if limit <= n then limit else n)
    else if n + limit >= 0 then n + limit else 0
  }

  /** `get_recent_messages(limit)`: the messages sorted newest first, cut at `limit`. */
  function RecentMessages(ms: seq<Message>, limit: int): (r: seq<Message>)
    ensures |r| == SliceEnd(|ms|, limit)
    ensures 0 <= limit ==> |r| == if limit <= |ms| then limit else |ms|
    ensures NewestFirst(r)
    ensures multiset(r) <= multiset(ms)
  {
    var sorted := SortNewestFirst(ms);
    var k := SliceEnd(|ms|, limit);
    SortIsNewestFirst(ms);
    assert sorted == sorted[..k] + sorted[k..];
    assert multiset(sorted) == multiset(sorted[..k]) + multiset(sorted[k..]);
    sorted[..k]
  }

  /** The messages left out are never newer than the messages returned. */
  lemma RecentMessagesAreNewest(ms: seq<Message>, limit: int, x: Message, y: Message)
    requires x in RecentMessages(ms, limit)
    requires y in ms && y !in RecentMessages(ms, limit)
    ensures x.timestamp >= y.timestamp
  {
    var sorted := SortNewestFirst(ms);
    var k := SliceEnd(|ms|, limit);
    assert RecentMessages(ms, limit) == sorted[..k];
    assert y in multiset(sorted);
    var i :| 0 <= i < k && sorted[i] == x;
    assert sorted == sorted[..k] + sorted[k..];
    assert y in sorted[k..];
    var j :| k <= j < |sorted| && sorted[j] == y;
    SortIsNewestFirst(ms);
    NewestFirstOrdered(sorted, i, j);
  }

  /** Timestamps strictly increase along `s`: messages were added by a clock that ticks. */
  predicate Chronological(s: seq<Message>) {
    forall i, j :: 0 <= i < j < |s| ==> s[i].timestamp < s[j].timestamp
  }

  function Reverse<T>(s: seq<T>): (r: seq<T>)
    ensures |r| == |s|
    ensures forall i :: 0 <= i < |s| ==> r[i] == s[|s| - 1 - i]
  {
    if s == [] then [] else Reverse(s[1..]) + [s[0]]
  }

  lemma InsertOlderThanAll(m: Message, s: seq<Message>)
    requires forall i :: 0 <= i < |s| ==> m.timestamp < s[i].timestamp
    ensures InsertNewestFirst(m, s) == s + [m]
  {
    if s != [] {
      InsertOlderThanAll(m, s[1..]);
    }
  }

  /** When each message is strictly newer than the ones before it, sorting
      newest first is reversal. */
  lemma {:induction false} SortChronological(s: seq<Message>)
    requires Chronological(s)
    ensures SortNewestFirst(s) == Reverse(s)
  {
    if s != [] {
      SortChronological(s[1..]);
      InsertOlderThanAll(s[0], Reverse(s[1..]));
    }
  }

  /** For a conversation built by a ticking clock, `get_recent_messages(limit)`
      is the last `limit` messages, most recent first. */
  lemma RecentMessagesOfChronological(ms: seq<Message>, limit: nat)
    requires Chronological(ms)
    ensures RecentMessages(ms, limit) == Reverse(ms)[..SliceEnd(|ms|, limit)]
  {
    SortChronological(ms);
  }

  // ---------------------------------------------------------------------------
  // Conversation dictionaries

  function MessagesToJson(ms: seq<Message>): (items: seq<Json>)
    ensures |items| == |ms|
    ensures forall i :: 0 <= i < |ms| ==> items[i] == JObj(MessageToDict(ms[i]))
  {
    if ms == [] then [] else [JObj(MessageToDict(ms[0]))] + MessagesToJson(ms[1..])
  }

  /** `[Message.from_dict(msg) for msg in data["messages"]]`: every item must be
      a dictionary that validates; the item at position `i` gets `freshId(i)` if
      it has no id. */
  function MessagesFromJson(items: seq<Json>, freshId: nat -> string, offset: nat, now: nat): (r: Result<seq<Message>, FieldError>)
    ensures r.Success? ==> |r.value| == |items|
    ensures r.Success? ==> forall i :: 0 <= i < |r.value| ==> ValidMessage(r.value[i])
    decreases |items|
  {
    if items == [] then Success([])
    else
      var m :- match items[0]
               case JObj(d) => MessageFromDict(d, freshId(offset), now)
               case _ => Failure(FieldError("messages", WrongType));
      var rest :- MessagesFromJson(items[1..], freshId, offset + 1, now);
      Success([m] + rest)
  }

  /** `Conversation.to_dict`. */
  function ConversationToDict(c: Conversation): Dict {
    map[
      "id" := JStr(c.id),
      "messages" := JArr(MessagesToJson(c.messages)),
      "created_at" := JInt(c.createdAt),
      "updated_at" := JInt(c.updatedAt),
      "metadata" := MetadataJson(c.metadata)
    ]
  }

  /** `Conversation.from_dict`: every field has a default (a fresh id, no
      messages, the current time, an empty dictionary). */
  function ConversationFromDict(d: Dict, freshConversationId: string, freshMessageId: nat -> string,
                                now: nat): (r: Result<Conversation, FieldError>)
    ensures r.Success? ==> ValidConversation(r.value)
    ensures r.Success? && "messages" in d && d["messages"].JArr? ==> |r.value.messages| == |d["messages"].items|
    ensures r.Success? && "messages" !in d ==> r.value.messages == []
  {
    var messages :- if "messages" !in d then Success([])
                    else match d["messages"]
                      case JArr(items) => MessagesFromJson(items, freshMessageId, 0, now)
                      case _ => Failure(FieldError("messages", WrongType));
    var id :- StringOr(d, "id", freshConversationId);
    var createdAt :- TimestampOr(d, "created_at", now);
    var updatedAt :- TimestampOr(d, "updated_at", now);
    var metadata :- MetadataOr(d, "metadata");
    Success(Conversation(id, messages, createdAt, updatedAt, metadata))
  }

  /** Reading a non-empty list of message dictionaries: its head, then its tail. */
  lemma MessagesFromJsonCons(items: seq<Json>, freshId: nat -> string, offset: nat, now: nat,
                             m: Message, rest: seq<Message>)
    requires items != [] && items[0].JObj?
    requires MessageFromDict(items[0].fields, freshId(offset), now) == Success(m)
    requires MessagesFromJson(items[1..], freshId, offset + 1, now) == Success(rest)
    ensures MessagesFromJson(items, freshId, offset, now) == Success([m] + rest)
  {
  }

  lemma {:induction false} MessagesJsonRoundTrip(ms: seq<Message>, freshId: nat -> string, offset: nat, now: nat)
    requires forall i :: 0 <= i < |ms| ==> ValidMessage(ms[i])
    ensures MessagesFromJson(MessagesToJson(ms), freshId, offset, now) == Success(ms)
    decreases |ms|
  {
    if ms != [] {
      var items := MessagesToJson(ms);
      MessageDictRoundTrip(ms[0], freshId(offset), now);
      assert items[0] == JObj(MessageToDict(ms[0]));
      assert items[1..] == MessagesToJson(ms[1..]);
      MessagesJsonRoundTrip(ms[1..], freshId, offset + 1, now);
      MessagesFromJsonCons(items, freshId, offset, now, ms[0], ms[1..]);
      assert ms == [ms[0]] + ms[1..];
    }
  }

  /** The scalar fields of `c.to_dict()` read back as written. */
  lemma ConversationFieldsRoundTrip(c: Conversation, freshConversationId: string, now: nat)
    ensures var d := ConversationToDict(c);
            && StringOr(d, "id", freshConversationId) == Success(c.id)
            && TimestampOr(d, "created_at", now) == Success(c.createdAt)
            && TimestampOr(d, "updated_at", now) == Success(c.updatedAt)
            && MetadataOr(d, "metadata") == Success(c.metadata)
  {
    var d := ConversationToDict(c);
    assert MetadataOr(d, "metadata") == Success(c.metadata) by {
      match c.metadata
      case None =>
      case Some(_) =>
    }
  }

  /** `Conversation.from_dict` on a dictionary whose fields all read successfully. */
  lemma ConversationFromFields(d: Dict, freshConversationId: string, freshMessageId: nat -> string, now: nat,
                               c: Conversation)
    requires "messages" in d && d["messages"].JArr?
    requires MessagesFromJson(d["messages"].items, freshMessageId, 0, now) == Success(c.messages)
    requires StringOr(d, "id", freshConversationId) == Success(c.id)
    requires TimestampOr(d, "created_at", now) == Success(c.createdAt)
    requires TimestampOr(d, "updated_at", now) == Success(c.updatedAt)
    requires MetadataOr(d, "metadata") == Success(c.metadata)
    ensures ConversationFromDict(d, freshConversationId, freshMessageId, now) == Success(c)
  {
  }

  /** `Conversation.from_dict(c.to_dict())` rebuilds `c`: same id, same
      messages in the same order, same timestamps and metadata. */
  lemma ConversationDictRoundTrip(c: Conversation, freshConversationId: string,
                                  freshMessageId: nat -> string, now: nat)
    requires ValidConversation(c)
    ensures ConversationFromDict(ConversationToDict(c), freshConversationId, freshMessageId, now) == Success(c)
  {
    MessagesJsonRoundTrip(c.messages, freshMessageId, 0, now);
    ConversationFieldsRoundTrip(c, freshConversationId, now);
    ConversationFromFields(ConversationToDict(c), freshConversationId, freshMessageId, now, c);
  }
}
