/** The stored conversation aggregate: one item per userId holding an ordered
    list of chats, each holding an ordered list of messages. Also the two
    list operations the function performs on it: finding the first chat
    with an id, and removing every chat with an id. */
module Chats {
  import opened Values

  /** One stored message. A field is None when its key is absent from the
      stored map; a stored attachment of null counts as absent. `others`
      holds every other key of the stored map. */
  datatype StoredMessage = StoredMessage(
    id: Option<Value>,
    role: Option<Value>,
    content: Option<Value>,
    mode: Option<Value>,
    model: Option<Value>,
    attachment: Option<Dict>,
    others: Dict)

  /** One stored chat thread: its `id`, its `messages` and every other key
      of the stored map (its title, for one). */
  datatype Chat = Chat(id: Option<Value>, messages: Option<seq<StoredMessage>>, others: Dict)

  /** The item stored under one userId: its `chats` attribute (None when
      absent) and every other attribute of the item. */
  datatype UserRecord = UserRecord(chats: Option<seq<Chat>>, attributes: Dict)

  /** The whole table, keyed by userId. */
  type Table = map<string, UserRecord>

  /** `chat.get('id') == chat_id`; a chat without an id never matches. */
  predicate IsChat(c: Chat, chatId: string) {
    c.id == Some(Str(chatId))
  }

  /** Some chat of the list has the id. */
  predicate HasChat(chats: seq<Chat>, chatId: string) {
    exists i :: 0 <= i < |chats| && IsChat(chats[i], chatId)
  }

  /** `get_item(...).get('Item', {}).get('chats', [])`: the user's chats,
      empty both when the user has no item and when the item has no
      `chats` attribute. */
  function ChatsOf(t: Table, userId: string): (r: seq<Chat>)
    ensures userId !in t ==> r == []
    ensures userId in t && t[userId].chats.None? ==> r == []
    ensures userId in t && t[userId].chats.Some? ==> r == t[userId].chats.value
  {
    if userId in t then t[userId].chats.GetOr([]) else []
  }

  /** The first chat, in list order, that has the id. */
  function FindChat(chats: seq<Chat>, chatId: string): (r: Option<Chat>)
    ensures r.Some? ==> r.value in chats && IsChat(r.value, chatId)
    ensures r.None? <==> !HasChat(chats, chatId)
  {
    if chats == [] then None
    else if IsChat(chats[0], chatId) then Some(chats[0])
    else
      var rest := FindChat(chats[1..], chatId);
      assert HasChat(chats, chatId) ==> HasChat(chats[1..], chatId) by {
        if HasChat(chats, chatId) {
          var i :| 0 <= i < |chats| && IsChat(chats[i], chatId);
          assert chats[1..][i - 1] == chats[i];
        }
      }
      assert HasChat(chats[1..], chatId) ==> HasChat(chats, chatId) by {
        if HasChat(chats[1..], chatId) {
          var i :| 0 <= i < |chats[1..]| && IsChat(chats[1..][i], chatId);
          assert chats[i + 1] == chats[1..][i];
        }
      }
      rest
  }

  /** The chat FindChat picks is the one at the first matching index. */
  lemma {:induction false} FindChatIsFirst(chats: seq<Chat>, chatId: string, i: nat)
    requires i < |chats| && IsChat(chats[i], chatId)
    requires forall j :: 0 <= j < i ==> !IsChat(chats[j], chatId)
    ensures FindChat(chats, chatId) == Some(chats[i])
  {
    if i > 0 {
      forall j | 0 <= j < i - 1
        ensures !IsChat(chats[1..][j], chatId)
      {
        assert chats[1..][j] == chats[j + 1];
      }
      FindChatIsFirst(chats[1..], chatId, i - 1);
    }
  }

  /** Conversely, whatever FindChat picks sits at the first matching index. */
  lemma {:induction false} FindChatHasFirstIndex(chats: seq<Chat>, chatId: string)
    requires FindChat(chats, chatId).Some?
    ensures exists i :: 0 <= i < |chats| && IsChat(chats[i], chatId)
                        && (forall j :: 0 <= j < i ==> !IsChat(chats[j], chatId))
                        && FindChat(chats, chatId) == Some(chats[i])
  {
    if !IsChat(chats[0], chatId) {
      var tail := chats[1..];
      FindChatHasFirstIndex(tail, chatId);
      var k :| 0 <= k < |tail| && IsChat(tail[k], chatId)
               && (forall j :: 0 <= j < k ==> !IsChat(tail[j], chatId))
               && FindChat(tail, chatId) == Some(tail[k]);
      assert chats[k + 1] == tail[k];
      forall j | 0 <= j < k + 1 ensures !IsChat(chats[j], chatId) {
        if j > 0 { assert chats[j] == tail[j - 1]; }
      }
    }
  }

  /** A match in an earlier part of the list hides every later chat with
      the same id; without one, the search continues into the later part. */
  lemma {:induction false} FindChatAppend(a: seq<Chat>, b: seq<Chat>, chatId: string)
    ensures FindChat(a + b, chatId) == if FindChat(a, chatId).Some? then FindChat(a, chatId) else FindChat(b, chatId)
  {
    if a == [] {
      assert a + b == b;
    } else {
      assert (a + b)[0] == a[0];
      assert (a + b)[1..] == a[1..] + b;
      FindChatAppend(a[1..], b, chatId);
    }
  }

  /** The messages of the first chat with the id: the `target_messages` the
      search loop leaves behind. Empty when no chat matches, when the
      matching chat has no `messages` key, and when its list is empty. */
  function TargetMessages(chats: seq<Chat>, chatId: string): (r: seq<StoredMessage>)
    ensures !HasChat(chats, chatId) ==> r == []
    ensures r != [] ==> FindChat(chats, chatId).Some? && FindChat(chats, chatId).value.messages == Some(r)
  {
    match FindChat(chats, chatId)
    case None => []
    case Some(c) => c.messages.GetOr([])
  }

  /** The chat at the first matching index supplies the target messages:
      its `messages` list, or empty when it has none. */
  lemma TargetMessagesAtFirst(chats: seq<Chat>, chatId: string, i: nat)
    requires i < |chats| && IsChat(chats[i], chatId)
    requires forall j :: 0 <= j < i ==> !IsChat(chats[j], chatId)
    ensures TargetMessages(chats, chatId) == chats[i].messages.GetOr([])
  {
    FindChatIsFirst(chats, chatId, i);
  }

  /** Once a chat with the id has been seen, later chats with the same id
      are never read, even when the first one has no messages. */
  lemma TargetMessagesIgnoresLater(a: seq<Chat>, b: seq<Chat>, chatId: string)
    requires HasChat(a, chatId)
    ensures TargetMessages(a + b, chatId) == TargetMessages(a, chatId)
  {
    FindChatAppend(a, b, chatId);
  }

  /** `[chat for chat in chats if chat.get('id') != chat_id]`. */
  function WithoutChat(chats: seq<Chat>, chatId: string): (r: seq<Chat>)
    ensures |r| <= |chats|
    ensures forall c :: c in r ==> c in chats && !IsChat(c, chatId)
    ensures !HasChat(r, chatId)
  {
    if chats == [] then []
    else (if IsChat(chats[0], chatId) then [] else [chats[0]]) + WithoutChat(chats[1..], chatId)
  }

  /** Removal works piecewise, so the kept chats stay in their original
      relative order. */
  lemma {:induction false} WithoutChatAppend(a: seq<Chat>, b: seq<Chat>, chatId: string)
    ensures WithoutChat(a + b, chatId) == WithoutChat(a, chatId) + WithoutChat(b, chatId)
  {
    if a != [] {
      var ab := a + b;
      assert ab[0] == a[0];
      assert ab[1..] == a[1..] + b;
      WithoutChatAppend(a[1..], b, chatId);
    } else {
      assert a + b == b;
    }
  }

  /** Every chat with another id is kept. */
  lemma {:induction false} WithoutChatKeeps(chats: seq<Chat>, chatId: string, i: nat)
    requires i < |chats| && !IsChat(chats[i], chatId)
    ensures chats[i] in WithoutChat(chats, chatId)
  {
    if i > 0 {
      assert chats[1..][i - 1] == chats[i];
      WithoutChatKeeps(chats[1..], chatId, i - 1);
    }
  }

  /** The list gets shorter exactly when some chat has the id; otherwise it
      is returned unchanged. */
  lemma {:induction false} WithoutChatShrinks(chats: seq<Chat>, chatId: string)
    ensures |WithoutChat(chats, chatId)| < |chats| <==> HasChat(chats, chatId)
    ensures !HasChat(chats, chatId) ==> WithoutChat(chats, chatId) == chats
  {
    if chats != [] {
      var tail := chats[1..];
      WithoutChatShrinks(tail, chatId);
      if HasChat(chats, chatId) && !IsChat(chats[0], chatId) {
        var i :| 0 <= i < |chats| && IsChat(chats[i], chatId);
        assert tail[i - 1] == chats[i];
      }
      if HasChat(tail, chatId) {
        var i :| 0 <= i < |tail| && IsChat(tail[i], chatId);
        assert chats[i + 1] == tail[i];
      }
      if !HasChat(chats, chatId) {
        assert !IsChat(chats[0], chatId);
        assert [chats[0]] + tail == chats;
      }
    }
  }

  /** Removing twice is removing once: a second delete finds nothing. */
  lemma WithoutChatIdempotent(chats: seq<Chat>, chatId: string)
    ensures WithoutChat(WithoutChat(chats, chatId), chatId) == WithoutChat(chats, chatId)
  {
    WithoutChatShrinks(WithoutChat(chats, chatId), chatId);
  }

  /** The table after `delete_chat(userId, chatId)`: when the user's item
      holds a chat with the id, its `chats` attribute is overwritten with the
      filtered list; otherwise nothing is written. */
  function AfterDelete(t: Table, userId: string, chatId: string): (t': Table)
    ensures t'.Keys == t.Keys
    ensures forall u :: u in t && u != userId ==> t'[u] == t[u]
    ensures userId in t ==> t'[userId].attributes == t[userId].attributes
    ensures !HasChat(ChatsOf(t', userId), chatId)
    ensures HasChat(ChatsOf(t, userId), chatId) ==> ChatsOf(t', userId) == WithoutChat(ChatsOf(t, userId), chatId)
    ensures !HasChat(ChatsOf(t, userId), chatId) ==> t' == t
  {
    if userId in t && HasChat(ChatsOf(t, userId), chatId) then
      t[userId := t[userId].(chats := Some(WithoutChat(ChatsOf(t, userId), chatId)))]
    else
      t
  }

  /** After a delete, neither a read nor a second delete of the same chat
      finds it. */
  lemma DeletedChatIsGone(t: Table, userId: string, chatId: string)
    ensures TargetMessages(ChatsOf(AfterDelete(t, userId, chatId), userId), chatId) == []
    ensures AfterDelete(AfterDelete(t, userId, chatId), userId, chatId) == AfterDelete(t, userId, chatId)
  {
  }
}
