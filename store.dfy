/** The chat table and the two operations that touch it: reading one chat's
    messages and deleting a chat. `get_item` is a read of `items`, and
    `update_item ... SET chats = :chats` overwrites the `chats` attribute of
    one item. */
module Store {
  import opened Values
  import opened Chats
  import opened Projection

  class ChatTable {
    /** Every user's stored item, keyed by userId. */
    var items: Table

    constructor (initial: Table)
      ensures items == initial
    {
      items := initial;
    }

    /** `get_chat_messages`: the views of the messages of the first chat with
        `chatId` in the user's item, in stored order; None when no chat
        matches or the matching chat has no messages. */
    method GetChatMessages(userId: string, chatId: string) returns (r: Option<seq<Dict>>)
      ensures r.None? <==> TargetMessages(ChatsOf(items, userId), chatId) == []
      ensures r.Some? ==> IsMessagesView(TargetMessages(ChatsOf(items, userId), chatId), r.value)
    {
      var allChats := if userId in items then items[userId].chats.GetOr([]) else [];

      // the search loop: the first chat with the id wins
      var target: seq<StoredMessage> := [];
      var i := 0;
      while i < |allChats|
        invariant i <= |allChats|
        invariant FindChat(allChats, chatId) == FindChat(allChats[i..], chatId)
        invariant target == []
      {
        if IsChat(allChats[i], chatId) {
          target := allChats[i].messages.GetOr([]);
          break;
        }
        assert allChats[i..][1..] == allChats[i + 1..];
        i := i + 1;
      }

      if target == [] {
        return None;
      }

      // the projection loop: one view per stored message
      var processed: seq<Dict> := [];
      for k := 0 to |target|
        invariant |processed| == k
        invariant forall j :: 0 <= j < k ==> IsMessageView(target[j], processed[j])
      {
        var view := ProcessMessage(target[k]);
        processed := processed + [view];
      }
      return Some(processed);
    }

    /** `delete_chat`: removes every chat with `chatId` from the user's item
        and writes the item's `chats` back, but only when that removed
        something. Reports whether it did. */
    method DeleteChat(userId: string, chatId: string) returns (removed: bool)
      modifies this
      ensures removed <==> userId in old(items) && HasChat(ChatsOf(old(items), userId), chatId)
      ensures items == AfterDelete(old(items), userId, chatId)
    {
      if userId !in items {
        return false;
      }
      var allChats := items[userId].chats.GetOr([]);
      var updated := WithoutChat(allChats, chatId);
      WithoutChatShrinks(allChats, chatId);
      if |updated| == |allChats| {
        return false;
      }
      items := items[userId := items[userId].(chats := Some(updated))];
      return true;
    }
  }
}
