/** The conversation store of the browser (`useConversations`): the saved
    conversations, newest first, and the id of the open one. */
module ConversationsHook {
  import opened Types
  import opened Utils

  /** The title of a conversation nobody has written in yet */
  const DefaultTitle := "新しいチャット"

  /** The length a title derived from the first user message is cut to */
  const TitleLength := 30

  /** `messages.find(m => m.role === 'user')` */
  function FirstUser(messages: seq<Message>): (r: Option<Message>)
    ensures r.None? <==> forall i :: 0 <= i < |messages| ==> messages[i].role != User
    ensures r.Some? ==> exists k :: (0 <= k < |messages| && messages[k] == r.value && messages[k].role == User
                                     && forall j :: 0 <= j < k ==> messages[j].role != User)
  {
    if messages == [] then None
    else if messages[0].role == User then Some(messages[0])
    else
      var r := FirstUser(messages[1..]);
      assert r.Some? ==> exists k :: (0 <= k < |messages[1..]| && messages[1..][k] == r.value
                                      && messages[k + 1] == r.value && messages[1..][k].role == User
                                      && forall j :: 0 <= j < k ==> messages[1..][j].role != User && messages[j + 1].role != User);
      r
  }

  /** The title after an update with `messages`: a conversation still under
      the default title is named after its first user message, cut to thirty
      characters; any other title is kept */
  function DerivedTitle(title: string, messages: seq<Message>): string
  {
    if title == DefaultTitle && |messages| > 0 then
      match FirstUser(messages)
      case Some(m) => TruncateText(m.content, TitleLength)
      case None => title
    else title
  }

  /** The conversation after an update: the new messages, the derived title,
      the time of the update; the id and the creation time are kept */
  function Updated(c: Conversation, messages: seq<Message>, now: int): Conversation
  {
    c.(title := DerivedTitle(c.title, messages), messages := messages, updatedAt := now)
  }

  /** `prev.map(conv => conv.id !== id ? conv : …)` */
  function UpdateAll(conversations: seq<Conversation>, id: string, messages: seq<Message>, now: int)
    : (r: seq<Conversation>)
    ensures |r| == |conversations|
    ensures forall i :: 0 <= i < |r| ==>
      r[i] == if conversations[i].id == id then Updated(conversations[i], messages, now) else conversations[i]
  {
    if conversations == [] then []
    else
      var c := conversations[0];
      [if c.id == id then Updated(c, messages, now) else c] + UpdateAll(conversations[1..], id, messages, now)
  }

  /** `prev.filter(c => c.id !== id)` */
  function Without(conversations: seq<Conversation>, id: string): (r: seq<Conversation>)
    ensures |r| <= |conversations|
    ensures forall c :: c in r <==> c in conversations && c.id != id
  {
    if conversations == [] then []
    else
      var rest := Without(conversations[1..], id);
      assert conversations == [conversations[0]] + conversations[1..];
      if conversations[0].id == id then rest else [conversations[0]] + rest
  }

  /** `conversations.find(c => c.id === activeConversationId)`: no
      conversation has the null id */
  function FindById(conversations: seq<Conversation>, id: Option<string>): (r: Option<Conversation>)
    ensures r.None? <==> id.None? || forall i :: 0 <= i < |conversations| ==> conversations[i].id != id.value
    ensures r.Some? ==> exists k :: (0 <= k < |conversations| && conversations[k] == r.value
                                     && conversations[k].id == id.value
                                     && forall j :: 0 <= j < k ==> conversations[j].id != id.value)
  {
    if id.None? || conversations == [] then None
    else if conversations[0].id == id.value then Some(conversations[0])
    else
      var r := FindById(conversations[1..], id);
      assert r.Some? ==> exists k :: (0 <= k < |conversations[1..]| && conversations[1..][k] == r.value
                                      && conversations[k + 1] == r.value && conversations[1..][k].id == id.value
                                      && forall j :: 0 <= j < k ==>
                                           conversations[1..][j].id != id.value && conversations[j + 1].id != id.value);
      r
  }

  /** A title other than the default survives every update, and the default
      gives way to the first user message exactly when there is one. */
  lemma TitleRule(title: string, messages: seq<Message>)
    ensures title != DefaultTitle ==> DerivedTitle(title, messages) == title
    ensures title == DefaultTitle ==>
      match FirstUser(messages)
      case Some(m) => DerivedTitle(title, messages) == TruncateText(m.content, TitleLength)
      case None => DerivedTitle(title, messages) == DefaultTitle
  {
  }

  /** A derived title is at most thirty characters and the three dots long,
      and it opens with the start of the first user message. */
  lemma DerivedTitleBound(title: string, messages: seq<Message>)
    requires title == DefaultTitle && FirstUser(messages).Some?
    ensures var t := DerivedTitle(title, messages);
      var content := FirstUser(messages).value.content;
      |t| <= TitleLength + 3
      && (|content| <= TitleLength ==> t == content)
      && (|content| > TitleLength ==> t == content[..TitleLength] + "...")
  {
    TruncateBounds(FirstUser(messages).value.content, TitleLength);
  }

  /** Deriving again with the same messages changes nothing. */
  lemma DerivedTitleStable(title: string, messages: seq<Message>)
    ensures DerivedTitle(DerivedTitle(title, messages), messages) == DerivedTitle(title, messages)
  {
    var t := DerivedTitle(title, messages);
    if title == DefaultTitle && |messages| > 0 && FirstUser(messages).Some? {
      TruncateIdempotent(FirstUser(messages).value.content, TitleLength);
    }
  }

  /** Removal keeps the others in their order: filtering a concatenation is
      the concatenation of the filtered parts. */
  lemma {:induction false} WithoutAppend(a: seq<Conversation>, b: seq<Conversation>, id: string)
    ensures Without(a + b, id) == Without(a, id) + Without(b, id)
    decreases |a|
  {
    if a != [] {
      assert (a + b)[0] == a[0];
      assert (a + b)[1..] == a[1..] + b;
      WithoutAppend(a[1..], b, id);
    } else {
      assert a + b == b;
    }
  }

  /** A list without the id is left as it is. */
  lemma {:induction false} WithoutAbsent(conversations: seq<Conversation>, id: string)
    requires forall i :: 0 <= i < |conversations| ==> conversations[i].id != id
    ensures Without(conversations, id) == conversations
    decreases |conversations|
  {
    if conversations != [] {
      WithoutAbsent(conversations[1..], id);
      assert conversations == [conversations[0]] + conversations[1..];
    }
  }

  /** After a deletion the id is found no more; every other id finds the
      same conversation as before. */
  lemma {:induction false} FindAfterDelete(conversations: seq<Conversation>, id: string, other: Option<string>)
    ensures FindById(Without(conversations, id), Some(id)) == None
    ensures other != Some(id) ==> FindById(Without(conversations, id), other) == FindById(conversations, other)
    decreases |conversations|
  {
    if conversations != [] {
      FindAfterDelete(conversations[1..], id, other);
      var rest := Without(conversations[1..], id);
      if conversations[0].id != id {
        assert Without(conversations, id) == [conversations[0]] + rest;
        assert ([conversations[0]] + rest)[1..] == rest;
      }
    }
  }

  /** An update leaves the ids, the order and every other conversation as
      they were. */
  lemma UpdateKeeps(conversations: seq<Conversation>, id: string, messages: seq<Message>, now: int)
    ensures var r := UpdateAll(conversations, id, messages, now);
      (forall i :: 0 <= i < |r| ==> r[i].id == conversations[i].id && r[i].createdAt == conversations[i].createdAt)
      && (forall i :: 0 <= i < |r| && conversations[i].id != id ==> r[i] == conversations[i])
      && (forall i :: 0 <= i < |r| && conversations[i].id == id ==>
            r[i].messages == messages && r[i].updatedAt == now
            && r[i].title == DerivedTitle(conversations[i].title, messages))
  {
  }

  /** The store */
  class ConversationStore {
    var conversations: seq<Conversation>
    var activeId: Option<string>

    constructor ()
      ensures conversations == [] && activeId == None
    {
      conversations := [];
      activeId := None;
    }

    /** `createConversation()`: a conversation with the default title and
        no messages goes first and becomes the open one; `id` stands for
        `generateId()`, `created` and `updated` for the two reads of
        `Date.now()` */
    method CreateConversation(id: string, created: int, updated: int) returns (newId: string)
      modifies this
      ensures newId == id
      ensures conversations == [Conversation(id, DefaultTitle, [], created, updated)] + old(conversations)
      ensures activeId == Some(id)
      ensures GetActiveConversation() == Some(Conversation(id, DefaultTitle, [], created, updated))
    {
      conversations := [Conversation(id, DefaultTitle, [], created, updated)] + conversations;
      activeId := Some(id);
      newId := id;
    }

    /** `updateConversation(id, messages)`: every conversation with the id
        gets the messages, its derived title and the time of the update */
    method UpdateConversation(id: string, messages: seq<Message>, now: int)
      modifies this
      ensures conversations == UpdateAll(old(conversations), id, messages, now)
      ensures activeId == old(activeId)
    {
      conversations := UpdateAll(conversations, id, messages, now);
    }

    /** `deleteConversation(id)`: every conversation with the id goes, and
        the open id is cleared when it was this one */
    method DeleteConversation(id: string)
      modifies this
      ensures conversations == Without(old(conversations), id)
      ensures activeId == if old(activeId) == Some(id) then None else old(activeId)
      ensures GetActiveConversation().None? || GetActiveConversation().value.id != id
    {
      conversations := Without(conversations, id);
      if activeId == Some(id) {
        activeId := None;
      }
      FindAfterDelete(old(conversations), id, activeId);
    }

    /** `getActiveConversation()`: the first conversation with the open id */
    function GetActiveConversation(): (r: Option<Conversation>)
      reads this
      ensures r.Some? ==> r.value in conversations && activeId == Some(r.value.id)
      ensures r.None? <==> activeId.None? || forall i :: 0 <= i < |conversations| ==> conversations[i].id != activeId.value
    {
      FindById(conversations, activeId)
    }
  }
}
