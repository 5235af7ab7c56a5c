/** The pure list transforms the controller in App.tsx hands to
    `setConversations`: `find`, `findIndex`, `filter`, and
    `prev.map(c => c.id === id ? { ...c, ... } : c)` with the handful of
    conversation edits the handlers make. */
module ConversationStore {
  import opened Wrappers
  import opened Types
  import opened Constants

  /** The conversation createNewChat builds: sentinel title, no messages,
      the active model and the current global prompt. */
  function NewChat(id: string, modelId: string, systemPrompt: string, now: int): Conversation
  {
    Conversation(id, NewConversationTitle, [], modelId, now, Some(systemPrompt))
  }

  predicate UniqueIds(cs: seq<Conversation>)
  {
    forall i, j :: 0 <= i < j < |cs| ==> cs[i].id != cs[j].id
  }

  /** `conversations.find(c => c.id === id)`: the first conversation with
      that id, if any. */
  function FindChat(cs: seq<Conversation>, id: string): (r: Option<Conversation>)
    ensures r.None? <==> forall i :: 0 <= i < |cs| ==> cs[i].id != id
    ensures r.Some? ==> r.value in cs && r.value.id == id
    ensures forall i :: 0 <= i < |cs| && cs[i].id == id && (forall j :: 0 <= j < i ==> cs[j].id != id) ==>
              r == Some(cs[i])
  {
    if |cs| == 0 then None
    else if cs[0].id == id then Some(cs[0])
    else
      var r := FindChat(cs[1..], id);
      assert forall i :: 1 <= i < |cs| ==> cs[1..][i - 1] == cs[i];
      r
  }

  /** `messages.findIndex(m => m.id === id)`, with -1 as None. */
  function MessageIndex(ms: seq<Message>, id: string): (r: Option<nat>)
    ensures r.None? <==> forall j :: 0 <= j < |ms| ==> ms[j].id != id
    ensures r.Some? ==> r.value < |ms| && ms[r.value].id == id && forall j :: 0 <= j < r.value ==> ms[j].id != id
  {
    if |ms| == 0 then None
    else if ms[0].id == id then Some(0)
    else
      var r := MessageIndex(ms[1..], id);
      assert forall j :: 1 <= j < |ms| ==> ms[1..][j - 1] == ms[j];
      if r.None? then None else Some(r.value + 1)
  }

  /** `conversations.filter(c => c.id !== id)`: exactly the conversations
      with another id remain. */
  function WithoutChat(cs: seq<Conversation>, id: string): (r: seq<Conversation>)
    ensures forall c :: c in r <==> c in cs && c.id != id
    ensures |r| <= |cs|
  {
    if |cs| == 0 then []
    else (if cs[0].id == id then [] else [cs[0]]) + WithoutChat(cs[1..], id)
  }

  /** The filter keeps order: it distributes over concatenation. */
  lemma {:induction false} WithoutChatDistributes(a: seq<Conversation>, b: seq<Conversation>, id: string)
    ensures WithoutChat(a + b, id) == WithoutChat(a, id) + WithoutChat(b, id)
  {
    if a != [] {
      assert (a + b)[1..] == a[1..] + b;
      WithoutChatDistributes(a[1..], b, id);
    } else {
      assert a + b == b;
    }
  }

  /** Deleting an id no conversation has changes nothing. */
  lemma {:induction false} WithoutChatAbsent(cs: seq<Conversation>, id: string)
    requires forall i :: 0 <= i < |cs| ==> cs[i].id != id
    ensures WithoutChat(cs, id) == cs
  {
    if cs != [] {
      WithoutChatAbsent(cs[1..], id);
    }
  }

  lemma {:induction false} WithoutChatUnique(cs: seq<Conversation>, id: string)
    requires UniqueIds(cs)
    ensures UniqueIds(WithoutChat(cs, id))
  {
    if cs != [] {
      WithoutChatUnique(cs[1..], id);
      var rest := WithoutChat(cs[1..], id);
      forall j | 0 <= j < |rest|
        ensures rest[j].id != cs[0].id
      {
        assert rest[j] in cs[1..];
      }
    }
  }

  /** One change to a conversation, as the handlers write it. */
  datatype Edit =
    | PutMessages(messages: seq<Message>, lastUpdated: Option<int>)  // { ...c, messages[, lastUpdated] }
    | SetLast(messageId: string, content: string)  // content of the last message, if it has that id
    | SetAt(index: nat, content: string)           // msgs[index] = { ...msgs[index], content }
    | Rewrite(index: nat, content: string, timestamp: int)  // the same, also resetting the timestamp
    | Retitle(title: string)                        // { ...c, title }

  /** An edit by index needs the index to exist. */
  predicate Fits(c: Conversation, e: Edit)
  {
    match e
    case SetAt(i, _) => i < |c.messages|
    case Rewrite(i, _, _) => i < |c.messages|
    case _ => true
  }

  function ApplyEdit(c: Conversation, e: Edit): (r: Conversation)
    requires Fits(c, e)
    ensures r.id == c.id
    ensures !e.PutMessages? ==> |r.messages| == |c.messages|
  {
    match e
    case PutMessages(ms, lu) =>
      c.(messages := ms, lastUpdated := if lu.Some? then lu.value else c.lastUpdated)
    case SetLast(mid, text) =>
      var n := |c.messages|;
      if n > 0 && c.messages[n - 1].id == mid
      then c.(messages := c.messages[n - 1 := c.messages[n - 1].(content := text)])
      else c
    case SetAt(i, text) =>
      c.(messages := c.messages[i := c.messages[i].(content := text)])
    case Rewrite(i, text, ts) =>
      c.(messages := c.messages[i := c.messages[i].(content := text, timestamp := ts)])
    case Retitle(t) =>
      c.(title := t)
  }

  predicate FitsAll(cs: seq<Conversation>, id: string, e: Edit)
  {
    forall c :: c in cs && c.id == id ==> Fits(c, e)
  }

  /** `prev.map(c => c.id === id ? edit(c) : c)`. */
  function UpdateChat(cs: seq<Conversation>, id: string, e: Edit): seq<Conversation>
    requires FitsAll(cs, id, e)
  {
    if |cs| == 0 then []
    else [if cs[0].id == id then ApplyEdit(cs[0], e) else cs[0]] + UpdateChat(cs[1..], id, e)
  }

  /** The map keeps the length, applies the edit to every conversation with
      the id and leaves every other conversation as it was. */
  lemma {:induction false} UpdateChatAt(cs: seq<Conversation>, id: string, e: Edit)
    requires FitsAll(cs, id, e)
    ensures |UpdateChat(cs, id, e)| == |cs|
    ensures forall i :: 0 <= i < |cs| ==>
              UpdateChat(cs, id, e)[i] == if cs[i].id == id then ApplyEdit(cs[i], e) else cs[i]
  {
    if cs != [] {
      UpdateChatAt(cs[1..], id, e);
      assert forall i :: 1 <= i < |cs| ==> cs[1..][i - 1] == cs[i];
    }
  }

  /** The map keeps every id in place, so it keeps ids unique. */
  lemma UpdateChatIds(cs: seq<Conversation>, id: string, e: Edit)
    requires FitsAll(cs, id, e)
    ensures |UpdateChat(cs, id, e)| == |cs|
    ensures forall i :: 0 <= i < |cs| ==> UpdateChat(cs, id, e)[i].id == cs[i].id
    ensures UniqueIds(cs) ==> UniqueIds(UpdateChat(cs, id, e))
  {
    UpdateChatAt(cs, id, e);
  }

  /** An edit that keeps message counts keeps every index edit fitting. */
  lemma UpdateChatKeepsFit(cs: seq<Conversation>, id: string, e: Edit, id': string, e': Edit)
    requires FitsAll(cs, id, e) && FitsAll(cs, id', e')
    requires !e.PutMessages?
    ensures FitsAll(UpdateChat(cs, id, e), id', e')
  {
    UpdateChatAt(cs, id, e);
    var r := UpdateChat(cs, id, e);
    forall c | c in r && c.id == id'
      ensures Fits(c, e')
    {
      var i :| 0 <= i < |r| && r[i] == c;
      assert Fits(cs[i], e');
    }
  }

  /** Two successive maps over the same id are one map with the composed
      edit, when the edits compose on every conversation with that id. */
  lemma {:induction false} UpdateChatTwice(cs: seq<Conversation>, id: string, e1: Edit, e2: Edit, e3: Edit)
    requires FitsAll(cs, id, e1) && FitsAll(cs, id, e3)
    requires forall c :: c in cs && c.id == id ==>
               Fits(ApplyEdit(c, e1), e2) && ApplyEdit(ApplyEdit(c, e1), e2) == ApplyEdit(c, e3)
    ensures FitsAll(UpdateChat(cs, id, e1), id, e2)
    ensures UpdateChat(UpdateChat(cs, id, e1), id, e2) == UpdateChat(cs, id, e3)
  {
    UpdateChatAt(cs, id, e1);
    var r := UpdateChat(cs, id, e1);
    forall c | c in r && c.id == id
      ensures Fits(c, e2)
    {
      var i :| 0 <= i < |r| && r[i] == c;
    }
    if cs != [] {
      UpdateChatTwice(cs[1..], id, e1, e2, e3);
    }
  }
}
