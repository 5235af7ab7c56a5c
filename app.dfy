/** The chat session controller (App.tsx): the conversation list, the
    selection, the active model, the global system prompt and the single
    `isStreaming` busy flag, with the handlers that change them.

    A handler that awaits a stream is split at its suspension points:
    `BeginSend`/`BeginRegenerate` run up to the call of streamChat, `OnChunk`
    is the onChunk callback, `OnStreamError` the catch block and `Settle` the
    finally block. The record `pending` holds the locals those callbacks close
    over. `HandleSendMessage` and `HandleRegenerate` run one handler to the
    end over a given stream. A title reply is the separate event `OnTitle`. */
module App {
  import opened Wrappers
  import opened Types
  import opened Constants
  import opened ConversationStore
  import opened GeminiService

  /** The arguments handed to streamChat. */
  datatype ChatCall = ChatCall(modelId: string, messages: seq<Message>, systemPrompt: string)

  /** A title request made by a send: the conversation and the text given to
      generateTitle. */
  datatype TitleRequest = TitleRequest(chatId: string, subject: string)

  /** The locals a handler's callbacks close over while its stream is open. */
  datatype PendingStream =
    | Sending(chatId: string, assistantMessageId: string, accumulated: string)
    | Regenerating(chatId: string, index: nat, accumulated: string)

  /** The conversation a send writes to, and the list it starts from. */
  datatype Target = Target(chatId: string, chat: Conversation, base: seq<Conversation>)

  /** The conversation and message index a regeneration works on. */
  datatype Slot = Slot(chat: Conversation, index: nat)

  /** The write a stream makes into its slot: a send writes the last message
      only while it is still the placeholder, a regeneration writes by index. */
  function SlotWrite(p: PendingStream, content: string): Edit
  {
    match p
    case Sending(_, aid, _) => SetLast(aid, content)
    case Regenerating(_, i, _) => SetAt(i, content)
  }

  function ErrorText(p: PendingStream): string
  {
    if p.Sending? then SendErrorText else RegenerateErrorText
  }

  /** The content a finished stream leaves in its slot. */
  function Reply(outcome: Result<string, ServiceError>, errorText: string): string
  {
    if outcome.Success? then outcome.value else errorText
  }

  /** The ECMAScript WhiteSpace and LineTerminator code points, which
      `String.prototype.trim` removes. */
  predicate IsJsWhitespace(c: char)
  {
    || c == '\t' || c == '\n' || c == '\U{000B}' || c == '\U{000C}' || c == '\r' || c == ' '
    || c == '\U{00A0}' || c == '\U{1680}' || ('\U{2000}' <= c <= '\U{200A}')
    || c == '\U{2028}' || c == '\U{2029}' || c == '\U{202F}' || c == '\U{205F}'
    || c == '\U{3000}' || c == '\U{FEFF}'
  }

  predicate IsBlank(s: string)
  {
    forall i :: 0 <= i < |s| ==> IsJsWhitespace(s[i])
  }

  function TrimStart(s: string): string
  {
    if |s| > 0 && IsJsWhitespace(s[0]) then TrimStart(s[1..]) else s
  }

  function TrimEnd(s: string): string
  {
    if |s| > 0 && IsJsWhitespace(s[|s| - 1]) then TrimEnd(s[..|s| - 1]) else s
  }

  /** `text.trim()`. */
  function Trim(s: string): string
  {
    TrimEnd(TrimStart(s))
  }

  lemma {:induction false} TrimStartBlank(s: string)
    ensures TrimStart(s) == "" <==> IsBlank(s)
    ensures TrimStart(s) != "" ==> !IsJsWhitespace(TrimStart(s)[0])
  {
    if |s| > 0 && IsJsWhitespace(s[0]) {
      TrimStartBlank(s[1..]);
      assert forall i :: 1 <= i < |s| ==> s[1..][i - 1] == s[i];
    }
  }

  lemma {:induction false} TrimEndKeepsHead(s: string)
    requires s != "" && !IsJsWhitespace(s[0])
    ensures TrimEnd(s) != ""
  {
    if IsJsWhitespace(s[|s| - 1]) {
      TrimEndKeepsHead(s[..|s| - 1]);
    }
  }

  /** `!text.trim()` holds exactly for whitespace-only text. */
  lemma TrimEmptyIffBlank(s: string)
    ensures Trim(s) == "" <==> IsBlank(s)
  {
    TrimStartBlank(s);
    if TrimStart(s) != "" {
      TrimEndKeepsHead(TrimStart(s));
    }
  }

  /** The early returns of handleSendMessage: blank text without attachments,
      or a stream already in flight. */
  predicate SendIgnored(text: string, attachments: seq<Attachment>, isStreaming: bool)
  {
    (Trim(text) == "" && |attachments| == 0) || isStreaming
  }

  /** `!currentChatId`: null, or the empty string. */
  predicate IsUnset(id: Option<string>)
  {
    id.None? || id.value == ""
  }

  /** `chat.systemPrompt || systemPrompt`: the conversation's own prompt
      unless it is missing or empty. */
  function EffectivePrompt(c: Conversation, global: string): (r: string)
    ensures c.systemPrompt.Some? && c.systemPrompt.value != "" ==> r == c.systemPrompt.value
    ensures c.systemPrompt.None? || c.systemPrompt.value == "" ==> r == global
  {
    if c.systemPrompt.Some? && c.systemPrompt.value != "" then c.systemPrompt.value else global
  }

  /** The user message of a send: attachments only when there are some. */
  function UserMessage(id: string, text: string, attachments: seq<Attachment>, now: int): Message
  {
    Message(id, USER, text, now, None, if |attachments| > 0 then Some(attachments) else None)
  }

  /** The empty MODEL message a send appends before streaming. */
  function Placeholder(id: string, now: int): Message
  {
    Message(id, MODEL, "", now, None, None)
  }

  /** `text || "File Analysis"`. */
  function TitleSubject(text: string): (r: string)
    ensures r != ""
    ensures text != "" ==> r == text
    ensures text == "" ==> r == FileAnalysisSubject
  {
    if text == "" then FileAnalysisSubject else text
  }

  /** The conversation handleSendMessage targets: a new one when nothing is
      selected, else the selected one if it exists. */
  function ResolveTarget(cs: seq<Conversation>, selected: Option<string>, newChat: Conversation): (r: Option<Target>)
    ensures IsUnset(selected) ==> r == Some(Target(newChat.id, newChat, [newChat] + cs))
    ensures !IsUnset(selected) ==> (r.None? <==> forall i :: 0 <= i < |cs| ==> cs[i].id != selected.value)
    ensures r.Some? ==> r.value.chat in r.value.base && r.value.chat.id == r.value.chatId
    ensures r.Some? && !IsUnset(selected) ==> r.value.base == cs && r.value.chatId == selected.value
  {
    if IsUnset(selected) then Some(Target(newChat.id, newChat, [newChat] + cs))
    else match FindChat(cs, selected.value)
      case None => None
      case Some(t) => Some(Target(selected.value, t, cs))
  }

  /** Both writes of a send's append collapse into one: the user message
      (bumping lastUpdated), then the placeholder. */
  lemma AppendWritesCompose(cs: seq<Conversation>, id: string, sent: seq<Message>, p: Message, now: int)
    ensures UpdateChat(UpdateChat(cs, id, PutMessages(sent, Some(now))), id, PutMessages(sent + [p], None))
         == UpdateChat(cs, id, PutMessages(sent + [p], Some(now)))
  {
    UpdateChatTwice(cs, id, PutMessages(sent, Some(now)), PutMessages(sent + [p], None), PutMessages(sent + [p], Some(now)));
  }

  /** A chunk write over an appended placeholder is the append with the new
      content in the placeholder: each write replaces, nothing accumulates in
      the conversation itself. */
  lemma ChunkWriteComposes(cs: seq<Conversation>, id: string, sent: seq<Message>, p: Message, x: string, now: int)
    ensures UpdateChat(UpdateChat(cs, id, PutMessages(sent + [p], Some(now))), id, SetLast(p.id, x))
         == UpdateChat(cs, id, PutMessages(sent + [p.(content := x)], Some(now)))
  {
    var m := sent + [p];
    assert m[|m| - 1 := p.(content := x)] == sent + [p.(content := x)];
    UpdateChatTwice(cs, id, PutMessages(m, Some(now)), SetLast(p.id, x), PutMessages(sent + [p.(content := x)], Some(now)));
  }

  /** A chunk write into a regenerated slot is the reset with the new
      content: the reset's timestamp stays. */
  lemma SlotWriteComposes(cs: seq<Conversation>, id: string, idx: nat, y: string, x: string, now: int)
    requires FitsAll(cs, id, Rewrite(idx, y, now))
    ensures FitsAll(UpdateChat(cs, id, Rewrite(idx, y, now)), id, SetAt(idx, x))
    ensures UpdateChat(UpdateChat(cs, id, Rewrite(idx, y, now)), id, SetAt(idx, x))
         == UpdateChat(cs, id, Rewrite(idx, x, now))
  {
    UpdateChatTwice(cs, id, Rewrite(idx, y, now), SetAt(idx, x), Rewrite(idx, x, now));
  }

  /** What a completed send leaves: the target conversation holds its old
      messages, then the user message, then the reply, with lastUpdated
      bumped and title, model and prompt kept; every other conversation is
      untouched and the list keeps its length. */
  lemma SendEffect(base: seq<Conversation>, t: Conversation, user: Message, reply: Message, now: int)
    requires UniqueIds(base) && t in base
    ensures var r := UpdateChat(base, t.id, PutMessages(t.messages + [user] + [reply], Some(now)));
      && |r| == |base|
      && forall i :: 0 <= i < |base| ==>
           if base[i].id == t.id then
             && r[i] == t.(messages := t.messages + [user, reply], lastUpdated := now)
             && |r[i].messages| == |t.messages| + 2
             && r[i].messages[..|t.messages|] == t.messages
           else r[i] == base[i]
  {
    UpdateChatAt(base, t.id, PutMessages(t.messages + [user] + [reply], Some(now)));
    assert t.messages + [user] + [reply] == t.messages + [user, reply];
  }

  /** What a completed regeneration leaves: in the target conversation only
      message `idx` changes, to the given content and timestamp, keeping its
      id, role and attachments; every other field of that conversation, the
      message count and every other conversation are untouched. */
  lemma RegenerateEffect(base: seq<Conversation>, id: string, idx: nat, content: string, now: int)
    requires FitsAll(base, id, Rewrite(idx, content, now))
    ensures var r := UpdateChat(base, id, Rewrite(idx, content, now));
      && |r| == |base|
      && forall i :: 0 <= i < |base| ==>
           if base[i].id == id then
             && r[i] == base[i].(messages := base[i].messages[idx := base[i].messages[idx].(content := content, timestamp := now)])
             && |r[i].messages| == |base[i].messages|
             && forall j :: 0 <= j < |base[i].messages| && j != idx ==> r[i].messages[j] == base[i].messages[j]
           else r[i] == base[i]
  {
    UpdateChatAt(base, id, Rewrite(idx, content, now));
  }

  /** Regenerating the first message resends `messages[..0]`, an empty
      history, which makes streamChat throw whatever the key and the stream;
      the reset slot 0 of the target then holds the regeneration error. */
  lemma RegenerateFirstMessageFails(base: seq<Conversation>, id: string, ms: seq<Message>,
                                    apiKey: Option<string>, response: StreamScript, now: int)
    requires FitsAll(base, id, Rewrite(0, "", now))
    ensures var r := UpdateChat(base, id, Rewrite(0, Reply(StreamOutcome(apiKey, ms[..0], response), RegenerateErrorText), now));
      && |r| == |base|
      && forall i :: 0 <= i < |base| && base[i].id == id ==>
           && |r[i].messages| == |base[i].messages|
           && r[i].messages[0].content == RegenerateErrorText
  {
    var e := Rewrite(0, Reply(StreamOutcome(apiKey, ms[..0], response), RegenerateErrorText), now);
    assert ms[..0] == [];
    assert FitsAll(base, id, e) by {
      forall c | c in base && c.id == id ensures Fits(c, e) {
        assert Fits(c, Rewrite(0, "", now));
      }
    }
    UpdateChatAt(base, id, e);
  }

  class ChatApp {
    var conversations: seq<Conversation>
    var currentChatId: Option<string>
    var activeModel: Model
    var systemPrompt: string
    var isStreaming: bool
    /** The handler awaiting its stream, if any. */
    var pending: Option<PendingStream>
    /** Every conversation id handed out so far; uuidv4 never repeats one. */
    ghost var issuedIds: set<string>

    ghost predicate Valid()
      reads this
    {
      && UniqueIds(conversations)
      && (forall i :: 0 <= i < |conversations| ==> conversations[i].id in issuedIds)
      && (isStreaming <==> pending.Some?)
      && (pending.Some? ==> pending.value.chatId in issuedIds)
      && (pending.Some? ==> FitsAll(conversations, pending.value.chatId, SlotWrite(pending.value, "")))
    }

    /** `conversations.find(c => c.id === currentChatId)`. */
    function CurrentChat(): Option<Conversation>
      reads this
    {
      if currentChatId.None? then None else FindChat(conversations, currentChatId.value)
    }

    /** The target of a send started now with `newChatId` as the id of a
        conversation it may create. */
    function SendTarget(newChatId: string, now: int): Option<Target>
      reads this
    {
      ResolveTarget(conversations, currentChatId, NewChat(newChatId, activeModel.id, systemPrompt, now))
    }

    /** The slot handleRegenerate works on, or None where it returns early:
        a stream in flight, no selection, no such conversation or message. */
    function RegenerateSlot(messageId: string): (r: Option<Slot>)
      reads this
      ensures r.Some? ==> !isStreaming && !IsUnset(currentChatId)
      ensures r.Some? ==> CurrentChat() == Some(r.value.chat) && r.value.chat.id == currentChatId.value
      ensures r.Some? ==> MessageIndex(r.value.chat.messages, messageId) == Some(r.value.index)
      ensures r.Some? ==> r.value.index < |r.value.chat.messages|
      ensures r.None? ==> isStreaming || IsUnset(currentChatId) || CurrentChat().None?
                          || MessageIndex(CurrentChat().value.messages, messageId).None?
    {
      if isStreaming || IsUnset(currentChatId) then None
      else match CurrentChat()
        case None => None
        case Some(t) =>
          match MessageIndex(t.messages, messageId)
          case None => None
          case Some(i) => Some(Slot(t, i))
    }

    /** Start-up: the stored list, or an empty one when nothing is stored;
        nothing selected, the first catalog model, the default prompt. */
    constructor Load(saved: Option<seq<Conversation>>)
      requires saved.Some? ==> UniqueIds(saved.value)
      ensures Valid()
      ensures conversations == (if saved.Some? then saved.value else [])
      ensures currentChatId.None? && activeModel == DefaultModel && systemPrompt == DefaultSystemPrompt
      ensures !isStreaming && pending.None?
      ensures issuedIds == set c | c in conversations :: c.id
    {
      var loaded := if saved.Some? then saved.value else [];
      conversations := loaded;
      currentChatId := None;
      activeModel := DefaultModel;
      systemPrompt := DefaultSystemPrompt;
      isStreaming := false;
      pending := None;
      issuedIds := set c | c in loaded :: c.id;
    }

    /** The sidebar's onSelectChat. */
    method SelectChat(id: string)
      requires Valid()
      modifies this`currentChatId
      ensures Valid()
      ensures currentChatId == Some(id)
    {
      currentChatId := Some(id);
    }

    /** The model picker's onModelChange; only later conversations use it. */
    method SetActiveModel(m: Model)
      requires Valid()
      modifies this`activeModel
      ensures Valid()
      ensures activeModel == m
    {
      activeModel := m;
    }

    /** onSystemPromptChange; only later conversations and prompt fallbacks use it. */
    method SetSystemPrompt(p: string)
      requires Valid()
      modifies this`systemPrompt
      ensures Valid()
      ensures systemPrompt == p
    {
      systemPrompt := p;
    }

    /** createNewChat: prepend a fresh conversation and select it. */
    method CreateNewChat(newId: string, now: int)
      requires Valid() && newId !in issuedIds
      modifies this`conversations, this`currentChatId, this`issuedIds
      ensures Valid()
      ensures conversations == [NewChat(newId, activeModel.id, systemPrompt, now)] + old(conversations)
      ensures currentChatId == Some(newId)
      ensures issuedIds == old(issuedIds) + {newId}
    {
      conversations := [NewChat(newId, activeModel.id, systemPrompt, now)] + conversations;
      currentChatId := Some(newId);
      issuedIds := issuedIds + {newId};
    }

    /** deleteChat: drop every conversation with the id; clear the selection
        only when it was that id. */
    method DeleteChat(id: string)
      requires Valid()
      modifies this`conversations, this`currentChatId
      ensures Valid()
      ensures conversations == WithoutChat(old(conversations), id)
      ensures currentChatId == if old(currentChatId) == Some(id) then None else old(currentChatId)
    {
      WithoutChatUnique(conversations, id);
      conversations := WithoutChat(conversations, id);
      if currentChatId == Some(id) {
        currentChatId := None;
      }
    }

    /** handleSendMessage up to the call of streamChat: the guards, the new
        conversation when nothing is selected, the user message, the title
        request for a first message, the placeholder and the busy flag. */
    method BeginSend(text: string, attachments: seq<Attachment>, newChatId: string,
                     userMessageId: string, assistantMessageId: string, now: int)
      returns (call: Option<ChatCall>, title: Option<TitleRequest>)
      requires Valid() && newChatId !in issuedIds
      modifies this`conversations, this`currentChatId, this`isStreaming, this`pending, this`issuedIds
      ensures Valid()
      ensures call.None? <==> SendIgnored(text, attachments, old(isStreaming)) || old(SendTarget(newChatId, now)).None?
      ensures call.None? ==>
        && title.None? && conversations == old(conversations) && currentChatId == old(currentChatId)
        && isStreaming == old(isStreaming) && pending == old(pending) && issuedIds == old(issuedIds)
      ensures call.Some? ==>
        var t := old(SendTarget(newChatId, now)).value;
        var sent := t.chat.messages + [UserMessage(userMessageId, text, attachments, now)];
        && conversations == UpdateChat(t.base, t.chatId, PutMessages(sent + [Placeholder(assistantMessageId, now)], Some(now)))
        && currentChatId == Some(t.chatId)
        && call.value == ChatCall(t.chat.modelId, sent, EffectivePrompt(t.chat, systemPrompt))
        && title == (if |sent| == 1 then Some(TitleRequest(t.chatId, TitleSubject(text))) else None)
        && isStreaming && pending == Some(Sending(t.chatId, assistantMessageId, ""))
        && issuedIds == old(issuedIds) + {t.chatId}
    {
      if Trim(text) == "" && |attachments| == 0 {
        return None, None;
      }
      if isStreaming {
        return None, None;
      }
      ghost var target := SendTarget(newChatId, now);
      var chatId := currentChatId;
      var targetChat := CurrentChat();
      if IsUnset(chatId) {
        CreateNewChat(newChatId, now);
        chatId := Some(newChatId);
        targetChat := Some(NewChat(newChatId, activeModel.id, systemPrompt, now));
      }
      if targetChat.None? {
        return None, None;
      }
      var id := chatId.value;
      var chat := targetChat.value;
      assert target == Some(Target(id, chat, conversations));
      var updatedMessages := chat.messages + [UserMessage(userMessageId, text, attachments, now)];
      if |updatedMessages| == 1 {
        title := Some(TitleRequest(id, TitleSubject(text)));
      } else {
        title := None;
      }
      AppendExchange(id, updatedMessages, Placeholder(assistantMessageId, now), now);
      call := Some(ChatCall(chat.modelId, updatedMessages, EffectivePrompt(chat, systemPrompt)));
    }

    /** The two writes of a send once its target is known, the user message
        (bumping lastUpdated) and then the placeholder, and the busy flag. */
    method AppendExchange(id: string, sent: seq<Message>, placeholder: Message, now: int)
      requires Valid() && !isStreaming && id in issuedIds
      modifies this`conversations, this`isStreaming, this`pending
      ensures Valid()
      ensures conversations == UpdateChat(old(conversations), id, PutMessages(sent + [placeholder], Some(now)))
      ensures isStreaming && pending == Some(Sending(id, placeholder.id, ""))
    {
      var before := conversations;
      conversations := UpdateChat(conversations, id, PutMessages(sent, Some(now)));
      conversations := UpdateChat(conversations, id, PutMessages(sent + [placeholder], None));
      AppendWritesCompose(before, id, sent, placeholder, now);
      UpdateChatIds(before, id, PutMessages(sent + [placeholder], Some(now)));
      isStreaming := true;
      pending := Some(Sending(id, placeholder.id, ""));
    }

    /** handleRegenerate up to the call of streamChat: the guards, the index
        of the message, the resent prefix, the reset of that one slot and the
        busy flag. The role of the message before the slot is not checked. */
    method BeginRegenerate(messageId: string, now: int) returns (call: Option<ChatCall>)
      requires Valid()
      modifies this`conversations, this`isStreaming, this`pending
      ensures Valid()
      ensures call.None? <==> old(RegenerateSlot(messageId)).None?
      ensures call.None? ==> conversations == old(conversations) && isStreaming == old(isStreaming) && pending == old(pending)
      ensures call.Some? ==>
        var s := old(RegenerateSlot(messageId)).value;
        && FitsAll(old(conversations), s.chat.id, Rewrite(s.index, "", now))
        && conversations == UpdateChat(old(conversations), s.chat.id, Rewrite(s.index, "", now))
        && call.value == ChatCall(s.chat.modelId, s.chat.messages[..s.index], EffectivePrompt(s.chat, systemPrompt))
        && isStreaming && pending == Some(Regenerating(s.chat.id, s.index, ""))
    {
      if isStreaming || IsUnset(currentChatId) {
        return None;
      }
      var currentChat := CurrentChat();
      if currentChat.None? {
        return None;
      }
      var chatId := currentChatId.value;
      var chat := currentChat.value;
      var assistantIdx := MessageIndex(chat.messages, messageId);
      if assistantIdx.None? {
        return None;
      }
      var idx := assistantIdx.value;
      var messagesToResend := chat.messages[..idx];
      forall c | c in conversations && c.id == chatId
        ensures c == chat
      {
        var i :| 0 <= i < |conversations| && conversations[i] == c;
        var k :| 0 <= k < |conversations| && conversations[k] == chat;
      }
      UpdateChatKeepsFit(conversations, chatId, Rewrite(idx, "", now), chatId, SetAt(idx, ""));
      UpdateChatIds(conversations, chatId, Rewrite(idx, "", now));
      conversations := UpdateChat(conversations, chatId, Rewrite(idx, "", now));
      isStreaming := true;
      pending := Some(Regenerating(chatId, idx, ""));
      call := Some(ChatCall(chat.modelId, messagesToResend, EffectivePrompt(chat, systemPrompt)));
    }

    /** The onChunk callback: grow the accumulated text and write all of it
        into the stream's slot. */
    method OnChunk(chunk: string)
      requires Valid() && pending.Some?
      modifies this`conversations, this`pending
      ensures Valid()
      ensures pending == Some(old(pending.value).(accumulated := old(pending.value.accumulated) + chunk))
      ensures FitsAll(old(conversations), old(pending.value.chatId), SlotWrite(old(pending.value), old(pending.value.accumulated) + chunk))
      ensures conversations == UpdateChat(old(conversations), old(pending.value.chatId),
                                          SlotWrite(old(pending.value), old(pending.value.accumulated) + chunk))
    {
      var p := pending.value;
      var accumulatedText := p.accumulated + chunk;
      assert FitsAll(conversations, p.chatId, SlotWrite(p, accumulatedText)) by {
        forall c | c in conversations && c.id == p.chatId
          ensures Fits(c, SlotWrite(p, accumulatedText))
        {
          assert Fits(c, SlotWrite(p, ""));
        }
      }
      UpdateChatKeepsFit(conversations, p.chatId, SlotWrite(p, accumulatedText), p.chatId, SlotWrite(p, ""));
      UpdateChatIds(conversations, p.chatId, SlotWrite(p, accumulatedText));
      conversations := UpdateChat(conversations, p.chatId, SlotWrite(p, accumulatedText));
      pending := Some(p.(accumulated := accumulatedText));
    }

    /** The catch block: the slot gets the fixed error text, whatever partial
        text it held. */
    method OnStreamError()
      requires Valid() && pending.Some?
      modifies this`conversations
      ensures Valid()
      ensures FitsAll(old(conversations), pending.value.chatId, SlotWrite(pending.value, ErrorText(pending.value)))
      ensures conversations == UpdateChat(old(conversations), pending.value.chatId,
                                          SlotWrite(pending.value, ErrorText(pending.value)))
    {
      var p := pending.value;
      assert FitsAll(conversations, p.chatId, SlotWrite(p, ErrorText(p))) by {
        forall c | c in conversations && c.id == p.chatId
          ensures Fits(c, SlotWrite(p, ErrorText(p)))
        {
          assert Fits(c, SlotWrite(p, ""));
        }
      }
      UpdateChatKeepsFit(conversations, p.chatId, SlotWrite(p, ErrorText(p)), p.chatId, SlotWrite(p, ""));
      UpdateChatIds(conversations, p.chatId, SlotWrite(p, ErrorText(p)));
      conversations := UpdateChat(conversations, p.chatId, SlotWrite(p, ErrorText(p)));
    }

    /** The finally block: the busy flag is cleared. */
    method Settle()
      requires Valid()
      modifies this`isStreaming, this`pending
      ensures Valid()
      ensures !isStreaming && pending.None?
    {
      isStreaming := false;
      pending := None;
    }

    /** The title reply for a first message: a title that comes back replaces
        only that conversation's title; a rejected call changes nothing. */
    method OnTitle(request: TitleRequest, apiKey: Option<string>, response: TitleResponse)
      requires Valid()
      modifies this`conversations
      ensures Valid()
      ensures GenerateTitle(apiKey, response).Failure? ==> conversations == old(conversations)
      ensures GenerateTitle(apiKey, response).Success? ==>
        conversations == UpdateChat(old(conversations), request.chatId, Retitle(GenerateTitle(apiKey, response).value))
    {
      var title := GenerateTitle(apiKey, response);
      if title.Success? {
        var e := Retitle(title.value);
        if pending.Some? {
          UpdateChatKeepsFit(conversations, request.chatId, e, pending.value.chatId, SlotWrite(pending.value, ""));
        }
        UpdateChatIds(conversations, request.chatId, e);
        conversations := UpdateChat(conversations, request.chatId, e);
      }
    }

    /** The rest of handleSendMessage once its stream is open: each chunk
        is written, accumulated, into the placeholder; on failure the
        placeholder gets the send error text; the busy flag ends cleared. */
    method RunSendStream(call: ChatCall, apiKey: Option<string>, response: StreamScript,
                         ghost base: seq<Conversation>, ghost id: string, ghost p: Message, ghost now: int)
      requires Valid() && p.content == "" && pending == Some(Sending(id, p.id, ""))
      requires conversations == UpdateChat(base, id, PutMessages(call.messages + [p], Some(now)))
      modifies this`conversations, this`isStreaming, this`pending
      ensures Valid() && !isStreaming && pending.None?
      ensures conversations == UpdateChat(base, id, PutMessages(call.messages + [p.(content :=
                Reply(StreamOutcome(apiKey, call.messages, response), SendErrorText))], Some(now)))
    {
      var outcome, request, delivered :=
        StreamChat(apiKey, call.modelId, call.messages, call.systemPrompt, response);
      assert p.(content := Concat([])) == p;
      var i := 0;
      while i < |delivered|
        invariant 0 <= i <= |delivered|
        invariant Valid()
        invariant pending == Some(Sending(id, p.id, Concat(delivered[..i])))
        invariant conversations == UpdateChat(base, id, PutMessages(call.messages + [p.(content := Concat(delivered[..i]))], Some(now)))
        modifies this`conversations, this`pending
      {
        ghost var before := Concat(delivered[..i]);
        OnChunk(delivered[i]);
        ChunkWriteComposes(base, id, call.messages, p.(content := before), before + delivered[i], now);
        assert delivered[..i + 1] == delivered[..i] + [delivered[i]];
        ConcatSnoc(delivered[..i], delivered[i]);
        i := i + 1;
      }
      assert delivered[..i] == delivered;
      if outcome.Failure? {
        OnStreamError();
        ChunkWriteComposes(base, id, call.messages, p.(content := Concat(delivered)), SendErrorText, now);
      }
      Settle();
    }

    /** The rest of handleRegenerate once its stream is open: each chunk is
        written, accumulated, into the slot by index; on failure the slot gets
        the regeneration error text; the busy flag ends cleared. */
    method RunRegenerateStream(call: ChatCall, apiKey: Option<string>, response: StreamScript,
                               ghost base: seq<Conversation>, ghost id: string, ghost idx: nat, ghost now: int)
      requires Valid() && pending == Some(Regenerating(id, idx, ""))
      requires FitsAll(base, id, Rewrite(idx, "", now))
      requires conversations == UpdateChat(base, id, Rewrite(idx, "", now))
      modifies this`conversations, this`isStreaming, this`pending
      ensures Valid() && !isStreaming && pending.None?
      ensures FitsAll(base, id, Rewrite(idx, Reply(StreamOutcome(apiKey, call.messages, response), RegenerateErrorText), now))
      ensures conversations == UpdateChat(base, id,
                Rewrite(idx, Reply(StreamOutcome(apiKey, call.messages, response), RegenerateErrorText), now))
    {
      var outcome, request, delivered :=
        StreamChat(apiKey, call.modelId, call.messages, call.systemPrompt, response);
      var i := 0;
      while i < |delivered|
        invariant 0 <= i <= |delivered|
        invariant Valid()
        invariant pending == Some(Regenerating(id, idx, Concat(delivered[..i])))
        invariant FitsAll(base, id, Rewrite(idx, Concat(delivered[..i]), now))
        invariant conversations == UpdateChat(base, id, Rewrite(idx, Concat(delivered[..i]), now))
        modifies this`conversations, this`pending
      {
        ghost var before := Concat(delivered[..i]);
        OnChunk(delivered[i]);
        SlotWriteComposes(base, id, idx, before, before + delivered[i], now);
        assert delivered[..i + 1] == delivered[..i] + [delivered[i]];
        ConcatSnoc(delivered[..i], delivered[i]);
        i := i + 1;
      }
      assert delivered[..i] == delivered;
      if outcome.Failure? {
        OnStreamError();
        SlotWriteComposes(base, id, idx, Concat(delivered), RegenerateErrorText, now);
      }
      Settle();
    }

    /** handleSendMessage run to the end over one stream: after the guards,
        the target conversation ends with the user message and a MODEL reply
        holding every delivered chunk in order, or the send error text; the
        busy flag ends cleared. */
    method HandleSendMessage(text: string, attachments: seq<Attachment>, newChatId: string,
                             userMessageId: string, assistantMessageId: string, now: int,
                             apiKey: Option<string>, response: StreamScript)
      returns (call: Option<ChatCall>, title: Option<TitleRequest>)
      requires Valid() && newChatId !in issuedIds
      modifies this`conversations, this`currentChatId, this`isStreaming, this`pending, this`issuedIds
      ensures Valid()
      ensures call.None? <==> SendIgnored(text, attachments, old(isStreaming)) || old(SendTarget(newChatId, now)).None?
      ensures call.None? ==>
        && title.None? && conversations == old(conversations) && currentChatId == old(currentChatId)
        && isStreaming == old(isStreaming) && pending == old(pending) && issuedIds == old(issuedIds)
      ensures call.Some? ==>
        var t := old(SendTarget(newChatId, now)).value;
        var sent := t.chat.messages + [UserMessage(userMessageId, text, attachments, now)];
        var reply := Reply(StreamOutcome(apiKey, sent, response), SendErrorText);
        && conversations == UpdateChat(t.base, t.chatId,
                                       PutMessages(sent + [Placeholder(assistantMessageId, now).(content := reply)], Some(now)))
        && currentChatId == Some(t.chatId)
        && call.value == ChatCall(t.chat.modelId, sent, EffectivePrompt(t.chat, old(systemPrompt)))
        && title == (if |sent| == 1 then Some(TitleRequest(t.chatId, TitleSubject(text))) else None)
        && !isStreaming && pending.None?
        && issuedIds == old(issuedIds) + {t.chatId}
    {
      ghost var target := SendTarget(newChatId, now);
      call, title := BeginSend(text, attachments, newChatId, userMessageId, assistantMessageId, now);
      if call.None? {
        return;
      }
      RunSendStream(call.value, apiKey, response, target.value.base, target.value.chatId,
                    Placeholder(assistantMessageId, now), now);
    }

    /** handleRegenerate run to the end over one stream: after the guards,
        only the chosen slot of the selected conversation changes, to every
        delivered chunk in order or the regeneration error text, with the
        reset's timestamp; the busy flag ends cleared. */
    method HandleRegenerate(messageId: string, now: int, apiKey: Option<string>, response: StreamScript)
      returns (call: Option<ChatCall>)
      requires Valid()
      modifies this`conversations, this`isStreaming, this`pending
      ensures Valid()
      ensures call.None? <==> old(RegenerateSlot(messageId)).None?
      ensures call.None? ==> conversations == old(conversations) && isStreaming == old(isStreaming) && pending == old(pending)
      ensures call.Some? ==>
        var s := old(RegenerateSlot(messageId)).value;
        var reply := Reply(StreamOutcome(apiKey, s.chat.messages[..s.index], response), RegenerateErrorText);
        && FitsAll(old(conversations), s.chat.id, Rewrite(s.index, reply, now))
        && conversations == UpdateChat(old(conversations), s.chat.id, Rewrite(s.index, reply, now))
        && call.value == ChatCall(s.chat.modelId, s.chat.messages[..s.index], EffectivePrompt(s.chat, old(systemPrompt)))
        && !isStreaming && pending.None?
    {
      ghost var slot := RegenerateSlot(messageId);
      ghost var base := conversations;
      call := BeginRegenerate(messageId, now);
      if call.None? {
        return;
      }
      RunRegenerateStream(call.value, apiKey, response, base, slot.value.chat.id, slot.value.index, now);
    }
  }

  /** The first send of a session: with nothing stored, sending "Hello"
      creates and selects conversation "c1", which then holds the user
      message and a MODEL reply carrying the streamed text (or the send error
      text). The title request is for "Hello", the client ends idle, and "c1"
      is the only id handed out. */
  method SendHelloFromStartUp(apiKey: Option<string>, response: StreamScript, now: int)
    returns (app: ChatApp, title: Option<TitleRequest>)
    ensures app.Valid() && !app.isStreaming && app.currentChatId == Some("c1")
    ensures app.issuedIds == {"c1"}
    ensures title == Some(TitleRequest("c1", "Hello"))
    ensures |app.conversations| == 1
    ensures var ms := app.conversations[0].messages;
      && app.conversations[0].id == "c1"
      && |ms| == 2
      && ms[0] == UserMessage("u1", "Hello", [], now)
      && ms[1].role == MODEL
      && ms[1].content == Reply(StreamOutcome(apiKey, [ms[0]], response), SendErrorText)
  {
    app := new ChatApp.Load(None);
    assert Trim("Hello") != "" by { assert "Hello"[0] == 'H'; }
    var call;
    call, title := app.HandleSendMessage("Hello", [], "c1", "u1", "a1", now, apiKey, response);
    ghost var c := NewChat("c1", DefaultModel.id, DefaultSystemPrompt, now);
    UpdateChatAt([c], "c1", PutMessages([UserMessage("u1", "Hello", [], now)] + [Placeholder("a1", now).(content := Reply(StreamOutcome(apiKey, [UserMessage("u1", "Hello", [], now)], response), SendErrorText))], Some(now)));
  }

  /** A follow-up send into the conversation of the first send, which
      already holds messages. The id "c2"
      offered for a new conversation is still fresh, but it goes unused,
      since "c1" is selected. The conversation gains the user message and a
      reply, and no title is requested. */
  method SendAgain(app: ChatApp, apiKey: Option<string>, response: StreamScript, now: int)
    returns (title: Option<TitleRequest>)
    requires app.Valid() && !app.isStreaming && app.currentChatId == Some("c1")
    requires app.issuedIds == {"c1"}
    requires |app.conversations| == 1 && app.conversations[0].id == "c1"
    requires |app.conversations[0].messages| > 0
    modifies app
    ensures app.Valid() && !app.isStreaming && app.issuedIds == {"c1"}
    ensures title.None?
    ensures |app.conversations| == 1
    ensures var ms := app.conversations[0].messages;
      && |ms| == |old(app.conversations[0].messages)| + 2
      && ms[..|ms| - 2] == old(app.conversations[0].messages)
      && ms[|ms| - 2] == UserMessage("u2", "Again", [], now)
      && ms[|ms| - 1].content == Reply(StreamOutcome(apiKey, ms[..|ms| - 1], response), SendErrorText)
  {
    ghost var c := app.conversations[0];
    assert "c2" !in app.issuedIds;
    assert Trim("Again") != "" by { assert "Again"[0] == 'A'; }
    var call;
    call, title := app.HandleSendMessage("Again", [], "c2", "u2", "a2", now, apiKey, response);
    ghost var sent := c.messages + [UserMessage("u2", "Again", [], now)];
    ghost var reply := Placeholder("a2", now).(content := Reply(StreamOutcome(apiKey, sent, response), SendErrorText));
    UpdateChatAt([c], "c1", PutMessages(sent + [reply], Some(now)));
    assert (sent + [reply])[..|sent|] == sent;
  }
}

