/** The three stages together: validation, translation to items, conversion to
    chat messages. */
module WholeConversation {
  import opened Optional
  import opened Conversation
  import opened InputTranslation
  import opened ChatConversion

  // ------------------------------------------------------------ letter by letter

  function ChatPartAtoms(role: string, part: ChatPart): seq<Atom> {
    match part
    case TextPart(text) => TextAtoms(role, text)
    case ImageURL(url, detail) => [Uttered(role, Picture(url, detail))]
  }

  function ChatPartsAtoms(role: string, parts: seq<ChatPart>): seq<Atom> {
    if parts == [] then [] else ChatPartsAtoms(role, parts[..|parts| - 1]) + ChatPartAtoms(role, parts[|parts| - 1])
  }

  function EventAtoms(e: Event): seq<Atom> {
    match e
    case Said(role, Null) => []
    case Said(role, Plain(text)) => TextAtoms(role, text)
    case Said(role, Listed(parts)) => ChatPartsAtoms(role, parts)
    case Asked(call) => [Called(call.id, call.name, call.arguments)]
    case Answered(id, output) => [Returned(id, output.Encoded?, OutputBits(output))]
  }

  function EventsAtoms(events: seq<Event>): seq<Atom> {
    if events == [] then [] else EventsAtoms(events[..|events| - 1]) + EventAtoms(events[|events| - 1])
  }

  /** Everything a list of chat messages says, in order. */
  function ChatAtoms(chat: seq<Chat>): seq<Atom> {
    EventsAtoms(Expand(chat))
  }

  lemma {:induction false} PartsKept(role: string, parts: seq<Part>)
    requires PartsToChat(parts).Some?
    ensures ChatPartsAtoms(role, PartsToChat(parts).value) == PartsAtoms(role, parts)
  {
    if parts != [] {
      var n := |parts| - 1;
      PartsKept(role, parts[..n]);
      var front, last := PartsToChat(parts[..n]).value, PartToChat(parts[n]).value;
      assert (front + [last])[..|front|] == front;
    }
  }

  lemma EventsAppend(events: seq<Event>, e: Event)
    ensures EventsAtoms(events + [e]) == EventsAtoms(events) + EventAtoms(e)
  {
    assert (events + [e])[..|events|] == events;
  }

  lemma ItemKept(validJSON: string -> bool, out: seq<Chat>, item: Item, events: seq<Event>)
    requires AddItem(validJSON, out, item).Some?
    ensures EventsAtoms(events + ItemEvents(item)) == EventsAtoms(events) + ItemAtoms(item)
  {
    match item
    case MessageItem(role, content) =>
      EventsAppend(events, Said(role, ContentToChat(content).value));
      if content.Parts? { PartsKept(role, content.parts); }
    case ReasoningMarker(_) => assert events + [] == events && EventsAtoms(events) + [] == EventsAtoms(events);
    case CallItem(id, name, arguments) => EventsAppend(events, ItemEvents(item)[0]);
    case OutputItem(id, output) => EventsAppend(events, ItemEvents(item)[0]);
  }

  lemma {:induction false} ItemsKept(validJSON: string -> bool, items: seq<Item>)
    requires ToChat(validJSON, items).Some?
    ensures EventsAtoms(Events(items)) == ItemsAtoms(items)
  {
    if items != [] {
      var n := |items| - 1;
      ItemsKept(validJSON, items[..n]);
      ItemKept(validJSON, ToChat(validJSON, items[..n]).value, items[n], Events(items[..n]));
    }
  }

  /** An accepted conversation that reaches the chat wire says there exactly what
      it said at the start, letter by letter and in order. */
  lemma ConversationConserved(isObject: string -> bool, validJSON: string -> bool, k: Keeping, messages: seq<Message>)
    requires forall i :: 0 <= i < |messages| ==> MessageAllowed(isObject, messages[i])
    requires ToInput(k, messages).Some? && ToChat(validJSON, ToInput(k, messages).value).Some?
    ensures ChatAtoms(ToChat(validJSON, ToInput(k, messages).value).value) == ConversationAtoms(messages)
  {
    var items := ToInput(k, messages).value;
    RoundTrip(validJSON, items);
    ItemsKept(validJSON, items);
    InputConserves(isObject, k, messages);
  }

  // ---------------------------------------------------------------- tool pairing

  function AtomMarks(atoms: seq<Atom>): seq<Mark> {
    if atoms == [] then []
    else
      var last := atoms[|atoms| - 1];
      AtomMarks(atoms[..|atoms| - 1]) + if last.Called? then [Used(last.id)] else if last.Returned? then [Resulted(last.id)] else []
  }

  lemma {:induction false} AtomMarksConcat(a: seq<Atom>, b: seq<Atom>)
    ensures AtomMarks(a + b) == AtomMarks(a) + AtomMarks(b)
  {
    if b == [] {
      assert a + b == a;
    } else {
      var n := |b| - 1;
      AtomMarksConcat(a, b[..n]);
      assert (a + b)[..|a + b| - 1] == a + b[..n];
    }
  }

  lemma {:induction false} Unmarked(atoms: seq<Atom>)
    requires forall i :: 0 <= i < |atoms| ==> atoms[i].Uttered?
    ensures AtomMarks(atoms) == []
  {
    if atoms != [] { Unmarked(atoms[..|atoms| - 1]); }
  }

  lemma OneMark(atom: Atom)
    ensures AtomMarks([atom]) == if atom.Called? then [Used(atom.id)] else if atom.Returned? then [Resulted(atom.id)] else []
  {
    assert [atom][..0] == [];
  }

  lemma BlockMarked(isObject: string -> bool, acc: Acc, role: string, b: Block)
    requires BlockAllowed(isObject, role, b) && AddBlock(acc, role, b).Some?
    ensures AtomMarks(BlockAtoms(role, b)) == BlockMarks(b)
  {
    match b
    case ToolUseIn(_, _, _) => OneMark(BlockAtoms(role, b)[0]);
    case ToolResult(_, _, _) => OneMark(BlockAtoms(role, b)[0]);
    case _ => Unmarked(BlockAtoms(role, b));
  }

  lemma {:induction false} BlocksMarked(isObject: string -> bool, role: string, blocks: seq<Block>)
    requires forall i | 0 <= i < |blocks| :: BlockAllowed(isObject, role, blocks[i])
    requires AddBlocks(Acc([], [], ""), role, blocks).Some?
    ensures AtomMarks(BlocksAtoms(role, blocks)) == BlocksMarks(blocks)
  {
    if blocks != [] {
      var n := |blocks| - 1;
      BlocksMarked(isObject, role, blocks[..n]);
      BlockMarked(isObject, AddBlocks(Acc([], [], ""), role, blocks[..n]).value, role, blocks[n]);
      AtomMarksConcat(BlocksAtoms(role, blocks[..n]), BlockAtoms(role, blocks[n]));
    }
  }

  lemma {:induction false} ConversationMarked(isObject: string -> bool, k: Keeping, messages: seq<Message>)
    requires forall i :: 0 <= i < |messages| ==> MessageAllowed(isObject, messages[i])
    requires ToInput(k, messages).Some?
    ensures AtomMarks(ConversationAtoms(messages)) == Marks(messages)
  {
    if messages != [] {
      var n := |messages| - 1;
      ConversationMarked(isObject, k, messages[..n]);
      AtomMarksConcat(ConversationAtoms(messages[..n]), MessageAtoms(messages[n]));
      if messages[n].content.Blocks? {
        BlocksMarked(isObject, messages[n].role, messages[n].content.blocks);
      } else {
        Unmarked(MessageAtoms(messages[n]));
      }
    }
  }

  /** The tool calls and tool messages of a chat, in order. */
  function CallMarks(calls: seq<ToolCall>): seq<Mark> {
    seq(|calls|, i requires 0 <= i < |calls| => Used(calls[i].id))
  }

  function ChatMark(c: Chat): seq<Mark> {
    match c
    case Turn(_, _, calls, _) => CallMarks(calls)
    case ToolMessage(id, _) => [Resulted(id)]
  }

  function ChatMarks(chat: seq<Chat>): seq<Mark> {
    if chat == [] then [] else ChatMarks(chat[..|chat| - 1]) + ChatMark(chat[|chat| - 1])
  }

  lemma EventSplit(a: seq<Event>, b: seq<Event>)
    requires b != []
    ensures a + b == a + b[..|b| - 1] + [b[|b| - 1]]
  {
  }

  lemma {:induction false} EventsAtomsConcat(a: seq<Event>, b: seq<Event>)
    ensures EventsAtoms(a + b) == EventsAtoms(a) + EventsAtoms(b)
  {
    if b == [] {
      assert a + b == a;
    } else {
      var n := |b| - 1;
      EventsAtomsConcat(a, b[..n]);
      EventSplit(a, b);
      EventsAppend(a + b[..n], b[n]);
      hide EventAtoms;
      InputTranslation.Regroup(EventsAtoms(a), EventsAtoms(b[..n]), EventAtoms(b[n]));
    }
  }

  lemma CallsSplit(calls: seq<ToolCall>)
    requires calls != []
    ensures var n := |calls| - 1;
            && CallEvents(calls) == CallEvents(calls[..n]) + [Asked(calls[n])]
            && CallMarks(calls) == CallMarks(calls[..n]) + [Used(calls[n].id)]
  {
  }

  lemma {:induction false} CallsMarked(calls: seq<ToolCall>)
    ensures AtomMarks(EventsAtoms(CallEvents(calls))) == CallMarks(calls)
  {
    if calls != [] {
      var n := |calls| - 1;
      var last := Called(calls[n].id, calls[n].name, calls[n].arguments);
      CallsMarked(calls[..n]);
      CallsSplit(calls);
      EventsAppend(CallEvents(calls[..n]), Asked(calls[n]));
      AtomMarksConcat(EventsAtoms(CallEvents(calls[..n])), [last]);
      OneMark(last);
      hide AtomMarks;
      hide EventsAtoms;
      hide CallEvents;
      hide CallMarks;
    }
  }

  lemma {:induction false} PartsUnmarked(role: string, parts: seq<ChatPart>)
    ensures forall i :: 0 <= i < |ChatPartsAtoms(role, parts)| ==> ChatPartsAtoms(role, parts)[i].Uttered?
  {
    if parts != [] { PartsUnmarked(role, parts[..|parts| - 1]); }
  }

  lemma SaidUnmarked(role: string, content: ChatContent)
    ensures AtomMarks(EventsAtoms([Said(role, content)])) == []
  {
    EventsAppend([], Said(role, content));
    assert [] + [Said(role, content)] == [Said(role, content)];
    if content.Listed? { PartsUnmarked(role, content.parts); }
    assert EventsAtoms([]) + EventAtoms(Said(role, content)) == EventAtoms(Said(role, content));
    Unmarked(EventAtoms(Said(role, content)));
  }

  lemma ChatMarked(c: Chat)
    ensures AtomMarks(EventsAtoms(ChatEvents(c))) == ChatMark(c)
  {
    match c
    case Turn(role, content, calls, _) =>
      CallsMarked(calls);
      if content.Null? {
        assert ChatEvents(c) == CallEvents(calls);
      } else {
        SaidUnmarked(role, content);
        EventsAtomsConcat([Said(role, content)], CallEvents(calls));
        AtomMarksConcat(EventsAtoms([Said(role, content)]), EventsAtoms(CallEvents(calls)));
      }
    case ToolMessage(id, output) =>
      EventsAppend([], Answered(id, output));
      assert [] + [Answered(id, output)] == [Answered(id, output)];
      OneMark(Returned(id, output.Encoded?, OutputBits(output)));
  }

  lemma {:induction false} ChatsMarked(chat: seq<Chat>)
    ensures AtomMarks(ChatAtoms(chat)) == ChatMarks(chat)
  {
    if chat != [] {
      var n := |chat| - 1;
      ChatsMarked(chat[..n]);
      ChatMarked(chat[n]);
      EventsAtomsConcat(Expand(chat[..n]), ChatEvents(chat[n]));
      AtomMarksConcat(ChatAtoms(chat[..n]), EventsAtoms(ChatEvents(chat[n])));
    }
  }

  /** Tool calls and their results stay paired through all three stages: in the
      chat no call id occurs twice, no id is answered twice, and every tool
      message follows the call it answers. */
  lemma ToolsStayPaired(isObject: string -> bool, validJSON: string -> bool, k: Keeping, messages: seq<Message>)
    requires forall i :: 0 <= i < |messages| ==> MessageAllowed(isObject, messages[i])
    requires Paired(Marks(messages))
    requires ToInput(k, messages).Some? && ToChat(validJSON, ToInput(k, messages).value).Some?
    ensures Paired(ChatMarks(ToChat(validJSON, ToInput(k, messages).value).value))
  {
    var chat := ToChat(validJSON, ToInput(k, messages).value).value;
    ConversationConserved(isObject, validJSON, k, messages);
    ConversationMarked(isObject, k, messages);
    ChatsMarked(chat);
  }

  lemma {:induction false} MarksPrefix(chat: seq<Chat>, j: nat)
    requires j < |chat|
    ensures ChatMarks(chat[..j]) + ChatMark(chat[j]) <= ChatMarks(chat)
    decreases |chat| - j
  {
    var n := |chat| - 1;
    if j < n {
      MarksPrefix(chat[..n], j);
      assert chat[..n][..j] == chat[..j];
    }
  }

  lemma {:induction false} UsedSomewhere(chat: seq<Chat>, id: string) returns (i: nat, a: nat)
    requires Used(id) in ChatMarks(chat)
    ensures i < |chat| && chat[i].Turn? && a < |chat[i].calls| && chat[i].calls[a].id == id
  {
    var n := |chat| - 1;
    if Used(id) in ChatMark(chat[n]) {
      i := n;
      a :| 0 <= a < |ChatMark(chat[n])| && ChatMark(chat[n])[a] == Used(id);
    } else {
      i, a := UsedSomewhere(chat[..n], id);
    }
  }

  /** In a paired chat every tool message names a call of an earlier turn. */
  lemma AnswersEarlierCall(chat: seq<Chat>, j: nat) returns (i: nat, a: nat)
    requires Paired(ChatMarks(chat)) && j < |chat| && chat[j].ToolMessage?
    ensures i < j && chat[i].Turn? && a < |chat[i].calls| && chat[i].calls[a].id == chat[j].callID
  {
    var marks, at := ChatMarks(chat), |ChatMarks(chat[..j])|;
    MarksPrefix(chat, j);
    assert marks[at] == Resulted(chat[j].callID);
    assert marks[..at] == ChatMarks(chat[..j]);
    i, a := UsedSomewhere(chat[..j], chat[j].callID);
  }

  // ------------------------------------------------------------ whose reasoning

  predicate FromAssistant(item: Item) {
    item.CallItem? || (item.MessageItem? && item.role == "assistant")
  }

  lemma {:induction false} AssistantItems(isObject: string -> bool, blocks: seq<Block>)
    requires forall i | 0 <= i < |blocks| :: BlockAllowed(isObject, "assistant", blocks[i])
    requires AddBlocks(Acc([], [], ""), "assistant", blocks).Some?
    ensures var out := AddBlocks(Acc([], [], ""), "assistant", blocks).value.out; forall i :: 0 <= i < |out| ==> FromAssistant(out[i])
  {
    if blocks != [] { AssistantItems(isObject, blocks[..|blocks| - 1]); }
  }

  lemma OwnEnds(isObject: string -> bool, m: Message)
    requires m.role == "assistant" && MessageAllowed(isObject, m) && Own(m).Some? && Own(m).value != []
    ensures FromAssistant(Own(m).value[|Own(m).value| - 1])
  {
    if m.content.Blocks? { AssistantItems(isObject, m.content.blocks); }
  }

  /** Right after an assistant item the last chat message is an assistant turn. */
  lemma TurnIsLast(validJSON: string -> bool, items: seq<Item>)
    requires items != [] && FromAssistant(items[|items| - 1]) && ToChat(validJSON, items).Some?
    ensures var out := ToChat(validJSON, items).value; out != [] && IsAssistant(out[|out| - 1])
  {
  }

  /** A marker after some items of an assistant goes to the last chat message;
      after none it goes where it would have gone before. */
  lemma MarkerLands(validJSON: string -> bool, front: seq<Item>, own: seq<Item>, reasoning: string)
    requires own != [] ==> FromAssistant(own[|own| - 1])
    requires reasoning != "" && ToChat(validJSON, front).Some? && ToChat(validJSON, front + own).Some?
    ensures Lands(validJSON, front, own, reasoning)
  {
    var items := front + own;
    assert (items + [ReasoningMarker(reasoning)])[..|items|] == items;
    LastAssistantAt(ToChat(validJSON, items).value);
    if own != [] {
      assert items[|items| - 1] == own[|own| - 1];
      TurnIsLast(validJSON, items);
    } else {
      assert items == front;
    }
  }

  ghost predicate Lands(validJSON: string -> bool, front: seq<Item>, own: seq<Item>, reasoning: string)
    requires ToChat(validJSON, front).Some? && ToChat(validJSON, front + own).Some?
  {
    var earlier, out := ToChat(validJSON, front).value, ToChat(validJSON, front + own).value;
    var marked := ToChat(validJSON, front + own + [ReasoningMarker(reasoning)]);
    if own != [] then
      out != [] && IsAssistant(out[|out| - 1]) && marked == Some(out[|out| - 1 := out[|out| - 1].(reasoning := Some(reasoning))])
    else
      && out == earlier
      && (marked.None? <==> forall i :: 0 <= i < |earlier| ==> !IsAssistant(earlier[i]))
      && (marked.Some? ==> exists j: nat :: j < |earlier| && IsAssistant(earlier[j]) &&
                             marked.value == earlier[j := earlier[j].(reasoning := Some(reasoning))])
  }

  /** The marker of an assistant turn lands on that turn's own last chat message
      exactly when the turn produced an item; otherwise it goes to an earlier
      turn, or, if there is none, makes the conversion fail. */
  lemma MarkerOwner(isObject: string -> bool, validJSON: string -> bool, front: seq<Item>, m: Message, reasoning: string)
    requires m.role == "assistant" && MessageAllowed(isObject, m) && Own(m).Some? && reasoning != ""
    requires ToChat(validJSON, front).Some? && ToChat(validJSON, front + Own(m).value).Some?
    ensures Lands(validJSON, front, Own(m).value, reasoning)
  {
    if Own(m).value != [] { OwnEnds(isObject, m); }
    MarkerLands(validJSON, front, Own(m).value, reasoning);
    hide ToChat;
    hide Own;
    hide MessageAllowed;
    hide Lands;
  }
}
