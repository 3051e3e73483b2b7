/** What becomes of the reasoning kept for each assistant turn of a conversation
    that goes to a chat provider: a later turn that is merged into the same chat
    message overwrites it, and a turn without items gives it away. */
module Markers {
  import opened Optional
  import opened Conversation
  import opened InputTranslation
  import opened ChatConversion
  import opened WholeConversation

  /** The reasoning that chat messages carry, in order. */
  function Reasonings(chat: seq<Chat>): seq<string> {
    if chat == [] then []
    else
      var last := chat[|chat| - 1];
      Reasonings(chat[..|chat| - 1]) + if last.Turn? && last.reasoning.Some? then [last.reasoning.value] else []
  }

  function DropLast(s: seq<string>): seq<string> {
    if s == [] then [] else s[..|s| - 1]
  }

  // ------------------------------------------------------------- item by item

  /** After these items the last chat message is an assistant turn. */
  predicate Open(items: seq<Item>) {
    if items == [] then false
    else
      var last := items[|items| - 1];
      if last.ReasoningMarker? then Open(items[..|items| - 1]) else FromAssistant(last)
  }

  /** The item starts an assistant turn of its own. */
  predicate Starts(before: seq<Item>, item: Item) {
    (item.MessageItem? && item.role == "assistant") || (item.CallItem? && !Open(before))
  }

  /** The last assistant turn carries reasoning already. */
  predicate Carrying(items: seq<Item>) {
    if items == [] then false
    else
      var before, last := items[..|items| - 1], items[|items| - 1];
      last.ReasoningMarker? || (Carrying(before) && !Starts(before, last))
  }

  /** The markers left, each new one taking the place of one on the same turn. */
  function Left(items: seq<Item>): seq<string> {
    if items == [] then []
    else
      var before, last := items[..|items| - 1], items[|items| - 1];
      if !last.ReasoningMarker? then Left(before)
      else (if Carrying(before) then DropLast(Left(before)) else Left(before)) + [last.reasoning]
  }

  /** The last assistant message carries reasoning. */
  predicate LastReasoned(chat: seq<Chat>) {
    LastAssistantAt(chat);
    LastAssistant(chat).Some? && chat[LastAssistant(chat).value].reasoning.Some?
  }

  /** Only assistants reason. */
  predicate OwnReasoning(chat: seq<Chat>) {
    forall i :: 0 <= i < |chat| && chat[i].Turn? && chat[i].reasoning.Some? ==> IsAssistant(chat[i])
  }

  predicate EndsOpen(chat: seq<Chat>) {
    chat != [] && IsAssistant(chat[|chat| - 1])
  }

  ghost predicate Carries(items: seq<Item>, chat: seq<Chat>) {
    && Reasonings(chat) == Left(items)
    && Open(items) == EndsOpen(chat)
    && Carrying(items) == LastReasoned(chat)
    && OwnReasoning(chat)
  }

  lemma {:induction false} SilentTail(chat: seq<Chat>, j: nat)
    requires j <= |chat| && forall i :: j <= i < |chat| ==> !(chat[i].Turn? && chat[i].reasoning.Some?)
    ensures Reasonings(chat) == Reasonings(chat[..j])
  {
    if j < |chat| {
      assert chat[..|chat| - 1][..j] == chat[..j];
      SilentTail(chat[..|chat| - 1], j);
    } else {
      assert chat[..j] == chat;
    }
  }

  /** Hanging reasoning on the last assistant message: it takes the place of what
      that message carried. */
  lemma AttachedReasonings(chat: seq<Chat>, reasoning: string)
    requires OwnReasoning(chat) && Attach(chat, reasoning).Some?
    ensures Reasonings(Attach(chat, reasoning).value) ==
            (if LastReasoned(chat) then DropLast(Reasonings(chat)) else Reasonings(chat)) + [reasoning]
  {
    LastAssistantAt(chat);
    var j := LastAssistant(chat).value;
    var after := chat[j := chat[j].(reasoning := Some(reasoning))];
    SilentTail(chat, j + 1);
    SilentTail(after, j + 1);
    assert after[..j + 1][..j] == chat[..j + 1][..j];
  }

  lemma {:induction false} AttachedLast(chat: seq<Chat>, reasoning: string)
    requires Attach(chat, reasoning).Some?
    ensures LastReasoned(Attach(chat, reasoning).value) && EndsOpen(Attach(chat, reasoning).value) == EndsOpen(chat)
  {
    LastAssistantAt(chat);
    var j := LastAssistant(chat).value;
    var after := Attach(chat, reasoning).value;
    LastAssistantAt(after);
    assert IsAssistant(after[j]);
  }

  lemma AttachedOwn(chat: seq<Chat>, reasoning: string)
    requires OwnReasoning(chat) && Attach(chat, reasoning).Some?
    ensures OwnReasoning(Attach(chat, reasoning).value)
  {
    LastAssistantAt(chat);
  }

  lemma Attached(items: seq<Item>, chat: seq<Chat>, reasoning: string)
    requires Carries(items, chat) && Attach(chat, reasoning).Some?
    ensures Carries(items + [ReasoningMarker(reasoning)], Attach(chat, reasoning).value)
  {
    AttachedReasonings(chat, reasoning);
    AttachedLast(chat, reasoning);
    AttachedOwn(chat, reasoning);
    assert (items + [ReasoningMarker(reasoning)])[..|items|] == items;
    hide Attach;
    hide LastReasoned;
    hide OwnReasoning;
    hide EndsOpen;
    hide Reasonings;
  }

  lemma LastAppended(chat: seq<Chat>, c: Chat)
    ensures LastReasoned(chat + [c]) == if IsAssistant(c) then c.reasoning.Some? else LastReasoned(chat)
    ensures Reasonings(chat + [c]) == Reasonings(chat) + if c.Turn? && c.reasoning.Some? then [c.reasoning.value] else []
    ensures OwnReasoning(chat) && (c.Turn? ==> c.reasoning.None?) ==> OwnReasoning(chat + [c])
    ensures EndsOpen(chat + [c]) == IsAssistant(c)
  {
    assert (chat + [c])[..|chat|] == chat;
    LastAssistantAt(chat);
  }

  lemma Appended(items: seq<Item>, item: Item, chat: seq<Chat>, c: Chat)
    requires Carries(items, chat) && !item.ReasoningMarker?
    requires c.Turn? ==> c.reasoning.None?
    requires IsAssistant(c) == FromAssistant(item) == Starts(items, item)
    ensures Carries(items + [item], chat + [c])
  {
    LastAppended(chat, c);
    assert (items + [item])[..|items|] == items;
    hide LastReasoned;
    hide OwnReasoning;
    hide EndsOpen;
    hide Reasonings;
    hide Starts;
  }

  /** A call merged into the assistant turn that is open. */
  lemma Merged(items: seq<Item>, item: Item, chat: seq<Chat>, call: ToolCall)
    requires Carries(items, chat) && item.CallItem? && Open(items)
    ensures Carries(items + [item], AddCall(chat, call))
  {
    var n := |chat| - 1;
    var after := AddCall(chat, call);
    assert after[..n] == chat[..n];
    assert (items + [item])[..|items|] == items;
    assert LastAssistant(chat) == Some(n) && LastAssistant(after) == Some(n);
  }

  lemma ItemCarries(validJSON: string -> bool, items: seq<Item>, item: Item, chat: seq<Chat>)
    requires Carries(items, chat) && AddItem(validJSON, chat, item).Some?
    ensures Carries(items + [item], AddItem(validJSON, chat, item).value)
  {
    hide Carries;
    match item
    case MessageItem(role, content) => Appended(items, item, chat, Turn(role, ContentToChat(content).value, [], None));
    case OutputItem(id, output) => Appended(items, item, chat, ToolMessage(id, output));
    case ReasoningMarker(reasoning) => Attached(items, chat, reasoning);
    case CallItem(id, name, arguments) =>
      var call := ToolCall(id, name, if arguments == "" then "{}" else arguments);
      OpenIsLast(items, chat);
      if Open(items) { Merged(items, item, chat, call); } else { Appended(items, item, chat, Turn("assistant", Null, [call], None)); }
  }

  lemma OpenIsLast(items: seq<Item>, chat: seq<Chat>)
    requires Carries(items, chat)
    ensures Open(items) == EndsOpen(chat)
  {
  }

  lemma {:induction false} ItemsLeft(validJSON: string -> bool, items: seq<Item>)
    requires ToChat(validJSON, items).Some?
    ensures Carries(items, ToChat(validJSON, items).value)
  {
    if items != [] {
      var front := items[..|items| - 1];
      ItemsLeft(validJSON, front);
      ItemCarries(validJSON, front, items[|items| - 1], ToChat(validJSON, front).value);
      assert front + [items[|items| - 1]] == items;
      hide Carries;
    }
  }

  // ------------------------------------------------------------- turn by turn

  function ItemsOf(m: Message): seq<Item> {
    if Own(m).Some? then Own(m).value else []
  }

  predicate Speaks(m: Message) {
    exists i | 0 <= i < |ItemsOf(m)| :: ItemsOf(m)[i].MessageItem?
  }

  /** The first `n` messages end with an assistant's, messages without items aside. */
  predicate OpenAt(messages: seq<Message>, n: nat)
    requires n <= |messages|
  {
    n > 0 && if ItemsOf(messages[n - 1]) == [] then OpenAt(messages, n - 1) else messages[n - 1].role == "assistant"
  }

  /** The turn starts a chat message: it is an assistant's, and it says something
      or follows something that is not an assistant's. */
  predicate Begins(messages: seq<Message>, u: nat)
    requires u < |messages|
  {
    messages[u].role == "assistant" && ItemsOf(messages[u]) != [] && (!OpenAt(messages, u) || Speaks(messages[u]))
  }

  predicate HasMarker(k: Keeping, m: Message) {
    Marker(m.role, KeptFor(k, m), k.chat) != []
  }

  /** A chat message begins after turn `t` and no later than with turn `later`. */
  ghost predicate BeginsBetween(messages: seq<Message>, t: nat, later: nat)
    requires later < |messages|
  {
    exists u :: t < u <= later && Begins(messages, u)
  }

  /** The turn's reasoning is not overwritten within the first `n` messages: before
      or with every later turn that has some, a chat message begins. */
  ghost predicate Lasts(k: Keeping, messages: seq<Message>, n: nat, t: nat)
    requires t < n <= |messages|
  {
    HasMarker(k, messages[t]) &&
    forall later :: t < later < n && HasMarker(k, messages[later]) ==> BeginsBetween(messages, t, later)
  }

  /** The reasoning of the first `m` turns that lasts through `n` messages. */
  ghost function Lasting(k: Keeping, messages: seq<Message>, n: nat, m: nat): seq<string>
    requires m <= n <= |messages|
  {
    if m == 0 then []
    else Lasting(k, messages, n, m - 1) + if Lasts(k, messages, n, m - 1) then [KeptFor(k, messages[m - 1]).chat] else []
  }

  predicate CarryingAt(k: Keeping, messages: seq<Message>, n: nat)
    requires n <= |messages|
  {
    n > 0 && (HasMarker(k, messages[n - 1]) || (CarryingAt(k, messages, n - 1) && !Begins(messages, n - 1)))
  }

  function LeftAt(k: Keeping, messages: seq<Message>, n: nat): seq<string>
    requires n <= |messages|
  {
    if n == 0 then []
    else
      var before, m := LeftAt(k, messages, n - 1), messages[n - 1];
      if !HasMarker(k, m) then before
      else (if CarryingAt(k, messages, n - 1) && !Begins(messages, n - 1) then DropLast(before) else before) + [KeptFor(k, m).chat]
  }

  // ------------------------------------------- from items to turns

  ghost predicate SomeStart(before: seq<Item>, own: seq<Item>) {
    exists i :: 0 <= i < |own| && Starts(before + own[..i], own[i])
  }

  lemma {:induction false} OwnLeft(before: seq<Item>, own: seq<Item>)
    requires forall i :: 0 <= i < |own| ==> !own[i].ReasoningMarker?
    ensures Left(before + own) == Left(before)
    ensures Carrying(before + own) <==> Carrying(before) && !SomeStart(before, own)
    ensures Open(before + own) <==> if own == [] then Open(before) else FromAssistant(own[|own| - 1])
  {
    if own == [] {
      assert before + own == before;
    } else {
      var n := |own| - 1;
      OwnLeft(before, own[..n]);
      assert (before + own)[..|before + own| - 1] == before + own[..n];
      assert forall i :: 0 <= i < n ==> own[..n][..i] == own[..i];
      if SomeStart(before, own) && !Starts(before + own[..n], own[n]) {
        var i :| 0 <= i < |own| && Starts(before + own[..i], own[i]);
        assert Starts(before + own[..n][..i], own[..n][i]);
      }
      if SomeStart(before, own[..n]) {
        var i :| 0 <= i < n && Starts(before + own[..n][..i], own[..n][i]);
        assert Starts(before + own[..i], own[i]);
      }
    }
  }

  lemma {:induction false} OthersItems(isObject: string -> bool, role: string, blocks: seq<Block>)
    requires role != "assistant" && forall i | 0 <= i < |blocks| :: BlockAllowed(isObject, role, blocks[i])
    requires AddBlocks(Acc([], [], ""), role, blocks).Some?
    ensures var out := AddBlocks(Acc([], [], ""), role, blocks).value.out;
            forall i :: 0 <= i < |out| ==> !FromAssistant(out[i]) && !out[i].ReasoningMarker?
  {
    if blocks != [] { OthersItems(isObject, role, blocks[..|blocks| - 1]); }
  }

  /** Whose items a message has. */
  lemma ItemsBelong(isObject: string -> bool, m: Message)
    requires MessageAllowed(isObject, m) && Own(m).Some?
    ensures forall i :: 0 <= i < |ItemsOf(m)| ==> !ItemsOf(m)[i].ReasoningMarker? && (FromAssistant(ItemsOf(m)[i]) <==> m.role == "assistant")
  {
    if m.content.Blocks? {
      if m.role == "assistant" { AssistantItems(isObject, m.content.blocks); } else { OthersItems(isObject, m.role, m.content.blocks); }
    }
  }

  /** Some item of the turn starts a chat message exactly if the turn says
      something or the chat message before it is not an assistant's. */
  lemma StartsOf(before: seq<Item>, own: seq<Item>)
    requires forall i :: 0 <= i < |own| ==> FromAssistant(own[i])
    ensures SomeStart(before, own) <==> own != [] && (!Open(before) || exists i :: 0 <= i < |own| && own[i].MessageItem?)
  {
    if own != [] && !Open(before) {
      assert before + own[..0] == before;
      assert Starts(before + own[..0], own[0]);
    }
    if i :| 0 <= i < |own| && own[i].MessageItem? {
      assert Starts(before + own[..i], own[i]);
    }
    if Open(before) {
      forall i | 0 <= i < |own| && own[i].CallItem? ensures !Starts(before + own[..i], own[i]) {
        if i == 0 {
          assert before + own[..0] == before;
        } else {
          assert (before + own[..i])[|before| + i - 1] == own[i - 1];
        }
      }
    }
  }

  lemma NoStarts(before: seq<Item>, own: seq<Item>)
    requires forall i :: 0 <= i < |own| ==> !FromAssistant(own[i])
    ensures !SomeStart(before, own)
  {
  }

  ghost predicate SoFar(k: Keeping, messages: seq<Message>, n: nat, items: seq<Item>)
    requires n <= |messages|
  {
    Left(items) == LeftAt(k, messages, n) && Carrying(items) == CarryingAt(k, messages, n) && Open(items) == OpenAt(messages, n)
  }

  lemma MarkerAdded(items: seq<Item>, marker: Item)
    requires marker.ReasoningMarker?
    ensures Left(items + [marker]) == (if Carrying(items) then DropLast(Left(items)) else Left(items)) + [marker.reasoning]
    ensures Carrying(items + [marker]) && Open(items + [marker]) == Open(items)
  {
    assert (items + [marker])[..|items|] == items;
  }

  /** Whether a turn begins a chat message shows in its items. */
  lemma BeginsShows(isObject: string -> bool, messages: seq<Message>, n: nat, items: seq<Item>)
    requires n < |messages| && MessageAllowed(isObject, messages[n]) && Own(messages[n]).Some?
    requires Open(items) == OpenAt(messages, n)
    ensures SomeStart(items, ItemsOf(messages[n])) <==> Begins(messages, n)
    ensures ItemsOf(messages[n]) != [] ==>
              (FromAssistant(ItemsOf(messages[n])[|ItemsOf(messages[n])| - 1]) <==> messages[n].role == "assistant")
  {
    var own := ItemsOf(messages[n]);
    ItemsBelong(isObject, messages[n]);
    hide ItemsOf;
    hide Open;
    hide SomeStart;
    hide MessageAllowed;
    if messages[n].role == "assistant" { StartsOf(items, own); } else { NoStarts(items, own); }
  }

  lemma NextTurn(isObject: string -> bool, k: Keeping, messages: seq<Message>, n: nat, items: seq<Item>)
    requires n < |messages| && MessageAllowed(isObject, messages[n]) && Own(messages[n]).Some? && k.chat
    requires SoFar(k, messages, n, items)
    ensures SoFar(k, messages, n + 1, items + ItemsOf(messages[n]) + Marker(messages[n].role, KeptFor(k, messages[n]), k.chat))
  {
    hide Own;
    hide ItemsOf;
    hide Carrying;
    hide Left;
    hide Open;
    hide SomeStart;
    hide Begins;
    hide MessageAllowed;
    var m := messages[n];
    var own := ItemsOf(m);
    BeginsShows(isObject, messages, n, items);
    ItemsBelong(isObject, m);
    OwnLeft(items, own);
    var marker := Marker(m.role, KeptFor(k, m), k.chat);
    if marker == [] {
      assert items + own + [] == items + own;
    } else {
      MarkerAdded(items + own, marker[0]);
    }
  }

  lemma {:induction false} TurnsLeft(isObject: string -> bool, k: Keeping, messages: seq<Message>, n: nat)
    requires n <= |messages| && k.chat && ToInput(k, messages[..n]).Some?
    requires forall i :: 0 <= i < |messages| ==> MessageAllowed(isObject, messages[i])
    ensures SoFar(k, messages, n, ToInput(k, messages[..n]).value)
  {
    if n > 0 {
      assert messages[..n][..n - 1] == messages[..n - 1];
      TurnsLeft(isObject, k, messages, n - 1);
      var front := ToInput(k, messages[..n - 1]).value;
      NextTurn(isObject, k, messages, n - 1, front);
      assert front + Lead(k, messages[n - 1]) == front;
      hide SoFar;
      hide MessageAllowed;
      hide Own;
      hide Marker;
    }
  }

  // --------------------------------------- from the recursion to the condition

  /** The latest turn with reasoning. */
  function Latest(k: Keeping, messages: seq<Message>, n: nat): (t: Option<nat>)
    requires n <= |messages|
    ensures t.Some? ==> t.value < n && HasMarker(k, messages[t.value])
    ensures forall i :: 0 <= i < n && HasMarker(k, messages[i]) ==> t.Some? && i <= t.value
  {
    if n == 0 then None else if HasMarker(k, messages[n - 1]) then Some(n - 1) else Latest(k, messages, n - 1)
  }

  ghost predicate BeginsBefore(messages: seq<Message>, t: nat, n: nat)
    requires n <= |messages|
  {
    exists u :: t < u < n && Begins(messages, u)
  }

  lemma {:induction false} CarryingMeans(k: Keeping, messages: seq<Message>, n: nat)
    requires n <= |messages|
    ensures CarryingAt(k, messages, n) <==>
            Latest(k, messages, n).Some? && !BeginsBefore(messages, Latest(k, messages, n).value, n)
  {
    if n > 0 { CarryingMeans(k, messages, n - 1); }
  }

  lemma {:induction false} SameLasting(k: Keeping, messages: seq<Message>, n: nat, m: nat)
    requires m <= n < |messages|
    requires forall t: nat :: t < m ==> (Lasts(k, messages, n, t) <==> Lasts(k, messages, n + 1, t))
    ensures Lasting(k, messages, n, m) == Lasting(k, messages, n + 1, m)
  {
    if m > 0 { SameLasting(k, messages, n, m - 1); }
  }

  lemma {:induction false} NoneAfter(k: Keeping, messages: seq<Message>, n: nat, from: nat, m: nat)
    requires from <= m <= n <= |messages|
    requires forall t: nat :: from <= t < m ==> !Lasts(k, messages, n, t)
    ensures Lasting(k, messages, n, m) == Lasting(k, messages, n, from)
  {
    if from < m { NoneAfter(k, messages, n, from, m - 1); }
  }

  /** Turns before the latest one with reasoning do not change their fate. */
  lemma EarlierSettled(k: Keeping, messages: seq<Message>, n: nat, t: nat)
    requires n < |messages| && Latest(k, messages, n).Some? && t < Latest(k, messages, n).value
    ensures Lasts(k, messages, n, t) <==> Lasts(k, messages, n + 1, t)
  {
    var latest := Latest(k, messages, n).value;
    if Lasts(k, messages, n, t) {
      assert BeginsBetween(messages, t, latest);
      var u :| t < u <= latest && Begins(messages, u);
      assert BeginsBetween(messages, t, n);
    }
  }

  /** A turn without reasoning changes nothing. */
  lemma UnmarkedStep(k: Keeping, messages: seq<Message>, n: nat)
    requires n < |messages| && !HasMarker(k, messages[n])
    ensures Lasting(k, messages, n + 1, n + 1) == Lasting(k, messages, n, n)
  {
    SameLasting(k, messages, n, n);
  }

  /** A turn with reasoning lasts so far, and takes the place of the latest one
      exactly if no chat message began since. */
  lemma MarkedStep(k: Keeping, messages: seq<Message>, n: nat)
    requires n < |messages| && HasMarker(k, messages[n])
    ensures Lasting(k, messages, n + 1, n + 1) ==
            (if CarryingAt(k, messages, n) && !Begins(messages, n) then DropLast(Lasting(k, messages, n, n)) else Lasting(k, messages, n, n)) +
            [KeptFor(k, messages[n]).chat]
  {
    assert Lasts(k, messages, n + 1, n);
    hide *;
    CarryingMeans(k, messages, n);
    LastingNext(k, messages, n + 1, n);
    match Latest(k, messages, n)
    case None => NothingYet(k, messages, n);
    case Some(latest) =>
      SplitAtLatest(k, messages, n, latest);
      LatestFate(k, messages, n, latest);
      LastingNext(k, messages, n, latest);
      LastingNext(k, messages, n + 1, latest);
      Dropped(Lasting(k, messages, n, latest), KeptFor(k, messages[latest]).chat);
  }

  lemma Dropped(s: seq<string>, last: string)
    ensures DropLast(s + [last]) == s && s + [] == s
  {
  }

  lemma LastingNext(k: Keeping, messages: seq<Message>, n: nat, m: nat)
    requires m < n <= |messages|
    ensures Lasting(k, messages, n, m + 1) ==
            Lasting(k, messages, n, m) + if Lasts(k, messages, n, m) then [KeptFor(k, messages[m]).chat] else []
  {
    hide Lasts;
    hide KeptFor;
  }

  lemma NothingYet(k: Keeping, messages: seq<Message>, n: nat)
    requires n < |messages| && Latest(k, messages, n).None?
    ensures Lasting(k, messages, n, n) == [] == Lasting(k, messages, n + 1, n)
  {
    NoneAfter(k, messages, n, 0, n);
    NoneAfter(k, messages, n + 1, 0, n);
  }

  /** Through `n` and through `n + 1` messages the same turns last before the
      latest one, and none after it. */
  lemma SplitAtLatest(k: Keeping, messages: seq<Message>, n: nat, latest: nat)
    requires n < |messages| && Latest(k, messages, n) == Some(latest)
    ensures Lasting(k, messages, n, latest) == Lasting(k, messages, n + 1, latest)
    ensures Lasting(k, messages, n, n) == Lasting(k, messages, n, latest + 1)
    ensures Lasting(k, messages, n + 1, n) == Lasting(k, messages, n + 1, latest + 1)
  {
    forall t: nat | t < latest ensures Lasts(k, messages, n, t) <==> Lasts(k, messages, n + 1, t) {
      EarlierSettled(k, messages, n, t);
    }
    SameLasting(k, messages, n, latest);
    NoneAfter(k, messages, n, latest + 1, n);
    NoneAfter(k, messages, n + 1, latest + 1, n);
    hide Begins;
  }

  lemma LatestFate(k: Keeping, messages: seq<Message>, n: nat, latest: nat)
    requires n < |messages| && HasMarker(k, messages[n]) && Latest(k, messages, n) == Some(latest)
    ensures Lasts(k, messages, n, latest)
    ensures Lasts(k, messages, n + 1, latest) <==> BeginsBefore(messages, latest, n) || Begins(messages, n)
  {
    hide HasMarker;
    if BeginsBefore(messages, latest, n) {
      var u :| latest < u < n && Begins(messages, u);
      assert BeginsBetween(messages, latest, n);
    }
    if Begins(messages, n) { assert BeginsBetween(messages, latest, n); }
    hide Begins;
  }

  lemma {:induction false} LeftIsLasting(k: Keeping, messages: seq<Message>, n: nat)
    requires n <= |messages|
    ensures LeftAt(k, messages, n) == Lasting(k, messages, n, n)
  {
    if n > 0 {
      LeftIsLasting(k, messages, n - 1);
      if HasMarker(k, messages[n - 1]) { MarkedStep(k, messages, n - 1); } else { UnmarkedStep(k, messages, n - 1); }
      hide Lasting;
      hide HasMarker;
      hide Begins;
    }
  }

  /** The reasoning in the chat messages of a whole conversation is, in order, that
      of the turns whose reasoning lasts, and no other: a turn's reasoning is lost
      if and only if a later turn has reasoning, too, and no chat message begins
      between them or with it. */
  lemma MarkersThatLast(isObject: string -> bool, validJSON: string -> bool, k: Keeping, messages: seq<Message>)
    requires k.chat && forall i :: 0 <= i < |messages| ==> MessageAllowed(isObject, messages[i])
    requires ToInput(k, messages).Some? && ToChat(validJSON, ToInput(k, messages).value).Some?
    ensures Reasonings(ToChat(validJSON, ToInput(k, messages).value).value) == Lasting(k, messages, |messages|, |messages|)
  {
    assert messages[..|messages|] == messages;
    TurnsLeft(isObject, k, messages, |messages|);
    ItemsLeft(validJSON, ToInput(k, messages).value);
    LeftIsLasting(k, messages, |messages|);
    hide Lasting;
    hide ToChat;
    hide ToInput;
  }

  // ------------------------------------------------------- how reasoning is lost

  /** Assistant turns as the gateway answers them: one that says something, one
      without a block, and one that only calls. */
  const SAID := Message("assistant", Blocks([TextBlockIn("a")]), false)
  const SILENT := Message("assistant", Blocks([]), false)
  const CALLING := Message("assistant", Blocks([ToolUseIn("c", "f", "{}")]), false)

  lemma TurnItems()
    ensures Own(SAID) == Some([MessageItem("assistant", Str("a"))])
    ensures Own(SILENT) == Some([])
    ensures Own(CALLING) == Some([CallItem("c", "f", "{}")])
  {
    assert [TextBlockIn("a")][..0] == [] && [ToolUseIn("c", "f", "{}")][..0] == [];
    assert "" + "a" == "a";
    assert AddBlock(Acc([], [], ""), "assistant", TextBlockIn("a")) == Some(Acc([], [], "a"));
    assert [] + [MessageItem("assistant", Str("a"))] == [MessageItem("assistant", Str("a"))];
    assert AddBlocks(Acc([], [], ""), "assistant", []) == Some(Acc([], [], ""));
    assert |"{}"| != |"null"|;
    assert AddBlock(Acc([], [], ""), "assistant", ToolUseIn("c", "f", "{}")) == Some(Acc([] + [CallItem("c", "f", "{}")], [], ""));
    assert [] + [CallItem("c", "f", "{}")] == [CallItem("c", "f", "{}")];
    assert AddBlocks(Acc([], [], ""), "assistant", [ToolUseIn("c", "f", "{}")]) == AddBlock(Acc([], [], ""), "assistant", ToolUseIn("c", "f", "{}"));
    assert AddBlocks(Acc([], [], ""), "assistant", [ToolUseIn("c", "f", "{}")]) == Some(Acc([CallItem("c", "f", "{}")], [], ""));
  }

  lemma OneInput(k: Keeping, m: Message)
    requires k.chat && m.role == "assistant" && Own(m).Some?
    ensures ToInput(k, [m]) == Some(Own(m).value + Marker("assistant", k.kept(m.content), true))
  {
    assert [m][..0] == [] && ToInput(k, [m][..0]) == Some([]);
    assert Lead(k, m) == [];
    assert [] + [] + Own(m).value == Own(m).value;
    hide Own;
    hide Marker;
  }

  lemma TwoInputs(k: Keeping, a: Message, b: Message)
    requires k.chat && a.role == b.role == "assistant" && Own(a).Some? && Own(b).Some?
    ensures ToInput(k, [a, b]) == Some(Own(a).value + Marker("assistant", k.kept(a.content), true) +
                                       Own(b).value + Marker("assistant", k.kept(b.content), true))
  {
    OneInput(k, a);
    assert [a, b][..1] == [a];
    var front := ToInput(k, [a]).value;
    assert front + [] == front;
    hide Own;
    hide Marker;
  }

  lemma OneItem(validJSON: string -> bool, item: Item)
    ensures ToChat(validJSON, [item]) == AddItem(validJSON, [], item)
  {
    assert [item][..0] == [];
    hide AddItem;
  }

  lemma NextItem(validJSON: string -> bool, items: seq<Item>, item: Item)
    requires ToChat(validJSON, items).Some?
    ensures ToChat(validJSON, items + [item]) == AddItem(validJSON, ToChat(validJSON, items).value, item)
  {
    assert (items + [item])[..|items|] == items;
    hide AddItem;
  }

  /** Reasoning attached to a single assistant turn. */
  lemma AttachToOne(turn: Chat, reasoning: string)
    requires IsAssistant(turn)
    ensures Attach([turn], reasoning) == Some([turn.(reasoning := Some(reasoning))])
  {
    assert LastAssistant([turn]) == Some(0);
    assert [turn][0 := turn.(reasoning := Some(reasoning))] == [turn.(reasoning := Some(reasoning))];
  }

  /** The reasoning of a turn without items ends up on the turn before it. */
  lemma SilentTurnGivesAway(validJSON: string -> bool, k: Keeping)
    requires k.chat && k.kept(SAID.content).chat == "" && k.kept(SILENT.content).chat == "r"
    ensures ToInput(k, [SAID, SILENT]) == Some([MessageItem("assistant", Str("a")), ReasoningMarker("r")])
    ensures ToChat(validJSON, [MessageItem("assistant", Str("a")), ReasoningMarker("r")]) ==
            Some([Turn("assistant", Plain("a"), [], Some("r"))])
  {
    var item := MessageItem("assistant", Str("a"));
    TurnItems();
    TwoInputs(k, SAID, SILENT);
    assert [item] + [] + [] + [ReasoningMarker("r")] == [item, ReasoningMarker("r")] == [item] + [ReasoningMarker("r")];
    OneItem(validJSON, item);
    NextItem(validJSON, [item], ReasoningMarker("r"));
    AttachToOne(Turn("assistant", Plain("a"), [], None), "r");
    assert "r" != "";
    assert [] + [Turn("assistant", Plain("a"), [], None)] == [Turn("assistant", Plain("a"), [], None)];
  }

  /** Without a turn before it, the whole conversion fails. */
  lemma SilentTurnFails(validJSON: string -> bool, k: Keeping)
    requires k.chat && k.kept(SILENT.content).chat == "r"
    ensures ToInput(k, [SILENT]) == Some([ReasoningMarker("r")]) && ToChat(validJSON, [ReasoningMarker("r")]).None?
  {
    TurnItems();
    OneInput(k, SILENT);
    assert [] + [ReasoningMarker("r")] == [ReasoningMarker("r")];
    OneItem(validJSON, ReasoningMarker("r"));
  }

  /** A turn of calls only is merged into the turn before it, and its reasoning
      overwrites that turn's. */
  lemma CallingTurnOverwrites(validJSON: string -> bool, k: Keeping)
    requires k.chat && k.kept(SAID.content).chat == "r" && k.kept(CALLING.content).chat == "s" && validJSON("{}")
    ensures var items := [MessageItem("assistant", Str("a")), ReasoningMarker("r"), CallItem("c", "f", "{}"), ReasoningMarker("s")];
            && ToInput(k, [SAID, CALLING]) == Some(items)
            && ToChat(validJSON, items) == Some([Turn("assistant", Plain("a"), [ToolCall("c", "f", "{}")], Some("s"))])
  {
    var said, call := MessageItem("assistant", Str("a")), CallItem("c", "f", "{}");
    var turn := Turn("assistant", Plain("a"), [], None);
    TurnItems();
    TwoInputs(k, SAID, CALLING);
    assert [said] + [ReasoningMarker("r")] + [call] + [ReasoningMarker("s")] == [said, ReasoningMarker("r"), call, ReasoningMarker("s")];
    OneItem(validJSON, said);
    NextItem(validJSON, [said], ReasoningMarker("r"));
    NextItem(validJSON, [said] + [ReasoningMarker("r")], call);
    NextItem(validJSON, [said] + [ReasoningMarker("r")] + [call], ReasoningMarker("s"));
    var marked := turn.(reasoning := Some("r"));
    var merged := marked.(calls := [ToolCall("c", "f", "{}")]);
    AttachToOne(turn, "r");
    AttachToOne(merged, "s");
    assert [] + [turn] == [turn] && [] + [ToolCall("c", "f", "{}")] == [ToolCall("c", "f", "{}")];
    assert AddCall([marked], ToolCall("c", "f", "{}")) == [merged];
  }
}
