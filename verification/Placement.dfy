/** On which chat message the reasoning kept for a turn ends up, over a whole
    conversation, and when it makes the conversion fail. */
module Placement {
  import opened Optional
  import opened Conversation
  import opened InputTranslation
  import opened ChatConversion
  import opened WholeConversation
  import opened Markers

  // ------------------------------------------------------------- item by item

  /** The item becomes a chat message, rather than part of the one before. */
  predicate Adds(before: seq<Item>, item: Item) {
    !item.ReasoningMarker? && !(item.CallItem? && Open(before))
  }

  /** How many chat messages the items make. */
  function Count(items: seq<Item>): nat {
    if items == [] then 0
    else
      var before, last := items[..|items| - 1], items[|items| - 1];
      Count(before) + if Adds(before, last) then 1 else 0
  }

  /** Which of them is the last assistant message. */
  function Where(items: seq<Item>): Option<nat> {
    if items == [] then None
    else
      var before, last := items[..|items| - 1], items[|items| - 1];
      if Starts(before, last) then Some(Count(before)) else Where(before)
  }

  /** The reasoning on chat message `i`: that of the last marker put there. */
  function Held(items: seq<Item>, i: nat): Option<string> {
    if items == [] then None
    else
      var before, last := items[..|items| - 1], items[|items| - 1];
      if last.ReasoningMarker? && Where(before) == Some(i) then Some(last.reasoning) else Held(before, i)
  }

  lemma {:induction false} Inside(items: seq<Item>)
    ensures Where(items).Some? ==> Where(items).value < Count(items)
    ensures Open(items) ==> Where(items).Some?
    ensures forall i: nat :: i >= Count(items) ==> Held(items, i).None?
  {
    if items != [] { Inside(items[..|items| - 1]); }
  }

  ghost predicate Holds(items: seq<Item>, chat: seq<Chat>) {
    forall i :: 0 <= i < |chat| && chat[i].Turn? ==> chat[i].reasoning == Held(items, i)
  }

  ghost predicate Laid(items: seq<Item>, chat: seq<Chat>) {
    |chat| == Count(items) && LastAssistant(chat) == Where(items) && Open(items) == EndsOpen(chat) && Holds(items, chat)
  }

  /** What an item needs to be converted, whatever comes before it. */
  predicate Convertible(validJSON: string -> bool, item: Item) {
    match item
    case MessageItem(role, content) => ChatRole(role) && ContentToChat(content).Some?
    case CallItem(id, name, arguments) => (arguments == "" || validJSON(arguments)) && id != "" && name != ""
    case OutputItem(id, _) => id != ""
    case ReasoningMarker(reasoning) => reasoning != ""
    case ProviderItem(_) => false
  }

  lemma AddItemWorks(validJSON: string -> bool, items: seq<Item>, item: Item, chat: seq<Chat>)
    requires Laid(items, chat)
    ensures AddItem(validJSON, chat, item).Some? <==>
            Convertible(validJSON, item) && (item.ReasoningMarker? ==> Where(items).Some?)
  {
    LastAssistantAt(chat);
    hide Holds;
    hide EndsOpen;
  }

  lemma LastAfter(chat: seq<Chat>, c: Chat)
    ensures LastAssistant(chat + [c]) == if IsAssistant(c) then Some(|chat|) else LastAssistant(chat)
    ensures EndsOpen(chat + [c]) == IsAssistant(c)
  {
    assert (chat + [c])[..|chat|] == chat;
  }

  lemma LaidAppended(items: seq<Item>, item: Item, chat: seq<Chat>, c: Chat)
    requires Laid(items, chat) && !item.ReasoningMarker? && Adds(items, item)
    requires c.Turn? ==> c.reasoning.None?
    requires IsAssistant(c) == FromAssistant(item) == Starts(items, item)
    ensures Laid(items + [item], chat + [c])
  {
    LastAfter(chat, c);
    Inside(items);
    assert (items + [item])[..|items|] == items;
    hide LastAssistant;
    hide EndsOpen;
    hide Starts;
    forall i | 0 <= i <= |chat| && (chat + [c])[i].Turn? ensures (chat + [c])[i].reasoning == Held(items + [item], i) {
      assert Held(items + [item], i) == Held(items, i);
    }
  }

  lemma LaidMerged(items: seq<Item>, item: Item, chat: seq<Chat>, call: ToolCall)
    requires Laid(items, chat) && item.CallItem? && Open(items)
    ensures Laid(items + [item], AddCall(chat, call))
  {
    var n := |chat| - 1;
    var after := AddCall(chat, call);
    assert (items + [item])[..|items|] == items;
    assert LastAssistant(chat) == Some(n) && LastAssistant(after) == Some(n);
    hide Where;
    hide Count;
  }

  lemma LaidAttached(items: seq<Item>, chat: seq<Chat>, reasoning: string)
    requires Laid(items, chat) && Attach(chat, reasoning).Some?
    ensures Laid(items + [ReasoningMarker(reasoning)], Attach(chat, reasoning).value)
  {
    var after := Attach(chat, reasoning).value;
    assert (items + [ReasoningMarker(reasoning)])[..|items|] == items;
    LastAssistantAt(chat);
    LastAssistantAt(after);
    var j := LastAssistant(chat).value;
    assert IsAssistant(after[j]) && after == chat[j := after[j]];
    assert LastAssistant(after) == Some(j);
    hide Where;
    hide Count;
    hide LastAssistant;
  }

  lemma ItemLaid(validJSON: string -> bool, items: seq<Item>, item: Item, chat: seq<Chat>)
    requires Laid(items, chat) && AddItem(validJSON, chat, item).Some?
    ensures Laid(items + [item], AddItem(validJSON, chat, item).value)
  {
    OpensAlike(items, chat);
    hide Laid;
    match item
    case MessageItem(role, content) => LaidAppended(items, item, chat, Turn(role, ContentToChat(content).value, [], None));
    case OutputItem(id, output) => LaidAppended(items, item, chat, ToolMessage(id, output));
    case ReasoningMarker(reasoning) => LaidAttached(items, chat, reasoning);
    case CallItem(id, name, arguments) =>
      var call := ToolCall(id, name, if arguments == "" then "{}" else arguments);
      if Open(items) { LaidMerged(items, item, chat, call); } else { LaidAppended(items, item, chat, Turn("assistant", Null, [call], None)); }
  }

  lemma OpensAlike(items: seq<Item>, chat: seq<Chat>)
    requires Laid(items, chat)
    ensures Open(items) == EndsOpen(chat)
  {
  }

  /** Every marker finds an assistant message before it. */
  ghost predicate Anchored(items: seq<Item>) {
    forall b :: 0 <= b < |items| && items[b].ReasoningMarker? ==> Where(items[..b]).Some?
  }

  ghost predicate AllConvertible(validJSON: string -> bool, items: seq<Item>) {
    forall b :: 0 <= b < |items| ==> Convertible(validJSON, items[b])
  }

  lemma AnchoredNext(items: seq<Item>, item: Item)
    ensures Anchored(items + [item]) <==> Anchored(items) && (item.ReasoningMarker? ==> Where(items).Some?)
  {
    var all := items + [item];
    assert all[..|items|] == items && all[|items|] == item;
    assert forall b :: 0 <= b < |items| ==> all[..b] == items[..b] && all[b] == items[b];
    if Anchored(all) {
      forall b | 0 <= b < |items| && items[b].ReasoningMarker? ensures Where(items[..b]).Some? {
        assert all[b].ReasoningMarker?;
      }
    }
    hide Where;
  }

  lemma ConvertibleNext(validJSON: string -> bool, items: seq<Item>, item: Item)
    ensures AllConvertible(validJSON, items + [item]) <==> AllConvertible(validJSON, items) && Convertible(validJSON, item)
  {
    var all := items + [item];
    assert all[|items|] == item;
    assert forall b :: 0 <= b < |items| ==> all[b] == items[b];
    hide Convertible;
  }

  /** An item list converts exactly if each item can be converted and each marker
      has an assistant message before it; and then the chat is laid out as said. */
  lemma {:induction false} ItemsLaid(validJSON: string -> bool, items: seq<Item>)
    ensures ToChat(validJSON, items).Some? <==> AllConvertible(validJSON, items) && Anchored(items)
    ensures ToChat(validJSON, items).Some? ==> Laid(items, ToChat(validJSON, items).value)
  {
    if items != [] {
      var front, item := items[..|items| - 1], items[|items| - 1];
      ItemsLaid(validJSON, front);
      assert front + [item] == items;
      AnchoredNext(front, item);
      ConvertibleNext(validJSON, front, item);
      hide Laid;
      hide Anchored;
      hide AllConvertible;
      hide AddItem;
      if ToChat(validJSON, front).Some? {
        var chat := ToChat(validJSON, front).value;
        AddItemWorks(validJSON, front, item, chat);
        if AddItem(validJSON, chat, item).Some? { ItemLaid(validJSON, front, item, chat); }
      }
    }
  }

  lemma KeepsAssistants(validJSON: string -> bool, chat: seq<Chat>, item: Item, i: nat)
    requires AddItem(validJSON, chat, item).Some? && i < |chat| && IsAssistant(chat[i])
    ensures i < |AddItem(validJSON, chat, item).value| && IsAssistant(AddItem(validJSON, chat, item).value[i])
  {
    LastAssistantAt(chat);
  }

  /** What was once the last assistant message stays where it is. */
  lemma {:induction false} HomesStand(validJSON: string -> bool, items: seq<Item>, b: nat)
    requires ToChat(validJSON, items).Some? && b <= |items| && Where(items[..b]).Some?
    ensures var i, chat := Where(items[..b]).value, ToChat(validJSON, items).value; i < |chat| && IsAssistant(chat[i])
  {
    if b == |items| {
      assert items[..b] == items;
      ItemsLaid(validJSON, items);
      LastAssistantAt(ToChat(validJSON, items).value);
    } else {
      var front := items[..|items| - 1];
      assert front[..b] == items[..b];
      HomesStand(validJSON, front, b);
      KeepsAssistants(validJSON, ToChat(validJSON, front).value, items[|items| - 1], Where(items[..b]).value);
      hide AddItem;
    }
    hide Where;
  }

  // ------------------------------------------------------------- turn by turn

  /** The items of the first `n` messages, without markers. */
  function OwnItems(messages: seq<Message>, n: nat): seq<Item>
    requires n <= |messages|
  {
    if n == 0 then [] else OwnItems(messages, n - 1) + ItemsOf(messages[n - 1])
  }

  /** The last assistant message once the first `n` messages are converted. */
  function Home(messages: seq<Message>, n: nat): Option<nat>
    requires n <= |messages|
  {
    Where(OwnItems(messages, n))
  }

  function Unmarked(items: seq<Item>): seq<Item> {
    if items == [] then []
    else
      var last := items[|items| - 1];
      Unmarked(items[..|items| - 1]) + if last.ReasoningMarker? then [] else [last]
  }

  lemma {:induction false} MarkersAside(items: seq<Item>)
    ensures Open(Unmarked(items)) == Open(items) && Count(Unmarked(items)) == Count(items) && Where(Unmarked(items)) == Where(items)
  {
    if items != [] {
      var front, last := items[..|items| - 1], items[|items| - 1];
      MarkersAside(front);
      if last.ReasoningMarker? {
        assert Unmarked(items) == Unmarked(front);
      } else {
        assert Unmarked(items)[..|Unmarked(items)| - 1] == Unmarked(front);
      }
    }
  }

  lemma {:induction false} UnmarkedOwn(items: seq<Item>, own: seq<Item>)
    requires forall i :: 0 <= i < |own| ==> !own[i].ReasoningMarker?
    ensures Unmarked(items + own) == Unmarked(items) + own
  {
    if own == [] {
      assert items + own == items;
    } else {
      var n := |own| - 1;
      UnmarkedOwn(items, own[..n]);
      assert (items + own)[..|items + own| - 1] == items + own[..n];
      assert Unmarked(items) + own[..n] + [own[n]] == Unmarked(items) + own;
    }
  }

  lemma UnmarkedMarker(items: seq<Item>, marker: seq<Item>)
    requires marker == [] || (|marker| == 1 && marker[0].ReasoningMarker?)
    ensures Unmarked(items + marker) == Unmarked(items)
  {
    if marker == [] {
      assert items + marker == items;
    } else {
      assert (items + marker)[..|items|] == items;
    }
  }

  /** The reasoning that the first `n` messages leave on chat message `i`. */
  function TurnHeld(k: Keeping, messages: seq<Message>, n: nat, i: nat): Option<string>
    requires n <= |messages|
  {
    if n == 0 then None
    else if HasMarker(k, messages[n - 1]) && Home(messages, n) == Some(i) then Some(KeptFor(k, messages[n - 1]).chat)
    else TurnHeld(k, messages, n - 1, i)
  }

  lemma {:induction false} HeldOwn(items: seq<Item>, own: seq<Item>, i: nat)
    requires forall j :: 0 <= j < |own| ==> !own[j].ReasoningMarker?
    ensures Held(items + own, i) == Held(items, i)
    ensures Anchored(items + own) <==> Anchored(items)
  {
    if own == [] {
      assert items + own == items;
    } else {
      var n := |own| - 1;
      HeldOwn(items, own[..n], i);
      assert (items + own)[..|items + own| - 1] == items + own[..n];
      assert items + own[..n] + [own[n]] == items + own;
      AnchoredNext(items + own[..n], own[n]);
      hide Anchored;
    }
  }

  lemma HeldMarker(items: seq<Item>, marker: Item, i: nat)
    requires marker.ReasoningMarker?
    ensures Held(items + [marker], i) == if Where(items) == Some(i) then Some(marker.reasoning) else Held(items, i)
  {
    assert (items + [marker])[..|items|] == items;
  }

  /** Each of the first `n` messages with reasoning has an assistant message to put
      it on. */
  ghost predicate Settled(k: Keeping, messages: seq<Message>, n: nat)
    requires n <= |messages|
  {
    forall t :: 0 <= t < n && HasMarker(k, messages[t]) ==> Home(messages, t + 1).Some?
  }

  ghost predicate Tells(k: Keeping, messages: seq<Message>, n: nat, items: seq<Item>)
    requires n <= |messages|
  {
    && Unmarked(items) == OwnItems(messages, n)
    && (forall i: nat :: Held(items, i) == TurnHeld(k, messages, n, i))
    && (Anchored(items) <==> Settled(k, messages, n))
  }

  lemma OwnTold(isObject: string -> bool, k: Keeping, messages: seq<Message>, n: nat, items: seq<Item>)
    requires n < |messages| && MessageAllowed(isObject, messages[n]) && Own(messages[n]).Some?
    requires Tells(k, messages, n, items)
    ensures var all := items + ItemsOf(messages[n]);
            && Unmarked(all) == OwnItems(messages, n + 1) && Where(all) == Home(messages, n + 1)
            && (forall i: nat :: Held(all, i) == TurnHeld(k, messages, n, i))
            && (Anchored(all) <==> Settled(k, messages, n))
  {
    var own := ItemsOf(messages[n]);
    ItemsBelong(isObject, messages[n]);
    hide ItemsOf;
    hide MessageAllowed;
    hide Anchored;
    hide Settled;
    hide Held;
    hide TurnHeld;
    UnmarkedOwn(items, own);
    MarkersAside(items + own);
    forall i: nat ensures Held(items + own, i) == Held(items, i) && (Anchored(items + own) <==> Anchored(items)) {
      HeldOwn(items, own, i);
    }
    HeldOwn(items, own, 0);
  }

  lemma SettledNext(k: Keeping, messages: seq<Message>, n: nat)
    requires n < |messages|
    ensures Settled(k, messages, n + 1) <==> Settled(k, messages, n) && (HasMarker(k, messages[n]) ==> Home(messages, n + 1).Some?)
  {
    hide Home;
    hide HasMarker;
  }

  lemma TurnTold(isObject: string -> bool, k: Keeping, messages: seq<Message>, n: nat, items: seq<Item>)
    requires n < |messages| && MessageAllowed(isObject, messages[n]) && Own(messages[n]).Some? && k.chat
    requires Tells(k, messages, n, items)
    ensures Tells(k, messages, n + 1, items + ItemsOf(messages[n]) + Marker(messages[n].role, KeptFor(k, messages[n]), k.chat))
  {
    var m := messages[n];
    var all, marker := items + ItemsOf(m), Marker(m.role, KeptFor(k, m), k.chat);
    OwnTold(isObject, k, messages, n, items);
    UnmarkedMarker(all, marker);
    SettledNext(k, messages, n);
    hide Where;
    hide Held;
    hide Unmarked;
    hide ItemsOf;
    hide OwnItems;
    hide Settled;
    hide Anchored;
    hide Home;
    hide MessageAllowed;
    if marker == [] {
      assert all + marker == all;
    } else {
      AnchoredNext(all, marker[0]);
      forall i: nat ensures Held(all + marker, i) == TurnHeld(k, messages, n + 1, i) {
        HeldMarker(all, marker[0], i);
      }
    }
  }

  lemma {:induction false} TurnsTold(isObject: string -> bool, k: Keeping, messages: seq<Message>, n: nat)
    requires n <= |messages| && k.chat && ToInput(k, messages[..n]).Some?
    requires forall i :: 0 <= i < |messages| ==> MessageAllowed(isObject, messages[i])
    ensures Tells(k, messages, n, ToInput(k, messages[..n]).value)
  {
    if n > 0 {
      assert messages[..n][..n - 1] == messages[..n - 1];
      TurnsTold(isObject, k, messages, n - 1);
      var front := ToInput(k, messages[..n - 1]).value;
      TurnTold(isObject, k, messages, n - 1, front);
      assert front + Lead(k, messages[n - 1]) == front;
      hide Tells;
      hide MessageAllowed;
      hide Own;
      hide Marker;
    }
  }

  // ----------------------------------------------- what the recursions mean

  /** Turn `t` is the last with reasoning whose home is chat message `i`. */
  ghost predicate LastAt(k: Keeping, messages: seq<Message>, n: nat, i: nat, t: nat)
    requires t < n <= |messages|
  {
    && HasMarker(k, messages[t]) && Home(messages, t + 1) == Some(i)
    && forall later :: t < later < n && HasMarker(k, messages[later]) ==> Home(messages, later + 1) != Some(i)
  }

  /** Chat message `i` is the home of no turn with reasoning. */
  ghost predicate Untouched(k: Keeping, messages: seq<Message>, n: nat, i: nat)
    requires n <= |messages|
  {
    forall t :: 0 <= t < n && HasMarker(k, messages[t]) ==> Home(messages, t + 1) != Some(i)
  }

  lemma {:induction false} UntouchedMeans(k: Keeping, messages: seq<Message>, n: nat, i: nat)
    requires n <= |messages|
    ensures TurnHeld(k, messages, n, i).None? <==> Untouched(k, messages, n, i)
  {
    hide Home;
    hide HasMarker;
    hide KeptFor;
    if n > 0 { UntouchedMeans(k, messages, n - 1, i); }
  }

  lemma {:induction false} LastMeans(k: Keeping, messages: seq<Message>, n: nat, i: nat, t: nat)
    requires t < n <= |messages| && LastAt(k, messages, n, i, t)
    ensures TurnHeld(k, messages, n, i) == Some(KeptFor(k, messages[t]).chat)
  {
    hide Home;
    hide HasMarker;
    hide KeptFor;
    if t < n - 1 { LastMeans(k, messages, n - 1, i, t); }
  }

  lemma SomeStartNext(before: seq<Item>, own: seq<Item>)
    requires own != []
    ensures var n := |own| - 1;
            SomeStart(before, own) <==> SomeStart(before, own[..n]) || Starts(before + own[..n], own[n])
  {
    hide Starts;
    var n := |own| - 1;
    assert forall i :: 0 <= i < n ==> own[..n][..i] == own[..i];
    if SomeStart(before, own) && !Starts(before + own[..n], own[n]) {
      var i :| 0 <= i < |own| && Starts(before + own[..i], own[i]);
      assert Starts(before + own[..n][..i], own[..n][i]);
    }
    if SomeStart(before, own[..n]) {
      var i :| 0 <= i < n && Starts(before + own[..n][..i], own[..n][i]);
      assert Starts(before + own[..i], own[i]);
    }
  }

  lemma {:induction false} WhereOwn(before: seq<Item>, own: seq<Item>)
    ensures Count(before) <= Count(before + own)
    ensures if SomeStart(before, own) then Where(before + own).Some? && Where(before + own).value >= Count(before)
            else Where(before + own) == Where(before)
  {
    hide Starts;
    if own == [] {
      assert before + own == before;
    } else {
      var n := |own| - 1;
      WhereOwn(before, own[..n]);
      SomeStartNext(before, own);
      assert (before + own)[..|before + own| - 1] == before + own[..n];
      hide SomeStart;
    }
  }

  lemma OpenAfter(before: seq<Item>, own: seq<Item>)
    requires forall i :: 0 <= i < |own| ==> !own[i].ReasoningMarker?
    ensures Open(before + own) == if own == [] then Open(before) else FromAssistant(own[|own| - 1])
  {
    if own == [] {
      assert before + own == before;
    } else {
      assert (before + own)[|before + own| - 1] == own[|own| - 1];
    }
  }

  lemma {:induction false} OpenOwn(isObject: string -> bool, messages: seq<Message>, n: nat)
    requires n <= |messages| && forall i :: 0 <= i < |messages| ==> MessageAllowed(isObject, messages[i]) && Own(messages[i]).Some?
    ensures Open(OwnItems(messages, n)) == OpenAt(messages, n)
  {
    hide MessageAllowed;
    hide ItemsOf;
    hide Own;
    if n > 0 {
      hide Open;
      OpenOwn(isObject, messages, n - 1);
      ItemsBelong(isObject, messages[n - 1]);
      var own := ItemsOf(messages[n - 1]);
      OpenAfter(OwnItems(messages, n - 1), own);
      assert own != [] ==> (FromAssistant(own[|own| - 1]) <==> messages[n - 1].role == "assistant");
      assert OwnItems(messages, n) == OwnItems(messages, n - 1) + own;
    }
  }

  /** The home moves on, to a message of its own, exactly with a turn that begins
      one. */
  lemma HomeMoves(isObject: string -> bool, messages: seq<Message>, n: nat)
    requires n < |messages| && forall i :: 0 <= i < |messages| ==> MessageAllowed(isObject, messages[i]) && Own(messages[i]).Some?
    ensures if Begins(messages, n) then Home(messages, n + 1).Some? && Home(messages, n + 1) != Home(messages, n)
            else Home(messages, n + 1) == Home(messages, n)
    ensures OpenAt(messages, n) ==> Home(messages, n).Some?
  {
    var before, own := OwnItems(messages, n), ItemsOf(messages[n]);
    OpenOwn(isObject, messages, n);
    BeginsShows(isObject, messages, n, before);
    ItemsBelong(isObject, messages[n]);
    hide ItemsOf;
    hide MessageAllowed;
    hide Begins;
    hide Open;
    WhereOwn(before, own);
    Inside(before);
    hide Where;
    hide Count;
  }

  /** An assistant turn with an item. */
  predicate Answers(m: Message) {
    m.role == "assistant" && ItemsOf(m) != []
  }

  lemma HomelessNext(isObject: string -> bool, messages: seq<Message>, n: nat)
    requires n < |messages| && forall i :: 0 <= i < |messages| ==> MessageAllowed(isObject, messages[i]) && Own(messages[i]).Some?
    ensures Home(messages, n + 1).None? <==> Home(messages, n).None? && !Answers(messages[n])
  {
    hide Home;
    hide ItemsOf;
    hide Own;
    hide MessageAllowed;
    hide Speaks;
    hide OpenAt;
    HomeMoves(isObject, messages, n);
    HomeGrows(isObject, messages, n);
  }

  lemma NoHomeYet(messages: seq<Message>)
    ensures Home(messages, 0).None?
  {
  }

  /** There is no home yet exactly if no assistant turn has had an item. */
  lemma {:induction false} Homeless(isObject: string -> bool, messages: seq<Message>, n: nat)
    requires n <= |messages| && forall i :: 0 <= i < |messages| ==> MessageAllowed(isObject, messages[i]) && Own(messages[i]).Some?
    ensures Home(messages, n).None? <==> forall u :: 0 <= u < n ==> !Answers(messages[u])
  {
    hide *;
    if n == 0 {
      NoHomeYet(messages);
    } else {
      Homeless(isObject, messages, n - 1);
      HomelessNext(isObject, messages, n - 1);
    }
  }

  // ------------------------------------------------------------ the main results

  /** The turn has reasoning, and neither it nor an earlier assistant turn has an
      item to put it on. */
  predicate Stray(k: Keeping, messages: seq<Message>, t: nat)
    requires t < |messages|
  {
    HasMarker(k, messages[t]) && forall u | 0 <= u <= t :: !Answers(messages[u])
  }

  lemma {:induction false} OwnAll(k: Keeping, messages: seq<Message>)
    requires ToInput(k, messages).Some?
    ensures forall i :: 0 <= i < |messages| ==> Own(messages[i]).Some?
  {
    if messages != [] {
      var n := |messages| - 1;
      OwnAll(k, messages[..n]);
      assert forall i :: 0 <= i < n ==> messages[..n][i] == messages[i];
      hide Own;
    }
  }

  lemma StrayMeans(isObject: string -> bool, k: Keeping, messages: seq<Message>, t: nat)
    requires forall i :: 0 <= i < |messages| ==> MessageAllowed(isObject, messages[i]) && Own(messages[i]).Some?
    requires t < |messages|
    ensures Stray(k, messages, t) <==> HasMarker(k, messages[t]) && Home(messages, t + 1).None?
  {
    hide Home;
    hide Answers;
    hide Own;
    hide HasMarker;
    hide MessageAllowed;
    Homeless(isObject, messages, t + 1);
  }

  lemma SettledMeans(isObject: string -> bool, k: Keeping, messages: seq<Message>)
    requires forall i :: 0 <= i < |messages| ==> MessageAllowed(isObject, messages[i]) && Own(messages[i]).Some?
    ensures Settled(k, messages, |messages|) <==> forall t :: 0 <= t < |messages| ==> !Stray(k, messages, t)
  {
    hide Home;
    hide Own;
    hide HasMarker;
    hide MessageAllowed;
    hide Stray;
    forall t: nat | t < |messages| ensures Stray(k, messages, t) <==> HasMarker(k, messages[t]) && Home(messages, t + 1).None? {
      StrayMeans(isObject, k, messages, t);
    }
  }

  /** A conversation fails to reach the chat wire if and only if some item cannot be
      converted or some turn's reasoning is stray. */
  lemma StrayReasoningFails(isObject: string -> bool, validJSON: string -> bool, k: Keeping, messages: seq<Message>)
    requires k.chat && forall i :: 0 <= i < |messages| ==> MessageAllowed(isObject, messages[i])
    requires ToInput(k, messages).Some?
    ensures ToChat(validJSON, ToInput(k, messages).value).None? <==>
            !AllConvertible(validJSON, ToInput(k, messages).value) || exists t :: 0 <= t < |messages| && Stray(k, messages, t)
  {
    hide ToInput;
    hide ToChat;
    hide Stray;
    hide AllConvertible;
    hide MessageAllowed;
    hide Settled;
    hide Anchored;
    assert messages[..|messages|] == messages;
    OwnAll(k, messages);
    TurnsTold(isObject, k, messages, |messages|);
    ItemsLaid(validJSON, ToInput(k, messages).value);
    SettledMeans(isObject, k, messages);
    hide Held;
  }

  /** Chat message `i` carries reasoning if and only if it is the home of some turn
      with reasoning, and then that of the last such turn. */
  ghost predicate Carried(k: Keeping, messages: seq<Message>, i: nat, reasoning: Option<string>) {
    && (reasoning.None? <==> Untouched(k, messages, |messages|, i))
    && (forall t: nat :: t < |messages| && LastAt(k, messages, |messages|, i, t) ==> reasoning == Some(KeptFor(k, messages[t]).chat))
  }

  lemma {:induction false} InputGrows(k: Keeping, messages: seq<Message>, n: nat)
    requires n <= |messages| && ToInput(k, messages).Some?
    ensures ToInput(k, messages[..n]).Some? && ToInput(k, messages[..n]).value <= ToInput(k, messages).value
    decreases |messages|
  {
    if n == |messages| {
      assert messages[..n] == messages;
    } else {
      var front := messages[..|messages| - 1];
      assert front[..n] == messages[..n];
      InputGrows(k, front, n);
      hide Own;
      hide Lead;
      hide Marker;
    }
  }

  /** The home of a turn is an assistant message of the final chat. */
  lemma HomeStands(isObject: string -> bool, validJSON: string -> bool, k: Keeping, messages: seq<Message>, n: nat)
    requires k.chat && forall i :: 0 <= i < |messages| ==> MessageAllowed(isObject, messages[i])
    requires ToInput(k, messages).Some? && ToChat(validJSON, ToInput(k, messages).value).Some?
    requires n <= |messages| && Home(messages, n).Some?
    ensures var i, chat := Home(messages, n).value, ToChat(validJSON, ToInput(k, messages).value).value; i < |chat| && IsAssistant(chat[i])
  {
    hide ToInput;
    hide ToChat;
    hide MessageAllowed;
    hide Where;
    hide Anchored;
    hide Held;
    InputGrows(k, messages, n);
    TurnsTold(isObject, k, messages, n);
    var items, all := ToInput(k, messages[..n]).value, ToInput(k, messages).value;
    MarkersAside(items);
    assert items == all[..|items|];
    HomesStand(validJSON, all, |items|);
  }

  lemma ReasoningPlaced(isObject: string -> bool, validJSON: string -> bool, k: Keeping, messages: seq<Message>)
    requires k.chat && forall i :: 0 <= i < |messages| ==> MessageAllowed(isObject, messages[i])
    requires ToInput(k, messages).Some? && ToChat(validJSON, ToInput(k, messages).value).Some?
    ensures var chat := ToChat(validJSON, ToInput(k, messages).value).value;
            forall i: nat :: i < |chat| && chat[i].Turn? ==> Carried(k, messages, i, chat[i].reasoning)
  {
    hide ToInput;
    hide ToChat;
    hide MessageAllowed;
    hide Settled;
    hide Anchored;
    assert messages[..|messages|] == messages;
    TurnsTold(isObject, k, messages, |messages|);
    ItemsLaid(validJSON, ToInput(k, messages).value);
    var chat := ToChat(validJSON, ToInput(k, messages).value).value;
    forall i: nat | i < |chat| && chat[i].Turn? ensures Carried(k, messages, i, chat[i].reasoning) {
      UntouchedMeans(k, messages, |messages|, i);
      forall t: nat | t < |messages| && LastAt(k, messages, |messages|, i, t)
        ensures TurnHeld(k, messages, |messages|, i) == Some(KeptFor(k, messages[t]).chat)
      {
        LastMeans(k, messages, |messages|, i, t);
      }
    }
    hide Held;
  }

  /** Two turns have the same home exactly if no chat message begins in between or
      with the later one. */
  lemma {:induction false} SameHome(isObject: string -> bool, messages: seq<Message>, t: nat, later: nat)
    requires t <= later < |messages|
    requires forall i :: 0 <= i < |messages| ==> MessageAllowed(isObject, messages[i]) && Own(messages[i]).Some?
    ensures Home(messages, t + 1) == Home(messages, later + 1) <==> !BeginsBetween(messages, t, later)
    ensures Home(messages, t + 1).Some? ==> Home(messages, later + 1).Some? && Home(messages, t + 1).value <= Home(messages, later + 1).value
  {
    hide Home;
    hide Own;
    hide MessageAllowed;
    hide Begins;
    if t < later {
      SameHome(isObject, messages, t, later - 1);
      HomeMoves(isObject, messages, later);
      HomeGrows(isObject, messages, later);
      BetweenNext(messages, t, later);
      hide BeginsBetween;
    }
  }

  lemma BetweenNext(messages: seq<Message>, t: nat, later: nat)
    requires t < later < |messages|
    ensures BeginsBetween(messages, t, later) <==> BeginsBetween(messages, t, later - 1) || Begins(messages, later)
  {
    hide Begins;
  }

  lemma HomeGrows(isObject: string -> bool, messages: seq<Message>, n: nat)
    requires n < |messages| && forall i :: 0 <= i < |messages| ==> MessageAllowed(isObject, messages[i]) && Own(messages[i]).Some?
    ensures Home(messages, n).Some? ==> Home(messages, n + 1).Some? && Home(messages, n).value <= Home(messages, n + 1).value
  {
    var before, own := OwnItems(messages, n), ItemsOf(messages[n]);
    ItemsBelong(isObject, messages[n]);
    hide ItemsOf;
    hide MessageAllowed;
    WhereOwn(before, own);
    Inside(before);
    hide Where;
    hide Count;
  }
}
