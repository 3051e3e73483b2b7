/** From Responses input items to Chat Completions messages: calls are merged
    into the assistant turn they follow and reasoning is hung on the last
    assistant turn, without changing what is said or in which order. */
module ChatConversion {
  import opened Optional
  import opened Conversation
  import opened InputTranslation

  datatype ChatPart = TextPart(text: string) | ImageURL(url: string, detail: string)

  datatype ChatContent = Null | Plain(text: string) | Listed(parts: seq<ChatPart>)

  datatype ToolCall = ToolCall(id: string, name: string, arguments: string)

  datatype Chat =
    | Turn(role: string, content: ChatContent, calls: seq<ToolCall>, reasoning: Option<string>)
    | ToolMessage(callID: string, output: Output)

  predicate ChatRole(role: string) {
    role == "user" || role == "assistant" || role == "system" || role == "developer"
  }

  function PartToChat(part: Part): Option<ChatPart> {
    match part
    case InputText(text) => Some(TextPart(text))
    case InputImage(url, detail) => if url == "" then None else Some(ImageURL(url, detail))
    case InputFile(_, _) => None
  }

  function PartsToChat(parts: seq<Part>): Option<seq<ChatPart>> {
    if parts == [] then Some([])
    else
      var front, last := PartsToChat(parts[..|parts| - 1]), PartToChat(parts[|parts| - 1]);
      if front.None? || last.None? then None else Some(front.value + [last.value])
  }

  function ContentToChat(content: ItemContent): Option<ChatContent> {
    match content
    case Absent => Some(Plain(""))
    case Str(text) => Some(Plain(text))
    case Parts(parts) => if PartsToChat(parts).None? then None else Some(Listed(PartsToChat(parts).value))
  }

  predicate IsAssistant(c: Chat) {
    c.Turn? && c.role == "assistant"
  }

  /** The position of the last assistant turn, if there is one. */
  function LastAssistant(out: seq<Chat>): Option<nat> {
    if out == [] then None
    else if IsAssistant(out[|out| - 1]) then Some(|out| - 1)
    else LastAssistant(out[..|out| - 1])
  }

  lemma {:induction false} LastAssistantAt(out: seq<Chat>)
    ensures match LastAssistant(out)
            case Some(j) => j < |out| && IsAssistant(out[j]) && forall i :: j < i < |out| ==> !IsAssistant(out[i])
            case None => forall i :: 0 <= i < |out| ==> !IsAssistant(out[i])
  {
    if out != [] && !IsAssistant(out[|out| - 1]) { LastAssistantAt(out[..|out| - 1]); }
  }

  function AddCall(out: seq<Chat>, call: ToolCall): seq<Chat> {
    var n := |out|;
    if n > 0 && IsAssistant(out[n - 1]) then out[n - 1 := out[n - 1].(calls := out[n - 1].calls + [call])]
    else out + [Turn("assistant", Null, [call], None)]
  }

  function Attach(out: seq<Chat>, reasoning: string): Option<seq<Chat>> {
    LastAssistantAt(out);
    match LastAssistant(out)
    case None => None
    case Some(j) => Some(out[j := out[j].(reasoning := Some(reasoning))])
  }

  function AddItem(validJSON: string -> bool, out: seq<Chat>, item: Item): Option<seq<Chat>> {
    match item
    case MessageItem(role, content) =>
      if !ChatRole(role) || ContentToChat(content).None? then None
      else Some(out + [Turn(role, ContentToChat(content).value, [], None)])
    case CallItem(id, name, arguments) =>
      if (arguments != "" && !validJSON(arguments)) || id == "" || name == "" then None
      else Some(AddCall(out, ToolCall(id, name, if arguments == "" then "{}" else arguments)))
    case OutputItem(id, output) => if id == "" then None else Some(out + [ToolMessage(id, output)])
    case ReasoningMarker(reasoning) => if reasoning == "" then None else Attach(out, reasoning)
    case ProviderItem(_) => None
  }

  function ToChat(validJSON: string -> bool, items: seq<Item>): Option<seq<Chat>> {
    if items == [] then Some([])
    else
      var front := ToChat(validJSON, items[..|items| - 1]);
      if front.None? then None else AddItem(validJSON, front.value, items[|items| - 1])
  }

  // ------------------------------------------------------------------- the loops

  method ResponsesContentToChat(content: ItemContent) returns (result: Option<ChatContent>)
    ensures result == ContentToChat(content)
  {
    match content
    case Absent => return Some(Plain(""));
    case Str(text) => return Some(Plain(text));
    case Parts(parts) =>
      var out: seq<ChatPart> := [];
      var i := 0;
      while i < |parts|
        invariant i <= |parts| && PartsToChat(parts[..i]) == Some(out)
      {
        assert parts[..i + 1][..i] == parts[..i];
        match parts[i] {
          case InputText(text) => out := out + [TextPart(text)];
          case InputImage(url, detail) =>
            if url == "" { PartsStop(parts, i + 1); return None; }
            out := out + [ImageURL(url, detail)];
          case InputFile(_, _) => PartsStop(parts, i + 1); return None;
        }
        i := i + 1;
      }
      assert parts[..|parts|] == parts;
      return Some(Listed(out));
  }

  lemma {:induction false} PartsStop(parts: seq<Part>, i: nat)
    requires i <= |parts| && PartsToChat(parts[..i]).None?
    ensures PartsToChat(parts).None?
    decreases |parts| - i
  {
    if i < |parts| {
      assert parts[..i + 1][..i] == parts[..i];
      PartsStop(parts, i + 1);
    } else {
      assert parts[..i] == parts;
    }
  }

  /** Searching backwards for the assistant turn that takes the reasoning. */
  method AttachReasoning(out: seq<Chat>, reasoning: string) returns (result: Option<seq<Chat>>)
    ensures result == Attach(out, reasoning)
  {
    LastAssistantAt(out);
    var j := |out|;
    while j > 0
      invariant 0 <= j <= |out| && forall i :: j <= i < |out| ==> !IsAssistant(out[i])
    {
      j := j - 1;
      if IsAssistant(out[j]) {
        return Some(out[j := out[j].(reasoning := Some(reasoning))]);
      }
    }
    result := None;
  }

  /** The input of a Responses request: absent, one text, a list, or neither. */
  datatype Input = NoInput | Bare(text: string) | Listing(items: seq<Item>) | GarbledInput

  /** The items an input stands for: a text is what the user says. */
  function InputItems(input: Input): seq<Item>
    requires !input.GarbledInput?
  {
    match input
    case NoInput => []
    case Bare(text) => [MessageItem("user", Str(text))]
    case Listing(items) => items
  }

  method ResponsesInputToChat(validJSON: string -> bool, input: Input) returns (result: Option<seq<Chat>>)
    ensures result == if input.GarbledInput? then None else ToChat(validJSON, InputItems(input))
  {
    if input.NoInput? { return Some([]); }
    if input.Bare? {
      BareText(validJSON, input.text);
      return Some([Turn("user", Plain(input.text), [], None)]);
    }
    if input.GarbledInput? { return None; }
    var items := input.items;
    var out: seq<Chat> := [];
    var i := 0;
    while i < |items|
      invariant i <= |items| && ToChat(validJSON, items[..i]) == Some(out)
    {
      assert items[..i + 1][..i] == items[..i];
      var next := ItemToChat(validJSON, out, items[i]);
      if next.None? {
        ItemsStop(validJSON, items, i + 1);
        return None;
      }
      out := next.value;
      i := i + 1;
    }
    assert items[..|items|] == items;
    result := Some(out);
  }

  lemma BareText(validJSON: string -> bool, text: string)
    ensures ToChat(validJSON, [MessageItem("user", Str(text))]) == Some([Turn("user", Plain(text), [], None)])
  {
    assert [MessageItem("user", Str(text))][..0] == [];
    assert [] + [Turn("user", Plain(text), [], None)] == [Turn("user", Plain(text), [], None)];
  }

  method ItemToChat(validJSON: string -> bool, before: seq<Chat>, item: Item) returns (next: Option<seq<Chat>>)
    ensures next == AddItem(validJSON, before, item)
  {
    match item
    case MessageItem(role, content) =>
      if !ChatRole(role) { return None; }
      var converted := ResponsesContentToChat(content);
      if converted.None? { return None; }
      return Some(before + [Turn(role, converted.value, [], None)]);
    case CallItem(id, name, arguments) =>
      var text := arguments;
      if text == "" {
        text := "{}";
      } else if !validJSON(text) {
        return None;
      }
      if id == "" || name == "" { return None; }
      var call := ToolCall(id, name, text);
      if |before| > 0 && IsAssistant(before[|before| - 1]) {
        var last := before[|before| - 1];
        return Some(before[|before| - 1 := last.(calls := last.calls + [call])]);
      }
      return Some(before + [Turn("assistant", Null, [call], None)]);
    case OutputItem(id, output) =>
      if id == "" { return None; }
      return Some(before + [ToolMessage(id, output)]);
    case ReasoningMarker(reasoning) =>
      if reasoning == "" { return None; }
      next := AttachReasoning(before, reasoning);
    case ProviderItem(_) => return None;
  }

  lemma {:induction false} ItemsStop(validJSON: string -> bool, items: seq<Item>, i: nat)
    requires i <= |items| && ToChat(validJSON, items[..i]).None?
    ensures ToChat(validJSON, items).None?
    decreases |items| - i
  {
    if i < |items| {
      assert items[..i + 1][..i] == items[..i];
      ItemsStop(validJSON, items, i + 1);
    } else {
      assert items[..i] == items;
    }
  }

  // ------------------------------------------------------------------ round trip

  /** A turn spread out again: its content, then its calls one by one. */
  datatype Event =
    | Said(role: string, content: ChatContent)
    | Asked(call: ToolCall)
    | Answered(callID: string, output: Output)

  function CallEvents(calls: seq<ToolCall>): seq<Event> {
    seq(|calls|, i requires 0 <= i < |calls| => Asked(calls[i]))
  }

  function ChatEvents(c: Chat): seq<Event> {
    match c
    case Turn(role, content, calls, _) => (if content.Null? then [] else [Said(role, content)]) + CallEvents(calls)
    case ToolMessage(id, output) => [Answered(id, output)]
  }

  function Expand(chat: seq<Chat>): seq<Event> {
    if chat == [] then [] else Expand(chat[..|chat| - 1]) + ChatEvents(chat[|chat| - 1])
  }

  /** An item by itself; markers are nothing said, and empty arguments are an empty
      object. */
  function ItemEvents(item: Item): seq<Event> {
    match item
    case MessageItem(role, content) => if ContentToChat(content).None? then [] else [Said(role, ContentToChat(content).value)]
    case CallItem(id, name, arguments) => [Asked(ToolCall(id, name, if arguments == "" then "{}" else arguments))]
    case OutputItem(id, output) => [Answered(id, output)]
    case _ => []
  }

  function Events(items: seq<Item>): seq<Event> {
    if items == [] then [] else Events(items[..|items| - 1]) + ItemEvents(items[|items| - 1])
  }

  lemma ExpandAppend(chat: seq<Chat>, c: Chat)
    ensures Expand(chat + [c]) == Expand(chat) + ChatEvents(c)
  {
    assert (chat + [c])[..|chat|] == chat;
  }

  lemma MoreCalls(turn: Chat, call: ToolCall)
    requires turn.Turn?
    ensures ChatEvents(turn.(calls := turn.calls + [call])) == ChatEvents(turn) + [Asked(call)]
  {
    assert CallEvents(turn.calls + [call]) == CallEvents(turn.calls) + [Asked(call)];
  }

  lemma AddCallExpands(out: seq<Chat>, call: ToolCall)
    ensures Expand(AddCall(out, call)) == Expand(out) + [Asked(call)]
  {
    var n := |out|;
    if n > 0 && IsAssistant(out[n - 1]) {
      var last := out[n - 1];
      var more := last.(calls := last.calls + [call]);
      assert out == out[..n - 1] + [last];
      assert AddCall(out, call) == out[..n - 1] + [more];
      ExpandAppend(out[..n - 1], last);
      ExpandAppend(out[..n - 1], more);
      MoreCalls(last, call);
      hide ChatEvents;
    } else {
      ExpandAppend(out, Turn("assistant", Null, [call], None));
      assert ChatEvents(Turn("assistant", Null, [call], None)) == [Asked(call)];
    }
  }

  /** Reasoning changes nothing that is said. */
  lemma {:induction false} ReasoningSilent(out: seq<Chat>, j: nat, reasoning: Option<string>)
    requires j < |out| && out[j].Turn?
    ensures Expand(out[j := out[j].(reasoning := reasoning)]) == Expand(out)
  {
    var n := |out| - 1;
    var changed := out[j := out[j].(reasoning := reasoning)];
    if j < n {
      ReasoningSilent(out[..n], j, reasoning);
      assert changed[..n] == out[..n][j := out[..n][j].(reasoning := reasoning)];
    } else {
      assert changed[..n] == out[..n];
      assert ChatEvents(changed[n]) == ChatEvents(out[n]);
    }
  }

  lemma AddItemExpands(validJSON: string -> bool, out: seq<Chat>, item: Item)
    requires AddItem(validJSON, out, item).Some?
    ensures Expand(AddItem(validJSON, out, item).value) == Expand(out) + ItemEvents(item)
  {
    match item
    case MessageItem(role, content) =>
      ExpandAppend(out, Turn(role, ContentToChat(content).value, [], None));
      assert CallEvents([]) == [];
    case CallItem(id, name, arguments) => AddCallExpands(out, ToolCall(id, name, if arguments == "" then "{}" else arguments));
    case OutputItem(id, output) => ExpandAppend(out, ToolMessage(id, output));
    case ReasoningMarker(reasoning) =>
      LastAssistantAt(out);
      ReasoningSilent(out, LastAssistant(out).value, Some(reasoning));
      assert Expand(out) + [] == Expand(out);
  }

  /** Spreading the chat messages out again gives back the items, without the
      markers and with empty arguments read as an empty object: merging never
      drops, invents or reorders anything. */
  lemma {:induction false} RoundTrip(validJSON: string -> bool, items: seq<Item>)
    requires ToChat(validJSON, items).Some?
    ensures Expand(ToChat(validJSON, items).value) == Events(items)
  {
    if items != [] {
      var n := |items| - 1;
      RoundTrip(validJSON, items[..n]);
      AddItemExpands(validJSON, ToChat(validJSON, items[..n]).value, items[n]);
    }
  }
}
