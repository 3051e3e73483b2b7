/** What the non-streaming mapping gives back, read off the response alone: when a
    response is mapped at all, its content in order, its stop reason and counts. */
module MessageMeaning {
  import opened Optional
  import opened Wire
  import opened ToMessage
  import Bridge

  /** Every call has arguments that are absent or valid. */
  ghost predicate ArgumentsValid(valid: string -> bool, items: seq<Item>) {
    forall i :: 0 <= i < |items| && items[i].FunctionCall? ==> items[i].arguments == "" || valid(items[i].arguments)
  }

  /** The text of one message item: what its parts show and then its own text. */
  function PartText(part: Part): string {
    match part
    case OutputText(text) => text
    case RefusalPart(refusal) => refusal
    case OtherPart => ""
  }

  function PartsText(parts: seq<Part>): string {
    if parts == [] then "" else PartsText(parts[..|parts| - 1]) + PartText(parts[|parts| - 1])
  }

  /** One thing shown: a letter of text, or a tool call. */
  datatype Shown = Letter(c: char) | Called(id: string, name: string, input: string)

  function Letters(text: string): seq<Shown> {
    seq(|text|, i requires 0 <= i < |text| => Letter(text[i]))
  }

  /** What the item at position `n` shows. */
  function ItemShows(item: Item, n: nat): seq<Shown> {
    match item
    case MessageItem(_, parts, text) => Letters(PartsText(parts) + text)
    case FunctionCall(id, callID, name, arguments) =>
      [Called(if callID != "" then callID else if id != "" then id else Bridge.FreshID("toolu_", n), name,
              if arguments == "" then "{}" else arguments)]
    case _ => []
  }

  function ItemsShow(items: seq<Item>): seq<Shown> {
    if items == [] then [] else ItemsShow(items[..|items| - 1]) + ItemShows(items[|items| - 1], |items| - 1)
  }

  function BlockShows(block: Content): seq<Shown> {
    match block
    case TextContent(text) => Letters(text)
    case ToolUseContent(id, name, input) => [Called(id, name, input)]
  }

  function ContentShows(content: seq<Content>): seq<Shown> {
    if content == [] then [] else ContentShows(content[..|content| - 1]) + BlockShows(content[|content| - 1])
  }

  ghost predicate NoEmptyText(content: seq<Content>) {
    forall i :: 0 <= i < |content| && content[i].TextContent? ==> content[i].text != ""
  }

  predicate Refuses(item: Item) {
    item.MessageItem? && exists j | 0 <= j < |item.parts| :: item.parts[j].RefusalPart?
  }

  lemma LettersConcat(a: string, b: string)
    ensures Letters(a + b) == Letters(a) + Letters(b)
  {
  }

  lemma ShowsNext(content: seq<Content>, block: Content)
    ensures ContentShows(content + [block]) == ContentShows(content) + BlockShows(block)
  {
    assert (content + [block])[..|content|] == content;
  }

  lemma TextShows(content: seq<Content>, text: string)
    requires NoEmptyText(content)
    ensures ContentShows(content + TextIf(text)) == ContentShows(content) + Letters(text) && NoEmptyText(content + TextIf(text))
  {
    if text == "" {
      assert content + [] == content;
      assert ContentShows(content) + [] == ContentShows(content);
    } else {
      ShowsNext(content, TextContent(text));
    }
  }

  lemma PartSays(part: Part)
    ensures PartContent(part) == TextIf(PartText(part))
  {
  }

  lemma ContentRegroup(a: seq<Content>, b: seq<Content>, c: seq<Content>)
    ensures a + (b + c) == a + b + c
  {
  }

  lemma NoParts(content: seq<Content>)
    ensures content + PartsContent([]) == content
    ensures ContentShows(content) + Letters(PartsText([])) == ContentShows(content)
  {
  }

  lemma {:induction false} PartsShow(content: seq<Content>, parts: seq<Part>)
    requires NoEmptyText(content)
    ensures ContentShows(content + PartsContent(parts)) == ContentShows(content) + Letters(PartsText(parts))
    ensures NoEmptyText(content + PartsContent(parts))
  {
    hide NoEmptyText, ContentShows, Letters, PartContent, PartText, TextIf;
    if parts == [] {
      NoParts(content);
    } else {
      var n := |parts| - 1;
      PartsShow(content, parts[..n]);
      var front := content + PartsContent(parts[..n]);
      PartSays(parts[n]);
      TextShows(front, PartText(parts[n]));
      ContentRegroup(content, PartsContent(parts[..n]), PartContent(parts[n]));
      LettersConcat(PartsText(parts[..n]), PartText(parts[n]));
      Together(ContentShows(content), Letters(PartsText(parts[..n])), Letters(PartText(parts[n])));
    }
  }

  lemma Together(a: seq<Shown>, b: seq<Shown>, c: seq<Shown>)
    ensures a + b + c == a + (b + c)
  {
  }

  /** What a mapped prefix of the items amounts to. */
  ghost predicate Means(items: seq<Item>, mapped: Mapped) {
    && ContentShows(mapped.content) == ItemsShow(items) && NoEmptyText(mapped.content)
    && (mapped.tools > 0 <==> exists i :: 0 <= i < |items| && items[i].FunctionCall?)
    && (mapped.refusal <==> exists i :: 0 <= i < |items| && Refuses(items[i]))
  }

  lemma ItemContent(valid: string -> bool, mapped: Mapped, item: Item, n: nat)
    requires NoEmptyText(mapped.content) && MapItem(valid, mapped, item, n).Ok?
    ensures var next := MapItem(valid, mapped, item, n).value;
            && ContentShows(next.content) == ContentShows(mapped.content) + ItemShows(item, n) && NoEmptyText(next.content)
            && next.tools == mapped.tools + (if item.FunctionCall? then 1 else 0)
            && (next.refusal <==> mapped.refusal || Refuses(item))
  {
    match item
    case MessageItem(_, parts, text) =>
      hide NoEmptyText, ContentShows, PartsContent, PartsText, TextIf, Letters;
      PartsShow(mapped.content, parts);
      TextShows(mapped.content + PartsContent(parts), text);
      LettersConcat(PartsText(parts), text);
      Together(ContentShows(mapped.content), Letters(PartsText(parts)), Letters(text));
    case FunctionCall(_, _, name, arguments) =>
      ShowsNext(mapped.content, ToolUseContent(BlockID(item, n), name, if arguments == "" then "{}" else arguments));
    case _ => assert ContentShows(mapped.content) + [] == ContentShows(mapped.content);
  }

  lemma SomeNext(items: seq<Item>, n: nat)
    requires |items| == n + 1
    ensures (exists i :: 0 <= i < |items| && items[i].FunctionCall?) <==>
            (exists i :: 0 <= i < n && items[..n][i].FunctionCall?) || items[n].FunctionCall?
    ensures (exists i :: 0 <= i < |items| && Refuses(items[i])) <==>
            (exists i :: 0 <= i < n && Refuses(items[..n][i])) || Refuses(items[n])
  {
    hide Refuses;
    assert forall i :: 0 <= i < n ==> items[..n][i] == items[i];
  }

  lemma ValidNext(valid: string -> bool, items: seq<Item>, n: nat)
    requires |items| == n + 1
    ensures ArgumentsValid(valid, items) <==>
            ArgumentsValid(valid, items[..n]) && (items[n].FunctionCall? ==> items[n].arguments == "" || valid(items[n].arguments))
  {
    assert forall i :: 0 <= i < n ==> items[..n][i] == items[i];
  }

  lemma {:induction false} ItemsMean(valid: string -> bool, items: seq<Item>)
    ensures MapItems(valid, items).Ok? <==> ArgumentsValid(valid, items)
    ensures MapItems(valid, items).Ok? ==> Means(items, MapItems(valid, items).value)
    ensures MapItems(valid, items).Err? ==> MapItems(valid, items).message == "invalid upstream function arguments"
  {
    if items != [] {
      hide ContentShows, ItemShows, NoEmptyText, Refuses, ArgumentsValid;
      var n := |items| - 1;
      ItemsMean(valid, items[..n]);
      ValidNext(valid, items, n);
      SomeNext(items, n);
      var front := MapItems(valid, items[..n]);
      if front.Ok? && MapItem(valid, front.value, items[n], n).Ok? { ItemContent(valid, front.value, items[n], n); }
    }
  }

  /** A response that is over well: completed, or said nothing about it, or cut short
      at the output limit. */
  predicate Over(response: Response) {
    || response.status == "" || response.status == "completed"
    || (response.status == "incomplete" && response.incompleteReason == Some("max_output_tokens"))
  }

  function Complaint(response: Response): string {
    if response.status == "failed" || response.status == "cancelled" then "upstream response failed"
    else if response.status == "incomplete" then "upstream response incomplete"
    else "upstream response is not complete"
  }

  function Counted(o: Option<int>): int {
    match o case Some(n) => n case None => 0
  }

  /** Token counts: input tokens that were neither read from nor written to a cache,
      and never fewer than none. */
  ghost predicate CountsOf(response: Response, usage: MessageUsage) {
    match response.usage
    case None => usage == MessageUsage(0, 0, 0, 0)
    case Some(u) =>
      && usage.output == Counted(u.output)
      && usage.cacheRead == (if u.details.Some? then Counted(u.details.value.cached) else 0)
      && usage.cacheCreation == (if u.details.Some? then Counted(u.details.value.cacheWrite) else 0)
      && (u.details.None? ==> usage.input == Counted(u.input))
      && (u.details.Some? ==>
            var uncached := Counted(u.input) - usage.cacheRead - usage.cacheCreation;
            usage.input == if uncached < 0 then 0 else uncached)
  }

  /** A response is mapped exactly if it is over well and its calls have valid
      arguments; otherwise the error says which of these failed. The message shows
      what the items show, letter by letter and call by call, has no empty text
      block, and stops for the output limit, else for a tool, else for a refusal. */
  lemma ConvertMeans(valid: string -> bool, response: Response)
    ensures var result := Convert(valid, response);
            match result
            case Err(message) =>
              if !Over(response) then message == Complaint(response)
              else !ArgumentsValid(valid, response.output) && message == "invalid upstream function arguments"
            case Ok(message) =>
              && Over(response) && ArgumentsValid(valid, response.output)
              && ContentShows(message.content) == ItemsShow(response.output) && NoEmptyText(message.content)
              && message.stopReason == (
                   if response.incompleteReason == Some("max_output_tokens") then "max_tokens"
                   else if exists i :: 0 <= i < |response.output| && response.output[i].FunctionCall? then "tool_use"
                   else if exists i :: 0 <= i < |response.output| && Refuses(response.output[i]) then "refusal"
                   else "end_turn")
              && CountsOf(response, message.usage)
  {
    hide MapItems, ContentShows, ItemsShow, NoEmptyText, Refuses, ArgumentsValid;
    ItemsMean(valid, response.output);
  }
}
