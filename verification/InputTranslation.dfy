/** From Anthropic messages to Responses input items, and why nothing that was
    said gets lost or moved on the way. */
module InputTranslation {
  import opened Optional
  import opened Conversation
  import Continuations

  // ------------------------------------------------------------------ the pieces

  function ImagePart(source: Source): Option<Part> {
    match source
    case Base64(mediaType, data) =>
      if mediaType == "" || data == "" then None else Some(InputImage("data:" + mediaType + ";base64," + data, ""))
    case Url(url) => if url == "" then None else Some(InputImage(url, ""))
    case _ => None
  }

  function DocumentName(mediaType: string, title: string): string {
    if title != "" then title
    else if mediaType == "application/pdf" then "document.pdf"
    else if mediaType == "text/plain" then "document.txt"
    else "document"
  }

  function DocumentPart(source: Source, title: string): Option<Part> {
    match source
    case PlainData(data) => if data == "" then None else Some(InputText(data))
    case Url(url) => if url == "" then None else Some(InputFile("", url))
    case Base64(mediaType, data) =>
      if mediaType == "" || data == "" then None
      else Some(InputFile(DocumentName(mediaType, title), "data:" + mediaType + ";base64," + data))
    case OtherSource => None
  }

  function NestedPart(b: Nested): Option<Part> {
    match b
    case NestedText(text) => Some(InputText(text))
    case NestedImage(source) => ImagePart(source)
    case NestedDocument(source, title) => DocumentPart(source, title)
    case NestedOther => None
  }

  function NestedParts(blocks: seq<Nested>): Option<seq<Part>> {
    if blocks == [] then Some([])
    else
      var front, last := NestedParts(blocks[..|blocks| - 1]), NestedPart(blocks[|blocks| - 1]);
      if front.None? || last.None? then None else Some(front.value + [last.value])
  }

  function NestedTexts(blocks: seq<Nested>): string {
    if blocks == [] then ""
    else
      var last := blocks[|blocks| - 1];
      NestedTexts(blocks[..|blocks| - 1]) + if last.NestedText? then last.text else ""
  }

  predicate AllText(blocks: seq<Nested>) {
    forall i | 0 <= i < |blocks| :: blocks[i].NestedText?
  }

  const FAILED := "[Tool execution failed]"

  /** A tool's output: one text if that is all there is, else its parts. */
  function ResultOutput(isError: bool, result: ResultContent): Option<Output> {
    var prefix := if isError then FAILED + " " else "";
    match result
    case NoResult => Some(Text(prefix))
    case PlainResult(text) => Some(Text(prefix + text))
    case BadResult(raw) => Some(Text(prefix + raw))
    case NestedResult(blocks) =>
      if AllText(blocks) then Some(Text(prefix + NestedTexts(blocks)))
      else
        match NestedParts(blocks)
        case None => None
        case Some(parts) => Some(Encoded((if isError then [InputText(FAILED)] else []) + parts))
  }

  function Arguments(input: string): string {
    if input == "" || input == "null" then "{}" else input
  }

  // ------------------------------------------------------------- one message's fold

  /** Assistant and system text is run together; a user's parts are collected. */
  predicate RunsTogether(role: string) {
    role == "assistant" || role == "system"
  }

  datatype Acc = Acc(out: seq<Item>, content: seq<Part>, text: string)

  function Flush(acc: Acc, role: string): Acc {
    if RunsTogether(role) then
      if acc.text == "" then acc else acc.(out := acc.out + [MessageItem(role, Str(acc.text))], text := "")
    else if acc.content == [] then acc
    else acc.(out := acc.out + [MessageItem(role, Parts(acc.content))], content := [])
  }

  function AddBlock(acc: Acc, role: string, b: Block): Option<Acc> {
    match b
    case TextBlockIn(text) =>
      if RunsTogether(role) then Some(acc.(text := acc.text + text)) else Some(acc.(content := acc.content + [InputText(text)]))
    case Image(source) =>
      if ImagePart(source).None? then None else Some(acc.(content := acc.content + [ImagePart(source).value]))
    case Document(source, title) =>
      if DocumentPart(source, title).None? then None else Some(acc.(content := acc.content + [DocumentPart(source, title).value]))
    case ToolUseIn(id, name, input) =>
      var flushed := Flush(acc, role);
      Some(flushed.(out := flushed.out + [CallItem(id, name, Arguments(input))]))
    case ToolResult(id, isError, result) =>
      var flushed := Flush(acc, role);
      if ResultOutput(isError, result).None? then None
      else Some(flushed.(out := flushed.out + [OutputItem(id, ResultOutput(isError, result).value)]))
    case _ => Some(acc)
  }

  function AddBlocks(acc: Acc, role: string, blocks: seq<Block>): Option<Acc> {
    if blocks == [] then Some(acc)
    else
      var front := AddBlocks(acc, role, blocks[..|blocks| - 1]);
      if front.None? then None else AddBlock(front.value, role, blocks[|blocks| - 1])
  }

  /** The kept reasoning items, those that are JSON. */
  function ProviderItems(validJSON: string -> bool, items: seq<string>): seq<Item> {
    if items == [] then []
    else
      var last := items[|items| - 1];
      ProviderItems(validJSON, items[..|items| - 1]) + if validJSON(last) then [ProviderItem(last)] else []
  }

  function Marker(role: string, kept: Continuations.Continuation, chat: bool): seq<Item> {
    if role != "assistant" || !chat || kept.chat == "" then [] else [ReasoningMarker(kept.chat)]
  }

  /** What is kept for each assistant content, per provider; `chat` tells which
      wire the provider speaks. */
  datatype Keeping = Keeping(validJSON: string -> bool, kept: Content -> Continuations.Continuation, chat: bool)

  const NOTHING := Continuations.Continuation("", [])

  function KeptFor(k: Keeping, m: Message): Continuations.Continuation {
    if m.role == "assistant" then k.kept(m.content) else NOTHING
  }

  function Lead(k: Keeping, m: Message): seq<Item> {
    if k.chat then [] else ProviderItems(k.validJSON, KeptFor(k, m).items)
  }

  /** The items of one message proper. */
  function Own(m: Message): Option<seq<Item>> {
    match m.content
    case Shorthand(text) =>
      Some([if RunsTogether(m.role) then MessageItem(m.role, Str(text)) else MessageItem(m.role, Parts([InputText(text)]))])
    case Blocks(blocks) =>
      var acc := AddBlocks(Acc([], [], ""), m.role, blocks);
      if acc.None? then None else Some(Flush(acc.value, m.role).out)
    case _ => None
  }

  function ToInput(k: Keeping, messages: seq<Message>): Option<seq<Item>> {
    if messages == [] then Some([])
    else
      var front := ToInput(k, messages[..|messages| - 1]);
      var m := messages[|messages| - 1];
      if front.None? || Own(m).None? then None
      else Some(front.value + Lead(k, m) + Own(m).value + Marker(m.role, KeptFor(k, m), k.chat))
  }

  // ------------------------------------------------------------------- the loops

  lemma FlushAppends(acc: Acc, role: string, before: seq<Item>)
    ensures Flush(acc.(out := before + acc.out), role) == Flush(acc, role).(out := before + Flush(acc, role).out)
  {
  }

  lemma {:induction false} AddBlocksAppends(acc: Acc, role: string, blocks: seq<Block>, before: seq<Item>)
    ensures AddBlocks(acc.(out := before + acc.out), role, blocks) ==
            match AddBlocks(acc, role, blocks)
            case None => None
            case Some(done) => Some(done.(out := before + done.out))
  {
    if blocks != [] {
      var n := |blocks| - 1;
      AddBlocksAppends(acc, role, blocks[..n], before);
      var front := AddBlocks(acc, role, blocks[..n]);
      if front.Some? { AddBlockAppends(front.value, role, blocks[n], before); }
    }
  }

  lemma AddBlockAppends(acc: Acc, role: string, b: Block, before: seq<Item>)
    ensures AddBlock(acc.(out := before + acc.out), role, b) ==
            match AddBlock(acc, role, b)
            case None => None
            case Some(done) => Some(done.(out := before + done.out))
  {
    FlushAppends(acc, role, before);
    var flushed := Flush(acc, role).out;
    match b
    case ToolUseIn(id, name, input) =>
      assert before + (flushed + [CallItem(id, name, Arguments(input))]) == before + flushed + [CallItem(id, name, Arguments(input))];
    case ToolResult(id, isError, result) =>
      var output := ResultOutput(isError, result);
      assert output.Some? ==> before + (flushed + [OutputItem(id, output.value)]) == before + flushed + [OutputItem(id, output.value)];
    case _ =>
  }

  /** One turn of the block loop. */
  method AppendBlock(acc: Acc, role: string, b: Block) returns (next: Option<Acc>)
    ensures next == AddBlock(acc, role, b)
  {
    hide ImagePart;
    hide DocumentPart;
    hide ResultOutput;
    hide Flush;
    match b
    case TextBlockIn(text) =>
      if RunsTogether(role) { return Some(acc.(text := acc.text + text)); }
      return Some(acc.(content := acc.content + [InputText(text)]));
    case Image(source) =>
      var part := ImagePart(source);
      if part.None? { return None; }
      return Some(acc.(content := acc.content + [part.value]));
    case Document(source, title) =>
      var part := DocumentPart(source, title);
      if part.None? { return None; }
      return Some(acc.(content := acc.content + [part.value]));
    case ToolUseIn(id, name, input) =>
      var flushed := Flush(acc, role);
      return Some(flushed.(out := flushed.out + [CallItem(id, name, if input != "" && input != "null" then input else "{}")]));
    case ToolResult(id, isError, result) =>
      var flushed := Flush(acc, role);
      var output := ResultOutput(isError, result);
      if output.None? { return None; }
      return Some(flushed.(out := flushed.out + [OutputItem(id, output.value)]));
    case _ =>
      return Some(acc);
  }

  /** The block loop of one message, adding to what earlier messages gave. */
  method AppendBlocks(before: seq<Item>, role: string, blocks: seq<Block>) returns (result: Option<seq<Item>>)
    ensures result == match AddBlocks(Acc([], [], ""), role, blocks)
                      case None => None
                      case Some(acc) => Some(before + Flush(acc, role).out)
  {
    var acc := Acc(before, [], "");
    AddBlocksAppends(Acc([], [], ""), role, blocks, before);
    assert before + [] == before;
    hide AddBlock;
    hide Flush;
    var i := 0;
    while i < |blocks|
      invariant i <= |blocks| && AddBlocks(Acc(before, [], ""), role, blocks[..i]) == Some(acc)
    {
      assert blocks[..i + 1][..i] == blocks[..i];
      var next := AppendBlock(acc, role, blocks[i]);
      if next.None? { StaysNone(Acc(before, [], ""), role, blocks, i + 1); return None; }
      acc := next.value;
      i := i + 1;
    }
    assert blocks[..|blocks|] == blocks;
    var done := AddBlocks(Acc([], [], ""), role, blocks);
    FlushAppends(done.value, role, before);
    result := Some(Flush(acc, role).out);
  }

  lemma {:induction false} StaysNone(acc: Acc, role: string, blocks: seq<Block>, i: nat)
    requires i <= |blocks| && AddBlocks(acc, role, blocks[..i]).None?
    ensures AddBlocks(acc, role, blocks).None?
    decreases |blocks| - i
  {
    if i < |blocks| {
      assert blocks[..i + 1][..i] == blocks[..i];
      StaysNone(acc, role, blocks, i + 1);
    } else {
      assert blocks[..i] == blocks;
    }
  }

  method AppendProviderItems(k: Keeping, before: seq<Item>, m: Message) returns (out: seq<Item>)
    ensures out == before + Lead(k, m)
  {
    out := before;
    var items := KeptFor(k, m).items;
    if !k.chat {
      var i := 0;
      while i < |items|
        invariant i <= |items| && out == before + ProviderItems(k.validJSON, items[..i])
      {
        assert items[..i + 1][..i] == items[..i];
        if k.validJSON(items[i]) { out := out + [ProviderItem(items[i])]; }
        i := i + 1;
      }
      assert items[..|items|] == items;
    }
  }

  method MessagesToInput(k: Keeping, messages: seq<Message>) returns (result: Option<seq<Item>>)
    ensures result == ToInput(k, messages)
  {
    var out: seq<Item> := [];
    hide AddBlocks;
    hide Flush;
    hide ProviderItems;
    hide KeptFor;
    var i := 0;
    while i < |messages|
      invariant i <= |messages| && ToInput(k, messages[..i]) == Some(out)
    {
      var m := messages[i];
      assert messages[..i + 1][..i] == messages[..i];
      ghost var before := out;
      out := AppendProviderItems(k, out, m);
      match m.content {
        case Shorthand(text) =>
          if RunsTogether(m.role) {
            out := out + [MessageItem(m.role, Str(text))];
          } else {
            out := out + [MessageItem(m.role, Parts([InputText(text)]))];
          }
        case Blocks(blocks) =>
          var more := AppendBlocks(out, m.role, blocks);
          if more.None? { NeverSome(k, messages, i + 1); return None; }
          out := more.value;
        case _ => NeverSome(k, messages, i + 1); return None;
      }
      assert out == before + Lead(k, m) + Own(m).value;
      out := out + Marker(m.role, KeptFor(k, m), k.chat);
      i := i + 1;
    }
    assert messages[..|messages|] == messages;
    result := Some(out);
  }

  lemma {:induction false} NeverSome(k: Keeping, messages: seq<Message>, i: nat)
    requires i <= |messages| && ToInput(k, messages[..i]).None?
    ensures ToInput(k, messages).None?
    decreases |messages| - i
  {
    if i < |messages| {
      assert messages[..i + 1][..i] == messages[..i];
      NeverSome(k, messages, i + 1);
    } else {
      assert messages[..i] == messages;
    }
  }

  // ---------------------------------------------------------------- conservation

  /** The smallest things said: letters, pictures and files. */
  datatype Bit =
    | Char(c: char)
    | Picture(url: string, detail: string)
    | File(name: string, data: string)

  /** What was said with the role that said it, tool calls, and tool results with
      all that they hold; `encoded` says that a result travels as JSON. */
  datatype Atom =
    | Uttered(role: string, bit: Bit)
    | Called(id: string, name: string, arguments: string)
    | Returned(id: string, encoded: bool, bits: seq<Bit>)

  function Chars(text: string): seq<Bit> {
    seq(|text|, i requires 0 <= i < |text| => Char(text[i]))
  }

  function PartBits(part: Part): seq<Bit> {
    match part
    case InputText(text) => Chars(text)
    case InputImage(url, detail) => [Picture(url, detail)]
    case InputFile(name, data) => [File(name, data)]
  }

  function PartsBits(parts: seq<Part>): seq<Bit> {
    if parts == [] then [] else PartsBits(parts[..|parts| - 1]) + PartBits(parts[|parts| - 1])
  }

  function OutputBits(output: Output): seq<Bit> {
    match output
    case Text(text) => Chars(text)
    case Encoded(parts) => PartsBits(parts)
  }

  function TextAtoms(role: string, text: string): seq<Atom> {
    seq(|text|, i requires 0 <= i < |text| => Uttered(role, Char(text[i])))
  }

  function PartAtoms(role: string, part: Part): seq<Atom> {
    match part
    case InputText(text) => TextAtoms(role, text)
    case InputImage(url, detail) => [Uttered(role, Picture(url, detail))]
    case InputFile(name, data) => [Uttered(role, File(name, data))]
  }

  function PartsAtoms(role: string, parts: seq<Part>): seq<Atom> {
    if parts == [] then [] else PartsAtoms(role, parts[..|parts| - 1]) + PartAtoms(role, parts[|parts| - 1])
  }

  function ItemAtoms(item: Item): seq<Atom> {
    match item
    case MessageItem(role, Str(text)) => TextAtoms(role, text)
    case MessageItem(role, Parts(parts)) => PartsAtoms(role, parts)
    case CallItem(id, name, arguments) => [Called(id, name, if arguments == "" then "{}" else arguments)]
    case OutputItem(id, output) => [Returned(id, output.Encoded?, OutputBits(output))]
    case _ => []
  }

  function ItemsAtoms(items: seq<Item>): seq<Atom> {
    if items == [] then [] else ItemsAtoms(items[..|items| - 1]) + ItemAtoms(items[|items| - 1])
  }

  /** The picture an image source stands for. */
  function ImageBits(source: Source): seq<Bit> {
    match source
    case Base64(mediaType, data) => [Picture("data:" + mediaType + ";base64," + data, "")]
    case Url(url) => [Picture(url, "")]
    case _ => []
  }

  /** What a document says: its text, or the file it stands for, under its title or
      else a name after its type. */
  function DocumentBits(source: Source, title: string): seq<Bit> {
    match source
    case PlainData(data) => Chars(data)
    case Url(url) => [File("", url)]
    case Base64(mediaType, data) =>
      var name := if title != "" then title
                  else match mediaType
                       case "application/pdf" => "document.pdf"
                       case "text/plain" => "document.txt"
                       case _ => "document";
      [File(name, "data:" + mediaType + ";base64," + data)]
    case OtherSource => []
  }

  function NestedBits(blocks: seq<Nested>): seq<Bit> {
    if blocks == [] then []
    else
      NestedBits(blocks[..|blocks| - 1]) +
      match blocks[|blocks| - 1]
      case NestedText(text) => Chars(text)
      case NestedImage(source) => ImageBits(source)
      case NestedDocument(source, title) => DocumentBits(source, title)
      case NestedOther => []
  }

  /** Some nested block is not a text. */
  predicate HoldsMedia(result: ResultContent) {
    result.NestedResult? && exists i | 0 <= i < |result.blocks| :: !result.blocks[i].NestedText?
  }

  function ContentBits(result: ResultContent): seq<Bit> {
    match result
    case NoResult => []
    case PlainResult(text) => Chars(text)
    case BadResult(raw) => Chars(raw)
    case NestedResult(blocks) => NestedBits(blocks)
  }

  /** What a tool result says: that the tool failed, if it did, and then everything
      in it. */
  function ResultBits(isError: bool, result: ResultContent): seq<Bit> {
    (if isError then Chars("[Tool execution failed]") + (if HoldsMedia(result) then [] else [Char(' ')]) else []) + ContentBits(result)
  }

  function Utter(role: string, bits: seq<Bit>): seq<Atom> {
    seq(|bits|, i requires 0 <= i < |bits| => Uttered(role, bits[i]))
  }

  /** What a block says, read off its own fields; thinking is not carried over. */
  function BlockAtoms(role: string, b: Block): seq<Atom> {
    match b
    case TextBlockIn(text) => TextAtoms(role, text)
    case Image(source) => Utter(role, ImageBits(source))
    case Document(source, title) => Utter(role, DocumentBits(source, title))
    case ToolUseIn(id, name, input) => [Called(id, name, if input == "" || input == "null" then "{}" else input)]
    case ToolResult(id, isError, result) => [Returned(id, HoldsMedia(result), ResultBits(isError, result))]
    case _ => []
  }

  function BlocksAtoms(role: string, blocks: seq<Block>): seq<Atom> {
    if blocks == [] then [] else BlocksAtoms(role, blocks[..|blocks| - 1]) + BlockAtoms(role, blocks[|blocks| - 1])
  }

  function MessageAtoms(m: Message): seq<Atom> {
    match m.content
    case Shorthand(text) => TextAtoms(m.role, text)
    case Blocks(blocks) => BlocksAtoms(m.role, blocks)
    case _ => []
  }

  function ConversationAtoms(messages: seq<Message>): seq<Atom> {
    if messages == [] then [] else ConversationAtoms(messages[..|messages| - 1]) + MessageAtoms(messages[|messages| - 1])
  }

  lemma TextConcat(role: string, a: string, b: string)
    ensures TextAtoms(role, a + b) == TextAtoms(role, a) + TextAtoms(role, b)
  {
  }

  lemma PartsAppend(role: string, parts: seq<Part>, part: Part)
    ensures PartsAtoms(role, parts + [part]) == PartsAtoms(role, parts) + PartAtoms(role, part)
  {
    assert (parts + [part])[..|parts|] == parts;
  }

  lemma ItemsAppend(items: seq<Item>, item: Item)
    ensures ItemsAtoms(items + [item]) == ItemsAtoms(items) + ItemAtoms(item)
  {
    assert (items + [item])[..|items|] == items;
  }

  lemma {:induction false} ItemsConcat(a: seq<Item>, b: seq<Item>)
    ensures ItemsAtoms(a + b) == ItemsAtoms(a) + ItemsAtoms(b)
  {
    if b == [] {
      assert a + b == a;
    } else {
      var n := |b| - 1;
      ItemsConcat(a, b[..n]);
      LastSplit(a, b);
      ItemsAppend(a + b[..n], b[n]);
      hide ItemAtoms;
      Regroup(ItemsAtoms(a), ItemsAtoms(b[..n]), ItemAtoms(b[n]));
    }
  }

  lemma LastSplit(a: seq<Item>, b: seq<Item>)
    requires b != []
    ensures a + b == a + b[..|b| - 1] + [b[|b| - 1]]
  {
  }

  lemma Regroup(a: seq<Atom>, b: seq<Atom>, c: seq<Atom>)
    ensures a + b + c == a + (b + c)
  {
  }

  /** What an accumulator will have said once flushed. */
  function Pending(acc: Acc, role: string): seq<Atom> {
    if RunsTogether(role) then TextAtoms(role, acc.text) else PartsAtoms(role, acc.content)
  }

  ghost predicate Tidy(acc: Acc, role: string) {
    if RunsTogether(role) then acc.content == [] else acc.text == ""
  }

  lemma FlushSays(acc: Acc, role: string)
    requires Tidy(acc, role)
    ensures Tidy(Flush(acc, role), role) && Pending(Flush(acc, role), role) == []
    ensures ItemsAtoms(Flush(acc, role).out) == ItemsAtoms(acc.out) + Pending(acc, role)
  {
    if RunsTogether(role) {
      ItemsAppend(acc.out, MessageItem(role, Str(acc.text)));
    } else {
      ItemsAppend(acc.out, MessageItem(role, Parts(acc.content)));
    }
  }

  lemma CollectSays(acc: Acc, role: string, part: Part)
    requires !RunsTogether(role)
    ensures ItemsAtoms(acc.out) + Pending(acc.(content := acc.content + [part]), role) ==
            ItemsAtoms(acc.out) + Pending(acc, role) + PartAtoms(role, part)
  {
    PartsAppend(role, acc.content, part);
  }

  lemma EmitSays(acc: Acc, role: string, item: Item)
    requires Tidy(acc, role)
    ensures var flushed := Flush(acc, role);
            var done := flushed.(out := flushed.out + [item]);
            Tidy(done, role) && ItemsAtoms(done.out) + Pending(done, role) == ItemsAtoms(acc.out) + Pending(acc, role) + ItemAtoms(item)
  {
    FlushSays(acc, role);
    ItemsAppend(Flush(acc, role).out, item);
  }

  lemma TextSays(acc: Acc, role: string, text: string)
    requires Tidy(acc, role)
    ensures var next := AddBlock(acc, role, TextBlockIn(text)).value;
            Tidy(next, role) && ItemsAtoms(next.out) + Pending(next, role) == ItemsAtoms(acc.out) + Pending(acc, role) + TextAtoms(role, text)
  {
    if RunsTogether(role) {
      TextConcat(role, acc.text, text);
      Regroup(ItemsAtoms(acc.out), TextAtoms(role, acc.text), TextAtoms(role, text));
    } else {
      CollectSays(acc, role, InputText(text));
    }
    hide ItemsAtoms;
    hide TextAtoms;
    hide PartsAtoms;
  }

  lemma CharsConcat(a: string, b: string)
    ensures Chars(a + b) == Chars(a) + Chars(b)
  {
  }

  lemma PartsBitsAppend(parts: seq<Part>, part: Part)
    ensures PartsBits(parts + [part]) == PartsBits(parts) + PartBits(part)
  {
    assert (parts + [part])[..|parts|] == parts;
  }

  lemma BitsRegroup(a: seq<Bit>, b: seq<Bit>, c: seq<Bit>)
    ensures a + b + c == a + (b + c)
  {
  }

  lemma PartsSplit(a: seq<Part>, b: seq<Part>)
    requires b != []
    ensures a + b == a + b[..|b| - 1] + [b[|b| - 1]]
  {
  }

  lemma {:induction false} PartsBitsConcat(a: seq<Part>, b: seq<Part>)
    ensures PartsBits(a + b) == PartsBits(a) + PartsBits(b)
  {
    if b == [] {
      assert a + b == a;
    } else {
      hide PartBits;
      var n := |b| - 1;
      PartsBitsConcat(a, b[..n]);
      PartsSplit(a, b);
      PartsBitsAppend(a + b[..n], b[n]);
      BitsRegroup(PartsBits(a), PartsBits(b[..n]), PartBits(b[n]));
    }
  }

  lemma ImageSays(source: Source)
    requires ImagePart(source).Some?
    ensures PartBits(ImagePart(source).value) == ImageBits(source)
  {
  }

  lemma DocumentSays(source: Source, title: string)
    requires DocumentPart(source, title).Some?
    ensures PartBits(DocumentPart(source, title).value) == DocumentBits(source, title)
  {
  }

  lemma PartUtters(role: string, part: Part)
    ensures PartAtoms(role, part) == Utter(role, PartBits(part))
  {
  }

  lemma {:induction false} NestedTextsSay(blocks: seq<Nested>)
    requires AllText(blocks)
    ensures Chars(NestedTexts(blocks)) == NestedBits(blocks)
  {
    if blocks != [] {
      var n := |blocks| - 1;
      NestedTextsSay(blocks[..n]);
      CharsConcat(NestedTexts(blocks[..n]), blocks[n].text);
    }
  }

  lemma {:induction false} NestedPartsSay(blocks: seq<Nested>)
    requires NestedParts(blocks).Some?
    ensures PartsBits(NestedParts(blocks).value) == NestedBits(blocks)
  {
    if blocks != [] {
      var n := |blocks| - 1;
      NestedPartsSay(blocks[..n]);
      PartsBitsAppend(NestedParts(blocks[..n]).value, NestedPart(blocks[n]).value);
      match blocks[n] {
        case NestedImage(source) => ImageSays(source);
        case NestedDocument(source, title) => DocumentSays(source, title);
        case _ =>
      }
      hide PartBits, ImagePart, DocumentPart, ImageBits, DocumentBits;
    }
  }

  lemma PlainSays(isError: bool, result: ResultContent, text: string)
    requires !HoldsMedia(result) && Chars(text) == ContentBits(result)
    ensures Chars((if isError then FAILED + " " else "") + text) == ResultBits(isError, result)
  {
    hide ContentBits;
    CharsConcat(FAILED + " ", text);
    CharsConcat(FAILED, " ");
    assert "" + text == text;
    assert Chars(" ") == [Char(' ')];
  }

  /** The text of a result that holds nothing else. */
  function PlainText(result: ResultContent): string {
    match result
    case NoResult => ""
    case PlainResult(text) => text
    case BadResult(raw) => raw
    case NestedResult(blocks) => NestedTexts(blocks)
  }

  lemma PlainOutput(isError: bool, result: ResultContent)
    requires !HoldsMedia(result)
    ensures ResultOutput(isError, result) == Some(Text((if isError then FAILED + " " else "") + PlainText(result)))
  {
    hide NestedParts, NestedTexts;
    assert FAILED + " " + "" == FAILED + " " && "" + "" == "";
  }

  /** A tool's output holds exactly what its result says, and travels as JSON only
      if there is something other than text in it. */
  lemma ResultSays(isError: bool, result: ResultContent)
    requires ResultOutput(isError, result).Some?
    ensures var output := ResultOutput(isError, result).value;
            output.Encoded? == HoldsMedia(result) && OutputBits(output) == ResultBits(isError, result)
  {
    hide NestedParts, NestedTexts, NestedBits, PartsBits;
    if HoldsMedia(result) {
      NestedPartsSay(result.blocks);
      var parts := NestedParts(result.blocks).value;
      PartsBitsConcat([InputText(FAILED)], parts);
      OnePart(InputText(FAILED));
      assert [] + parts == parts;
    } else {
      if result.NestedResult? { NestedTextsSay(result.blocks); }
      PlainOutput(isError, result);
      PlainSays(isError, result, PlainText(result));
      hide ResultOutput, ResultBits;
    }
  }

  lemma OnePart(part: Part)
    ensures PartsBits([part]) == PartBits(part)
  {
    assert [part][..0] == [];
  }

  /** One allowed block adds exactly what it says. */
  lemma BlockSays(isObject: string -> bool, acc: Acc, role: string, b: Block)
    requires RoleAllowed(role) && BlockAllowed(isObject, role, b) && Tidy(acc, role) && AddBlock(acc, role, b).Some?
    ensures var next := AddBlock(acc, role, b).value;
            Tidy(next, role) && ItemsAtoms(next.out) + Pending(next, role) == ItemsAtoms(acc.out) + Pending(acc, role) + BlockAtoms(role, b)
  {
    hide ItemsAtoms, TextAtoms, PartsAtoms, Pending, ImagePart, DocumentPart, ImageBits, DocumentBits, PartBits, Utter, PartAtoms;
    hide ResultOutput, ResultBits, OutputBits, HoldsMedia, Arguments;
    match b
    case TextBlockIn(text) => TextSays(acc, role, text);
    case Image(source) =>
      CollectSays(acc, role, ImagePart(source).value);
      ImageSays(source);
      PartUtters(role, ImagePart(source).value);
    case Document(source, title) =>
      CollectSays(acc, role, DocumentPart(source, title).value);
      DocumentSays(source, title);
      PartUtters(role, DocumentPart(source, title).value);
    case ToolUseIn(id, name, input) => UseSays(acc, role, id, name, input);
    case ToolResult(id, isError, result) =>
      EmitSays(acc, role, OutputItem(id, ResultOutput(isError, result).value));
      ResultSays(isError, result);
    case Thinking => assert ItemsAtoms(acc.out) + Pending(acc, role) + [] == ItemsAtoms(acc.out) + Pending(acc, role);
  }

  lemma UseSays(acc: Acc, role: string, id: string, name: string, input: string)
    requires Tidy(acc, role)
    ensures var next := AddBlock(acc, role, ToolUseIn(id, name, input)).value;
            Tidy(next, role) && ItemsAtoms(next.out) + Pending(next, role) ==
              ItemsAtoms(acc.out) + Pending(acc, role) + [Called(id, name, if input == "" || input == "null" then "{}" else input)]
  {
    EmitSays(acc, role, CallItem(id, name, Arguments(input)));
    hide ItemsAtoms;
    hide Pending;
  }

  lemma {:induction false} BlocksSay(isObject: string -> bool, role: string, blocks: seq<Block>)
    requires RoleAllowed(role) && forall i | 0 <= i < |blocks| :: BlockAllowed(isObject, role, blocks[i])
    requires AddBlocks(Acc([], [], ""), role, blocks).Some?
    ensures var acc := AddBlocks(Acc([], [], ""), role, blocks).value;
            Tidy(acc, role) && ItemsAtoms(acc.out) + Pending(acc, role) == BlocksAtoms(role, blocks)
  {
    if blocks != [] {
      var n := |blocks| - 1;
      BlocksSay(isObject, role, blocks[..n]);
      BlockSays(isObject, AddBlocks(Acc([], [], ""), role, blocks[..n]).value, role, blocks[n]);
    } else {
      assert TextAtoms(role, "") == [];
    }
  }

  lemma OwnSays(isObject: string -> bool, m: Message)
    requires MessageAllowed(isObject, m) && Own(m).Some?
    ensures ItemsAtoms(Own(m).value) == MessageAtoms(m)
  {
    match m.content
    case Shorthand(text) =>
      ItemsAppend([], Own(m).value[0]);
      PartsAppend(m.role, [], InputText(text));
      assert [] + Own(m).value == Own(m).value && [] + [InputText(text)] == [InputText(text)];
    case Blocks(blocks) =>
      BlocksSay(isObject, m.role, blocks);
      FlushSays(AddBlocks(Acc([], [], ""), m.role, blocks).value, m.role);
    case _ =>
  }

  lemma {:induction false} ProviderSilent(validJSON: string -> bool, items: seq<string>)
    ensures ItemsAtoms(ProviderItems(validJSON, items)) == []
  {
    if items != [] {
      var n := |items| - 1;
      ProviderSilent(validJSON, items[..n]);
      var front := ProviderItems(validJSON, items[..n]);
      ItemsAppend(front, ProviderItem(items[n]));
      assert front + [] == front;
      assert ItemsAtoms(front) + ItemAtoms(ProviderItem(items[n])) == [];
      hide ItemsAtoms;
      hide ItemAtoms;
    }
  }

  /** For an accepted conversation that can be translated, the items say exactly
      what the messages say, letter by letter and in order: no image, document,
      call or result is lost, moved or made up. */
  lemma {:induction false} InputConserves(isObject: string -> bool, k: Keeping, messages: seq<Message>)
    requires forall i :: 0 <= i < |messages| ==> MessageAllowed(isObject, messages[i])
    requires ToInput(k, messages).Some?
    ensures ItemsAtoms(ToInput(k, messages).value) == ConversationAtoms(messages)
  {
    if messages != [] {
      var n := |messages| - 1;
      var m := messages[n];
      var front := ToInput(k, messages[..n]).value;
      InputConserves(isObject, k, messages[..n]);
      OwnSays(isObject, m);
      ProviderSilent(k.validJSON, KeptFor(k, m).items);
      Surrounded(front, Lead(k, m), Own(m).value, Marker(m.role, KeptFor(k, m), k.chat));
    }
  }

  lemma Surrounded(front: seq<Item>, lead: seq<Item>, own: seq<Item>, marker: seq<Item>)
    requires ItemsAtoms(lead) == [] && (marker == [] || (|marker| == 1 && marker[0].ReasoningMarker?))
    ensures ItemsAtoms(front + lead + own + marker) == ItemsAtoms(front) + ItemsAtoms(own)
  {
    ItemsConcat(front + lead + own, marker);
    ItemsConcat(front + lead, own);
    ItemsConcat(front, lead);
    if marker != [] {
      assert marker == [] + [marker[0]];
      ItemsAppend([], marker[0]);
    }
    assert ItemsAtoms(marker) == [];
    assert ItemsAtoms(front) + [] == ItemsAtoms(front);
    assert ItemsAtoms(front) + ItemsAtoms(own) + [] == ItemsAtoms(front) + ItemsAtoms(own);
    hide ItemsAtoms;
  }

  // ------------------------------------------------------------ what is translated

  /** A picture needs a type and its bytes, or an address; a document may also be
      plain text that is not empty. */
  predicate ImageUsable(source: Source) {
    match source
    case Base64(mediaType, data) => mediaType != "" && data != ""
    case Url(url) => url != ""
    case _ => false
  }

  predicate DocumentUsable(source: Source) {
    match source
    case Base64(mediaType, data) => mediaType != "" && data != ""
    case Url(url) => url != ""
    case PlainData(data) => data != ""
    case OtherSource => false
  }

  predicate NestedUsable(b: Nested) {
    match b
    case NestedText(_) => true
    case NestedImage(source) => ImageUsable(source)
    case NestedDocument(source, _) => DocumentUsable(source)
    case NestedOther => false
  }

  predicate BlockUsable(b: Block) {
    match b
    case Image(source) => ImageUsable(source)
    case Document(source, _) => DocumentUsable(source)
    case ToolResult(_, _, NestedResult(blocks)) => forall i | 0 <= i < |blocks| :: NestedUsable(blocks[i])
    case _ => true
  }

  predicate MessageUsable(m: Message) {
    m.content.Blocks? ==> forall i | 0 <= i < |m.content.blocks| :: BlockUsable(m.content.blocks[i])
  }

  lemma NestedTranslates(b: Nested)
    ensures NestedPart(b).Some? <==> NestedUsable(b)
  {
  }

  lemma {:induction false} NestedsTranslate(blocks: seq<Nested>)
    ensures NestedParts(blocks).Some? <==> forall i :: 0 <= i < |blocks| ==> NestedUsable(blocks[i])
  {
    if blocks != [] {
      hide NestedUsable, NestedPart;
      var n := |blocks| - 1;
      NestedsTranslate(blocks[..n]);
      NestedTranslates(blocks[n]);
      assert forall i :: 0 <= i < n ==> blocks[..n][i] == blocks[i];
    }
  }

  lemma ResultTranslates(id: string, isError: bool, result: ResultContent)
    ensures ResultOutput(isError, result).Some? <==> BlockUsable(ToolResult(id, isError, result))
  {
    if result.NestedResult? {
      NestedsTranslate(result.blocks);
      if AllText(result.blocks) {
        forall i | 0 <= i < |result.blocks| ensures NestedUsable(result.blocks[i]) {
          assert result.blocks[i].NestedText?;
        }
      }
    }
    hide NestedParts, NestedTexts, NestedUsable;
  }

  lemma BlockTranslates(acc: Acc, role: string, b: Block)
    ensures AddBlock(acc, role, b).Some? <==> BlockUsable(b)
  {
    if b.ToolResult? { ResultTranslates(b.toolUseID, b.isError, b.result); }
    hide ResultOutput, Flush, NestedUsable;
  }

  lemma {:induction false} BlocksTranslate(acc: Acc, role: string, blocks: seq<Block>)
    ensures AddBlocks(acc, role, blocks).Some? <==> forall i :: 0 <= i < |blocks| ==> BlockUsable(blocks[i])
  {
    if blocks != [] {
      hide BlockUsable, AddBlock;
      var n := |blocks| - 1;
      BlocksTranslate(acc, role, blocks[..n]);
      assert forall i :: 0 <= i < n ==> blocks[..n][i] == blocks[i];
      var front := AddBlocks(acc, role, blocks[..n]);
      if front.Some? { BlockTranslates(front.value, role, blocks[n]); }
    }
  }

  /** An accepted conversation is translated exactly if every picture and document
      in it, nested ones included, has a source that can be used. */
  lemma {:induction false} Translates(isObject: string -> bool, k: Keeping, messages: seq<Message>)
    requires forall i :: 0 <= i < |messages| ==> MessageAllowed(isObject, messages[i])
    ensures ToInput(k, messages).Some? <==> forall i :: 0 <= i < |messages| ==> MessageUsable(messages[i])
  {
    if messages != [] {
      hide MessageUsable, Own, Lead, Marker, KeptFor;
      var n := |messages| - 1;
      Translates(isObject, k, messages[..n]);
      assert forall i :: 0 <= i < n ==> messages[..n][i] == messages[i];
      MessageTranslates(isObject, messages[n]);
    }
  }

  lemma MessageTranslates(isObject: string -> bool, m: Message)
    requires MessageAllowed(isObject, m)
    ensures Own(m).Some? <==> MessageUsable(m)
  {
    if m.content.Blocks? { BlocksTranslate(Acc([], [], ""), m.role, m.content.blocks); }
  }

  // ---------------------------------------------------------- how it is laid out

  /** The message items of one message have its role, and content as that role has
      it: text by itself for assistant and system, parts for the user. */
  ghost predicate Shaped(role: string, out: seq<Item>) {
    forall i :: 0 <= i < |out| ==>
      && !out[i].ReasoningMarker? && !out[i].ProviderItem?
      && (out[i].MessageItem? ==>
            && out[i].role == role
            && (if role == "assistant" || role == "system" then out[i].content.Str? else out[i].content.Parts? && out[i].content.parts != []))
  }

  lemma FlushShaped(acc: Acc, role: string)
    requires Shaped(role, acc.out)
    ensures Shaped(role, Flush(acc, role).out)
  {
  }

  lemma {:induction false} BlocksShaped(role: string, blocks: seq<Block>)
    requires AddBlocks(Acc([], [], ""), role, blocks).Some?
    ensures Shaped(role, AddBlocks(Acc([], [], ""), role, blocks).value.out)
  {
    if blocks != [] {
      var n := |blocks| - 1;
      BlocksShaped(role, blocks[..n]);
      FlushShaped(AddBlocks(Acc([], [], ""), role, blocks[..n]).value, role);
      hide ResultOutput, ImagePart, DocumentPart, Flush;
    }
  }

  lemma OwnShaped(m: Message)
    requires Own(m).Some?
    ensures Shaped(m.role, Own(m).value)
  {
    if m.content.Blocks? {
      BlocksShaped(m.role, m.content.blocks);
      FlushShaped(AddBlocks(Acc([], [], ""), m.role, m.content.blocks).value, m.role);
      hide AddBlocks, Flush;
    }
  }

  /** The reasoning items kept for a message that are JSON, in their order. */
  ghost predicate KeptItems(validJSON: string -> bool, items: seq<string>, lead: seq<Item>, at: seq<nat>) {
    && |at| == |lead|
    && (forall i :: 0 <= i < |at| ==> at[i] < |items| && validJSON(items[at[i]]) && lead[i] == ProviderItem(items[at[i]]))
    && (forall i, j :: 0 <= i < j < |at| ==> at[i] < at[j])
    && (forall n: nat :: n < |items| && validJSON(items[n]) ==> n in at)
  }

  lemma KeptNext(validJSON: string -> bool, items: seq<string>, last: string, lead: seq<Item>, at: seq<nat>)
    requires KeptItems(validJSON, items, lead, at)
    ensures validJSON(last) ==> KeptItems(validJSON, items + [last], lead + [ProviderItem(last)], at + [|items|])
    ensures !validJSON(last) ==> KeptItems(validJSON, items + [last], lead, at)
  {
    var all := items + [last];
    assert forall n :: 0 <= n < |items| ==> all[n] == items[n];
    assert all[|items|] == last;
    if validJSON(last) {
      var more := at + [|items|];
      forall n: nat | n < |all| && validJSON(all[n]) ensures n in more {
        if n < |items| {
          assert n in at;
        } else {
          assert more[|at|] == n;
        }
      }
    }
  }

  lemma {:induction false} ItemsKeptAt(validJSON: string -> bool, items: seq<string>) returns (at: seq<nat>)
    ensures KeptItems(validJSON, items, ProviderItems(validJSON, items), at)
  {
    if items == [] {
      at := [];
    } else {
      hide KeptItems;
      var n := |items| - 1;
      var front := ItemsKeptAt(validJSON, items[..n]);
      KeptNext(validJSON, items[..n], items[n], ProviderItems(validJSON, items[..n]), front);
      assert items[..n] + [items[n]] == items;
      at := if validJSON(items[n]) then front + [n] else front;
    }
  }

  /** One more message adds, in this order: for an assistant on a Responses provider
      the kept items that are JSON, each once and in order; what the message itself
      says; and for an assistant on a chat provider the kept reasoning, if any. */
  lemma TurnLaid(isObject: string -> bool, k: Keeping, front: seq<Message>, m: Message) returns (lead: seq<Item>, own: seq<Item>, mark: seq<Item>, at: seq<nat>)
    requires MessageAllowed(isObject, m) && ToInput(k, front + [m]).Some?
    ensures ToInput(k, front).Some? && ToInput(k, front + [m]).value == ToInput(k, front).value + lead + own + mark
    ensures if m.role == "assistant" && !k.chat then KeptItems(k.validJSON, k.kept(m.content).items, lead, at) else lead == []
    ensures ItemsAtoms(own) == MessageAtoms(m) && Shaped(m.role, own)
    ensures mark == if m.role == "assistant" && k.chat && k.kept(m.content).chat != "" then [ReasoningMarker(k.kept(m.content).chat)] else []
  {
    assert (front + [m])[..|front|] == front;
    lead, own, mark, at := Lead(k, m), Own(m).value, Marker(m.role, KeptFor(k, m), k.chat), [];
    OwnSays(isObject, m);
    OwnShaped(m);
    if m.role == "assistant" && !k.chat { at := ItemsKeptAt(k.validJSON, k.kept(m.content).items); }
    assert ProviderItems(k.validJSON, []) == [];
    hide Own, ProviderItems, ItemsAtoms, MessageAtoms, Shaped, MessageAllowed, KeptItems;
  }
}
