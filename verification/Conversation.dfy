/** Anthropic messages, what validation demands of them, and their translation to
    Responses input items. */
module Conversation {
  import opened Optional

  // ---------------------------------------------------------------- the request

  datatype Source =
    | Base64(mediaType: string, data: string)
    | Url(url: string)
    | PlainData(data: string)
    | OtherSource

  datatype Nested =
    | NestedText(text: string)
    | NestedImage(source: Source)
    | NestedDocument(source: Source, title: string)
    | NestedOther

  datatype ResultContent =
    | NoResult
    | PlainResult(text: string)
    | NestedResult(blocks: seq<Nested>)
    | BadResult(raw: string)

  datatype Block =
    | TextBlockIn(text: string)
    | Image(source: Source)
    | Document(source: Source, title: string)
    | ToolUseIn(id: string, name: string, input: string)
    | ToolResult(toolUseID: string, isError: bool, result: ResultContent)
    | Thinking
    | UnknownBlock

  datatype Content =
    | Missing
    | Shorthand(text: string)
    | Blocks(blocks: seq<Block>)
    | Garbled

  /** `configured` says that the message brings an output_config of its own. */
  datatype Message = Message(role: string, content: Content, configured: bool)

  /** The system prompt: a block that is not text is `None`. */
  datatype System = NoSystem | SystemText(text: string) | SystemBlocks(texts: seq<Option<string>>) | GarbledSystem

  // ------------------------------------------------------------- Responses items

  datatype Part =
    | InputText(text: string)
    | InputImage(url: string, detail: string)
    | InputFile(name: string, data: string)

  datatype ItemContent = Absent | Str(text: string) | Parts(parts: seq<Part>)

  /** Output of a tool: a plain text, or parts that travel as their JSON text. */
  datatype Output = Text(text: string) | Encoded(parts: seq<Part>)

  datatype Item =
    | MessageItem(role: string, content: ItemContent)
    | CallItem(callID: string, name: string, arguments: string)
    | OutputItem(callID: string, output: Output)
    | ReasoningMarker(reasoning: string)
    | ProviderItem(raw: string)

  // ----------------------------------------------------------------- validation

  predicate NestedAllowed(result: ResultContent) {
    match result
    case BadResult(_) => false
    case NestedResult(blocks) => forall i | 0 <= i < |blocks| :: !blocks[i].NestedOther?
    case _ => true
  }

  /** What a block must satisfy by itself: its role, and for tools their fields. */
  predicate BlockAllowed(isObject: string -> bool, role: string, b: Block) {
    match b
    case UnknownBlock => false
    case ToolUseIn(id, name, input) => role == "assistant" && id != "" && name != "" && isObject(input)
    case Thinking => role == "assistant"
    case ToolResult(id, _, result) => role == "user" && id != "" && NestedAllowed(result)
    case Image(_) => role == "user"
    case Document(_, _) => role == "user"
    case TextBlockIn(_) => true
  }

  predicate RoleAllowed(role: string) {
    role == "user" || role == "assistant" || role == "system"
  }

  predicate MessageAllowed(isObject: string -> bool, m: Message) {
    && !m.configured && RoleAllowed(m.role)
    && !m.content.Missing? && !m.content.Garbled?
    && (m.content.Blocks? ==> forall i | 0 <= i < |m.content.blocks| :: BlockAllowed(isObject, m.role, m.content.blocks[i]))
  }

  predicate SystemAllowed(system: System) {
    match system
    case SystemBlocks(texts) => forall i | 0 <= i < |texts| :: texts[i].Some? && texts[i].value != ""
    case GarbledSystem => false
    case _ => true
  }

  /** The uses and results of tools in a conversation, in order. */
  datatype Mark = Used(id: string) | Resulted(id: string)

  function BlockMarks(b: Block): seq<Mark> {
    match b
    case ToolUseIn(id, _, _) => [Used(id)]
    case ToolResult(id, _, _) => [Resulted(id)]
    case _ => []
  }

  function BlocksMarks(blocks: seq<Block>): seq<Mark> {
    if blocks == [] then [] else BlocksMarks(blocks[..|blocks| - 1]) + BlockMarks(blocks[|blocks| - 1])
  }

  function MessageMarks(m: Message): seq<Mark> {
    if m.content.Blocks? then BlocksMarks(m.content.blocks) else []
  }

  function Marks(messages: seq<Message>): seq<Mark> {
    if messages == [] then [] else Marks(messages[..|messages| - 1]) + MessageMarks(messages[|messages| - 1])
  }

  /** Every id is used once, and every result follows the use it names, once. */
  ghost predicate Paired(marks: seq<Mark>) {
    && (forall i, j :: 0 <= i < j < |marks| ==> marks[i] != marks[j])
    && (forall j :: 0 <= j < |marks| && marks[j].Resulted? ==> Used(marks[j].id) in marks[..j])
  }

  ghost predicate Remembers(marks: seq<Mark>, uses: set<string>, results: set<string>) {
    && (forall id: string :: id in uses <==> Used(id) in marks)
    && (forall id: string :: id in results <==> Resulted(id) in marks)
  }

  lemma PairedAppend(marks: seq<Mark>, last: Mark)
    ensures Paired(marks + [last]) <==>
            Paired(marks) && last !in marks && (last.Resulted? ==> Used(last.id) in marks)
  {
    var all := marks + [last];
    if Paired(all) {
      forall i, j | 0 <= i < j < |marks| ensures marks[i] != marks[j] {
        assert all[i] != all[j];
      }
      forall j | 0 <= j < |marks| && marks[j].Resulted? ensures Used(marks[j].id) in marks[..j] {
        assert all[..j] == marks[..j] && all[j] == marks[j];
      }
      forall i | 0 <= i < |marks| ensures marks[i] != last {
        assert all[i] != all[|marks|];
      }
      assert all[..|marks|] == marks && all[|marks|] == last;
    }
    if Paired(marks) && last !in marks && (last.Resulted? ==> Used(last.id) in marks) {
      forall j | 0 <= j < |all| && all[j].Resulted? ensures Used(all[j].id) in all[..j] {
        assert j < |marks| ==> all[..j] == marks[..j] && all[j] == marks[j];
        assert all[..|marks|] == marks;
      }
    }
  }

  lemma {:induction false} PairedPrefix(marks: seq<Mark>, more: seq<Mark>)
    requires Paired(marks + more)
    ensures Paired(marks)
  {
    if more == [] {
      assert marks + more == marks;
    } else {
      var n := |more| - 1;
      assert marks + more == marks + more[..n] + [more[n]];
      PairedAppend(marks + more[..n], more[n]);
      PairedPrefix(marks, more[..n]);
    }
  }

  /** One block against the ids seen so far. */
  method ValidateBlock(isObject: string -> bool, role: string, b: Block, toolUses: set<string>, toolResults: set<string>, ghost seen: seq<Mark>)
    returns (ok: bool, uses: set<string>, results: set<string>)
    requires Remembers(seen, toolUses, toolResults) && Paired(seen)
    ensures ok <==> BlockAllowed(isObject, role, b) && Paired(seen + BlockMarks(b))
    ensures ok ==> Remembers(seen + BlockMarks(b), uses, results)
  {
    uses, results := toolUses, toolResults;
    assert seen + [] == seen;
    if b.UnknownBlock? { return false, uses, results; }
    if (b.ToolUseIn? || b.Thinking?) && role != "assistant" { return false, uses, results; }
    if (b.ToolResult? || b.Image? || b.Document?) && role != "user" { return false, uses, results; }
    match b {
      case ToolUseIn(id, name, input) =>
        PairedAppend(seen, Used(id));
        if id == "" || name == "" || !isObject(input) || id in uses { return false, uses, results; }
        uses := uses + {id};
      case ToolResult(id, _, result) =>
        PairedAppend(seen, Resulted(id));
        if id == "" || id !in uses || id in results { return false, uses, results; }
        results := results + {id};
        var nested := ValidateToolResultContent(result);
        if !nested { return false, uses, results; }
      case _ =>
    }
    ok := true;
  }

  method ValidateToolResultContent(result: ResultContent) returns (ok: bool)
    ensures ok == NestedAllowed(result)
  {
    match result
    case BadResult(_) => return false;
    case NestedResult(blocks) =>
      for i := 0 to |blocks|
        invariant forall j | 0 <= j < i :: !blocks[j].NestedOther?
      {
        if blocks[i].NestedOther? { return false; }
      }
      return true;
    case _ => return true;
  }

  method ValidateSystem(system: System) returns (ok: bool)
    ensures ok == SystemAllowed(system)
  {
    match system
    case SystemBlocks(texts) =>
      for i := 0 to |texts|
        invariant forall j | 0 <= j < i :: texts[j].Some? && texts[j].value != ""
      {
        if texts[i].None? || texts[i].value == "" { return false; }
      }
      return true;
    case GarbledSystem => return false;
    case _ => return true;
  }

  /** The request is accepted exactly if every message and block is allowed by
      itself, uses and results are paired across the conversation, and the system
      prompt is text. */
  method ValidateBlocks(isObject: string -> bool, messages: seq<Message>, system: System) returns (ok: bool)
    ensures ok <==> (forall i :: 0 <= i < |messages| ==> MessageAllowed(isObject, messages[i])) && Paired(Marks(messages)) && SystemAllowed(system)
  {
    var toolUses: set<string>, toolResults: set<string> := {}, {};
    var i := 0;
    while i < |messages|
      invariant i <= |messages| && forall j :: 0 <= j < i ==> MessageAllowed(isObject, messages[j])
      invariant Paired(Marks(messages[..i])) && Remembers(Marks(messages[..i]), toolUses, toolResults)
    {
      var m := messages[i];
      MarksNext(messages, i);
      if m.configured || !RoleAllowed(m.role) || m.content.Missing? || m.content.Garbled? { return false; }
      if m.content.Shorthand? {
        assert Marks(messages[..i]) + [] == Marks(messages[..i]);
      } else {
        var fine;
        fine, toolUses, toolResults := ValidateMessage(isObject, m, toolUses, toolResults, Marks(messages[..i]));
        if !fine {
          MessageFails(messages, i);
          return false;
        }
      }
      i := i + 1;
    }
    assert messages[..|messages|] == messages;
    ok := ValidateSystem(system);
  }

  method ValidateMessage(isObject: string -> bool, m: Message, toolUses: set<string>, toolResults: set<string>, ghost seen: seq<Mark>)
    returns (ok: bool, uses: set<string>, results: set<string>)
    requires m.content.Blocks? && !m.configured && RoleAllowed(m.role) && Remembers(seen, toolUses, toolResults) && Paired(seen)
    ensures ok <==> MessageAllowed(isObject, m) && Paired(seen + MessageMarks(m))
    ensures ok ==> Remembers(seen + MessageMarks(m), uses, results)
  {
    uses, results := toolUses, toolResults;
    AfterEnds(seen, m.content.blocks);
    var j := 0;
    while j < |m.content.blocks|
      invariant j <= |m.content.blocks| && AllowedUpTo(isObject, m, j)
      invariant Paired(After(seen, m.content.blocks, j)) && Remembers(After(seen, m.content.blocks, j), uses, results)
    {
      AfterNext(seen, m.content.blocks, j);
      AllowedNext(isObject, m, j);
      ok, uses, results := ValidateBlock(isObject, m.role, m.content.blocks[j], uses, results, After(seen, m.content.blocks, j));
      if !ok {
        MessageRejected(isObject, m, seen, j);
        return;
      }
      j := j + 1;
    }
    AllAllowed(isObject, m, seen);
    ok := true;
  }

  predicate AllowedUpTo(isObject: string -> bool, m: Message, j: nat)
    requires m.content.Blocks? && j <= |m.content.blocks|
  {
    forall k | 0 <= k < j :: BlockAllowed(isObject, m.role, m.content.blocks[k])
  }

  lemma AllowedNext(isObject: string -> bool, m: Message, j: nat)
    requires m.content.Blocks? && j < |m.content.blocks|
    ensures AllowedUpTo(isObject, m, j + 1) <==> AllowedUpTo(isObject, m, j) && BlockAllowed(isObject, m.role, m.content.blocks[j])
  {
  }

  lemma AllAllowed(isObject: string -> bool, m: Message, seen: seq<Mark>)
    requires m.content.Blocks? && !m.configured && RoleAllowed(m.role) && AllowedUpTo(isObject, m, |m.content.blocks|)
    ensures MessageAllowed(isObject, m) && After(seen, m.content.blocks, |m.content.blocks|) == seen + MessageMarks(m)
  {
    AfterEnds(seen, m.content.blocks);
  }

  lemma MessageRejected(isObject: string -> bool, m: Message, seen: seq<Mark>, j: nat)
    requires m.content.Blocks? && j < |m.content.blocks|
    requires !BlockAllowed(isObject, m.role, m.content.blocks[j]) ||
             !Paired(After(seen, m.content.blocks, j) + BlockMarks(m.content.blocks[j]))
    ensures !MessageAllowed(isObject, m) || !Paired(seen + MessageMarks(m))
  {
    BlockFails(seen, m.content.blocks, j);
    AfterEnds(seen, m.content.blocks);
    hide Paired;
    hide After;
    hide BlockAllowed;
  }

  /** The marks once the first `j` blocks of a message have been read. */
  ghost function After(seen: seq<Mark>, blocks: seq<Block>, j: nat): seq<Mark>
    requires j <= |blocks|
  {
    seen + BlocksMarks(blocks[..j])
  }

  lemma AfterEnds(seen: seq<Mark>, blocks: seq<Block>)
    ensures After(seen, blocks, 0) == seen && After(seen, blocks, |blocks|) == seen + BlocksMarks(blocks)
  {
    assert seen + [] == seen;
    assert blocks[..|blocks|] == blocks;
  }

  lemma AfterNext(seen: seq<Mark>, blocks: seq<Block>, j: nat)
    requires j < |blocks|
    ensures After(seen, blocks, j + 1) == After(seen, blocks, j) + BlockMarks(blocks[j])
  {
    BlocksNext(blocks, j);
    Regroup(seen, BlocksMarks(blocks[..j]), BlockMarks(blocks[j]));
  }

  // what comes after a prefix

  ghost function MarksFrom(messages: seq<Message>, i: nat): seq<Mark>
    requires i <= |messages|
    decreases |messages| - i
  {
    if i == |messages| then [] else MessageMarks(messages[i]) + MarksFrom(messages, i + 1)
  }

  lemma Regroup(a: seq<Mark>, b: seq<Mark>, c: seq<Mark>)
    ensures a + (b + c) == a + b + c
  {
  }

  lemma BlocksNext(blocks: seq<Block>, i: nat)
    requires i < |blocks|
    ensures BlocksMarks(blocks[..i + 1]) == BlocksMarks(blocks[..i]) + BlockMarks(blocks[i])
  {
    assert blocks[..i + 1][..i] == blocks[..i];
  }

  lemma MarksNext(messages: seq<Message>, i: nat)
    requires i < |messages|
    ensures Marks(messages[..i + 1]) == Marks(messages[..i]) + MessageMarks(messages[i])
  {
    assert messages[..i + 1][..i] == messages[..i];
  }

  lemma {:induction false} MarksSplit(messages: seq<Message>, i: nat)
    requires i <= |messages|
    ensures Marks(messages) == Marks(messages[..i]) + MarksFrom(messages, i)
    decreases |messages| - i
  {
    if i == |messages| {
      assert messages[..i] == messages;
    } else {
      MarksSplit(messages, i + 1);
      MarksNext(messages, i);
      Regroup(Marks(messages[..i]), MessageMarks(messages[i]), MarksFrom(messages, i + 1));
    }
  }

  ghost function BlocksFrom(blocks: seq<Block>, i: nat): seq<Mark>
    requires i <= |blocks|
    decreases |blocks| - i
  {
    if i == |blocks| then [] else BlockMarks(blocks[i]) + BlocksFrom(blocks, i + 1)
  }

  lemma {:induction false} BlocksSplit(blocks: seq<Block>, i: nat)
    requires i <= |blocks|
    ensures BlocksMarks(blocks) == BlocksMarks(blocks[..i]) + BlocksFrom(blocks, i)
    decreases |blocks| - i
  {
    if i == |blocks| {
      assert blocks[..i] == blocks;
    } else {
      BlocksSplit(blocks, i + 1);
      BlocksNext(blocks, i);
      Regroup(BlocksMarks(blocks[..i]), BlockMarks(blocks[i]), BlocksFrom(blocks, i + 1));
    }
  }

  /** A conversation that goes wrong at one block stays wrong. */
  lemma BlockFails(seen: seq<Mark>, blocks: seq<Block>, j: nat)
    requires j < |blocks|
    ensures Paired(After(seen, blocks, |blocks|)) ==> Paired(After(seen, blocks, j) + BlockMarks(blocks[j]))
  {
    BlocksSplit(blocks, j + 1);
    BlocksNext(blocks, j);
    Regroup(seen, BlocksMarks(blocks[..j]), BlockMarks(blocks[j]));
    Regroup(seen, BlocksMarks(blocks[..j + 1]), BlocksFrom(blocks, j + 1));
    AfterEnds(seen, blocks);
    AfterNext(seen, blocks, j);
    if Paired(seen + BlocksMarks(blocks)) {
      PairedPrefix(seen + BlocksMarks(blocks[..j + 1]), BlocksFrom(blocks, j + 1));
    }
    hide Paired;
    hide BlocksMarks;
    hide BlockMarks;
  }

  lemma MessageFails(messages: seq<Message>, i: nat)
    requires i < |messages|
    ensures Paired(Marks(messages)) ==> Paired(Marks(messages[..i]) + MessageMarks(messages[i]))
  {
    MarksSplit(messages, i + 1);
    MarksNext(messages, i);
    if Paired(Marks(messages)) {
      PairedPrefix(Marks(messages[..i + 1]), MarksFrom(messages, i + 1));
    }
    hide Paired;
    hide Marks;
    hide MessageMarks;
  }

  // ------------------------------------------------------------------ role by role

  /** What each role may say, role by role: text for everyone; pictures, documents and
      results with an id and nothing unknown inside for the user; thinking and calls
      with an id, a name and an object for the assistant; and text alone for the
      system. */
  lemma RolesSay(isObject: string -> bool, role: string, b: Block)
    requires RoleAllowed(role)
    ensures role == "system" ==> (BlockAllowed(isObject, role, b) <==> b.TextBlockIn?)
    ensures role == "assistant" ==>
              (BlockAllowed(isObject, role, b) <==>
                 b.TextBlockIn? || b.Thinking? || (b.ToolUseIn? && b.id != "" && b.name != "" && isObject(b.input)))
    ensures role == "user" ==>
              (BlockAllowed(isObject, role, b) <==>
                 || b.TextBlockIn? || b.Image? || b.Document?
                 || (b.ToolResult? && b.toolUseID != "" && !b.result.BadResult? &&
                     (b.result.NestedResult? ==>
                        forall i :: 0 <= i < |b.result.blocks| ==>
                          b.result.blocks[i].NestedText? || b.result.blocks[i].NestedImage? || b.result.blocks[i].NestedDocument?)))
  {
    assert "user" != "assistant" && "user" != "system" && "assistant" != "system" by { assert |"user"| == 4 && |"assistant"| == 9 && |"system"| == 6; }
  }
}
