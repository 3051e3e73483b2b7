/** Which accepted conversations reach the chat wire, said from their blocks: all
    but those that show a file and those whose reasoning has nowhere to go. */
module ChatReach {
  import opened Optional
  import opened Conversation
  import opened InputTranslation
  import opened ChatConversion
  import opened Placement
  import Continuations

  /** A document that is a file, for which the chat wire has no form. */
  predicate ShowsFile(b: Block) {
    b.Document? && (b.source.Base64? || b.source.Url?)
  }

  predicate MessageShowsFile(m: Message) {
    m.content.Blocks? && exists i | 0 <= i < |m.content.blocks| :: ShowsFile(m.content.blocks[i])
  }

  /** What validation takes for an object is JSON, and so is the empty object. */
  ghost predicate ObjectsAreJSON(isObject: string -> bool, validJSON: string -> bool) {
    validJSON("{}") && forall text: string :: isObject(text) ==> validJSON(text)
  }

  /** Everything collected so far can be converted. */
  ghost predicate Clear(validJSON: string -> bool, acc: Acc) {
    AllConvertible(validJSON, acc.out) && PartsToChat(acc.content).Some?
  }

  lemma PartsNext(parts: seq<Part>, part: Part)
    ensures PartsToChat(parts + [part]).Some? <==> PartsToChat(parts).Some? && PartToChat(part).Some?
  {
    assert (parts + [part])[..|parts|] == parts;
  }

  lemma FlushClear(validJSON: string -> bool, acc: Acc, role: string)
    requires RoleAllowed(role) && Tidy(acc, role)
    ensures Clear(validJSON, Flush(acc, role)) <==> Clear(validJSON, acc)
    ensures PartsToChat(Flush(acc, role).content).Some?
  {
    hide AllConvertible;
    assert PartsToChat([]).Some?;
    ConvertibleNext(validJSON, acc.out, MessageItem(role, Str(acc.text)));
    ConvertibleNext(validJSON, acc.out, MessageItem(role, Parts(acc.content)));
  }

  lemma EmitClear(validJSON: string -> bool, acc: Acc, role: string, item: Item)
    requires RoleAllowed(role) && Tidy(acc, role) && Convertible(validJSON, item)
    ensures var flushed := Flush(acc, role);
            Clear(validJSON, flushed.(out := flushed.out + [item])) <==> Clear(validJSON, acc)
  {
    hide AllConvertible, Flush, Convertible;
    FlushClear(validJSON, acc, role);
    ConvertibleNext(validJSON, Flush(acc, role).out, item);
  }

  lemma BlockClear(isObject: string -> bool, validJSON: string -> bool, acc: Acc, role: string, b: Block)
    requires ObjectsAreJSON(isObject, validJSON) && RoleAllowed(role) && BlockAllowed(isObject, role, b)
    requires Tidy(acc, role) && AddBlock(acc, role, b).Some?
    ensures Clear(validJSON, AddBlock(acc, role, b).value) <==> Clear(validJSON, acc) && !ShowsFile(b)
  {
    hide AllConvertible, Flush, PartsToChat, ResultOutput;
    match b
    case TextBlockIn(text) => PartsNext(acc.content, InputText(text));
    case Image(source) => PartsNext(acc.content, ImagePart(source).value);
    case Document(source, title) => PartsNext(acc.content, DocumentPart(source, title).value);
    case ToolUseIn(id, name, input) => EmitClear(validJSON, acc, role, CallItem(id, name, Arguments(input)));
    case ToolResult(id, isError, result) => EmitClear(validJSON, acc, role, OutputItem(id, ResultOutput(isError, result).value));
    case Thinking =>
  }

  lemma {:induction false} BlocksClear(isObject: string -> bool, validJSON: string -> bool, role: string, blocks: seq<Block>)
    requires ObjectsAreJSON(isObject, validJSON) && RoleAllowed(role)
    requires forall i | 0 <= i < |blocks| :: BlockAllowed(isObject, role, blocks[i])
    requires AddBlocks(Acc([], [], ""), role, blocks).Some?
    ensures Clear(validJSON, AddBlocks(Acc([], [], ""), role, blocks).value) <==> forall i :: 0 <= i < |blocks| ==> !ShowsFile(blocks[i])
  {
    if blocks != [] {
      hide Clear, AddBlock, ShowsFile, BlockAllowed, Tidy, ObjectsAreJSON;
      var n := |blocks| - 1;
      assert forall i :: 0 <= i < n ==> blocks[..n][i] == blocks[i];
      BlocksClear(isObject, validJSON, role, blocks[..n]);
      BlocksSay(isObject, role, blocks[..n]);
      BlockClear(isObject, validJSON, AddBlocks(Acc([], [], ""), role, blocks[..n]).value, role, blocks[n]);
    }
  }

  lemma OwnClear(isObject: string -> bool, validJSON: string -> bool, m: Message)
    requires ObjectsAreJSON(isObject, validJSON) && MessageAllowed(isObject, m) && Own(m).Some?
    ensures AllConvertible(validJSON, Own(m).value) <==> !MessageShowsFile(m)
  {
    match m.content
    case Shorthand(text) =>
      assert PartsToChat([]).Some?;
      PartsNext([], InputText(text));
      assert [] + [InputText(text)] == [InputText(text)];
    case Blocks(blocks) =>
      hide BlockAllowed, ShowsFile, AllConvertible, Flush, AddBlocks;
      BlocksClear(isObject, validJSON, m.role, blocks);
      BlocksSay(isObject, m.role, blocks);
      FlushClear(validJSON, AddBlocks(Acc([], [], ""), m.role, blocks).value, m.role);
    case _ =>
  }

  lemma ConvertibleConcat(validJSON: string -> bool, a: seq<Item>, b: seq<Item>)
    ensures AllConvertible(validJSON, a + b) <==> AllConvertible(validJSON, a) && AllConvertible(validJSON, b)
  {
    hide Convertible;
    if AllConvertible(validJSON, a + b) {
      assert forall i :: 0 <= i < |a| ==> (a + b)[i] == a[i];
      assert forall i :: 0 <= i < |b| ==> (a + b)[|a| + i] == b[i];
    }
  }

  lemma {:induction false} ItemsClear(isObject: string -> bool, validJSON: string -> bool, k: Keeping, messages: seq<Message>)
    requires ObjectsAreJSON(isObject, validJSON) && k.chat
    requires forall i :: 0 <= i < |messages| ==> MessageAllowed(isObject, messages[i])
    requires ToInput(k, messages).Some?
    ensures AllConvertible(validJSON, ToInput(k, messages).value) <==> forall i :: 0 <= i < |messages| ==> !MessageShowsFile(messages[i])
  {
    if messages != [] {
      hide AllConvertible, MessageShowsFile, MessageAllowed, ObjectsAreJSON, Own, KeptFor;
      var n := |messages| - 1;
      var m := messages[n];
      assert forall i :: 0 <= i < n ==> messages[..n][i] == messages[i];
      ItemsClear(isObject, validJSON, k, messages[..n]);
      OwnClear(isObject, validJSON, m);
      var front, marker := ToInput(k, messages[..n]).value, Marker(m.role, KeptFor(k, m), k.chat);
      ConvertibleConcat(validJSON, front + Own(m).value, marker);
      ConvertibleConcat(validJSON, front, Own(m).value);
      MarkerClear(validJSON, m.role, KeptFor(k, m), k.chat);
      assert front + Lead(k, m) == front;
    } else {
      assert AllConvertible(validJSON, []);
    }
  }

  lemma MarkerClear(validJSON: string -> bool, role: string, kept: Continuations.Continuation, chat: bool)
    ensures AllConvertible(validJSON, Marker(role, kept, chat))
  {
  }

  /** An accepted conversation that could be translated reaches the chat wire unless
      it shows a file or has reasoning for a turn that no assistant item comes before
      or belongs to. */
  lemma Reaches(isObject: string -> bool, validJSON: string -> bool, k: Keeping, messages: seq<Message>)
    requires ObjectsAreJSON(isObject, validJSON) && k.chat
    requires forall i :: 0 <= i < |messages| ==> MessageAllowed(isObject, messages[i])
    requires forall i :: 0 <= i < |messages| ==> MessageUsable(messages[i])
    ensures ToInput(k, messages).Some?
    ensures ToChat(validJSON, ToInput(k, messages).value).Some? <==>
            && (forall i :: 0 <= i < |messages| ==> !MessageShowsFile(messages[i]))
            && (forall t :: 0 <= t < |messages| ==> !Stray(k, messages, t))
  {
    hide ToInput, ToChat, Stray, AllConvertible, MessageAllowed, MessageUsable, MessageShowsFile, ObjectsAreJSON;
    Translates(isObject, k, messages);
    ItemsClear(isObject, validJSON, k, messages);
    StrayReasoningFails(isObject, validJSON, k, messages);
  }
}
