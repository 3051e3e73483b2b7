/** From the cache back into a request: what is loaded for the assistant turns of a
    conversation, and which turns carry their own reasoning again on the chat wire. */
module Recall {
  import opened Optional
  import opened Conversation
  import opened InputTranslation
  import opened ChatConversion
  import opened Markers
  import opened Placement
  import Cache = Continuations

  /** Who asks: the client's session and the candidate tried, and how contents are
      told apart. */
  datatype Asking = Asking(session: string, provider: string, model: string, digest: Content -> string)

  function KeyOf(a: Asking, content: Content): Cache.Key {
    Cache.Key(a.session, a.provider, a.model, a.digest(content))
  }

  /** Turn `i` asks for this content, before what is stored for it expires. */
  predicate Asks(a: Asking, history: map<Cache.Key, Cache.Record>, messages: seq<Message>, clock: nat -> int, i: nat, key: Cache.Key)
    requires i < |messages| && key in history
  {
    messages[i].role == "assistant" && KeyOf(a, messages[i].content) == key && clock(i) < history[key].at + Cache.TTL
  }

  ghost predicate AskedInTime(a: Asking, history: map<Cache.Key, Cache.Record>, messages: seq<Message>, n: nat, clock: nat -> int, key: Cache.Key)
    requires n <= |messages| && key in history
  {
    exists i: nat :: i < n && Asks(a, history, messages, clock, i, key)
  }

  /** What is found under a digest: the value last stored there for this session and
      candidate, asked for in time. */
  ghost predicate Rightly(a: Asking, history: map<Cache.Key, Cache.Record>, messages: seq<Message>, n: nat, clock: nat -> int,
                          found: map<string, Cache.Continuation>)
    requires n <= |messages|
  {
    forall f :: f in found ==>
      var key := Cache.Key(a.session, a.provider, a.model, f);
      key in history && found[f] == history[key].value && AskedInTime(a, history, messages, n, clock, key)
  }

  /** And everything stored there and asked for in time is found. */
  ghost predicate Fully(a: Asking, history: map<Cache.Key, Cache.Record>, messages: seq<Message>, n: nat, clock: nat -> int,
                        found: map<string, Cache.Continuation>)
    requires n <= |messages|
  {
    forall i: nat :: i < n && KeyOf(a, messages[i].content) in history && Asks(a, history, messages, clock, i, KeyOf(a, messages[i].content)) ==>
      a.digest(messages[i].content) in found
  }

  lemma RightlyNext(a: Asking, history: map<Cache.Key, Cache.Record>, messages: seq<Message>, n: nat, clock: nat -> int,
                    found: map<string, Cache.Continuation>)
    requires n < |messages| && Rightly(a, history, messages, n, clock, found)
    ensures Rightly(a, history, messages, n + 1, clock, found)
  {
    forall f | f in found
      ensures AskedInTime(a, history, messages, n + 1, clock, Cache.Key(a.session, a.provider, a.model, f))
    {
      var key := Cache.Key(a.session, a.provider, a.model, f);
      var i: nat :| i < n && Asks(a, history, messages, clock, i, key);
      assert i < n + 1;
    }
  }

  lemma RightlyFound(a: Asking, history: map<Cache.Key, Cache.Record>, messages: seq<Message>, n: nat, clock: nat -> int,
                     found: map<string, Cache.Continuation>, value: Cache.Continuation)
    requires n < |messages| && Rightly(a, history, messages, n, clock, found)
    requires var key := KeyOf(a, messages[n].content); key in history && value == history[key].value && Asks(a, history, messages, clock, n, key)
    ensures Rightly(a, history, messages, n + 1, clock, found[a.digest(messages[n].content) := value])
  {
    RightlyNext(a, history, messages, n, clock, found);
    assert AskedInTime(a, history, messages, n + 1, clock, KeyOf(a, messages[n].content));
    hide AskedInTime;
  }

  lemma FullyNext(a: Asking, history: map<Cache.Key, Cache.Record>, messages: seq<Message>, n: nat, clock: nat -> int,
                  before: map<string, Cache.Continuation>, found: map<string, Cache.Continuation>)
    requires n < |messages| && Fully(a, history, messages, n, clock, before)
    requires forall f :: f in before ==> f in found
    requires var key := KeyOf(a, messages[n].content);
             key in history && Asks(a, history, messages, clock, n, key) ==> a.digest(messages[n].content) in found
    ensures Fully(a, history, messages, n + 1, clock, found)
  {
    hide Asks;
  }

  /** The clock readings of a request's turns, none before `start`. */
  ghost predicate Later(clock: nat -> int, start: int) {
    start <= clock(0) && forall i: nat, j: nat :: i <= j ==> clock(i) <= clock(j)
  }

  lemma {:induction false} PlainComplete(operations: seq<Cache.Operation>)
    ensures forall key :: key in Cache.Plain(operations) ==> Cache.Complete(key)
  {
    if operations != [] { PlainComplete(operations[..|operations| - 1]); }
  }

  /** One turn's lookup. */
  method LoadTurn(cache: Cache.ReasoningContinuations, ghost before: seq<Cache.Operation>, a: Asking, messages: seq<Message>, i: nat,
                  clock: nat -> int, ghost now: int, found: map<string, Cache.Continuation>)
    returns (more: map<string, Cache.Continuation>)
    requires cache.Valid() && cache.history == Cache.Plain(before) && i < |messages| && messages[i].role == "assistant"
    requires Rightly(a, cache.history, messages, i, clock, found)
    modifies cache
    ensures cache.Valid() && cache.history == old(cache.history)
    ensures cache.history == Cache.Plain(before + [Cache.LoadOp(KeyOf(a, messages[i].content), clock(i))])
    ensures Rightly(a, cache.history, messages, i + 1, clock, more)
    ensures Cache.Kept(old(cache.entries), cache.history, now) && Cache.Fits(cache.history) && now <= clock(i) ==>
              && Cache.Kept(cache.entries, cache.history, clock(i))
              && (Fully(a, cache.history, messages, i, clock, found) ==> Fully(a, cache.history, messages, i + 1, clock, more))
  {
    hide Rightly;
    hide Fully;
    hide Cache.Fits;
    hide Cache.Kept;
    hide Cache.Plain;
    var f := a.digest(messages[i].content);
    var key := Cache.Key(a.session, a.provider, a.model, f);
    Cache.PlainNext(before, Cache.LoadOp(key, clock(i)));
    var hit := Cache.Perform(cache, before, Cache.LoadOp(key, clock(i)), now);
    more := if hit.Some? then found[f := hit.value] else found;
    if hit.Some? {
      RightlyFound(a, cache.history, messages, i, clock, found, hit.value);
    } else {
      RightlyNext(a, cache.history, messages, i, clock, found);
    }
    if Fully(a, cache.history, messages, i, clock, found) && Cache.Exact(before, Cache.LoadOp(key, clock(i)), hit) {
      FullyNext(a, cache.history, messages, i, clock, found, more);
    }
  }

  /** Looking up every assistant turn. Nothing is stored by it; and if the cache has
      kept what it was given, all that is still alive is found. */
  method ReasoningForRequest(cache: Cache.ReasoningContinuations, ghost before: seq<Cache.Operation>, a: Asking, messages: seq<Message>,
                             clock: nat -> int, ghost start: int)
    returns (found: map<string, Cache.Continuation>)
    requires cache.Valid() && cache.history == Cache.Plain(before)
    modifies cache
    ensures cache.Valid() && cache.history == old(cache.history)
    ensures Rightly(a, cache.history, messages, |messages|, clock, found)
    ensures Cache.Kept(old(cache.entries), cache.history, start) && Cache.Fits(cache.history) && Later(clock, start) ==>
              Fully(a, cache.history, messages, |messages|, clock, found)
  {
    found := map[];
    ghost var history := cache.history;
    if a.session == "" {
      PlainComplete(before);
      return;
    }
    ghost var easy := Cache.Kept(cache.entries, history, start) && Cache.Fits(history) && Later(clock, start);
    hide Cache.Plain;
    hide Cache.Fits;
    hide Cache.Kept;
    ghost var now, operations := start, before;
    var i := 0;
    while i < |messages|
      invariant 0 <= i <= |messages| && cache.Valid() && cache.history == history == Cache.Plain(operations)
      invariant Rightly(a, history, messages, i, clock, found)
      invariant easy ==> Fully(a, history, messages, i, clock, found) && Cache.Kept(cache.entries, history, now) && now <= clock(i)
    {
      hide Rightly;
      hide Fully;
      if messages[i].role != "assistant" {
        RightlyNext(a, history, messages, i, clock, found);
        if easy { FullyNext(a, history, messages, i, clock, found, found); }
      } else {
        found := LoadTurn(cache, operations, a, messages, i, clock, now, found);
        operations := operations + [Cache.LoadOp(KeyOf(a, messages[i].content), clock(i))];
        now := clock(i);
      }
      i := i + 1;
    }
  }

  // ------------------------------------------------------------ into the request

  /** What the conversation's turns are given. */
  function Keep(a: Asking, validJSON: string -> bool, found: map<string, Cache.Continuation>): Keeping {
    Keeping(validJSON, content => if a.digest(content) in found then found[a.digest(content)] else NOTHING, true)
  }

  /** What the plain map holds for a content, if it was asked for in time. */
  ghost function Recalled(a: Asking, history: map<Cache.Key, Cache.Record>, messages: seq<Message>, clock: nat -> int, content: Content): Cache.Continuation {
    var key := KeyOf(a, content);
    if key in history && AskedInTime(a, history, messages, |messages|, clock, key) then history[key].value else NOTHING
  }

  lemma KeepsRecalled(a: Asking, history: map<Cache.Key, Cache.Record>, messages: seq<Message>, clock: nat -> int,
                      found: map<string, Cache.Continuation>, validJSON: string -> bool, t: nat)
    requires t < |messages| && Rightly(a, history, messages, |messages|, clock, found) && Fully(a, history, messages, |messages|, clock, found)
    ensures Keep(a, validJSON, found).kept(messages[t].content) == Recalled(a, history, messages, clock, messages[t].content)
  {
    var content := messages[t].content;
    var key := KeyOf(a, content);
    if key in history && AskedInTime(a, history, messages, |messages|, clock, key) {
      var i: nat :| i < |messages| && Asks(a, history, messages, clock, i, key);
      assert a.digest(messages[i].content) in found;
    }
  }

  lemma AllRecalled(a: Asking, history: map<Cache.Key, Cache.Record>, messages: seq<Message>, clock: nat -> int,
                    found: map<string, Cache.Continuation>, validJSON: string -> bool)
    requires Rightly(a, history, messages, |messages|, clock, found) && Fully(a, history, messages, |messages|, clock, found)
    ensures Recollects(a, history, messages, clock, Keep(a, validJSON, found))
  {
    hide Rightly;
    hide Fully;
    hide Recalled;
    hide Keep;
    forall t: nat | t < |messages|
      ensures Keep(a, validJSON, found).kept(messages[t].content) == Recalled(a, history, messages, clock, messages[t].content)
    {
      KeepsRecalled(a, history, messages, clock, found, validJSON, t);
    }
  }

  /** Every turn is given what was last stored for its content and is asked for in
      time. */
  ghost predicate Recollects(a: Asking, history: map<Cache.Key, Cache.Record>, messages: seq<Message>, clock: nat -> int, k: Keeping) {
    forall t: nat :: t < |messages| ==> k.kept(messages[t].content) == Recalled(a, history, messages, clock, messages[t].content)
  }

  /** The chat messages: reasoning sits on the homes of the turns that have some, and
      there are none at all exactly if something cannot be converted or strays. */
  ghost predicate Placed(validJSON: string -> bool, k: Keeping, messages: seq<Message>, chat: Option<seq<Chat>>) {
    && (chat.Some? ==> forall i: nat :: i < |chat.value| && chat.value[i].Turn? ==> Carried(k, messages, i, chat.value[i].reasoning))
    && (chat.Some? ==> Settled(k, messages, |messages|))
    && (chat.Some? ==> forall n :: 0 <= n <= |messages| && Home(messages, n).Some? ==>
          Home(messages, n).value < |chat.value| && IsAssistant(chat.value[Home(messages, n).value]))
    && (chat.None? <==> ToInput(k, messages).None? || !AllConvertible(validJSON, ToInput(k, messages).value) ||
                        exists t :: 0 <= t < |messages| && Stray(k, messages, t))
  }

  lemma RequestPlaced(isObject: string -> bool, validJSON: string -> bool, k: Keeping, messages: seq<Message>, chat: Option<seq<Chat>>)
    requires k.chat && forall i :: 0 <= i < |messages| ==> MessageAllowed(isObject, messages[i])
    requires chat == match ToInput(k, messages)
                     case None => None
                     case Some(items) => ToChat(validJSON, items)
    ensures Placed(validJSON, k, messages, chat)
  {
    hide ToInput;
    hide ToChat;
    hide Carried;
    hide Stray;
    hide Home;
    hide Own;
    hide Settled;
    hide AllConvertible;
    hide MessageAllowed;
    if ToInput(k, messages).Some? {
      StrayReasoningFails(isObject, validJSON, k, messages);
      if chat.Some? {
        ReasoningPlaced(isObject, validJSON, k, messages);
        OwnAll(k, messages);
        SettledMeans(isObject, k, messages);
        forall n: nat | n <= |messages| && Home(messages, n).Some?
          ensures Home(messages, n).value < |chat.value| && IsAssistant(chat.value[Home(messages, n).value])
        {
          HomeStands(isObject, validJSON, k, messages, n);
        }
      }
    }
  }

  /** When the last operation before the request took place. */
  function LastClock(operations: seq<Cache.Operation>, otherwise: int): int {
    if operations == [] then otherwise else operations[|operations| - 1].now
  }

  lemma KeptAtLast(entries: map<Cache.Key, Cache.Entry>, operations: seq<Cache.Operation>, otherwise: int)
    requires operations != [] ==> Cache.Kept(entries, Cache.Plain(operations), Cache.ClockAt(operations, |operations|))
    ensures Cache.Kept(entries, Cache.Plain(operations), LastClock(operations, otherwise))
  {
    assert operations == [] ==> Cache.Plain(operations) == map[];
  }

  /** A request after any history of the cache: its stores and loads, then this
      request's lookups, then the translation to items and on to chat messages. */
  method Ask(operations: seq<Cache.Operation>, a: Asking, isObject: string -> bool, validJSON: string -> bool, messages: seq<Message>, clock: nat -> int)
    returns (chat: Option<seq<Chat>>, ghost k: Keeping)
    requires forall i :: 0 <= i < |messages| ==> MessageAllowed(isObject, messages[i])
    ensures k.chat && Placed(validJSON, k, messages, chat)
    ensures Cache.Timely(operations) && Cache.AlwaysFits(operations) && Later(clock, LastClock(operations, clock(0))) ==>
              Recollects(a, Cache.Plain(operations), messages, clock, k)
  {
    hide Cache.Timely;
    hide Cache.AlwaysFits;
    hide Cache.Kept;
    hide Cache.Fits;
    hide Cache.Plain;
    hide Cache.Right;
    hide Cache.Exact;
    hide MessageAllowed;
    hide Placed;
    hide Later;
    hide Rightly;
    hide Fully;
    hide Recollects;
    hide ToInput;
    hide ToChat;
    var cache, hits := Cache.PlayBack(operations);
    ghost var start := LastClock(operations, clock(0));
    if Cache.Timely(operations) && Cache.AlwaysFits(operations) { KeptAtLast(cache.entries, operations, clock(0)); }
    var found := ReasoningForRequest(cache, operations, a, messages, clock, start);
    var keeping := Keep(a, validJSON, found);
    k := keeping;
    var items := MessagesToInput(keeping, messages);
    if items.None? {
      chat := None;
    } else {
      chat := ResponsesInputToChat(validJSON, Listing(items.value));
    }
    RequestPlaced(isObject, validJSON, k, messages, chat);
    if Fully(a, Cache.Plain(operations), messages, |messages|, clock, found) {
      AllRecalled(a, Cache.Plain(operations), messages, clock, found, validJSON);
    }
  }

  // -------------------------------------------------------- whose it is in the end

  /** A turn is given back what was last stored for its content, if that has not
      expired when the turn is looked up. */
  lemma OwnRecalled(operations: seq<Cache.Operation>, j: nat, a: Asking, messages: seq<Message>, t: nat, clock: nat -> int)
    requires j < |operations| && t < |messages| && messages[t].role == "assistant"
    requires operations[j].StoreOp? && operations[j].key == KeyOf(a, messages[t].content) && Cache.Acceptable(operations[j].key, operations[j].value)
    requires forall m :: j < m < |operations| && operations[m].StoreOp? ==> operations[m].key != operations[j].key
    requires clock(t) < operations[j].now + Cache.TTL
    ensures Recalled(a, Cache.Plain(operations), messages, clock, messages[t].content) == operations[j].value
  {
    Cache.PlainHolds(operations, j, |operations|);
    assert operations[..|operations|] == operations;
    assert Asks(a, Cache.Plain(operations), messages, clock, t, operations[j].key);
    hide Cache.Plain;
    hide Cache.Acceptable;
  }

  /** And it carries it on the chat wire, on the message that it ends with, unless a
      later turn with reasoning ends with the same message. */
  lemma TurnComesBack(operations: seq<Cache.Operation>, j: nat, a: Asking, validJSON: string -> bool, messages: seq<Message>, t: nat,
                      clock: nat -> int, k: Keeping, chat: seq<Chat>)
    requires k.chat && Placed(validJSON, k, messages, Some(chat)) && Recollects(a, Cache.Plain(operations), messages, clock, k)
    requires j < |operations| && t < |messages| && messages[t].role == "assistant"
    requires operations[j].StoreOp? && operations[j].key == KeyOf(a, messages[t].content) && Cache.Acceptable(operations[j].key, operations[j].value)
    requires forall m :: j < m < |operations| && operations[m].StoreOp? ==> operations[m].key != operations[j].key
    requires clock(t) < operations[j].now + Cache.TTL && operations[j].value.chat != ""
    requires forall later :: t < later < |messages| && HasMarker(k, messages[later]) ==> Home(messages, later + 1) != Home(messages, t + 1)
    ensures Home(messages, t + 1).Some? && Home(messages, t + 1).value < |chat|
    ensures IsAssistant(chat[Home(messages, t + 1).value]) && chat[Home(messages, t + 1).value].reasoning == Some(operations[j].value.chat)
  {
    hide Cache.Plain;
    hide Cache.Acceptable;
    hide Home;
    hide Recalled;
    hide Placed;
    OwnRecalled(operations, j, a, messages, t, clock);
    assert k.kept(messages[t].content) == operations[j].value;
    assert HasMarker(k, messages[t]);
    PlacedLast(validJSON, k, messages, chat, t);
  }

  /** The last turn with reasoning that ends with a message puts its own on it. */
  lemma PlacedLast(validJSON: string -> bool, k: Keeping, messages: seq<Message>, chat: seq<Chat>, t: nat)
    requires Placed(validJSON, k, messages, Some(chat)) && t < |messages| && HasMarker(k, messages[t])
    requires forall later :: t < later < |messages| && HasMarker(k, messages[later]) ==> Home(messages, later + 1) != Home(messages, t + 1)
    ensures Home(messages, t + 1).Some? && Home(messages, t + 1).value < |chat|
    ensures IsAssistant(chat[Home(messages, t + 1).value])
    ensures chat[Home(messages, t + 1).value].reasoning == Some(KeptFor(k, messages[t]).chat)
  {
    hide Home;
    hide KeptFor;
    hide HasMarker;
    hide ToInput;
    hide AllConvertible;
    hide Untouched;
    hide Stray;
    assert Home(messages, t + 1).Some?;
    var i := Home(messages, t + 1).value;
    assert LastAt(k, messages, |messages|, i, t);
    assert Carried(k, messages, i, chat[i].reasoning);
  }

  /** Turns with the same content are given the same reasoning: of two answers stored
      for it, both turns get the later one's. */
  lemma TwinsShare(operations: seq<Cache.Operation>, j: nat, later: nat, a: Asking, messages: seq<Message>, t: nat, u: nat, clock: nat -> int, k: Keeping)
    requires Recollects(a, Cache.Plain(operations), messages, clock, k)
    requires t < |messages| && u < |messages| && messages[t] == messages[u] && messages[t].role == "assistant"
    requires j < later < |operations| && operations[j].StoreOp? && operations[later].StoreOp?
    requires operations[j].key == operations[later].key == KeyOf(a, messages[t].content)
    requires Cache.Acceptable(operations[later].key, operations[later].value)
    requires forall m :: later < m < |operations| && operations[m].StoreOp? ==> operations[m].key != operations[later].key
    requires clock(t) < operations[later].now + Cache.TTL
    ensures k.kept(messages[t].content) == k.kept(messages[u].content) == operations[later].value
  {
    OwnRecalled(operations, later, a, messages, t, clock);
    hide Recalled;
    hide Cache.Plain;
  }
}
