/** The bounded cache of provider reasoning that Messages clients cannot send
    back: entries expire, are limited in number and in total size, and the least
    recently touched go first. It is checked against a plain map that remembers
    every store ever made. */
module Continuations {
  import opened Optional

  datatype Continuation = Continuation(chat: string, items: seq<string>)

  datatype Key = Key(session: string, provider: string, model: string, fingerprint: string)

  datatype Entry = Entry(value: Continuation, bytes: nat, expires: int, touched: int)

  /** What the plain map keeps: the value last stored under a key and when. */
  datatype Record = Record(value: Continuation, at: int)

  const TTL := 20 * 60 * 1_000_000_000
  const MAX_ENTRIES := 512
  const MAX_BYTES := 8 * 1024 * 1024
  const MAX_ENTRY := 2 * 1024 * 1024

  function Lengths(items: seq<string>): nat {
    if items == [] then 0 else Lengths(items[..|items| - 1]) + |items[|items| - 1]|
  }

  function Size(value: Continuation): nat {
    |value.chat| + Lengths(value.items)
  }

  predicate Complete(key: Key) {
    key.session != "" && key.provider != "" && key.model != "" && key.fingerprint != ""
  }

  /** The size as the loop over the items computes it. */
  method ContinuationSize(value: Continuation) returns (n: nat)
    ensures n == Size(value)
  {
    n := |value.chat|;
    for i := 0 to |value.items|
      invariant n == |value.chat| + Lengths(value.items[..i])
    {
      assert value.items[..i + 1][..i] == value.items[..i];
      n := n + |value.items[i]|;
    }
    assert value.items[..|value.items|] == value.items;
  }

  // ------------------------------------------------------------- byte accounting

  ghost function Total(entries: map<Key, Entry>): nat
    decreases |entries|
  {
    if entries == map[] then 0
    else
      var key :| key in entries;
      entries[key].bytes + Total(entries - {key})
  }

  lemma {:induction false} TotalRemove(entries: map<Key, Entry>, key: Key)
    requires key in entries
    ensures Total(entries) == entries[key].bytes + Total(entries - {key})
    decreases |entries|
  {
    var first :| first in entries && Total(entries) == entries[first].bytes + Total(entries - {first});
    if first != key {
      TotalRemove(entries - {first}, key);
      TotalRemove(entries - {key}, first);
      assert entries - {first} - {key} == entries - {key} - {first};
    }
  }

  lemma TotalInsert(entries: map<Key, Entry>, key: Key, entry: Entry)
    requires key !in entries
    ensures Total(entries[key := entry]) == entry.bytes + Total(entries)
  {
    TotalRemove(entries[key := entry], key);
    assert entries[key := entry] - {key} == entries;
  }

  lemma TotalReplace(entries: map<Key, Entry>, key: Key, entry: Entry)
    requires key in entries && entry.bytes == entries[key].bytes
    ensures Total(entries[key := entry]) == Total(entries)
  {
    TotalRemove(entries, key);
    TotalRemove(entries[key := entry], key);
    assert entries[key := entry] - {key} == entries - {key};
  }

  lemma Inhabited(entries: map<Key, Entry>)
    ensures entries == map[] || exists key :: key in entries
  {
    if forall key :: key !in entries { assert entries == map[]; }
  }

  lemma InhabitedSet(keys: set<Key>)
    ensures keys == {} || exists key :: key in keys
  {
    if forall key :: key !in keys { assert keys == {}; }
  }

  // ------------------------------------------------------------- what may happen

  /** The entries still alive at `now`. */
  function Alive(entries: map<Key, Entry>, now: int): map<Key, Entry> {
    map key | key in entries && now < entries[key].expires :: entries[key]
  }

  /** Least recently touched among the entries. */
  ghost predicate IsOldest(entries: map<Key, Entry>, key: Key) {
    key in entries && forall other :: other in entries ==> entries[key].touched <= entries[other].touched
  }

  predicate Crowded(entries: map<Key, Entry>, bytes: int, size: nat) {
    |entries| >= MAX_ENTRIES || bytes + size > MAX_BYTES
  }

  /** `after` is `before` less some entries, every one of which was touched no
      later than every entry that stayed; and if any left, the last one to leave
      had to: with it there was still no room. */
  ghost predicate MadeRoom(before: map<Key, Entry>, after: map<Key, Entry>, size: nat) {
    && (forall key :: key in after ==> key in before && after[key] == before[key])
    && (forall gone, stays :: gone in before && gone !in after && stays in after ==> before[gone].touched <= before[stays].touched)
    && (before != after ==> exists last ::
          last in before && last !in after && Crowded(after[last := before[last]], Total(after[last := before[last]]), size))
  }

  lemma MadeNoRoom(entries: map<Key, Entry>, size: nat)
    ensures MadeRoom(entries, entries, size)
  {
  }

  lemma OneMoreGone(before: map<Key, Entry>, entries: map<Key, Entry>, oldest: Key, size: nat)
    requires MadeRoom(before, entries, size) && IsOldest(entries, oldest) && Crowded(entries, Total(entries), size)
    ensures MadeRoom(before, entries - {oldest}, size)
  {
    var after := entries - {oldest};
    assert after[oldest := before[oldest]] == entries;
    assert oldest in before && oldest !in after;
  }

  /** An empty cache has room for any acceptable value. */
  lemma NeverEmpty(entries: map<Key, Entry>, size: nat)
    requires Crowded(entries, Total(entries), size) && size <= MAX_ENTRY
    ensures entries != map[]
  {
  }

  function Joined(items: seq<string>): string {
    if items == [] then "" else Joined(items[..|items| - 1]) + items[|items| - 1]
  }

  /** The size of a value is the length of everything in it. */
  lemma {:induction false} SizeMeans(value: Continuation)
    ensures Size(value) == |value.chat + Joined(value.items)|
    decreases |value.items|
  {
    if value.items != [] {
      SizeMeans(Continuation(value.chat, value.items[..|value.items| - 1]));
    }
  }

  /** When an entry had to leave to make room: there were 512 entries with it, or the
      value would have taken the cache over eight mebibytes. */
  lemma RoomMeans(before: map<Key, Entry>, after: map<Key, Entry>, size: nat)
    requires MadeRoom(before, after, size) && before != after
    ensures exists last :: last in before && last !in after &&
              (|after| + 1 >= 512 || Total(after) + before[last].bytes + size > 8_388_608)
  {
    var last :| last in before && last !in after && Crowded(after[last := before[last]], Total(after[last := before[last]]), size);
    TotalInsert(after, last, before[last]);
    assert |after[last := before[last]]| == |after| + 1;
    hide Total;
  }

  lemma Survivors(before: map<Key, Entry>, after: map<Key, Entry>, size: nat)
    requires MadeRoom(before, after, size)
    ensures forall key :: key in after ==> key in before && after[key] == before[key]
  {
  }

  class ReasoningContinuations {
    var entries: map<Key, Entry>
    var bytes: int
    ghost var history: map<Key, Record>

    ghost predicate Valid()
      reads this
    {
      && bytes == Total(entries)
      && |entries| <= MAX_ENTRIES && bytes <= MAX_BYTES
      && (forall key :: key in entries ==> Sound(key, entries[key]))
    }

    /** An entry holds what was last stored under its key, for its lifetime. */
    ghost predicate Sound(key: Key, entry: Entry)
      reads this
    {
      && Complete(key) && entry.bytes == Size(entry.value) && 0 < entry.bytes <= MAX_ENTRY
      && key in history && history[key].value == entry.value && entry.expires == history[key].at + TTL
    }

    constructor ()
      ensures Valid() && entries == map[] && history == map[]
    {
      entries, bytes, history := map[], 0, map[];
    }

    method Delete(key: Key)
      requires key in entries && bytes == Total(entries)
      modifies `entries, `bytes
      ensures entries == old(entries) - {key} && bytes == Total(entries)
    {
      TotalRemove(entries, key);
      bytes := bytes - entries[key].bytes;
      entries := entries - {key};
    }

    method PurgeExpired(now: int)
      requires Valid()
      modifies `entries, `bytes
      ensures Valid() && entries == Alive(old(entries), now)
    {
      RemoveExpired(now);
      Fewer(old(entries), entries);
    }

    method RemoveExpired(now: int)
      requires bytes == Total(entries)
      modifies `entries, `bytes
      ensures bytes == Total(entries) && entries == Alive(old(entries), now)
    {
      var rest := entries.Keys;
      while rest != {}
        invariant rest <= old(entries).Keys && bytes == Total(entries)
        invariant forall key :: key in entries <==> key in old(entries) && (key in rest || now < old(entries)[key].expires)
        invariant forall key :: key in entries ==> entries[key] == old(entries)[key]
        decreases |rest|
      {
        InhabitedSet(rest);
        var key :| key in rest;
        rest := rest - {key};
        if entries[key].expires <= now { Delete(key); }
      }
      assert entries == Alive(old(entries), now);
    }

    method EvictOldest() returns (found: bool)
      requires bytes == Total(entries)
      modifies `entries, `bytes
      ensures found == (old(entries) != map[]) && bytes == Total(entries)
      ensures found ==> exists oldest :: IsOldest(old(entries), oldest) && entries == old(entries) - {oldest}
      ensures !found ==> entries == old(entries)
    {
      if entries == map[] { return false; }
      Inhabited(entries);
      var oldest :| oldest in entries;
      var rest := entries.Keys - {oldest};
      while rest != {}
        invariant entries == old(entries) && bytes == old(bytes)
        invariant oldest in entries && rest <= entries.Keys
        invariant forall key :: key in entries && key !in rest ==> entries[oldest].touched <= entries[key].touched
        decreases |rest|
      {
        InhabitedSet(rest);
        var key :| key in rest;
        rest := rest - {key};
        if entries[key].touched < entries[oldest].touched { oldest := key; }
      }
      assert IsOldest(old(entries), oldest);
      Delete(oldest);
      assert entries == old(entries) - {oldest};
      found := true;
    }

    /** Evicting until there is room; with every entry gone there is, so the loop
        never fails to find an entry to evict. */
    method MakeRoom(size: nat)
      requires bytes == Total(entries) && size <= MAX_ENTRY
      modifies `entries, `bytes
      ensures bytes == Total(entries) && !Crowded(entries, bytes, size)
      ensures MadeRoom(old(entries), entries, size)
    {
      MadeNoRoom(entries, size);
      while Crowded(entries, bytes, size)
        invariant bytes == Total(entries) && MadeRoom(old(entries), entries, size)
        decreases |entries|
      {
        ghost var before := entries;
        NeverEmpty(before, size);
        var found := EvictOldest();
        assert found;
        ghost var oldest :| IsOldest(before, oldest) && entries == before - {oldest};
        OneMoreGone(old(entries), before, oldest, size);
      }
    }

    /** Storing under a complete key a value that is neither empty nor too large
        always succeeds; anything else changes nothing. */
    method Store(key: Key, value: Continuation, now: int)
      requires Valid()
      modifies this
      ensures Valid() && |entries| <= 512 && bytes <= 8_388_608
      ensures var size := Size(value);
              if !Complete(key) || size == 0 || size > 2_097_152 then
                entries == old(entries) && bytes == old(bytes) && history == old(history)
              else
                && key in entries && entries[key] == Entry(value, size, now + 1_200_000_000_000, now)
                && MadeRoom(Alive(old(entries), now) - {key}, entries - {key}, size)
                && history == old(history)[key := Record(value, now)]
    {
      var size := ContinuationSize(value);
      if !Complete(key) || size == 0 || size > MAX_ENTRY { return; }
      PurgeExpired(now);
      Replace(key, value, size, now);
    }

    /** The old entry of the key goes first, then whatever else has to. */
    method Clear(key: Key, size: nat)
      requires bytes == Total(entries) && size <= MAX_ENTRY
      modifies `entries, `bytes
      ensures bytes == Total(entries) && !Crowded(entries, bytes, size)
      ensures MadeRoom(old(entries) - {key}, entries, size)
    {
      if key in entries { Delete(key); }
      assert entries == old(entries) - {key};
      MakeRoom(size);
    }

    method Replace(key: Key, value: Continuation, size: nat, now: int)
      requires Valid() && Complete(key) && size == Size(value) && 0 < size <= MAX_ENTRY
      modifies this
      ensures Valid()
      ensures key in entries && entries[key] == Entry(value, size, now + TTL, now)
      ensures MadeRoom(old(entries) - {key}, entries - {key}, size)
      ensures history == old(history)[key := Record(value, now)]
    {
      Clear(key, size);
      Survivors(old(entries) - {key}, entries, size);
      hide MadeRoom;
      hide Total;
      hide Crowded;
      Insert(key, value, size, now);
    }

    method Insert(key: Key, value: Continuation, size: nat, now: int)
      requires Complete(key) && size == Size(value) && 0 < size <= MAX_ENTRY
      requires bytes == Total(entries) && !Crowded(entries, bytes, size) && key !in entries
      requires forall other :: other in entries ==> Sound(other, entries[other])
      modifies this
      ensures Valid()
      ensures key in entries && entries[key] == Entry(value, size, now + TTL, now) && entries - {key} == old(entries)
      ensures history == old(history)[key := Record(value, now)]
    {
      var entry := Entry(value, size, now + TTL, now);
      TotalInsert(entries, key, entry);
      Added(entries, key, entry);
      entries := entries[key := entry];
      bytes := bytes + size;
      history := history[key := Record(value, now)];
    }

    /** A hit is exactly a live entry; it returns what was last stored under that
        key, less than a lifetime ago. */
    method Load(key: Key, now: int) returns (hit: Option<Continuation>)
      requires Valid()
      modifies `entries, `bytes
      ensures Valid()
      ensures hit.Some? <==> key in Alive(old(entries), now)
      ensures hit.Some? ==> key in history && hit.value == history[key].value && now < history[key].at + TTL
      ensures if !Complete(key) then entries == old(entries)
              else if hit.None? then entries == Alive(old(entries), now)
              else entries == Alive(old(entries), now)[key := old(entries)[key].(touched := now)]
    {
      if !Complete(key) { return None; }
      PurgeExpired(now);
      if key !in entries { return None; }
      var entry := entries[key].(touched := now);
      TotalReplace(entries, key, entry);
      SameCount(entries, key, entry);
      entries := entries[key := entry];
      hit := Some(entry.value);
    }
  }

  lemma {:induction false} Fewer(before: map<Key, Entry>, after: map<Key, Entry>)
    requires forall key :: key in after ==> key in before && after[key].bytes == before[key].bytes
    ensures |after| <= |before| && Total(after) <= Total(before)
    decreases |before|
  {
    if after == map[] {
    } else {
      var key :| key in after;
      TotalRemove(after, key);
      TotalRemove(before, key);
      Fewer(before - {key}, after - {key});
      assert |before - {key}| == |before| - 1 && |after - {key}| == |after| - 1;
    }
  }

  lemma Added(entries: map<Key, Entry>, key: Key, entry: Entry)
    requires key !in entries
    ensures |entries[key := entry]| == |entries| + 1 && entries[key := entry] - {key} == entries
  {
    assert entries[key := entry].Keys == entries.Keys + {key};
    assert |entries[key := entry].Keys| == |entries[key := entry]|;
  }

  lemma SameCount(entries: map<Key, Entry>, key: Key, entry: Entry)
    requires key in entries
    ensures |entries[key := entry]| == |entries|
  {
    assert entries[key := entry].Keys == entries.Keys;
    assert |entries[key := entry].Keys| == |entries[key := entry]|;
  }

  // ------------------------------------------------------- against the plain map

  datatype Operation =
    | StoreOp(key: Key, value: Continuation, now: int)
    | LoadOp(key: Key, now: int)

  predicate Acceptable(key: Key, value: Continuation) {
    Complete(key) && 0 < Size(value) <= MAX_ENTRY
  }

  /** A map without bounds or expiry. */
  function Plain(operations: seq<Operation>): map<Key, Record> {
    if operations == [] then map[]
    else
      var before, last := Plain(operations[..|operations| - 1]), operations[|operations| - 1];
      if last.StoreOp? && Acceptable(last.key, last.value) then before[last.key := Record(last.value, last.now)] else before
  }

  lemma PlainNext(before: seq<Operation>, last: Operation)
    ensures Plain(before + [last]) ==
            if last.StoreOp? && Acceptable(last.key, last.value) then Plain(before)[last.key := Record(last.value, last.now)] else Plain(before)
  {
    assert (before + [last])[..|before|] == before;
  }

  /** A hit on a load is what the plain map holds then, not yet expired. */
  ghost predicate Right(before: seq<Operation>, last: Operation, hit: Option<Continuation>) {
    hit.Some? ==>
      && last.LoadOp? && last.key in Plain(before)
      && hit.value == Plain(before)[last.key].value && last.now < Plain(before)[last.key].at + TTL
  }

  /** And everything the plain map holds that has not expired is a hit. */
  ghost predicate Exact(before: seq<Operation>, last: Operation, hit: Option<Continuation>) {
    last.LoadOp? && last.key in Plain(before) && last.now < Plain(before)[last.key].at + TTL ==> hit.Some?
  }

  /** What was stored last under a key is what the plain map holds there. */
  lemma {:induction false} PlainHolds(operations: seq<Operation>, j: nat, i: nat)
    requires j < i <= |operations| && operations[j].StoreOp? && Acceptable(operations[j].key, operations[j].value)
    requires forall m :: j < m < i && operations[m].StoreOp? ==> operations[m].key != operations[j].key
    ensures operations[j].key in Plain(operations[..i])
    ensures Plain(operations[..i])[operations[j].key] == Record(operations[j].value, operations[j].now)
  {
    assert operations[..i][..i - 1] == operations[..i - 1];
    if j < i - 1 { PlainHolds(operations, j, i - 1); }
  }

  // ------------------------------------------------------- while everything fits

  /** What the plain map would take up in the cache. */
  ghost function Booked(history: map<Key, Record>): map<Key, Entry> {
    map key | key in history :: Entry(history[key].value, Size(history[key].value), history[key].at + TTL, history[key].at)
  }

  ghost predicate Fits(history: map<Key, Record>) {
    |history| <= MAX_ENTRIES && Total(Booked(history)) <= MAX_BYTES
  }

  /** Whatever the plain map holds is in the cache or has expired. */
  ghost predicate Kept(entries: map<Key, Entry>, history: map<Key, Record>, clock: int) {
    forall key :: key in history ==> key in entries || history[key].at + TTL <= clock
  }

  ghost predicate Faithful(entries: map<Key, Entry>, history: map<Key, Record>) {
    forall key :: key in entries ==> key in history && entries[key].bytes == Size(history[key].value) && entries[key].expires == history[key].at + TTL
  }

  lemma KeptAlive(entries: map<Key, Entry>, history: map<Key, Record>, clock: int, now: int)
    requires Kept(entries, history, clock) && Faithful(entries, history) && clock <= now
    ensures Kept(Alive(entries, now), history, now)
  {
  }

  /** Entries that all are among the other keys of a map that fits leave room for
      this key's value. */
  lemma RoomLeft(history: map<Key, Record>, key: Key, some: map<Key, Entry>)
    requires Fits(history) && key in history && key !in some && Faithful(some, history)
    ensures !Crowded(some, Total(some), Size(history[key].value))
  {
    var booked := Booked(history);
    assert booked.Keys == history.Keys && |booked.Keys| == |booked| && |history.Keys| == |history|;
    TotalRemove(booked, key);
    Fewer(booked - {key}, some);
    assert booked - {key} == booked - {key} && (booked - {key}).Keys == booked.Keys - {key};
    assert |(booked - {key}).Keys| == |booked - {key}|;
  }

  lemma NothingEvicted(before: map<Key, Entry>, after: map<Key, Entry>, history: map<Key, Record>, key: Key)
    requires Fits(history) && key in history && key !in before && Faithful(before, history)
    requires MadeRoom(before, after, Size(history[key].value))
    ensures after == before
  {
    if before != after {
      var last :| last in before && last !in after &&
                  Crowded(after[last := before[last]], Total(after[last := before[last]]), Size(history[key].value));
      RoomLeft(history, key, after[last := before[last]]);
    }
  }

  lemma StoreKeeps(before: map<Key, Entry>, history: map<Key, Record>, clock: int, key: Key, value: Continuation, now: int, after: map<Key, Entry>)
    requires Kept(before, history, clock) && Faithful(before, history) && clock <= now
    requires Fits(history[key := Record(value, now)]) && key in after
    requires MadeRoom(Alive(before, now) - {key}, after - {key}, Size(value))
    ensures Kept(after, history[key := Record(value, now)], now)
  {
    var history' := history[key := Record(value, now)];
    KeptAlive(before, history, clock, now);
    NothingEvicted(Alive(before, now) - {key}, after - {key}, history', key);
    forall other | other in history' ensures other in after || history'[other].at + TTL <= now {
      if other != key { assert other in Alive(before, now) - {key} ==> other in after - {key}; }
    }
    hide MadeRoom;
    hide Fits;
  }

  /** One operation. If everything stored so far fits and the clock does not go
      back, nothing unexpired is lost. */
  method Perform(cache: ReasoningContinuations, ghost before: seq<Operation>, last: Operation, ghost clock: int)
    returns (hit: Option<Continuation>)
    requires cache.Valid() && cache.history == Plain(before)
    modifies cache
    ensures cache.Valid() && cache.history == Plain(before + [last])
    ensures Right(before, last, hit)
    ensures Kept(old(cache.entries), Plain(before), clock) && clock <= last.now && Fits(Plain(before + [last])) ==>
              Kept(cache.entries, Plain(before + [last]), last.now) && Exact(before, last, hit)
  {
    PlainNext(before, last);
    ghost var entries, history := cache.entries, cache.history;
    assert Faithful(entries, history);
    ghost var timely := Kept(entries, history, clock) && clock <= last.now;
    if timely { KeptAlive(entries, history, clock, last.now); }
    hide Fits;
    hide MadeRoom;
    match last
    case StoreOp(key, value, now) =>
      cache.Store(key, value, now);
      hit := None;
      if timely && Acceptable(key, value) && Fits(Plain(before + [last])) {
        StoreKeeps(entries, history, clock, key, value, now, cache.entries);
      }
    case LoadOp(key, now) =>
      hit := cache.Load(key, now);
  }

  /** The clock readings of a run never go back. */
  ghost predicate Timely(operations: seq<Operation>) {
    forall i, j :: 0 <= i < j < |operations| ==> operations[i].now <= operations[j].now
  }

  ghost predicate AlwaysFits(operations: seq<Operation>) {
    forall i :: 0 <= i <= |operations| ==> Fits(Plain(operations[..i]))
  }

  /** Where the `i`-th operation stands in an easy run. */
  lemma EasyStep(operations: seq<Operation>, i: nat)
    requires Timely(operations) && AlwaysFits(operations) && i < |operations|
    ensures Fits(Plain(operations[..i] + [operations[i]])) && ClockAt(operations, i) <= operations[i].now
  {
    assert operations[..i + 1] == operations[..i] + [operations[i]];
    hide Fits;
    hide Plain;
  }

  /** The clock before the `i`-th operation. */
  function ClockAt(operations: seq<Operation>, i: nat): int
    requires i <= |operations| && operations != []
  {
    if i == 0 then operations[0].now else operations[i - 1].now
  }

  ghost predicate AllRight(operations: seq<Operation>, hits: seq<Option<Continuation>>)
    requires |hits| <= |operations|
  {
    forall i :: 0 <= i < |hits| ==> Right(operations[..i], operations[i], hits[i])
  }

  ghost predicate AllExact(operations: seq<Operation>, hits: seq<Option<Continuation>>)
    requires |hits| <= |operations|
  {
    forall i :: 0 <= i < |hits| ==> Exact(operations[..i], operations[i], hits[i])
  }

  lemma OneMoreHit(operations: seq<Operation>, hits: seq<Option<Continuation>>, hit: Option<Continuation>)
    requires |hits| < |operations| && AllRight(operations, hits) && Right(operations[..|hits|], operations[|hits|], hit)
    ensures AllRight(operations, hits + [hit])
    ensures AllExact(operations, hits) && Exact(operations[..|hits|], operations[|hits|], hit) ==> AllExact(operations, hits + [hit])
  {
    hide Right;
    hide Exact;
  }

  lemma NothingDone(operations: seq<Operation>, entries: map<Key, Entry>)
    ensures Plain(operations[..0]) == map[] && AllRight(operations, []) && AllExact(operations, [])
    ensures forall clock: int :: Kept(entries, map[], clock)
  {
  }

  lemma NextClock(operations: seq<Operation>, i: nat)
    requires i < |operations|
    ensures ClockAt(operations, i + 1) == operations[i].now
  {
  }

  /** A cache after a whole run of operations, and what the loads returned. */
  method PlayBack(operations: seq<Operation>) returns (cache: ReasoningContinuations, hits: seq<Option<Continuation>>)
    ensures fresh(cache) && cache.Valid() && cache.history == Plain(operations)
    ensures |hits| == |operations| && AllRight(operations, hits)
    ensures Timely(operations) && AlwaysFits(operations) ==> AllExact(operations, hits) && Fits(Plain(operations))
    ensures Timely(operations) && AlwaysFits(operations) && operations != [] ==>
              Kept(cache.entries, cache.history, ClockAt(operations, |operations|))
  {
    cache := new ReasoningContinuations();
    hits := [];
    ghost var easy := Timely(operations) && AlwaysFits(operations);
    hide *;
    NothingDone(operations, cache.entries);
    if easy { FitsAtEnd(operations); }
    for i := 0 to |operations|
      invariant fresh(cache) && cache.Valid() && |hits| == i && cache.history == Plain(operations[..i])
      invariant AllRight(operations, hits) && (easy ==> AllExact(operations, hits))
      invariant easy && operations != [] ==> Kept(cache.entries, cache.history, ClockAt(operations, i))
    {
      if easy { EasyStep(operations, i); }
      NextClock(operations, i);
      var hit := Perform(cache, operations[..i], operations[i], ClockAt(operations, i));
      assert operations[..i + 1] == operations[..i] + [operations[i]];
      OneMoreHit(operations, hits, hit);
      hits := hits + [hit];
    }
    assert operations[..|operations|] == operations;
  }

  lemma FitsAtEnd(operations: seq<Operation>)
    requires AlwaysFits(operations)
    ensures Fits(Plain(operations))
  {
    assert operations[..|operations|] == operations;
  }

  /** Over every sequence of operations, whatever the clock readings: a hit is
      what the plain map holds under that very key, and is not yet expired. And
      if time goes forward and what was stored always fits the bounds, the cache
      is that map: everything in it that has not expired is a hit. */
  method Replay(operations: seq<Operation>) returns (hits: seq<Option<Continuation>>)
    ensures |hits| == |operations|
    ensures forall i :: 0 <= i < |operations| ==> Right(operations[..i], operations[i], hits[i])
    ensures Timely(operations) && AlwaysFits(operations) ==>
              forall i :: 0 <= i < |operations| ==> Exact(operations[..i], operations[i], hits[i])
  {
    hide Right;
    hide Exact;
    hide Timely;
    hide AlwaysFits;
    var cache;
    cache, hits := PlayBack(operations);
  }
}
