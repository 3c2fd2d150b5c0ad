/** The decoded-chunk cache: a map with a lazily invalidated recency queue,
    refined against a plain least-recently-used map. */
module ChunkCache {
  import opened Options

  type Bytes = seq<Octet>
  type Key = Bytes
  type Entry = (Key, nat)

  // ----- The plain map

  datatype Slot<+D> = Slot(raw: Option<Bytes>, decoded: Option<D>)

  /** Keys from least to most recently used, and what they hold. */
  datatype Plain<D> = Plain(order: seq<Key>, slots: map<Key, Slot<D>>)

  function Drop(order: seq<Key>, key: Key): (r: seq<Key>)
    ensures forall k :: k in r <==> k in order && k != key
  {
    if order == [] then []
    else if order[0] == key then Drop(order[1..], key)
    else [order[0]] + Drop(order[1..], key)
  }

  /** Makes `key` the most recent, holding `slot`, and evicts the least recent key
      when that exceeds the capacity. */
  function Touch<D>(p: Plain<D>, key: Key, slot: Slot<D>, capacity: nat): Plain<D> {
    Evict(Plain(Drop(p.order, key) + [key], p.slots[key := slot]), capacity)
  }

  function Evict<D>(p: Plain<D>, capacity: nat): Plain<D> {
    if |p.order| > capacity then Plain(p.order[1..], p.slots - {p.order[0]}) else p
  }

  function Or<T>(a: Option<T>, b: Option<T>): Option<T> {
    if a.Some? then a else b
  }

  /** A lookup decodes the raw bytes on first use. */
  function Decoded<D>(slot: Slot<D>, decode: Bytes -> Option<D>): Slot<D> {
    if slot.decoded.Some? || slot.raw.None? then slot else slot.(decoded := decode(slot.raw.value))
  }

  function PlainGet<D>(p: Plain<D>, key: Key, decode: Bytes -> Option<D>, capacity: nat): Plain<D> {
    if key in p.slots then Touch(p, key, Decoded(p.slots[key], decode), capacity) else p
  }

  function PlainGetRaw<D>(p: Plain<D>, key: Key, capacity: nat): Plain<D> {
    if key in p.slots then Touch(p, key, p.slots[key], capacity) else p
  }

  /** Kept raw bytes win over new ones; new decoded chunks win over kept ones. */
  function PlainInsert<D>(p: Plain<D>, key: Key, raw: Option<Bytes>, decoded: Option<D>, capacity: nat)
    : Plain<D>
  {
    var kept := if key in p.slots then p.slots[key] else Slot(None, None);
    Touch(p, key, Slot(Or(kept.raw, raw), Or(decoded, kept.decoded)), capacity)
  }

  // ----- What the plain map keeps

  function LastOf(s: seq<Key>, n: nat): seq<Key> {
    if |s| > n then s[|s| - n..] else s
  }

  /** All touched keys by their last touch, oldest first. */
  function Recency(touches: seq<Key>): seq<Key> {
    if touches == [] then []
    else
      var last := touches[|touches| - 1];
      Drop(Recency(touches[..|touches| - 1]), last) + [last]
  }

  /** The order after a sequence of touches. */
  function OrderAfter(touches: seq<Key>, capacity: nat): seq<Key> {
    if touches == [] then []
    else
      var last := touches[|touches| - 1];
      LastOf(Drop(OrderAfter(touches[..|touches| - 1], capacity), last) + [last], capacity)
  }

  lemma {:induction false} TouchOrder<D>(p: Plain<D>, key: Key, slot: Slot<D>, capacity: nat)
    requires |Drop(p.order, key)| <= capacity
    ensures Touch(p, key, slot, capacity).order == LastOf(Drop(p.order, key) + [key], capacity)
  {
    hide Drop;
  }

  lemma {:induction false} DropConcat(a: seq<Key>, b: seq<Key>, key: Key)
    ensures Drop(a + b, key) == Drop(a, key) + Drop(b, key)
  {
    if a == [] {
      assert a + b == b;
    } else {
      DropConcat(a[1..], b, key);
      assert (a + b)[0] == a[0] && (a + b)[1..] == a[1..] + b;
      DropConcatHead(a[0], Drop(a[1..], key), Drop(b, key));
    }
  }

  lemma {:induction false} DropConcatHead(head: Key, a: seq<Key>, b: seq<Key>)
    ensures ([head] + a) + b == [head] + (a + b)
  {}

  lemma {:induction false} DropLength(s: seq<Key>, key: Key)
    requires NoRepeats(s)
    ensures |Drop(s, key)| == |s| - if key in s then 1 else 0
    ensures NoRepeats(Drop(s, key))
  {
    if s != [] {
      DropLength(s[1..], key);
      assert s[0] !in s[1..];
    }
  }

  /** Dropping and appending a key commutes with keeping the last keys. */
  lemma {:induction false} TouchKeepsLast(all: seq<Key>, key: Key, capacity: nat)
    requires capacity >= 1 && NoRepeats(all)
    ensures LastOf(Drop(LastOf(all, capacity), key) + [key], capacity) == LastOf(Drop(all, key) + [key], capacity)
  {
    hide Drop, NoRepeats, LastOf;
    LastOfIs(all, capacity);
    if |all| > capacity {
      var lost, held := all[..|all| - capacity], all[|all| - capacity..];
      assert all == lost + held;
      PartsNoRepeats(all, |all| - capacity);
      DropConcat(lost, held, key);
      DropLength(held, key);
      LastOfConcat(Drop(lost, key), Drop(held, key) + [key], capacity);
      assert Drop(lost, key) + (Drop(held, key) + [key]) == Drop(all, key) + [key];
    }
  }

  lemma {:induction false} LastOfIs(s: seq<Key>, n: nat)
    ensures LastOf(s, n) == if |s| > n then s[|s| - n..] else s
  {}

  lemma {:induction false} LastOfConcat(a: seq<Key>, b: seq<Key>, n: nat)
    requires |b| >= n
    ensures LastOf(a + b, n) == LastOf(b, n)
  {}

  lemma {:induction false} PartsNoRepeats(s: seq<Key>, n: nat)
    requires NoRepeats(s) && n <= |s|
    ensures NoRepeats(s[..n]) && NoRepeats(s[n..])
    ensures forall k :: k in s[..n] ==> k !in s[n..]
    ensures forall k :: k in s <==> k in s[..n] || k in s[n..]
  {
    assert s == s[..n] + s[n..];
  }

  /** Keeping the last keys at every touch keeps the most recent distinct keys. */
  lemma {:induction false} KeepsMostRecent(touches: seq<Key>, capacity: nat)
    requires capacity >= 1
    ensures NoRepeats(Recency(touches))
    ensures OrderAfter(touches, capacity) == LastOf(Recency(touches), capacity)
  {
    hide Drop, LastOf;
    if touches != [] {
      var init, key := touches[..|touches| - 1], touches[|touches| - 1];
      KeepsMostRecent(init, capacity);
      DropLength(Recency(init), key);
      TouchKeepsLast(Recency(init), key, capacity);
    } else {
      LastOfNothing(capacity);
    }
  }

  lemma {:induction false} LastOfNothing(n: nat)
    ensures LastOf([], n) == []
  {}

  // ----- Sequences of uses

  datatype Use<!D> = Lookup(key: Key, decode: Bytes -> Option<D>)
                   | LookupRaw(key: Key)
                   | Insertion(key: Key, raw: Option<Bytes>, decoded: Option<D>)

  function PlainUse<D>(p: Plain<D>, use: Use<D>, capacity: nat): Plain<D> {
    match use
    case Lookup(key, decode) => PlainGet(p, key, decode, capacity)
    case LookupRaw(key) => PlainGetRaw(p, key, capacity)
    case Insertion(key, raw, decoded) => PlainInsert(p, key, raw, decoded, capacity)
  }

  /** Lookups touch the keys they find, insertions always. */
  predicate Touches<D>(p: Plain<D>, use: Use<D>) {
    use.Insertion? || use.key in p.slots
  }

  function PlainRun<D>(uses: seq<Use<D>>, capacity: nat): Plain<D> {
    if uses == [] then Plain([], map[])
    else PlainUse(PlainRun(uses[..|uses| - 1], capacity), uses[|uses| - 1], capacity)
  }

  /** The keys touched by a sequence of uses, in order. */
  function TouchedBy<D>(uses: seq<Use<D>>, capacity: nat): seq<Key> {
    if uses == [] then []
    else
      var before, use := uses[..|uses| - 1], uses[|uses| - 1];
      TouchedBy(before, capacity) + if Touches(PlainRun(before, capacity), use) then [use.key] else []
  }

  lemma {:induction false} DropShortens(s: seq<Key>, key: Key)
    ensures |Drop(s, key)| <= |s|
    decreases |s|
  {
    if s != [] {
      DropShortens(s[1..], key);
    }
  }

  lemma {:induction false} UseOrder<D>(p: Plain<D>, use: Use<D>, capacity: nat)
    requires |p.order| <= capacity
    ensures PlainUse(p, use, capacity).order ==
            if Touches(p, use) then LastOf(Drop(p.order, use.key) + [use.key], capacity) else p.order
  {
    hide Drop, Touch, LastOf;
    DropShortens(p.order, use.key);
    if Touches(p, use) {
      var kept := if use.key in p.slots then p.slots[use.key] else Slot(None, None);
      match use
      case Lookup(key, decode) => TouchOrder(p, key, Decoded(kept, decode), capacity);
      case LookupRaw(key) => TouchOrder(p, key, kept, capacity);
      case Insertion(key, raw, decoded) =>
        TouchOrder(p, key, Slot(Or(kept.raw, raw), Or(decoded, kept.decoded)), capacity);
    }
  }

  /** After any sequence of uses the map holds exactly the most recently touched
      distinct keys, in the order of their last touch. */
  lemma {:induction false} RunKeepsMostRecent<D>(uses: seq<Use<D>>, capacity: nat)
    requires capacity >= 1
    ensures PlainRun(uses, capacity).order == LastOf(Recency(TouchedBy(uses, capacity)), capacity)
    decreases |uses|
  {
    hide Drop, PlainUse, Touches, Recency;
    if uses == [] {
      RecencyOfNothing();
      LastOfNothing(capacity);
    } else {
      var before, use := uses[..|uses| - 1], uses[|uses| - 1];
      RunKeepsMostRecent(before, capacity);
      UseOrder(PlainRun(before, capacity), use, capacity);
      var touches := TouchedBy(before, capacity);
      if Touches(PlainRun(before, capacity), use) {
        KeepsMostRecent(touches, capacity);
        TouchKeepsLast(Recency(touches), use.key, capacity);
        RecencySnoc(touches, use.key);
      } else {
        assert TouchedBy(uses, capacity) == touches;
      }
    }
  }

  lemma {:induction false} RecencyOfNothing()
    ensures Recency([]) == []
  {}

  lemma {:induction false} RecencySnoc(touches: seq<Key>, key: Key)
    ensures Recency(touches + [key]) == Drop(Recency(touches), key) + [key]
  {
    hide Drop;
    assert (touches + [key])[..|touches|] == touches;
  }

  // ----- The queue

  datatype Cached<+D> = Cached(slot: Slot<D>, generation: nat)

  /** A queue entry is live when its key was not touched since. */
  predicate IsLive<D>(chunks: map<Key, Cached<D>>, entry: Entry) {
    entry.0 in chunks && chunks[entry.0].generation == entry.1
  }

  /** The keys of the live entries, oldest first. */
  function Live<D>(chunks: map<Key, Cached<D>>, order: seq<Entry>): (r: seq<Key>)
    ensures forall k :: k in r ==> k in chunks && (k, chunks[k].generation) in order
  {
    if order == [] then []
    else if IsLive(chunks, order[0]) then [order[0].0] + Live(chunks, order[1..])
    else Live(chunks, order[1..])
  }

  ghost predicate Rising(order: seq<Entry>) {
    forall i, j :: 0 <= i < j < |order| ==> order[i].1 < order[j].1
  }

  /** Every cached key, except possibly one, has its live entry in the queue. */
  ghost predicate Queued<D>(chunks: map<Key, Cached<D>>, order: seq<Entry>, except: set<Key>) {
    forall k :: k in chunks && k !in except ==> (k, chunks[k].generation) in order
  }

  lemma {:induction false} LiveNoRepeats<D>(chunks: map<Key, Cached<D>>, order: seq<Entry>)
    requires Rising(order)
    ensures NoRepeats(Live(chunks, order))
  {
    if order != [] {
      LiveNoRepeats(chunks, order[1..]);
      if IsLive(chunks, order[0]) {
        assert order[0] !in order[1..];
        assert order[0].0 !in Live(chunks, order[1..]);
      }
    }
  }

  lemma {:induction false} LiveHasQueued<D>(chunks: map<Key, Cached<D>>, order: seq<Entry>, k: Key)
    requires k in chunks && (k, chunks[k].generation) in order
    ensures k in Live(chunks, order)
  {
    if order[0] != (k, chunks[k].generation) {
      LiveHasQueued(chunks, order[1..], k);
    }
  }

  lemma {:induction false} NoRepeatsCard(s: seq<Key>, keys: set<Key>)
    requires NoRepeats(s) && forall k :: k in s <==> k in keys
    ensures |s| == |keys|
    decreases |s|
  {
    if s != [] {
      var rest := s[1..];
      forall k
        ensures k in rest <==> k in keys - {s[0]}
      {
        if k in rest {
          assert k in s;
        }
        if k in keys - {s[0]} {
          assert k in s;
          var i :| 0 <= i < |s| && s[i] == k;
          assert rest[i - 1] == k;
        }
      }
      NoRepeatsCard(rest, keys - {s[0]});
    } else {
      assert keys == {};
    }
  }

  lemma {:induction false} LiveCard<D>(chunks: map<Key, Cached<D>>, order: seq<Entry>, except: set<Key>)
    requires Rising(order) && Queued(chunks, order, except)
    requires forall k :: k in except && k in chunks ==> (k, chunks[k].generation) !in order
    ensures |Live(chunks, order)| == |chunks.Keys - except|
  {
    LiveNoRepeats(chunks, order);
    forall k
      ensures k in Live(chunks, order) <==> k in chunks.Keys - except
    {
      if k in chunks.Keys - except {
        LiveHasQueued(chunks, order, k);
      }
    }
    NoRepeatsCard(Live(chunks, order), chunks.Keys - except);
  }

  // ----- How each step moves the live keys

  /** Restamping a key takes it out of the live sequence. */
  lemma {:induction false} LiveAfterRestamp<D>(chunks: map<Key, Cached<D>>, order: seq<Entry>, key: Key,
                                                     cached: Cached<D>)
    requires forall i :: 0 <= i < |order| ==> order[i].1 < cached.generation
    ensures Live(chunks[key := cached], order) == Drop(Live(chunks, order), key)
  {
    if order != [] {
      LiveAfterRestamp(chunks, order[1..], key, cached);
      var rest := Live(chunks, order[1..]);
      if IsLive(chunks, order[0]) {
        assert Live(chunks, order) == [order[0].0] + rest;
        assert ([order[0].0] + rest)[1..] == rest;
      }
    }
  }

  lemma {:induction false} LiveSnoc<D>(chunks: map<Key, Cached<D>>, order: seq<Entry>, entry: Entry)
    ensures Live(chunks, order + [entry]) == Live(chunks, order) + if IsLive(chunks, entry) then [entry.0] else []
  {
    if order != [] {
      LiveSnoc(chunks, order[1..], entry);
      assert (order + [entry])[1..] == order[1..] + [entry];
      assert (order + [entry])[0] == order[0];
    } else {
      assert order + [entry] == [entry];
    }
  }

  /** Forgetting a key that is not live in the queue changes no other live key. */
  lemma {:induction false} LiveAfterForget<D>(chunks: map<Key, Cached<D>>, order: seq<Entry>, key: Key)
    requires key in chunks ==> (key, chunks[key].generation) !in order
    ensures Live(chunks - {key}, order) == Live(chunks, order)
  {
    if order != [] {
      assert order[0] in order;
      LiveAfterForget(chunks, order[1..], key);
    }
  }

  function Retain<D>(chunks: map<Key, Cached<D>>, order: seq<Entry>): (r: seq<Entry>) {
    if order == [] then []
    else if IsLive(chunks, order[0]) then [order[0]] + Retain(chunks, order[1..])
    else Retain(chunks, order[1..])
  }

  lemma {:induction false} RetainFacts<D>(chunks: map<Key, Cached<D>>, order: seq<Entry>)
    ensures Live(chunks, Retain(chunks, order)) == Live(chunks, order)
    ensures |Retain(chunks, order)| == |Live(chunks, order)|
    ensures forall e :: e in Retain(chunks, order) <==> e in order && IsLive(chunks, e)
  {
    if order != [] {
      RetainFacts(chunks, order[1..]);
      var rest := Retain(chunks, order[1..]);
      assert ([order[0]] + rest)[1..] == rest;
      assert order == [order[0]] + order[1..];
    }
  }

  lemma {:induction false} RetainRising<D>(chunks: map<Key, Cached<D>>, order: seq<Entry>)
    requires Rising(order)
    ensures Rising(Retain(chunks, order))
  {
    if order != [] {
      RetainRising(chunks, order[1..]);
      RetainFacts(chunks, order[1..]);
      var rest := Retain(chunks, order[1..]);
      forall i | 0 <= i < |rest|
        ensures order[0].1 < rest[i].1
      {
        assert rest[i] in order[1..];
      }
    }
  }

  lemma {:induction false} LiveHead<D>(chunks: map<Key, Cached<D>>, order: seq<Entry>)
    requires Rising(order) && order != [] && IsLive(chunks, order[0])
    ensures Live(chunks - {order[0].0}, order[1..]) == Live(chunks, order)[1..]
    ensures Live(chunks, order) != [] && Live(chunks, order)[0] == order[0].0
  {
    assert order[0] !in order[1..];
    LiveAfterForget(chunks, order[1..], order[0].0);
  }

  function Slots<D>(chunks: map<Key, Cached<D>>): map<Key, Slot<D>> {
    map k | k in chunks :: chunks[k].slot
  }

  lemma {:induction false} SlotOf<D>(chunks: map<Key, Cached<D>>, key: Key)
    ensures key in Slots(chunks) <==> key in chunks
    ensures key in chunks ==> Slots(chunks)[key] == chunks[key].slot
  {}

  /** Longest queue the cache lets build up. */
  function QueueBound(capacity: nat): nat {
    if 2 * capacity > 2 then 2 * capacity else 2
  }

  ghost predicate InOrder<D>(chunks: map<Key, Cached<D>>, order: seq<Entry>, upTo: nat) {
    Rising(order) && forall i :: 0 <= i < |order| ==> order[i].1 <= upTo
  }

  lemma {:induction false} QueuedRestamp<D>(chunks: map<Key, Cached<D>>, order: seq<Entry>, key: Key, cached: Cached<D>)
    requires Queued(chunks, order, {})
    ensures Queued(chunks[key := cached], order, {key})
  {}

  lemma {:induction false} SlotsRestamp<D>(chunks: map<Key, Cached<D>>, key: Key, cached: Cached<D>)
    ensures Slots(chunks[key := cached]) == Slots(chunks)[key := cached.slot]
    ensures |chunks[key := cached]| <= |chunks| + 1
  {
    assert chunks[key := cached].Keys == chunks.Keys + {key};
  }

  class DecodedChunkCache<D> {
    const capacity: nat
    var chunks: map<Key, Cached<D>>
    var order: seq<Entry>
    var generation: nat

    /** The 64-bit generation counter has not wrapped, and the queue is sound. */
    ghost predicate Valid()
      reads this
    {
      && capacity >= 1
      && generation < WordSize
      && |chunks| <= capacity
      && |order| <= QueueBound(capacity)
      && InOrder(chunks, order, generation)
      && Queued(chunks, order, {})
    }

    /** The plain map this cache stands for. */
    ghost function View(): Plain<D>
      reads this
    {
      Plain(Live(chunks, order), Slots(chunks))
    }

    constructor (capacity: nat)
      requires capacity >= 1
      ensures Valid() && this.capacity == capacity && View() == Plain([], map[]) && generation == 0
    {
      this.capacity := capacity;
      chunks, order, generation := map[], [], 0;
    }

    method CompactOrderIfNeeded()
      modifies this`order
      ensures |order| < QueueBound(capacity) || order == Retain(chunks, old(order))
      ensures order == old(order) || order == Retain(chunks, old(order))
    {
      if |order| < QueueBound(capacity) {
        return;
      }
      var kept: seq<Entry> := [];
      for i := 0 to |order|
        invariant order == old(order) && kept + Retain(chunks, order[i..]) == Retain(chunks, order)
      {
        assert order[i..][1..] == order[i + 1..];
        if IsLive(chunks, order[i]) {
          kept := kept + [order[i]];
        }
      }
      assert order[|order|..] == [];
      order := kept;
    }

    /** Queues the freshly stamped key and evicts down to the capacity. */
    method FinishTouch(key: Key)
      requires capacity >= 1 && |chunks| <= capacity + 1 && generation < WordSize
      requires key in chunks && chunks[key].generation == generation
      requires |order| <= QueueBound(capacity)
      requires Rising(order) && forall i :: 0 <= i < |order| ==> order[i].1 < generation
      requires Queued(chunks, order, {key})
      modifies this`order, this`chunks
      ensures Valid()
      ensures View() == Evict(Plain(old(Live(chunks, order)) + [key], old(Slots(chunks))), capacity)
    {
      hide Live, Retain, Slots;
      RetainFacts(chunks, order);
      RetainRising(chunks, order);
      LiveCard(chunks, order, {key});
      assert |chunks.Keys - {key}| == |chunks| - 1;
      CompactOrderIfNeeded();
      assert forall i :: 0 <= i < |order| ==> order[i] in old(order);
      LiveSnoc(chunks, order, (key, generation));
      PushQueues(chunks, order, key, generation);
      order := order + [(key, generation)];
      EvictExcess();
    }

    /** Stamps a key with a new slot and finishes the touch. */
    method Stamp(key: Key, slot: Slot<D>)
      requires capacity >= 1 && |chunks| <= capacity && |order| <= QueueBound(capacity) && 0 < generation < WordSize
      requires InOrder(chunks, order, generation - 1) && Queued(chunks, order, {})
      modifies this`order, this`chunks
      ensures Valid()
      ensures View() == Touch(old(View()), key, slot, capacity)
    {
      hide Live, Drop, Evict, Slots, Queued;
      LiveAfterRestamp(chunks, order, key, Cached(slot, generation));
      SlotsRestamp(chunks, key, Cached(slot, generation));
      QueuedRestamp(chunks, order, key, Cached(slot, generation));
      chunks := chunks[key := Cached(slot, generation)];
      FinishTouch(key);
    }

    /** A hit answers with the decoded chunk, if there is one, and the raw bytes on
        request; every hit makes its key the most recent. */
    method GetDecoded(key: Key, includeRaw: bool, decode: Bytes -> Option<D>) returns (answer: Option<(D, Option<Bytes>)>)
      requires Valid() && generation + 1 < WordSize
      modifies this
      ensures Valid() && generation == old(generation) + 1
      ensures View() == PlainGet(old(View()), key, decode, capacity)
      ensures answer ==
              if key !in old(View()).slots then None
              else var slot := Decoded(old(View()).slots[key], decode);
                   if slot.decoded.None? then None
                   else Some((slot.decoded.value, if includeRaw then slot.raw else None))
    {
      hide Live, Touch, Slots, Queued, Rising;
      SlotOf(chunks, key);
      generation := (generation + 1) % WordSize;
      if key !in chunks {
        return None;
      }
      var slot := Decoded(chunks[key].slot, decode);
      Stamp(key, slot);
      if slot.decoded.None? {
        return None;
      }
      answer := Some((slot.decoded.value, if includeRaw then slot.raw else None));
    }

    method GetRaw(key: Key) returns (answer: Option<Bytes>)
      requires Valid() && generation + 1 < WordSize
      modifies this
      ensures Valid() && generation == old(generation) + 1
      ensures View() == PlainGetRaw(old(View()), key, capacity)
      ensures answer == if key in old(View()).slots then old(View()).slots[key].raw else None
    {
      hide Live, Touch, Slots, Queued, Rising;
      SlotOf(chunks, key);
      generation := (generation + 1) % WordSize;
      if key !in chunks {
        return None;
      }
      answer := chunks[key].slot.raw;
      Stamp(key, chunks[key].slot);
    }

    method Insert(key: Key, raw: Option<Bytes>, decoded: Option<D>)
      requires Valid() && generation + 1 < WordSize
      modifies this
      ensures Valid() && generation == old(generation) + 1
      ensures View() == PlainInsert(old(View()), key, raw, decoded, capacity)
    {
      hide Live, Touch, Slots, Queued, Rising;
      SlotOf(chunks, key);
      generation := (generation + 1) % WordSize;
      var kept := if key in chunks then chunks[key].slot else Slot(None, None);
      Stamp(key, Slot(Or(kept.raw, raw), Or(decoded, kept.decoded)));
    }

    /** Any sequence of uses, from an empty cache. */
    method Replay(uses: seq<Use<D>>)
      requires Valid() && View() == Plain([], map[]) && generation + |uses| < WordSize
      modifies this
      ensures Valid() && View() == PlainRun(uses, capacity)
      ensures View().order == LastOf(Recency(TouchedBy(uses, capacity)), capacity)
    {
      assert capacity >= 1;
      hide Valid, View, PlainGet, PlainGetRaw, PlainInsert, Recency, TouchedBy, LastOf;
      for i := 0 to |uses|
        invariant Valid() && generation == old(generation) + i
        invariant View() == PlainRun(uses[..i], capacity)
      {
        assert uses[..i + 1][..i] == uses[..i];
        match uses[i] {
          case Lookup(key, decode) => var answer := GetDecoded(key, false, decode);
          case LookupRaw(key) => var answer := GetRaw(key);
          case Insertion(key, raw, decoded) => Insert(key, raw, decoded);
        }
      }
      assert uses[..|uses|] == uses;
      RunKeepsMostRecent(uses, capacity);
    }

    method EvictExcess()
      requires capacity >= 1 && |chunks| <= capacity + 1 && |order| <= QueueBound(capacity) && generation < WordSize
      requires InOrder(chunks, order, generation) && Queued(chunks, order, {})
      modifies this`order, this`chunks
      ensures Valid() && View() == Evict(old(View()), capacity)
    {
      hide Live, Slots, Queued, InOrder, IsLive;
      ghost var full := View();
      LiveIsAll(chunks, order, generation);
      while |chunks| > capacity
        invariant |chunks| <= capacity + 1 && |order| <= QueueBound(capacity)
        invariant InOrder(chunks, order, generation) && Queued(chunks, order, {})
        invariant if |chunks| > capacity then View() == full && |full.order| == |chunks|
                  else View() == Evict(full, capacity)
        decreases |order|
      {
        LiveOfNothing(chunks, order);
        EvictStep(chunks, order, generation);
        var expired := order[0];
        if IsLive(chunks, expired) {
          chunks := chunks - {expired.0};
        }
        order := order[1..];
      }
    }
  }

  lemma {:induction false} LiveIsAll<D>(chunks: map<Key, Cached<D>>, order: seq<Entry>, generation: nat)
    requires InOrder(chunks, order, generation) && Queued(chunks, order, {})
    ensures |Live(chunks, order)| == |chunks|
  {
    LiveCard(chunks, order, {});
    assert chunks.Keys - {} == chunks.Keys;
  }

  /** One turn of the eviction loop on the plain view: nothing for a stale entry,
      the loss of the least recent key for a live one. */
  lemma {:induction false} EvictStep<D>(chunks: map<Key, Cached<D>>, order: seq<Entry>, generation: nat)
    requires InOrder(chunks, order, generation) && Queued(chunks, order, {}) && order != []
    ensures var chunks' := if IsLive(chunks, order[0]) then chunks - {order[0].0} else chunks;
            && InOrder(chunks', order[1..], generation)
            && Queued(chunks', order[1..], {})
    ensures !IsLive(chunks, order[0]) ==> Live(chunks, order[1..]) == Live(chunks, order)
    ensures IsLive(chunks, order[0]) ==>
              && |chunks - {order[0].0}| == |chunks| - 1
              && Live(chunks, order) != []
              && Live(chunks - {order[0].0}, order[1..]) == Live(chunks, order)[1..]
              && Slots(chunks - {order[0].0}) == Slots(chunks) - {Live(chunks, order)[0]}
  {
    hide Slots;
    PopKeeps(chunks, order);
    if IsLive(chunks, order[0]) {
      LiveHead(chunks, order);
      ForgetSlot(chunks, order[0].0);
    }
  }

  lemma {:induction false} PushQueues<D>(chunks: map<Key, Cached<D>>, order: seq<Entry>, key: Key, generation: nat)
    requires Rising(order) && forall i :: 0 <= i < |order| ==> order[i].1 < generation
    requires key in chunks && chunks[key].generation == generation && Queued(chunks, order, {key})
    ensures InOrder(chunks, order + [(key, generation)], generation)
    ensures Queued(chunks, order + [(key, generation)], {})
  {}

  lemma {:induction false} LiveOfNothing<D>(chunks: map<Key, Cached<D>>, order: seq<Entry>)
    ensures order == [] ==> Live(chunks, order) == []
  {}

  /** Popping the oldest entry: a stale one changes nothing, a live one is the
      least recently used key. */
  lemma {:induction false} PopKeeps<D>(chunks: map<Key, Cached<D>>, order: seq<Entry>)
    requires order != [] && Rising(order) && Queued(chunks, order, {})
    ensures Rising(order[1..])
    ensures !IsLive(chunks, order[0]) ==> Live(chunks, order[1..]) == Live(chunks, order)
    ensures Queued(if IsLive(chunks, order[0]) then chunks - {order[0].0} else chunks, order[1..], {})
  {
    var chunks' := if IsLive(chunks, order[0]) then chunks - {order[0].0} else chunks;
    forall k | k in chunks'
      ensures (k, chunks'[k].generation) in order[1..]
    {
      assert (k, chunks[k].generation) in order;
      assert (k, chunks[k].generation) != order[0];
    }
  }

  lemma {:induction false} ForgetSlot<D>(chunks: map<Key, Cached<D>>, key: Key)
    requires key in chunks
    ensures |chunks - {key}| == |chunks| - 1
    ensures Slots(chunks - {key}) == Slots(chunks) - {key}
  {
    assert (chunks - {key}).Keys == chunks.Keys - {key};
  }
}
