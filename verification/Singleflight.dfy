/** The singleflight registry: concurrent requests for one key share one flight,
    and every registered waiter is owed exactly one delivery. */
module Singleflight {
  import opened Options

  datatype Flight<W, A> = Flight(id: nat, shared: A, waiters: seq<(nat, W)>)

  datatype State<!K, W, A> = State(nextFlight: nat, nextWaiter: nat, flights: map<K, Flight<W, A>>)

  /** Counts up in 64 bits, skipping zero when it wraps. */
  function NextGeneration(current: nat): nat {
    var next := (current + 1) % WordSize;
    if next == 0 then 1 else next
  }

  // ----- The three operations, on values

  /** Joins the key's flight, or opens one and leads it. */
  function Register<K, W, A>(s: State<K, W, A>, key: K, waiter: W, shared: A): State<K, W, A> {
    var id := NextGeneration(s.nextWaiter);
    if key in s.flights then
      var flight := s.flights[key];
      s.(nextWaiter := id, flights := s.flights[key := flight.(waiters := flight.waiters + [(id, waiter)])])
    else
      var flightId := NextGeneration(s.nextFlight);
      State(flightId, id, s.flights[key := Flight(flightId, shared, [(id, waiter)])])
  }

  function PositionOf<W>(waiters: seq<(nat, W)>, id: nat): (r: Option<nat>)
    ensures r.Some? ==> r.value < |waiters| && waiters[r.value].0 == id
    ensures r.None? ==> forall i :: 0 <= i < |waiters| ==> waiters[i].0 != id
  {
    if waiters == [] then None
    else if waiters[0].0 == id then Some(0)
    else match PositionOf(waiters[1..], id)
      case None => None
      case Some(i) => Some(i + 1)
  }

  /** Removal moves the last waiter into the gap. */
  function SwapRemove<T>(xs: seq<T>, i: nat): (r: seq<T>)
    requires i < |xs|
  {
    xs[i := xs[|xs| - 1]][..|xs| - 1]
  }

  /** A waiter leaves; the flight stays registered, even with nobody waiting. */
  function RemoveWaiter<K, W, A>(s: State<K, W, A>, key: K, flightId: nat, waiterId: nat): State<K, W, A> {
    if key !in s.flights || s.flights[key].id != flightId then s
    else match PositionOf(s.flights[key].waiters, waiterId)
      case None => s
      case Some(i) =>
        var flight := s.flights[key];
        s.(flights := s.flights[key := flight.(waiters := SwapRemove(flight.waiters, i))])
  }

  /** The producer detaches its own flight, and no other. */
  function Take<K, W, A>(s: State<K, W, A>, key: K, flightId: nat): State<K, W, A> {
    if key !in s.flights || s.flights[key].id != flightId then s else s.(flights := s.flights - {key})
  }

  datatype Op<K, W, A> = Join(key: K, waiter: W, shared: A)
                       | Leave(key: K, flightId: nat, waiterId: nat)
                       | Complete(key: K, flightId: nat)

  function Step<K, W, A>(s: State<K, W, A>, op: Op<K, W, A>): State<K, W, A> {
    match op
    case Join(key, waiter, shared) => Register(s, key, waiter, shared)
    case Leave(key, flightId, waiterId) => RemoveWaiter(s, key, flightId, waiterId)
    case Complete(key, flightId) => Take(s, key, flightId)
  }

  // ----- What has become of every waiter

  datatype Fate = Waiting | Delivered | Removed

  /** For every waiter ever registered: the flight it joined and its fate; for
      every flight ever opened: its leader; and the deliveries in order. */
  datatype History = History(home: map<nat, nat>, fate: map<nat, Fate>, leader: map<nat, nat>, log: seq<nat>)

  function Ids<W>(waiters: seq<(nat, W)>): (r: seq<nat>)
    ensures |r| == |waiters|
  {
    seq(|waiters|, i requires 0 <= i < |waiters| => waiters[i].0)
  }

  function WithFate(fate: map<nat, Fate>, ids: seq<nat>, to: Fate): map<nat, Fate> {
    map w | w in fate :: if w in ids then to else fate[w]
  }

  function Recorded<K, W, A>(s: State<K, W, A>, h: History, op: Op<K, W, A>): History {
    match op
    case Join(key, waiter, shared) =>
      var id := NextGeneration(s.nextWaiter);
      if key in s.flights then h.(home := h.home[id := s.flights[key].id], fate := h.fate[id := Waiting])
      else
        var flightId := NextGeneration(s.nextFlight);
        h.(home := h.home[id := flightId], fate := h.fate[id := Waiting], leader := h.leader[flightId := id])
    case Leave(key, flightId, waiterId) =>
      if key in s.flights && s.flights[key].id == flightId && PositionOf(s.flights[key].waiters, waiterId).Some?
      then h.(fate := h.fate[waiterId := Removed]) else h
    case Complete(key, flightId) =>
      if key in s.flights && s.flights[key].id == flightId then
        var ids := Ids(s.flights[key].waiters);
        h.(fate := WithFate(h.fate, ids, Delivered), log := h.log + ids)
      else h
  }

  ghost predicate IsWaitingOn<K(!new), W, A>(s: State<K, W, A>, key: K, id: nat) {
    key in s.flights && id in Ids(s.flights[key].waiters)
  }

  /** One live flight per key, each with its own id and one leader. */
  ghost predicate OneFlightPerKey<K(!new), W, A>(s: State<K, W, A>, h: History) {
    && (forall k :: k in s.flights ==> 0 < s.flights[k].id <= s.nextFlight && s.flights[k].id in h.leader)
    && (forall k, l :: k in s.flights && l in s.flights && k != l ==> s.flights[k].id != s.flights[l].id)
    && (forall f :: f in h.leader <==> 0 < f <= s.nextFlight)
    && forall f :: f in h.leader ==> h.leader[f] in h.home && h.home[h.leader[f]] == f
  }

  /** Every waiter still listed is waiting, on the flight it joined. */
  ghost predicate ListedAreWaiting<K(!new), W, A>(s: State<K, W, A>, h: History) {
    forall k :: k in s.flights ==>
      && NoRepeats(Ids(s.flights[k].waiters))
      && forall w :: w in Ids(s.flights[k].waiters) ==>
           w in h.home && w in h.fate && h.home[w] == s.flights[k].id && h.fate[w] == Waiting
  }

  /** Every waiter counted as waiting is listed on a live flight. */
  ghost predicate WaitingAreListed<K(!new), W, A>(s: State<K, W, A>, h: History) {
    forall w :: w in h.fate && h.fate[w] == Waiting ==> exists k :: IsWaitingOn(s, k, w)
  }

  /** The log holds each delivered waiter exactly once. */
  ghost predicate LoggedOnce(h: History) {
    && NoRepeats(h.log)
    && forall w :: w in h.log <==> w in h.fate && h.fate[w] == Delivered
  }

  ghost predicate Accounted<K(!new), W, A>(s: State<K, W, A>, h: History) {
    && s.nextFlight <= s.nextWaiter
    && h.home.Keys == h.fate.Keys
    && (forall w :: w in h.fate <==> 0 < w <= s.nextWaiter)
    && OneFlightPerKey(s, h)
    && ListedAreWaiting(s, h)
    && WaitingAreListed(s, h)
    && LoggedOnce(h)
  }

  // ----- Every step keeps the account

  lemma {:induction false} IdsSnoc<W>(waiters: seq<(nat, W)>, id: nat, waiter: W)
    ensures Ids(waiters + [(id, waiter)]) == Ids(waiters) + [id]
  {}

  lemma {:induction false} JoinAccounted<K(!new), W, A>(s: State<K, W, A>, h: History, key: K, waiter: W, shared: A)
    requires Accounted(s, h) && s.nextWaiter + 1 < WordSize
    ensures Accounted(Register(s, key, waiter, shared), Recorded(s, h, Join(key, waiter, shared)))
  {
    hide OneFlightPerKey, ListedAreWaiting, WaitingAreListed, LoggedOnce;
    JoinFlights(s, h, key, waiter, shared);
    JoinListed(s, h, key, waiter, shared);
    JoinWaiting(s, h, key, waiter, shared);
    JoinLogged(s, h, key, waiter, shared);
  }

  lemma {:induction false} JoinLogged<K(!new), W, A>(s: State<K, W, A>, h: History, key: K, waiter: W, shared: A)
    requires Accounted(s, h) && s.nextWaiter + 1 < WordSize
    ensures LoggedOnce(Recorded(s, h, Join(key, waiter, shared)))
  {
    hide OneFlightPerKey, ListedAreWaiting, WaitingAreListed;
    assert s.nextWaiter + 1 !in h.fate;
  }

  lemma {:induction false} JoinFlights<K(!new), W, A>(s: State<K, W, A>, h: History, key: K, waiter: W, shared: A)
    requires Accounted(s, h) && s.nextWaiter + 1 < WordSize
    ensures OneFlightPerKey(Register(s, key, waiter, shared), Recorded(s, h, Join(key, waiter, shared)))
  {
    hide ListedAreWaiting, WaitingAreListed, LoggedOnce, OneFlightPerKey, Accounted;
    if key in s.flights {
      JoinLiveFlight(s, h, key, waiter, shared);
    } else {
      JoinNewFlight(s, h, key, waiter, shared);
    }
  }

  lemma {:induction false} JoinLiveFlight<K(!new), W, A>(s: State<K, W, A>, h: History, key: K, waiter: W, shared: A)
    requires Accounted(s, h) && s.nextWaiter + 1 < WordSize && key in s.flights
    ensures OneFlightPerKey(Register(s, key, waiter, shared), Recorded(s, h, Join(key, waiter, shared)))
  {
    hide ListedAreWaiting, WaitingAreListed, LoggedOnce;
  }

  lemma {:induction false} JoinNewFlight<K(!new), W, A>(s: State<K, W, A>, h: History, key: K, waiter: W, shared: A)
    requires Accounted(s, h) && s.nextWaiter + 1 < WordSize && key !in s.flights
    ensures OneFlightPerKey(Register(s, key, waiter, shared), Recorded(s, h, Join(key, waiter, shared)))
  {
    hide ListedAreWaiting, WaitingAreListed, LoggedOnce;
  }

  lemma {:induction false} JoinIds<K(!new), W, A>(s: State<K, W, A>, key: K, waiter: W, shared: A)
    requires s.nextWaiter + 1 < WordSize
    ensures var s' := Register(s, key, waiter, shared);
            && key in s'.flights
            && Ids(s'.flights[key].waiters) ==
               (if key in s.flights then Ids(s.flights[key].waiters) else []) + [s.nextWaiter + 1]
            && forall k :: k in s.flights && k != key ==> k in s'.flights && s'.flights[k] == s.flights[k]
    ensures forall k :: k in Register(s, key, waiter, shared).flights ==> k == key || k in s.flights
  {
    hide Ids;
    var id := s.nextWaiter + 1;
    if key in s.flights {
      IdsSnoc(s.flights[key].waiters, id, waiter);
    } else {
      IdsSnoc([], id, waiter);
      IdsEmpty<W>();
      assert [] + [(id, waiter)] == [(id, waiter)];
    }
  }

  lemma {:induction false} JoinListed<K(!new), W, A>(s: State<K, W, A>, h: History, key: K, waiter: W, shared: A)
    requires Accounted(s, h) && s.nextWaiter + 1 < WordSize
    ensures ListedAreWaiting(Register(s, key, waiter, shared), Recorded(s, h, Join(key, waiter, shared)))
  {
    hide OneFlightPerKey, WaitingAreListed, LoggedOnce, Ids;
    var s', h' := Register(s, key, waiter, shared), Recorded(s, h, Join(key, waiter, shared));
    var id := s.nextWaiter + 1;
    JoinIds(s, key, waiter, shared);
    assert id !in h.fate && h'.home[id] == s'.flights[key].id;
    forall k | k in s'.flights
      ensures NoRepeats(Ids(s'.flights[k].waiters))
      ensures forall w :: w in Ids(s'.flights[k].waiters) ==>
                w in h'.home && w in h'.fate && h'.home[w] == s'.flights[k].id && h'.fate[w] == Waiting
    {
      assert k in s.flights ==> id !in Ids(s.flights[k].waiters);
      if k == key && k in s.flights {
        NoRepeatsSnoc(Ids(s.flights[k].waiters), id);
      }
    }
  }

  lemma {:induction false} NoRepeatsSnoc(ids: seq<nat>, id: nat)
    requires NoRepeats(ids) && id !in ids
    ensures NoRepeats(ids + [id])
  {}

  lemma {:induction false} JoinWaiting<K(!new), W, A>(s: State<K, W, A>, h: History, key: K, waiter: W, shared: A)
    requires Accounted(s, h) && s.nextWaiter + 1 < WordSize
    ensures WaitingAreListed(Register(s, key, waiter, shared), Recorded(s, h, Join(key, waiter, shared)))
  {
    hide OneFlightPerKey, ListedAreWaiting, LoggedOnce, Ids;
    var s', h' := Register(s, key, waiter, shared), Recorded(s, h, Join(key, waiter, shared));
    var id := s.nextWaiter + 1;
    JoinIds(s, key, waiter, shared);
    assert IsWaitingOn(s', key, id);
    forall w | w in h'.fate && h'.fate[w] == Waiting
      ensures exists k :: IsWaitingOn(s', k, w)
    {
      if w != id {
        var k :| IsWaitingOn(s, k, w);
        assert IsWaitingOn(s', k, w);
      }
    }
  }

  lemma {:induction false} IdsEmpty<W>()
    ensures Ids<W>([]) == []
  {}

  lemma {:induction false} SwapRemoveMembers<W>(waiters: seq<(nat, W)>, i: nat)
    requires i < |waiters| && NoRepeats(Ids(waiters))
    ensures NoRepeats(Ids(SwapRemove(waiters, i)))
    ensures forall w :: w in Ids(SwapRemove(waiters, i)) <==> w in Ids(waiters) && w != waiters[i].0
  {
    var after := SwapRemove(waiters, i);
    var last := |waiters| - 1;
    forall j | 0 <= j < |after|
      ensures Ids(after)[j] == Ids(waiters)[if j == i then last else j]
    {}
    forall w | w in Ids(waiters) && w != waiters[i].0
      ensures w in Ids(after)
    {
      var j :| 0 <= j < |waiters| && Ids(waiters)[j] == w;
      assert Ids(after)[if j == last then i else j] == w;
    }
    forall w | w in Ids(after)
      ensures w in Ids(waiters) && w != waiters[i].0
    {
      var j :| 0 <= j < |after| && Ids(after)[j] == w;
      var from := if j == i then last else j;
      assert Ids(waiters)[from] == w && from != i;
      assert Ids(waiters)[i] == waiters[i].0;
    }
  }

  /** What a removal that finds its waiter does to the lists. */
  lemma {:induction false} LeaveIds<K(!new), W, A>(s: State<K, W, A>, h: History, key: K, flightId: nat, waiterId: nat)
    requires Accounted(s, h) && key in s.flights && s.flights[key].id == flightId
    requires PositionOf(s.flights[key].waiters, waiterId).Some?
    ensures var s' := RemoveWaiter(s, key, flightId, waiterId);
            && s'.flights.Keys == s.flights.Keys
            && s'.flights[key].id == flightId
            && NoRepeats(Ids(s'.flights[key].waiters))
            && (forall w :: w in Ids(s'.flights[key].waiters) <==> w in Ids(s.flights[key].waiters) && w != waiterId)
            && forall k :: k in s.flights && k != key ==> s'.flights[k] == s.flights[k]
    ensures waiterId in Ids(s.flights[key].waiters)
  {
    hide OneFlightPerKey, WaitingAreListed, LoggedOnce, SwapRemove;
    var waiters := s.flights[key].waiters;
    var i := PositionOf(waiters, waiterId).value;
    assert Ids(waiters)[i] == waiterId;
    SwapRemoveMembers(waiters, i);
  }

  lemma {:induction false} LeaveAccounted<K(!new), W, A>(s: State<K, W, A>, h: History, key: K, flightId: nat, waiterId: nat)
    requires Accounted(s, h)
    ensures Accounted(RemoveWaiter(s, key, flightId, waiterId), Recorded(s, h, Leave(key, flightId, waiterId)))
  {
    hide OneFlightPerKey, ListedAreWaiting, WaitingAreListed, LoggedOnce;
    if key in s.flights && s.flights[key].id == flightId && PositionOf(s.flights[key].waiters, waiterId).Some? {
      LeaveListed(s, h, key, flightId, waiterId);
      LeaveWaiting(s, h, key, flightId, waiterId);
      LeaveLogged(s, h, key, flightId, waiterId);
      LeaveFlights(s, h, key, flightId, waiterId);
    }
  }

  lemma {:induction false} LeaveLogged<K(!new), W, A>(s: State<K, W, A>, h: History, key: K, flightId: nat, waiterId: nat)
    requires Accounted(s, h) && key in s.flights && s.flights[key].id == flightId
    requires PositionOf(s.flights[key].waiters, waiterId).Some?
    ensures waiterId in h.fate && h.fate[waiterId] == Waiting
    ensures LoggedOnce(Recorded(s, h, Leave(key, flightId, waiterId)))
  {
    hide WaitingAreListed, OneFlightPerKey, Ids, RemoveWaiter;
    LeaveIds(s, h, key, flightId, waiterId);
  }

  lemma {:induction false} LeaveFlights<K(!new), W, A>(s: State<K, W, A>, h: History, key: K, flightId: nat, waiterId: nat)
    requires Accounted(s, h) && key in s.flights && s.flights[key].id == flightId
    requires PositionOf(s.flights[key].waiters, waiterId).Some?
    ensures OneFlightPerKey(RemoveWaiter(s, key, flightId, waiterId), Recorded(s, h, Leave(key, flightId, waiterId)))
  {
    hide WaitingAreListed, ListedAreWaiting, LoggedOnce, Ids, RemoveWaiter;
    LeaveIds(s, h, key, flightId, waiterId);
    LeaveCounts(s, key, flightId, waiterId);
    var s' := RemoveWaiter(s, key, flightId, waiterId);
    assert forall k :: k in s.flights ==> k in s'.flights && s'.flights[k].id == s.flights[k].id;
  }

  lemma {:induction false} LeaveListed<K(!new), W, A>(s: State<K, W, A>, h: History, key: K, flightId: nat, waiterId: nat)
    requires Accounted(s, h) && key in s.flights && s.flights[key].id == flightId
    requires PositionOf(s.flights[key].waiters, waiterId).Some?
    ensures ListedAreWaiting(RemoveWaiter(s, key, flightId, waiterId), Recorded(s, h, Leave(key, flightId, waiterId)))
  {
    hide WaitingAreListed, LoggedOnce, Ids;
    LeaveIds(s, h, key, flightId, waiterId);
    hide RemoveWaiter;
  }

  lemma {:induction false} LeaveWaiting<K(!new), W, A>(s: State<K, W, A>, h: History, key: K, flightId: nat, waiterId: nat)
    requires Accounted(s, h) && key in s.flights && s.flights[key].id == flightId
    requires PositionOf(s.flights[key].waiters, waiterId).Some?
    ensures WaitingAreListed(RemoveWaiter(s, key, flightId, waiterId), Recorded(s, h, Leave(key, flightId, waiterId)))
  {
    hide OneFlightPerKey, ListedAreWaiting, LoggedOnce, Ids;
    LeaveIds(s, h, key, flightId, waiterId);
    hide RemoveWaiter;
    var s', h' := RemoveWaiter(s, key, flightId, waiterId), Recorded(s, h, Leave(key, flightId, waiterId));
    forall w | w in h'.fate && h'.fate[w] == Waiting
      ensures exists k :: IsWaitingOn(s', k, w)
    {
      var k :| IsWaitingOn(s, k, w);
      assert IsWaitingOn(s', k, w);
    }
  }

  lemma {:induction false} CompleteAccounted<K(!new), W, A>(s: State<K, W, A>, h: History, key: K, flightId: nat)
    requires Accounted(s, h)
    ensures Accounted(Take(s, key, flightId), Recorded(s, h, Complete(key, flightId)))
  {
    hide Ids, WaitingAreListed, LoggedOnce;
    if key in s.flights && s.flights[key].id == flightId {
      CompleteWaiting(s, h, key, flightId);
      CompleteLogged(s, h, key, flightId);
    }
  }

  lemma {:induction false} CompleteWaiting<K(!new), W, A>(s: State<K, W, A>, h: History, key: K, flightId: nat)
    requires Accounted(s, h) && key in s.flights && s.flights[key].id == flightId
    ensures WaitingAreListed(Take(s, key, flightId), Recorded(s, h, Complete(key, flightId)))
  {
    hide Ids, OneFlightPerKey, ListedAreWaiting, LoggedOnce;
    var s', h' := Take(s, key, flightId), Recorded(s, h, Complete(key, flightId));
    forall w | w in h'.fate && h'.fate[w] == Waiting
      ensures exists k :: IsWaitingOn(s', k, w)
    {
      var k :| IsWaitingOn(s, k, w);
      assert IsWaitingOn(s', k, w);
    }
  }

  /** Delivered waiters were waiting until now, so none is delivered again. */
  lemma {:induction false} CompleteLogged<K(!new), W, A>(s: State<K, W, A>, h: History, key: K, flightId: nat)
    requires Accounted(s, h) && key in s.flights && s.flights[key].id == flightId
    ensures LoggedOnce(Recorded(s, h, Complete(key, flightId)))
  {
    hide Ids, OneFlightPerKey, WaitingAreListed;
    var h' := Recorded(s, h, Complete(key, flightId));
    var ids := Ids(s.flights[key].waiters);
    assert h'.log == h.log + ids;
    forall i, j | 0 <= i < j < |h'.log|
      ensures h'.log[i] != h'.log[j]
    {
      if i < |h.log| <= j {
        assert h.log[i] in h.log && ids[j - |h.log|] in ids;
      }
    }
    forall w
      ensures w in h'.log <==> w in h'.fate && h'.fate[w] == Delivered
    {
      assert w in h'.log <==> w in h.log || w in ids;
    }
  }

  function Start<K, W, A>(): State<K, W, A> {
    State(0, 0, map[])
  }

  function Run<K, W, A>(ops: seq<Op<K, W, A>>): (State<K, W, A>, History) {
    if ops == [] then (Start(), History(map[], map[], map[], []))
    else
      var (s, h) := Run(ops[..|ops| - 1]);
      var op := ops[|ops| - 1];
      (Step(s, op), Recorded(s, h, op))
  }

  /** Over every run short of exhausting the 64-bit counters: one live flight per
      key, each with one leader; each waiter waiting on a live flight, removed, or
      delivered exactly once. */
  lemma {:induction false} RunAccounted<K(!new), W, A>(ops: seq<Op<K, W, A>>)
    requires |ops| < WordSize
    ensures Accounted(Run(ops).0, Run(ops).1)
    ensures Run(ops).0.nextWaiter <= |ops|
  {
    if ops != [] {
      hide Accounted, Register, RemoveWaiter, Take, Recorded;
      var init, op := ops[..|ops| - 1], ops[|ops| - 1];
      RunAccounted(init);
      var (s, h) := Run(init);
      match op {
        case Join(key, waiter, shared) =>
          JoinAccounted(s, h, key, waiter, shared);
          JoinCounts(s, key, waiter, shared);
        case Leave(key, flightId, waiterId) =>
          LeaveAccounted(s, h, key, flightId, waiterId);
          LeaveCounts(s, key, flightId, waiterId);
        case Complete(key, flightId) =>
          CompleteAccounted(s, h, key, flightId);
          CompleteCounts(s, key, flightId);
      }
    }
  }

  lemma {:induction false} JoinCounts<K, W, A>(s: State<K, W, A>, key: K, waiter: W, shared: A)
    requires s.nextWaiter + 1 < WordSize
    ensures Register(s, key, waiter, shared).nextWaiter == s.nextWaiter + 1
  {}

  lemma {:induction false} LeaveCounts<K, W, A>(s: State<K, W, A>, key: K, flightId: nat, waiterId: nat)
    ensures RemoveWaiter(s, key, flightId, waiterId).nextWaiter == s.nextWaiter
    ensures RemoveWaiter(s, key, flightId, waiterId).nextFlight == s.nextFlight
  {}

  lemma {:induction false} CompleteCounts<K, W, A>(s: State<K, W, A>, key: K, flightId: nat)
    ensures Take(s, key, flightId).nextWaiter == s.nextWaiter
  {}

  /** A delivered or removed waiter keeps its fate, whatever happens next. */
  lemma {:induction false} FateIsFinal<K(!new), W, A>(s: State<K, W, A>, h: History, op: Op<K, W, A>, w: nat)
    requires Accounted(s, h) && s.nextWaiter + 1 < WordSize
    requires w in h.fate && h.fate[w] != Waiting
    ensures w in Recorded(s, h, op).fate && Recorded(s, h, op).fate[w] == h.fate[w]
  {
    if op.Leave? && op.key in s.flights && PositionOf(s.flights[op.key].waiters, op.waiterId).Some? {
      var waiters := s.flights[op.key].waiters;
      assert Ids(waiters)[PositionOf(waiters, op.waiterId).value] == op.waiterId;
      assert op.waiterId in Ids(waiters);
    }
  }

  // ----- Stale producers and callers

  /** A flight that was opened once and is not live under any key. */
  ghost predicate Ended<K(!new), W, A>(s: State<K, W, A>, flightId: nat) {
    0 < flightId <= s.nextFlight && forall k :: k in s.flights ==> s.flights[k].id != flightId
  }

  /** An ended flight's id is never given out again. */
  lemma {:induction false} EndedStays<K(!new), W, A>(s: State<K, W, A>, h: History, op: Op<K, W, A>, flightId: nat)
    requires Accounted(s, h) && Ended(s, flightId) && s.nextWaiter + 1 < WordSize
    ensures Ended(Step(s, op), flightId)
  {
    hide ListedAreWaiting, WaitingAreListed, LoggedOnce;
  }

  lemma {:induction false} TakenEnds<K(!new), W, A>(s: State<K, W, A>, h: History, key: K)
    requires Accounted(s, h) && key in s.flights
    ensures Ended(Take(s, key, s.flights[key].id), s.flights[key].id)
  {
    hide ListedAreWaiting, WaitingAreListed, LoggedOnce;
  }

  lemma {:induction false} EndedAfterRun<K(!new), W, A>(before: seq<Op<K, W, A>>, key: K, later: seq<Op<K, W, A>>)
    requires key in Run(before).0.flights && |before| + 1 + |later| < WordSize
    ensures var flightId := Run(before).0.flights[key].id;
            Ended(Run(before + [Complete(key, flightId)] + later).0, flightId)
    decreases |later|
  {
    hide Accounted, Ended, Step, Recorded;
    var flightId := Run(before).0.flights[key].id;
    var done := before + [Complete(key, flightId)];
    if later == [] {
      assert done + later == done && done[..|done| - 1] == before;
      RunAccounted(before);
      TakenEnds(Run(before).0, Run(before).1, key);
      StepCompletes(Run(before).0, key, flightId);
    } else {
      var n := |later| - 1;
      var all := done + later;
      assert all[..|all| - 1] == done + later[..n];
      EndedAfterRun(before, key, later[..n]);
      RunAccounted(done + later[..n]);
      EndedStays(Run(done + later[..n]).0, Run(done + later[..n]).1, later[n], flightId);
    }
  }

  lemma {:induction false} StepCompletes<K, W, A>(s: State<K, W, A>, key: K, flightId: nat)
    ensures Step(s, Complete(key, flightId)) == Take(s, key, flightId)
  {}

  /** Once a flight has been taken, its producer and its callers change nothing any
      more, under any key and after any continuation. */
  lemma {:induction false} StaleChangesNothing<K(!new), W, A>(before: seq<Op<K, W, A>>, key: K, later: seq<Op<K, W, A>>, other: K, waiterId: nat)
    requires key in Run(before).0.flights && |before| + 1 + |later| < WordSize
    ensures var flightId := Run(before).0.flights[key].id;
            var s := Run(before + [Complete(key, flightId)] + later).0;
            Take(s, other, flightId) == s && RemoveWaiter(s, other, flightId, waiterId) == s
  {
    hide Run;
    EndedAfterRun(before, key, later);
  }

  // ----- The registry object

  datatype Registration<K, A> = Registration(key: K, flightId: nat, waiterId: nat, shared: A, leader: bool)

  class SingleflightRegistry<!K(==), W, A> {
    var nextFlight: nat
    var nextWaiter: nat
    var flights: map<K, Flight<W, A>>

    function AsState(): State<K, W, A>
      reads this
    {
      State(nextFlight, nextWaiter, flights)
    }

    constructor ()
      ensures AsState() == Start()
    {
      nextFlight, nextWaiter, flights := 0, 0, map[];
    }

    /** Exactly the caller that found no flight leads the one it opened. */
    method RegisterWaiter(key: K, waiter: W, makeShared: () -> A) returns (r: Registration<K, A>)
      modifies this
      ensures AsState() == Register(old(AsState()), key, waiter, makeShared())
      ensures r.leader <==> key !in old(flights)
      ensures key in flights && r == Registration(key, flights[key].id, nextWaiter, flights[key].shared, r.leader)
      ensures r.leader ==> flights[key].shared == makeShared() && flights[key].waiters == [(r.waiterId, waiter)]
    {
      nextWaiter := NextGeneration(nextWaiter);
      var waiterId := nextWaiter;
      if key in flights {
        var flight := flights[key];
        flights := flights[key := flight.(waiters := flight.waiters + [(waiterId, waiter)])];
        return Registration(key, flight.id, waiterId, flight.shared, false);
      }
      nextFlight := NextGeneration(nextFlight);
      var shared := makeShared();
      flights := flights[key := Flight(nextFlight, shared, [(waiterId, waiter)])];
      r := Registration(key, nextFlight, waiterId, shared, true);
    }

    /** Hands the shared part out only to the caller that emptied the flight. */
    method LeaveFlight(key: K, flightId: nat, waiterId: nat) returns (emptied: Option<A>)
      modifies this
      ensures AsState() == RemoveWaiter(old(AsState()), key, flightId, waiterId)
      ensures emptied.Some? <==> AsState() != old(AsState()) && flights[key].waiters == []
      ensures emptied.Some? ==> key in flights && emptied.value == flights[key].shared
    {
      if key !in flights || flights[key].id != flightId {
        return None;
      }
      var flight := flights[key];
      var position := PositionOf(flight.waiters, waiterId);
      if position.None? {
        return None;
      }
      var remaining := SwapRemove(flight.waiters, position.value);
      assert |remaining| != |flight.waiters|;
      flights := flights[key := flight.(waiters := remaining)];
      assert flights[key] != old(flights)[key];
      if remaining != [] {
        return None;
      }
      emptied := Some(flight.shared);
    }

    /** Detaches the flight with all its waiters, in order, unless it is stale. */
    method TakeFlight(key: K, flightId: nat) returns (taken: Option<(A, seq<W>)>)
      modifies this
      ensures AsState() == Take(old(AsState()), key, flightId)
      ensures taken.Some? <==> key in old(flights) && old(flights)[key].id == flightId
      ensures taken.Some? ==> key !in flights && taken.value.0 == old(flights)[key].shared
      ensures taken.Some? ==> |taken.value.1| == |old(flights)[key].waiters|
      ensures taken.Some? ==> forall i :: 0 <= i < |taken.value.1| ==> taken.value.1[i] == old(flights)[key].waiters[i].1
    {
      if key !in flights || flights[key].id != flightId {
        return None;
      }
      var flight := flights[key];
      flights := flights - {key};
      taken := Some((flight.shared, seq(|flight.waiters|, i requires 0 <= i < |flight.waiters| => flight.waiters[i].1)));
    }
  }
}
