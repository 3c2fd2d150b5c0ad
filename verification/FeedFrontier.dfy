/** The search for the newest update of a sequence feed: exponential probe waves
    whose answers arrive in any order. */
module FeedFrontier {
  import opened Options

  const LookaheadLevels := 8
  const MaxIndex := MaxWord

  datatype Probe<+T> = Found(payload: T) | Missing | Transient

  /** One answer: the probed index and what came back. */
  datatype Answer<+T> = Answer(index: nat, probe: Probe<T>)

  /** What the network says to a probe of an index that is answered at a given moment. */
  type Network<!T> = (nat, nat) -> Probe<T>

  /** The order in which the probes of a wave complete. */
  type Schedule = (nat, seq<nat>) -> seq<nat>

  ghost predicate CompletesAll(order: Schedule) {
    forall time: nat, levels: seq<nat> :: multiset(order(time, levels)) == multiset(levels)
  }

  lemma {:induction false} PowersGrow(a: nat, b: nat)
    requires a < b
    ensures 2 * TwoToThe(a) <= TwoToThe(b)
    decreases b
  {
    if a < b - 1 {
      PowersGrow(a, b - 1);
    }
  }

  /** The index `2^level - 1` beyond the base, unless it leaves 64 bits. */
  function ProbeIndex(base: nat, level: nat): Option<nat> {
    if level >= 64 then None
    else if base + TwoToThe(level) - 1 > MaxIndex then None
    else Some(base + TwoToThe(level) - 1)
  }

  // ----- One wave

  datatype Wave<+T> = Wave(highest: nat, index: nat, payload: T, missing: Option<nat>)

  ghost predicate Descending(levels: seq<nat>) {
    && (forall i :: 0 <= i < |levels| ==> levels[i] <= LookaheadLevels)
    && forall i, j :: 0 <= i < j < |levels| ==> levels[i] > levels[j]
  }

  /** The first level in the list whose answer is positive. */
  function HighestFound<T>(levels: seq<nat>, answers: map<nat, Answer<T>>): (r: Option<nat>)
    requires forall l :: l in levels ==> l in answers
    ensures r.Some? ==> r.value in levels && answers[r.value].probe.Found?
    ensures r.None? ==> forall l :: l in levels ==> !answers[l].probe.Found?
  {
    if levels == [] then None
    else if answers[levels[0]].probe.Found? then Some(levels[0])
    else HighestFound(levels[1..], answers)
  }

  lemma {:induction false} HighestFoundIsHighest<T>(levels: seq<nat>, answers: map<nat, Answer<T>>, level: nat)
    requires Descending(levels) && forall l :: l in levels ==> l in answers
    requires level in levels && answers[level].probe.Found?
    requires forall l :: l in levels && l > level ==> !answers[l].probe.Found?
    ensures HighestFound(levels, answers) == Some(level)
  {
    if levels[0] != level {
      HighestFoundIsHighest(levels[1..], answers, level);
    }
  }

  /** The outcome of a wave depends on the answers, not on their order: the
      highest positive answer, and the index above it when known missing. */
  function Outcome<T>(levels: seq<nat>, answers: map<nat, Answer<T>>): Option<Wave<T>>
    requires forall l :: l in levels ==> l in answers
  {
    match HighestFound(levels, answers)
    case None => None
    case Some(highest) =>
      var best := answers[highest];
      var missing := if highest + 1 in levels && answers[highest + 1].probe.Missing?
                     then Some(answers[highest + 1].index) else None;
      Some(Wave(highest, best.index, best.probe.payload, missing))
  }

  /** Everything a prefix of completions has put into the three result arrays. */
  ghost predicate Recorded<T>(completed: array<bool>, missing: array<Option<nat>>, found: array<Option<(nat, T)>>,
                              answers: map<nat, Answer<T>>, arrived: seq<nat>)
    requires completed.Length == missing.Length == found.Length == LookaheadLevels + 1
    requires forall l :: l in arrived ==> l in answers
    reads completed, missing, found
  {
    forall l :: 0 <= l <= LookaheadLevels ==>
      && (completed[l] <==> l in arrived)
      && (missing[l] == if l in arrived && answers[l].probe.Missing? then Some(answers[l].index) else None)
      && (found[l] == if l in arrived && answers[l].probe.Found?
                      then Some((answers[l].index, answers[l].probe.payload)) else None)
  }

  method RecordAnswer<T>(completed: array<bool>, missing: array<Option<nat>>, found: array<Option<(nat, T)>>,
                         answers: map<nat, Answer<T>>, ghost arrived: seq<nat>, level: nat)
    requires completed.Length == missing.Length == found.Length == LookaheadLevels + 1
    requires forall l :: l in arrived ==> l in answers
    requires level in answers && level <= LookaheadLevels
    requires Recorded(completed, missing, found, answers, arrived)
    modifies completed, missing, found
    ensures Recorded(completed, missing, found, answers, arrived + [level])
  {
    completed[level] := true;
    match answers[level].probe {
      case Found(payload) => found[level] := Some((answers[level].index, payload));
      case Missing => missing[level] := Some(answers[level].index);
      case Transient =>
    }
  }

  lemma {:induction false} SameMembers(a: seq<nat>, b: seq<nat>)
    requires multiset(a) == multiset(b)
    ensures forall l :: l in a <==> l in b
  {
    forall l
      ensures l in a <==> l in b
    {
      assert l in a <==> l in multiset(a);
      assert l in b <==> l in multiset(b);
    }
  }

  /** Returns as soon as no higher answer is outstanding; `arrived` is the number
      of answers consumed by then. */
  method CollectWave<T>(levels: seq<nat>, order: seq<nat>, answers: map<nat, Answer<T>>)
      returns (wave: Option<Wave<T>>, arrived: nat)
    requires Descending(levels) && multiset(order) == multiset(levels)
    requires forall l :: l in levels ==> l in answers
    ensures wave == Outcome(levels, answers)
    ensures arrived <= |order|
    ensures wave.Some? ==> wave.value.highest in order[..arrived]
    ensures wave.Some? ==> forall l :: l in levels && l > wave.value.highest ==> l in order[..arrived]
    ensures wave.None? ==> arrived == |order|
  {
    hide Outcome;
    NoLevels(levels, answers);
    var completed := new bool[LookaheadLevels + 1](_ => false);
    var missing := new Option<nat>[LookaheadLevels + 1](_ => None);
    var found := new Option<(nat, T)>[LookaheadLevels + 1](_ => None);
    var i := 0;
    SameMembers(order, levels);
    assert |order| == |levels| by { assert |multiset(order)| == |multiset(levels)|; }
    while i < |order|
      invariant 0 <= i <= |order|
      invariant forall l :: l in order[..i] ==> l in levels
      invariant Recorded(completed, missing, found, answers, order[..i])
      invariant i == |order| ==> Outcome(levels, answers).None?
    {
      var level := order[i];
      assert level in levels;
      assert order[..i + 1] == order[..i] + [level];
      RecordAnswer(completed, missing, found, answers, order[..i], level);
      i := i + 1;
      wave := Settle(levels, completed, missing, found, answers, order[..i]);
      if wave.Some? {
        return wave, i;
      }
      if i == |order| {
        assert order[..i] == order;
      }
    }
    return None, |order|;
  }

  lemma {:induction false} NoLevels<T>(levels: seq<nat>, answers: map<nat, Answer<T>>)
    requires Descending(levels) && forall l :: l in levels ==> l in answers
    ensures levels == [] ==> Outcome(levels, answers).None?
  {}

  /** The outcome, once every answer above the highest positive one is in. */
  method Settle<T>(levels: seq<nat>, completed: array<bool>, missing: array<Option<nat>>,
                   found: array<Option<(nat, T)>>, ghost answers: map<nat, Answer<T>>, ghost arrived: seq<nat>)
      returns (wave: Option<Wave<T>>)
    requires completed.Length == missing.Length == found.Length == LookaheadLevels + 1
    requires Descending(levels) && forall l :: l in levels ==> l in answers
    requires forall l :: l in arrived ==> l in levels
    requires Recorded(completed, missing, found, answers, arrived)
    ensures wave.Some? ==> wave == Outcome(levels, answers) && wave.value.highest in arrived
    ensures wave.Some? ==> forall l :: l in levels && l > wave.value.highest ==> l in arrived
    ensures wave.None? && (forall l :: l in levels ==> l in arrived) ==> Outcome(levels, answers).None?
  {
    assert forall l :: l in levels ==> l <= LookaheadLevels;
    var highest := FirstFound(levels, found);
    if highest.None? {
      return None;
    }
    var settled := AllCompletedAbove(levels, completed, highest.value);
    if !settled {
      return None;
    }
    HighestFoundIsHighest(levels, answers, highest.value);
    var above := if highest.value + 1 <= LookaheadLevels then missing[highest.value + 1] else None;
    var (index, payload) := found[highest.value].value;
    wave := Some(Wave(highest.value, index, payload, above));
  }

  method FirstFound<T>(levels: seq<nat>, found: array<Option<(nat, T)>>) returns (highest: Option<nat>)
    requires Descending(levels) && found.Length == LookaheadLevels + 1
    ensures highest.Some? ==> highest.value in levels && found[highest.value].Some?
    ensures highest.Some? ==> forall l :: l in levels && l > highest.value ==> found[l].None?
    ensures highest.None? ==> forall l :: l in levels ==> found[l].None?
  {
    for k := 0 to |levels|
      invariant forall j :: 0 <= j < k ==> found[levels[j]].None?
    {
      if found[levels[k]].Some? {
        return Some(levels[k]);
      }
    }
    return None;
  }

  method AllCompletedAbove(levels: seq<nat>, completed: array<bool>, highest: nat) returns (all: bool)
    requires Descending(levels) && completed.Length == LookaheadLevels + 1
    ensures all <==> forall l :: l in levels && l > highest ==> completed[l]
  {
    for k := 0 to |levels|
      invariant forall j :: 0 <= j < k && levels[j] > highest ==> completed[levels[j]]
    {
      if levels[k] > highest && !completed[levels[k]] {
        return false;
      }
    }
    return true;
  }

  // ----- What a wave tells about the feed

  function Distance(level: nat): nat {
    TwoToThe(level) - 1
  }

  /** Where a level first stands in the order of completion. */
  function PlaceOf(order: seq<nat>, level: nat): (k: nat)
    requires level in order
    ensures k < |order| && order[k] == level && level !in order[..k]
  {
    if order[0] == level then 0 else PlaceOf(order[1..], level) + 1
  }

  /** The answers to a wave from `base`, given one after the other as they complete. */
  function WaveAnswers<T>(network: Network<T>, time: nat, base: nat, order: seq<nat>): (r: map<nat, Answer<T>>)
    ensures forall l :: l in order <==> l in r
    ensures forall l :: l in order ==> r[l].index == base + Distance(l)
    ensures forall l :: l in order ==> r[l].probe == network(time + PlaceOf(order, l), r[l].index)
  {
    map l | l in order :: Answer(base + Distance(l), network(time + PlaceOf(order, l), base + Distance(l)))
  }

  /** The log holds what the network said, one answer a moment. */
  ghost predicate Told<T>(network: Network<T>, time: nat, log: seq<Answer<T>>) {
    forall k :: 0 <= k < |log| ==> log[k].probe == network(time + k, log[k].index)
  }

  lemma {:induction false} ToldMore<T>(network: Network<T>, time: nat, log: seq<Answer<T>>, more: seq<Answer<T>>)
    requires Told(network, time, log) && Told(network, time + |log|, more)
    ensures Told(network, time, log + more)
  {}

  /** A list of descending levels completes without repetition. */
  lemma {:induction false} OnceEach(levels: seq<nat>, order: seq<nat>, i: nat)
    requires Descending(levels) && multiset(order) == multiset(levels) && i < |order|
    ensures order[i] in order && PlaceOf(order, order[i]) == i
  {
    var k := PlaceOf(order, order[i]);
    if k != i {
      assert k < i by { assert order[..k] + order[k..] == order; }
      TwiceCounts(order, k, i);
      OnceCounts(levels, order[i]);
    }
  }

  lemma {:induction false} TwiceCounts(s: seq<nat>, k: nat, i: nat)
    requires k < i < |s| && s[k] == s[i]
    ensures multiset(s)[s[i]] >= 2
  {
    assert s == s[..k] + [s[k]] + s[k + 1..i] + [s[i]] + s[i + 1..];
  }

  lemma {:induction false} OnceCounts(levels: seq<nat>, l: nat)
    requires Descending(levels)
    ensures multiset(levels)[l] <= 1
    decreases |levels|
  {
    if levels != [] {
      assert levels == [levels[0]] + levels[1..];
      OnceCounts(levels[1..], l);
      assert levels[0] !in levels[1..];
    }
  }

  /** The feed holds exactly the indices up to `last` (none when -1) and every
      probe is answered. */
  ghost predicate Contiguous<T(!new)>(network: Network<T>, last: int) {
    -1 <= last <= MaxIndex &&
    forall time: nat, index: nat ::
      if index <= last then network(time, index).Found? else network(time, index).Missing?
  }

  lemma {:induction false} ContiguousAnswer<T(!new)>(network: Network<T>, last: int, time: nat, index: nat)
    requires Contiguous(network, last)
    ensures last <= MaxIndex && (network(time, index).Found? <==> index <= last)
  {}

  lemma {:induction false} WaveFacts<T>(network: Network<T>, time: nat, base: nat, levels: seq<nat>, order: seq<nat>, wave: Option<Wave<T>>)
    requires Descending(levels) && forall l :: l in levels <==> l in order
    requires wave == Outcome(levels, WaveAnswers(network, time, base, order))
    ensures wave.Some? ==> wave.value.highest in levels && wave.value.index == base + Distance(wave.value.highest)
    ensures wave.Some? && wave.value.missing.Some? ==>
              wave.value.highest + 1 in levels
              && wave.value.missing.value == wave.value.index + TwoToThe(wave.value.highest)
  {}

  lemma {:induction false} ContiguousWave<T(!new)>(network: Network<T>, time: nat, base: nat, levels: seq<nat>, order: seq<nat>,
                                wave: Option<Wave<T>>, last: int)
    requires Descending(levels) && Contiguous(network, last) && forall l :: l in levels <==> l in order
    requires wave == Outcome(levels, WaveAnswers(network, time, base, order))
    ensures wave.Some? ==> wave.value.index <= last
    ensures wave.Some? && wave.value.highest + 1 in levels ==>
              wave.value.missing.Some? && last < wave.value.missing.value
    ensures wave.None? ==> forall l :: l in levels ==> last < base + Distance(l)
  {
    hide PlaceOf, WaveAnswers, Distance;
    var answers := WaveAnswers(network, time, base, order);
    assert forall l :: l in levels ==> (answers[l].probe.Found? <==> base + Distance(l) <= last);
    if wave.Some? && wave.value.highest + 1 in levels {
      HighestHasNoneAbove(levels, answers, wave.value.highest + 1);
    }
  }

  lemma {:induction false} HighestHasNoneAbove<T>(levels: seq<nat>, answers: map<nat, Answer<T>>, level: nat)
    requires Descending(levels) && forall l :: l in levels ==> l in answers
    requires HighestFound(levels, answers).Some? && level in levels && level > HighestFound(levels, answers).value
    ensures !answers[level].probe.Found?
  {
    if levels[0] != level {
      HighestHasNoneAbove(levels[1..], answers, level);
    }
  }

  // ----- The search

  /** The latest positive index, how far to look, and the nearest index above it
      that was answered missing. */
  datatype Frontier<+T> = Frontier(index: nat, payload: T, limit: nat, known: Option<nat>)

  ghost predicate WellFormed<T>(f: Frontier<T>) {
    && f.index <= MaxIndex
    && 1 <= f.limit <= LookaheadLevels
    && (f.known.None? ==> f.limit == LookaheadLevels)
    && (f.known.Some? ==> f.known.value == f.index + TwoToThe(f.limit) <= MaxIndex)
  }

  /** The highest level not beyond `limit` whose probe stays within 64 bits. */
  function EffectiveLevel(base: nat, limit: nat): (e: nat)
    ensures e >= 1 && (limit >= 1 ==> e <= limit)
  {
    if limit <= 1 then 1
    else if ProbeIndex(base, limit).Some? then limit
    else EffectiveLevel(base, limit - 1)
  }

  lemma {:induction false} EffectiveLevelFacts(base: nat, limit: nat)
    requires base < MaxIndex && 1 <= limit <= LookaheadLevels
    ensures base + Distance(EffectiveLevel(base, limit)) <= MaxIndex
    ensures EffectiveLevel(base, limit) < limit ==> base + Distance(EffectiveLevel(base, limit) + 1) > MaxIndex
  {
    if limit > 1 && ProbeIndex(base, limit).None? {
      EffectiveLevelFacts(base, limit - 1);
    }
  }

  function Downwards(level: nat): (levels: seq<nat>)
    ensures |levels| == level
    ensures forall l :: l in levels <==> 1 <= l <= level
  {
    if level == 0 then [] else [level] + Downwards(level - 1)
  }

  lemma {:induction false} DownwardsDescends(level: nat)
    requires level <= LookaheadLevels
    ensures Descending(Downwards(level))
  {
    if level > 0 {
      DownwardsDescends(level - 1);
      var tail := Downwards(level - 1);
      forall i, j | 0 <= i < j < level
        ensures Downwards(level)[i] > Downwards(level)[j]
      {
        assert tail[j - 1] in tail;
      }
    }
  }

  const InitialLevels: seq<nat> := [8, 7, 6, 5, 4, 3, 2, 0]

  /** No observed positive index lies above `index`. */
  ghost predicate NoneAbove<T>(log: seq<Answer<T>>, index: nat) {
    forall i :: 0 <= i < |log| && log[i].probe.Found? ==> log[i].index <= index
  }

  /** An index was asked for and the answer was not positive. */
  ghost predicate InVain<T>(log: seq<Answer<T>>, index: nat) {
    exists i :: 0 <= i < |log| && log[i].index == index && !log[i].probe.Found?
  }

  /** Every probe of a wave from `index` up to a level was asked for in vain. */
  ghost predicate WaveInVain<T>(log: seq<Answer<T>>, index: nat, limit: nat) {
    forall l :: 1 <= l <= limit && index + Distance(l) <= MaxIndex ==> InVain(log, index + Distance(l))
  }

  /** What must be known before a search ends at `index`: the next index was missing
      before it was asked for again; or, after `index` was found, a whole wave from
      it was in vain, cut short only by an index known to be missing. */
  ghost predicate Concluded<T>(log: seq<Answer<T>>, index: nat, payload: T) {
    || (log != [] && Answer(index + 1, Missing) in log[..|log| - 1])
    || exists cut, limit :: Beyond(log, index, payload, cut, limit)
  }

  ghost predicate Beyond<T>(log: seq<Answer<T>>, index: nat, payload: T, cut: nat, limit: nat) {
    && cut <= |log| && 1 <= limit <= LookaheadLevels
    && Answer(index, Found(payload)) in log[..cut]
    && (limit == LookaheadLevels || Answer(index + TwoToThe(limit), Missing) in log[..cut])
    && WaveInVain(log[cut..], index, limit)
  }

  /** The answers consumed by a wave, in order of arrival. */
  function Arrivals<T>(answers: map<nat, Answer<T>>, order: seq<nat>): (r: seq<Answer<T>>)
    requires forall l :: l in order ==> l in answers
    ensures |r| == |order|
    ensures forall i :: 0 <= i < |order| ==> r[i] == answers[order[i]]
  {
    seq(|order|, i requires 0 <= i < |order| => answers[order[i]])
  }

  lemma {:induction false} WaveLeavesNoneAbove<T>(network: Network<T>, time: nat, base: nat, levels: seq<nat>, order: seq<nat>, n: nat,
                               wave: Option<Wave<T>>)
    requires Descending(levels) && (forall l :: l in levels <==> l in order) && n <= |order|
    requires wave == Outcome(levels, WaveAnswers(network, time, base, order))
    ensures wave.Some? ==> NoneAbove(Arrivals(WaveAnswers(network, time, base, order), order[..n]), wave.value.index)
    ensures wave.None? ==> NoneAbove(Arrivals(WaveAnswers(network, time, base, order), order[..n]), base)
  {
    hide PlaceOf;
    var answers := WaveAnswers(network, time, base, order);
    if wave.Some? {
      forall i | 0 <= i < n && answers[order[i]].probe.Found?
        ensures answers[order[i]].index <= wave.value.index
      {
        if order[i] > wave.value.highest {
          HighestHasNoneAbove(levels, answers, order[i]);
        } else if order[i] < wave.value.highest {
          PowersGrow(order[i], wave.value.highest);
        }
      }
    }
  }

  lemma {:induction false} ArrivedIsSeen<T>(answers: map<nat, Answer<T>>, order: seq<nat>, n: nat, l: nat)
    requires (forall k :: k in order ==> k in answers) && n <= |order| && l in order[..n]
    ensures l in answers && answers[l] in Arrivals(answers, order[..n])
    ensures !answers[l].probe.Found? ==> InVain(Arrivals(answers, order[..n]), answers[l].index)
  {
    var i :| 0 <= i < n && order[i] == l;
    assert Arrivals(answers, order[..n])[i] == answers[l];
  }

  /** Whatever lies above the level reported was asked for in vain. */
  lemma {:induction false} AskedInVain<T>(network: Network<T>, time: nat, base: nat, levels: seq<nat>, order: seq<nat>, n: nat,
                       wave: Option<Wave<T>>, l: nat)
    requires Descending(levels) && (forall k :: k in levels <==> k in order) && n <= |order|
    requires wave == Outcome(levels, WaveAnswers(network, time, base, order))
    requires wave.Some? ==> l > wave.value.highest
    requires l in levels && l in order[..n]
    ensures InVain(Arrivals(WaveAnswers(network, time, base, order), order[..n]), base + Distance(l))
    ensures wave.Some? && wave.value.missing.Some? && l == wave.value.highest + 1 ==>
              Answer(wave.value.missing.value, Missing) in Arrivals(WaveAnswers(network, time, base, order), order[..n])
  {
    hide PlaceOf, Distance, Descending, InVain, Arrivals;
    var answers := WaveAnswers(network, time, base, order);
    ArrivedIsSeen(answers, order, n, l);
    if wave.Some? {
      HighestHasNoneAbove(levels, answers, l);
    }
  }

  lemma {:induction false} NextDistance(level: nat)
    ensures Distance(level + 1) == Distance(level) + TwoToThe(level)
  {}

  lemma {:induction false} DistanceInjective(a: nat, b: nat)
    requires Distance(a) == Distance(b)
    ensures a == b
  {
    if a < b {
      PowersGrow(a, b);
    } else if b < a {
      PowersGrow(b, a);
    }
  }

  /** An answer that the index above the highest find is missing is reported. */
  lemma {:induction false} MissingReported<T>(network: Network<T>, time: nat, base: nat, levels: seq<nat>, order: seq<nat>, n: nat,
                           wave: Option<Wave<T>>)
    requires (forall l :: l in levels <==> l in order) && n <= |order|
    requires wave == Outcome(levels, WaveAnswers(network, time, base, order)) && wave.Some?
    ensures wave.value.index == base + Distance(wave.value.highest)
    ensures var above := Answer(wave.value.index + TwoToThe(wave.value.highest), Missing);
            wave.value.highest + 1 in levels && above in Arrivals(WaveAnswers(network, time, base, order), order[..n]) ==>
              wave.value.missing.Some?
  {
    hide PlaceOf, WaveAnswers, Distance, TwoToThe;
    var answers := WaveAnswers(network, time, base, order);
    var highest := wave.value.highest;
    var above := Answer(wave.value.index + TwoToThe(highest), Missing);
    NextDistance(highest);
    if highest + 1 in levels && above in Arrivals(answers, order[..n]) {
      var i :| 0 <= i < n && answers[order[i]] == above;
      DistanceInjective(order[i], highest + 1);
    }
  }

  /** The consumed answers were given one a moment. */
  lemma {:induction false} ArrivalsTold<T>(network: Network<T>, time: nat, base: nat, levels: seq<nat>, order: seq<nat>, n: nat)
    requires Descending(levels) && multiset(order) == multiset(levels) && n <= |order|
    ensures Told(network, time, Arrivals(WaveAnswers(network, time, base, order), order[..n]))
  {
    hide PlaceOf, WaveAnswers, Distance, Descending;
    var answers := WaveAnswers(network, time, base, order);
    forall k | 0 <= k < n ensures answers[order[k]].probe == network(time + k, answers[order[k]].index) {
      OnceEach(levels, order, k);
    }
  }

  /** How many more waves a contiguous feed can take. */
  ghost function WavesLeft(index: nat, limit: nat, known: Option<nat>, last: int): nat
    requires index <= last <= MaxIndex
  {
    if known.Some? then limit
    else if MaxIndex - index >= Distance(LookaheadLevels) then (last - index) / Distance(LookaheadLevels) + 9
    else if index == MaxIndex then 0
    else
      var e := EffectiveLevel(index, LookaheadLevels);
      if MaxIndex - index == Distance(e) then e else e + 1
  }

  lemma {:induction false} FullWaveSpendsOne(index: nat, last: int)
    requires index < MaxIndex && last <= MaxIndex
    requires index + Distance(EffectiveLevel(index, LookaheadLevels)) <= last
    ensures WavesLeft(index + Distance(EffectiveLevel(index, LookaheadLevels)), LookaheadLevels, None, last)
            < WavesLeft(index, LookaheadLevels, None, last)
  {
    var e := EffectiveLevel(index, LookaheadLevels);
    var next := index + Distance(e);
    assert TwoToThe(8) == 256;
    EffectiveLevelFacts(index, LookaheadLevels);
    if e < 8 && next < MaxIndex {
      var e' := EffectiveLevel(next, LookaheadLevels);
      EffectiveLevelFacts(next, LookaheadLevels);
      assert TwoToThe(e + 1) == 2 * TwoToThe(e);
      PowersGrow(e, 8);
      if e' > e {
        PowersGrow(e, e');
      }
    } else if e == 8 {
      assert (last - index) / 255 == (last - next) / 255 + 1;
    }
  }

  lemma {:induction false} PartialWaveSpendsOne(index: nat, limit: nat, known: Option<nat>, next: nat, highest: nat, above: nat, last: int)
    requires index <= last <= MaxIndex && index <= next <= last && index < MaxIndex
    requires known.None? ==> limit == LookaheadLevels
    requires 1 <= limit <= LookaheadLevels && highest < EffectiveLevel(index, limit)
    ensures WavesLeft(next, highest, Some(above), last) < WavesLeft(index, limit, known, last)
  {
    assert TwoToThe(8) == 256;
  }

  /** The frontier agrees with a feed ending at `last`. */
  ghost predicate Below<T>(f: Frontier<T>, last: int) {
    f.index <= last && (f.known.Some? ==> last < f.known.value)
  }

  ghost predicate Observed<T>(log: seq<Answer<T>>, f: Frontier<T>) {
    && Answer(f.index, Found(f.payload)) in log
    && NoneAbove(log, f.index)
    && (f.known.Some? ==> Answer(f.known.value, Missing) in log)
  }

  lemma {:induction false} InVainStays<T>(seen: seq<Answer<T>>, log: seq<Answer<T>>, index: nat)
    requires InVain(seen, index) && seen <= log
    ensures InVain(log, index)
  {}

  /** Launches a wave from `base` and collects it. */
  method RunWave<T(!new)>(network: Network<T>, order: Schedule, time: nat, base: nat, levels: seq<nat>)
      returns (wave: Option<Wave<T>>, seen: seq<Answer<T>>)
    requires CompletesAll(order) && Descending(levels)
    ensures Told(network, time, seen)
    ensures wave.Some? ==> var w := wave.value;
              && w.highest in levels
              && w.index == base + Distance(w.highest)
              && Answer(w.index, Found(w.payload)) in seen
              && NoneAbove(seen, w.index)
              && (w.missing.Some? ==> w.highest + 1 in levels && w.missing.value == w.index + TwoToThe(w.highest))
              && (w.missing.Some? ==> Answer(w.missing.value, Missing) in seen)
              && (w.highest + 1 in levels && Answer(w.index + TwoToThe(w.highest), Missing) in seen ==> w.missing.Some?)
              && (forall l :: l in levels && l > w.highest ==> InVain(seen, base + Distance(l)))
    ensures wave.None? ==> forall i :: 0 <= i < |seen| ==> !seen[i].probe.Found?
    ensures wave.None? ==> forall l :: l in levels ==> InVain(seen, base + Distance(l))
    ensures forall last :: Contiguous(network, last) ==> TellsOf(wave, base, levels, last)
  {
    hide Contiguous, Distance, Descending, Told, PlaceOf, InVain, WaveAnswers;
    var arrivals := order(time, levels);
    SameMembers(arrivals, levels);
    var answers := WaveAnswers(network, time, base, arrivals);
    var result, arrived := CollectWave(levels, arrivals, answers);
    wave := result;
    seen := Arrivals(answers, arrivals[..arrived]);
    ArrivalsTold(network, time, base, levels, arrivals, arrived);
    WaveFacts(network, time, base, levels, arrivals, wave);
    WaveLeavesNoneAbove(network, time, base, levels, arrivals, arrived, wave);
    forall last | Contiguous(network, last)
      ensures TellsOf(wave, base, levels, last)
    {
      ContiguousWave(network, time, base, levels, arrivals, wave, last);
    }
    if wave.Some? {
      ghost var i :| 0 <= i < arrived && arrivals[i] == wave.value.highest;
      assert seen[i] == answers[wave.value.highest];
      MissingReported(network, time, base, levels, arrivals, arrived, wave);
    }
    forall l | l in levels && (wave.Some? ==> l > wave.value.highest)
      ensures InVain(seen, base + Distance(l))
      ensures wave.Some? && wave.value.missing.Some? && l == wave.value.highest + 1 ==> Answer(wave.value.missing.value, Missing) in seen
    {
      assert arrivals[..|arrivals|] == arrivals;
      AskedInVain(network, time, base, levels, arrivals, arrived, wave, l);
    }
  }

  /** What a wave reveals about a feed ending at `last`. */
  ghost predicate TellsOf<T>(wave: Option<Wave<T>>, base: nat, levels: seq<nat>, last: int) {
    && (wave.Some? ==> wave.value.index <= last)
    && (wave.Some? && wave.value.missing.Some? ==> last < wave.value.missing.value)
    && (wave.Some? && wave.value.highest + 1 in levels ==> wave.value.missing.Some?)
    && (wave.None? ==> forall l :: l in levels ==> last < base + Distance(l))
  }

  /** The first probes: eight at once in bounded mode, index zero otherwise. */
  method Start<T(!new)>(network: Network<T>, order: Schedule, bounded: bool)
      returns (start: Option<Frontier<T>>, log: seq<Answer<T>>)
    requires CompletesAll(order)
    ensures Told(network, 0, log)
    ensures start.Some? ==> WellFormed(start.value) && Observed(log, start.value)
    ensures start.Some? ==> var Frontier(index, _, _, known) := start.value;
              if bounded && 0 < index < 255 && Answer(2 * index + 1, Missing) in log then known == Some(2 * index + 1)
              else known.None? && (!bounded ==> index == 0)
    ensures start.None? ==> forall i :: 0 <= i < |log| ==> !log[i].probe.Found?
    ensures start.None? ==> InVain(log, 0) && (bounded ==> forall l :: l in InitialLevels ==> InVain(log, Distance(l)))
    ensures forall last :: Contiguous(network, last) ==> (start.Some? <==> last >= 0)
    ensures forall last :: Contiguous(network, last) && start.Some? ==> Below(start.value, last)
  {
    hide TwoToThe, CompletesAll;
    if !bounded {
      log := [Answer(0, network(0, 0))];
      assert log[0].index == 0;
      match network(0, 0) {
        case Found(payload) => return Some(Frontier(0, payload, LookaheadLevels, None)), log;
        case Missing => return None, log;
        case Transient => return None, log;
      }
    }
    var wave, seen := RunWave(network, order, 0, 0, InitialLevels);
    log := seen;
    SmallPowers(0);
    assert 0 in InitialLevels && Distance(0) == 0;
    if wave.None? {
      return None, log;
    }
    var Wave(highest, index, payload, missing) := wave.value;
    InitialTop(highest);
    SmallPowers(highest);
    if highest == 0 || highest == LookaheadLevels || missing.None? {
      start := Some(Frontier(index, payload, LookaheadLevels, None));
    } else {
      start := Some(Frontier(index, payload, highest, missing));
    }
  }

  /** The index found by a level of the first probes, and the one above it. */
  lemma {:induction false} InitialTop(highest: nat)
    requires highest in InitialLevels
    ensures highest <= LookaheadLevels && Distance(highest) + TwoToThe(highest) == 2 * Distance(highest) + 1
    ensures 0 < highest < LookaheadLevels <==> 0 < Distance(highest) < 255
    ensures 0 < highest < LookaheadLevels ==> highest + 1 in InitialLevels
  {
    assert highest == 8 || highest == 7 || highest == 6 || highest == 5 || highest == 4 || highest == 3 || highest == 2 || highest == 0;
    assert TwoToThe(8) == 256;
    if 0 < highest < 8 {
      PowersGrow(highest, 8);
      PowersGrow(0, highest);
      assert InitialLevels[7 - highest] == highest + 1;
    }
  }

  datatype Turn<+T> = Continue(frontier: Frontier<T>) | Finish(frontier: Frontier<T>, next: nat)

  lemma {:induction false} SmallPowers(level: nat)
    requires level <= LookaheadLevels
    ensures TwoToThe(0) == 1 && TwoToThe(1) == 2 && TwoToThe(8) == 256
    ensures level >= 1 ==> 2 <= TwoToThe(level) <= 256
  {
    assert TwoToThe(8) == 256;
    if level >= 1 {
      PowersGrow(0, level);
    }
    if level < 8 {
      PowersGrow(level, 8);
    }
  }

  /** Every turn either moves the frontier up or ends with a vain probe. */
  ghost predicate Sound<T>(f: Frontier<T>, turn: Turn<T>, log: seq<Answer<T>>) {
    match turn
    case Continue(g) => WellFormed(g) && f.index < g.index && Observed(log, g)
    case Finish(g, next) =>
      && f.index <= g.index < MaxIndex
      && NoneAbove(log, g.index)
      && next == g.index + 1
      && |log| > 0 && log[|log| - 1].index == next && !log[|log| - 1].probe.Found?
      && if g.index == f.index then g == f && WaveInVain(log, f.index, f.limit)
         else f.known == Some(next) && Answer(g.index, Found(g.payload)) in log
  }

  /** On a feed ending at `last`, every turn ends there or spends a wave. */
  ghost predicate Exact<T>(f: Frontier<T>, turn: Turn<T>, last: int) {
    last <= MaxIndex && (Below(f, last) ==>
      match turn
      case Finish(g, next) => g.index == last
      case Continue(g) =>
        Below(g, last) && WavesLeft(g.index, g.limit, g.known, last) < WavesLeft(f.index, f.limit, f.known, last))
  }

  /** One turn of the search loop. */
  method Advance<T(!new)>(network: Network<T>, order: Schedule, time: nat, f: Frontier<T>)
      returns (turn: Turn<T>, log: seq<Answer<T>>)
    requires CompletesAll(order) && WellFormed(f) && f.index < MaxIndex
    ensures Told(network, time, log)
    ensures Sound(f, turn, log)
    ensures forall last :: Contiguous(network, last) ==> Exact(f, turn, last)
  {
    hide Contiguous, TwoToThe, WavesLeft, CompletesAll, InVain, WaveInVain;
    var e := EffectiveLevel(f.index, f.limit);
    var levels := Downwards(e);
    DownwardsDescends(e);
    var wave, seen := RunWave(network, order, time, f.index, levels);
    if wave.Some? {
      turn, log := Absorb(network, time, f, wave.value, seen);
      return;
    }
    turn, log := ProbeNext(network, time, f, seen);
    forall l | l in levels ensures InVain(log, f.index + Distance(l)) {
      InVainStays(seen, log, f.index + Distance(l));
    }
    EffectiveWave(log, f.index, f.limit);
    SmallPowers(1);
    assert 1 in levels && Distance(1) == 1;
    forall last | Contiguous(network, last)
      ensures Exact(f, turn, last)
    {
      assert TellsOf(wave, f.index, levels, last);
      ContiguousAnswer(network, last, time + |seen|, f.index + 1);
    }
  }

  /** The part of a turn that follows a positive wave. */
  method Absorb<T(!new)>(network: Network<T>, time: nat, f: Frontier<T>, w: Wave<T>, seen: seq<Answer<T>>)
      returns (turn: Turn<T>, log: seq<Answer<T>>)
    requires WellFormed(f) && f.index < MaxIndex && Told(network, time, seen)
    requires 1 <= w.highest <= EffectiveLevel(f.index, f.limit) && w.index == f.index + Distance(w.highest)
    requires Answer(w.index, Found(w.payload)) in seen && NoneAbove(seen, w.index)
    requires w.missing.Some? ==>
               Answer(w.missing.value, Missing) in seen &&
               w.highest < EffectiveLevel(f.index, f.limit) && w.missing.value == w.index + TwoToThe(w.highest)
    requires forall last :: Contiguous(network, last) ==>
               TellsOf(Some(w), f.index, Downwards(EffectiveLevel(f.index, f.limit)), last)
    ensures Told(network, time, log)
    ensures Sound(f, turn, log)
    ensures forall last :: Contiguous(network, last) ==> Exact(f, turn, last)
  {
    hide Contiguous, TwoToThe, WavesLeft;
    var e := EffectiveLevel(f.index, f.limit);
    EffectiveLevelFacts(f.index, f.limit);
    SmallPowers(w.highest);
    if w.highest < e {
      PowersGrow(w.highest, e);
    }
    var latest := f.(index := w.index, payload := w.payload);
    if w.highest == e && f.known == Some(w.index + 1) {
      turn, log := ProbeNext(network, time, latest, seen);
    } else if w.highest == e || w.missing.None? {
      turn, log := Continue(latest.(limit := LookaheadLevels, known := None)), seen;
    } else {
      turn, log := Continue(latest.(limit := w.highest, known := w.missing)), seen;
    }
    forall last | Contiguous(network, last)
      ensures Exact(f, turn, last)
    {
      ContiguousAnswer(network, last, time + |seen|, w.index + 1);
      if Below(f, last) {
        hide Observed, NoneAbove;
        AbsorbExact(f, w, turn, last);
      }
    }
  }

  lemma {:induction false} AbsorbExact<T>(f: Frontier<T>, w: Wave<T>, turn: Turn<T>, last: int)
    requires WellFormed(f) && f.index < MaxIndex && last <= MaxIndex && Below(f, last)
    requires 1 <= w.highest <= EffectiveLevel(f.index, f.limit) && w.index == f.index + Distance(w.highest)
    requires TellsOf(Some(w), f.index, Downwards(EffectiveLevel(f.index, f.limit)), last)
    requires w.highest == EffectiveLevel(f.index, f.limit) && f.known == Some(w.index + 1) ==>
               (w.index + 1 > last ==> turn.Finish? && turn.frontier.index == w.index)
    requires !(w.highest == EffectiveLevel(f.index, f.limit) && f.known == Some(w.index + 1)) ==>
               turn.Continue? && turn.frontier.index == w.index
    requires turn.Continue? && w.highest < EffectiveLevel(f.index, f.limit) && w.missing.Some? ==>
               turn.frontier.limit == w.highest && turn.frontier.known == w.missing
    requires turn.Continue? && (w.highest == EffectiveLevel(f.index, f.limit) || w.missing.None?) ==>
               turn.frontier.limit == LookaheadLevels && turn.frontier.known == None
    ensures Exact(f, turn, last)
  {
    hide TwoToThe, WavesLeft;
    var e := EffectiveLevel(f.index, f.limit);
    EffectiveLevelFacts(f.index, f.limit);
    if w.highest < e {
      assert w.highest + 1 in Downwards(e);
      PartialWaveSpendsOne(f.index, f.limit, f.known, w.index, w.highest, w.missing.value, last);
    } else if f.known.None? {
      FullWaveSpendsOne(f.index, last);
    }
  }

  /** Asks once more for the index after the frontier before giving up. */
  method ProbeNext<T(!new)>(network: Network<T>, time: nat, f: Frontier<T>, seen: seq<Answer<T>>)
      returns (turn: Turn<T>, log: seq<Answer<T>>)
    requires f.index < MaxIndex && NoneAbove(seen, f.index) && Told(network, time, seen)
    ensures Told(network, time, log)
    ensures log == seen + [Answer(f.index + 1, network(time + |seen|, f.index + 1))]
    ensures turn == match network(time + |seen|, f.index + 1)
                    case Found(payload) => Continue(Frontier(f.index + 1, payload, LookaheadLevels, None))
                    case _ => Finish(f, f.index + 1)
    ensures turn.Continue? ==> Observed(log, turn.frontier)
    ensures turn.Finish? ==> NoneAbove(log, f.index)
  {
    var next := f.index + 1;
    var last := network(time + |seen|, next);
    log := seen + [Answer(next, last)];
    match last {
      case Found(payload) =>
        assert log[|seen|] == Answer(next, Found(payload));
        turn := Continue(Frontier(next, payload, LookaheadLevels, None));
      case Missing => turn := Finish(f, next);
      case Transient => turn := Finish(f, next);
    }
  }

  /** For arbitrary answers the result is the greatest index ever observed and
      the index after it was asked for last, in vain; for a contiguous feed it is
      the last index, within a number of waves linear in the feed. */
  method Seek<T(!new)>(network: Network<T>, order: Schedule, bounded: bool)
      returns (latest: Option<(nat, T)>, next: nat, log: seq<Answer<T>>, ghost waves: nat)
    requires CompletesAll(order)
    ensures Told(network, 0, log)
    ensures latest.None? ==> next == 0 && forall i :: 0 <= i < |log| ==> !log[i].probe.Found?
    ensures latest.None? ==> InVain(log, 0) && (bounded ==> forall l :: l in InitialLevels ==> InVain(log, Distance(l)))
    ensures latest.Some? ==> Answer(latest.value.0, Found(latest.value.1)) in log && NoneAbove(log, latest.value.0)
    ensures latest.Some? ==> latest.value.0 <= MaxIndex
    ensures latest.Some? && latest.value.0 < MaxIndex ==>
              next == latest.value.0 + 1 && log != [] && log[|log| - 1].index == next && !log[|log| - 1].probe.Found?
    ensures latest.Some? && latest.value.0 < MaxIndex ==> Concluded(log, latest.value.0, latest.value.1)
    ensures latest.Some? && latest.value.0 == MaxIndex ==> next == MaxIndex
    ensures forall last :: Contiguous(network, last) ==>
              && (latest.Some? <==> last >= 0)
              && (latest.Some? ==> latest.value.0 == last && waves <= last / 255 + 10)
  {
    hide WavesLeft, Told;
    var start, first := Start(network, order, bounded);
    log, waves := first, 1;
    if start.None? {
      return None, 0, log, waves;
    }
    var f := start.value;
    forall last | Contiguous(network, last)
      ensures WavesLeft(f.index, f.limit, f.known, last) <= last / 255 + 9
    {
      InitialWaves(f, last);
    }
    while f.index < MaxIndex
      invariant WellFormed(f) && Observed(log, f) && Told(network, 0, log)
      invariant forall last :: Contiguous(network, last) ==>
                  Below(f, last) && waves + WavesLeft(f.index, f.limit, f.known, last) <= last / 255 + 10
      decreases MaxIndex - f.index
    {
      forall last | Contiguous(network, last) ensures WavesLeft(f.index, f.limit, f.known, last) >= 1 {
        SomeWaveLeft(f, last);
      }
      var turn, answers := Advance(network, order, |log|, f);
      ghost var before := log;
      ToldMore(network, 0, log, answers);
      log, waves := log + answers, waves + 1;
      assert NoneAbove(log, turn.frontier.index);
      assert forall a :: a in before ==> a in log;
      assert forall a :: a in answers ==> a in log;
      if turn.Finish? {
        Concludes(before, answers, f, turn);
        return Some((turn.frontier.index, turn.frontier.payload)), turn.next, log, waves;
      }
      f := turn.frontier;
    }
    return Some((f.index, f.payload)), MaxIndex, log, waves;
  }

  /** A turn that ends the search leaves it concluded. */
  lemma {:induction false} Concludes<T>(before: seq<Answer<T>>, answers: seq<Answer<T>>, f: Frontier<T>, turn: Turn<T>)
    requires WellFormed(f) && Observed(before, f) && turn.Finish? && Sound(f, turn, answers)
    ensures Concluded(before + answers, turn.frontier.index, turn.frontier.payload)
  {
    var log, g := before + answers, turn.frontier;
    if g.index == f.index {
      assert log[..|before|] == before && log[|before|..] == answers;
      assert Beyond(log, f.index, f.payload, |before|, f.limit);
    } else {
      var i :| 0 <= i < |before| && before[i] == Answer(turn.next, Missing);
      assert log[..|log| - 1][i] == before[i];
    }
  }

  /** A wave up to the effective level asks for all that lies within 64 bits. */
  lemma {:induction false} EffectiveWave<T>(log: seq<Answer<T>>, index: nat, limit: nat)
    requires index < MaxIndex && 1 <= limit <= LookaheadLevels
    requires forall l :: l in Downwards(EffectiveLevel(index, limit)) ==> InVain(log, index + Distance(l))
    ensures WaveInVain(log, index, limit)
  {
    hide InVain;
    var e := EffectiveLevel(index, limit);
    EffectiveLevelFacts(index, limit);
    forall l | 1 <= l <= limit && index + Distance(l) <= MaxIndex ensures InVain(log, index + Distance(l)) {
      if l > e {
        if l > e + 1 {
          PowersGrow(e + 1, l);
        }
        assert false;
      }
      assert l in Downwards(e);
    }
  }

  lemma {:induction false} SomeWaveLeft<T>(f: Frontier<T>, last: int)
    requires WellFormed(f) && f.index <= last <= MaxIndex && f.index < MaxIndex
    ensures WavesLeft(f.index, f.limit, f.known, last) >= 1
  {}

  lemma {:induction false} InitialWaves<T>(f: Frontier<T>, last: int)
    requires WellFormed(f) && f.index <= last <= MaxIndex
    ensures WavesLeft(f.index, f.limit, f.known, last) <= last / 255 + 9
  {
    assert TwoToThe(8) == 256;
  }
}
