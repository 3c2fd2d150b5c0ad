/** The rules of one shard group's coordinator, and what a run can come to when every
    shard has a fate of its own: the group succeeds exactly when its wanted children,
    or enough shards to rebuild them, can be had. */
module GroupRules {
  import opened Options
  import opened GaloisField
  import opened ReedSolomon
  import opened ShardGroup

  const HedgeAfter := 1000
  const ExtraShards := 2
  const ProgressiveBatch := 2

  /** What the cache knows of a wanted shard. */
  datatype Cached = DecodedAndRaw(raw: seq<Byte>) | DecodedOnly | Miss

  /** What one turn of the coordinator meets: answers already waiting, whether the
      caller is still there at the first and at the second check, the two clock
      readings, and the answer that arrives while it waits, if one does. Answers
      depend on what has been asked for by then. */
  datatype Turn = Turn(drained: Group -> seq<Reply>, live: bool, stillLive: bool, early: nat, late: nat,
                       waited: Group -> Option<Reply>)

  datatype Reason = Cancelled | Undecodable | Exhausted | Unrecoverable | Stalled

  datatype TurnResult = Again | Terminal | GivesUp(reason: Reason)

  // ----- Admission rules

  function RecoveryTopUp(p: Plan, g: Group): nat {
    SaturatingSub(p.dataCount + ExtraShards, g.successes + SaturatingSub(g.dispatched, g.completed))
  }

  predicate RollingCandidate(p: Plan) {
    p.dataCount > 0 && |p.requested| == p.dataCount && p.parityCount > 0
  }

  predicate RollingEligible(p: Plan, decodedOnly: nat, unresolved: nat) {
    RollingCandidate(p) && unresolved > 0 && decodedOnly < p.parityCount
  }

  function DecodedOnlyCount(cached: seq<Cached>): nat {
    if cached == [] then 0
    else DecodedOnlyCount(cached[..|cached| - 1]) + if cached[|cached| - 1].DecodedOnly? then 1 else 0
  }

  function MissCount(cached: seq<Cached>): nat {
    if cached == [] then 0
    else MissCount(cached[..|cached| - 1]) + if cached[|cached| - 1].Miss? then 1 else 0
  }

  /** A whole group rolls when something is missing and parity outweighs the children
      whose raw shards are gone. */
  predicate Rolls(p: Plan, cached: seq<Cached>) {
    RollingEligible(p, DecodedOnlyCount(cached), MissCount(cached))
  }

  function ParityAdmission(elapsed: nat, terminal: bool, width: nat, active: nat, remaining: nat): nat {
    if terminal || elapsed < HedgeAfter then 0
    else Min(Min(SaturatingSub(width, active), remaining), 1)
  }

  predicate IsTerminal(p: Plan, g: Group) {
    AllReady(p, g) || (g.recovering && g.successes >= p.dataCount)
  }

  /** A reply counts as delivered when some fetch owes it; fetches deliver nothing
      or a chunk of a proper size. */
  predicate Delivers(g: Group, r: Reply) {
    r.index in g.outstanding && (r.chunk == [] || Sized(r.chunk))
  }

  /** The answer that arrives while the group waits, if a fetch owes it. */
  function Arrival(g: Group, t: Turn): Option<Reply> {
    var r := t.waited(g);
    if r.Some? && Delivers(g, r.value) then r else None
  }

  /** A rolling turn waits for nobody: the first clock reading comes before the
      hedge gate, the second one after it, nothing is under way and parity is left. */
  ghost predicate Slips(p: Plan, g: Group, rolling: bool, t: Turn) {
    && rolling && t.drained(g) == [] && t.live
    && !IsTerminal(p, g)
    && t.early < HedgeAfter <= t.late
    && g.completed == g.dispatched
    && |g.sent| == Total(p)
    && !AllSent(g, p.dataCount, Total(p))
  }

  /** What a rolling group adds to its books. */
  ghost predicate RollingSound(p: Plan, g: Group, rolling: bool) {
    rolling ==>
      && RollingCandidate(p)
      && g.dispatched <= g.completed + p.dataCount
      && (!g.recovering ==> forall i :: p.dataCount <= i < |g.sent| ==> !g.sent[i])
  }

  /** A wait that ends by itself: before the gate in rolling mode; otherwise while
      recovery has not begun, or has shards left to ask for. */
  predicate MayTimeOut(p: Plan, g: Group, rolling: bool, t: Turn) {
    if rolling then t.late < HedgeAfter
    else if g.recovering then exists i :: 0 <= i < |g.sent| && !g.sent[i]
    else p.parityCount > 0
  }

  /** How far a run has come; every turn that does something adds to it. */
  function Progress(g: Group): nat {
    g.completed + g.dispatched + if g.recovering then 1 else 0
  }

  // ----- How a turn changes the books

  /** More is asked for, and recovery may have begun; in rolling mode and without
      parity, no further data shard is asked for. */
  ghost predicate Grows(p: Plan, rolling: bool, g: Group, h: Group) {
    && OnlyAsked(g, h.(recovering := g.recovering))
    && (g.recovering ==> h.recovering)
    && (rolling || p.parityCount == 0 ==>
          forall i :: 0 <= i < |g.sent| && i < |h.sent| && i < p.dataCount && h.sent[i] ==> g.sent[i])
  }

  /** The answers are settled in order; those that no fetch owes are passed over. */
  ghost function SettleAll(p: Plan, g: Group, replies: seq<Reply>): Option<Group>
    decreases |replies|
  {
    if replies == [] then Some(g)
    else if !Delivers(g, replies[0]) || replies[0].index >= |g.received| then SettleAll(p, g, replies[1..])
    else match Settled(p, g, replies[0])
      case None => None
      case Some(h) => SettleAll(p, h, replies[1..])
  }

  /** The answers a turn settles: those waiting at its start in rolling mode, or the
      one that arrives while it waits, or none. */
  ghost predicate Given(rolling: bool, g: Group, met: Group, t: Turn, replies: seq<Reply>) {
    || replies == []
    || (rolling && met == g && replies == t.drained(g))
    || (Arrival(met, t).Some? && replies == [Arrival(met, t).value])
  }

  /** A turn asks for more, settles answers, and asks for more. */
  ghost predicate Turned(p: Plan, rolling: bool, g: Group, met: Group, replies: seq<Reply>, h: Group) {
    && Grows(p, rolling, g, met)
    && SettleAll(p, met, replies).Some?
    && Grows(p, rolling, SettleAll(p, met, replies).value, h)
  }

  /** What is behind each way of giving up. */
  ghost predicate GaveUp(p: Plan, rolling: bool, g: Group, t: Turn, met: Group, replies: seq<Reply>, h: Group, reason: Reason) {
    match reason
    case Cancelled =>
      !t.live || !t.stillLive || (met.outstanding != {} && !MayTimeOut(p, met, rolling, t) && Arrival(met, t).None?)
    case Undecodable => Grows(p, rolling, g, met) && Given(rolling, g, met, t, replies) && SettleAll(p, met, replies).None?
    case Exhausted =>
      && Grows(p, rolling, g, h) && Sound(p, h) && NoneForgotten(p, h)
      && h.outstanding == {} && !AllReady(p, h)
      && (p.parityCount > 0 ==> h.successes < p.dataCount && AllSent(h, if rolling then p.dataCount else 0, Total(p)))
    case Unrecoverable =>
      && p.parityCount == 0 && Grows(p, rolling, g, met) && Sound(p, met)
      && Arrival(met, t).Some? && !Usable(p, Arrival(met, t).value)
    case Stalled => Slips(p, g, rolling, t)
  }

  /** How a turn outside rolling mode ends for the group as it waits: with nothing under
      way, with no arrival, or with one. A failed arrival starts the recovery. */
  ghost predicate WaitEnds(p: Plan, met: Group, t: Turn, replies: seq<Reply>, h: Group, v: TurnResult) {
    if met.outstanding == {} then
      && replies == []
      && h == met.(recovering := h.recovering)
      && if met.recovering || p.parityCount == 0 then v == GivesUp(Exhausted) && h == met else v.Again? && h.recovering
    else if Arrival(met, t).None? then
      && replies == []
      && if MayTimeOut(p, met, false, t) && t.stillLive then v.Again? && h.recovering && Grows(p, false, met, h)
         else v == GivesUp(Cancelled)
    else
      var r := Arrival(met, t).value;
      && replies == [r] && r.index < |met.received|
      && if !t.stillLive then v == GivesUp(Cancelled)
         else if Settled(p, met, r).None? then v == GivesUp(Undecodable)
         else if !Usable(p, r) && !met.recovering && p.parityCount == 0 then v == GivesUp(Unrecoverable)
         else v.Again? && h == Settled(p, met, r).value.(recovering := met.recovering || !Usable(p, r))
  }

  /** The world favours a run: every turn is attentive, and from the gate on no turn
      idles. */
  ghost predicate Favours(p: Plan, rolling: bool, fate: seq<Reply>, turns: seq<Turn>, gate: nat) {
    && (forall k :: 0 <= k < |turns| ==> Attentive(p, rolling, fate, turns[k]))
    && (rolling ==> forall k :: gate <= k < |turns| ==> turns[k].late >= HedgeAfter)
  }

  lemma {:induction false} Favoured(p: Plan, rolling: bool, fate: seq<Reply>, turns: seq<Turn>, gate: nat, k: nat, g: Group)
    requires Favours(p, rolling, fate, turns, gate) && k < |turns|
    ensures Attentive(p, rolling, fate, turns[k])
    ensures k >= gate && rolling ==> turns[k].late >= HedgeAfter
    ensures turns[k].drained(g) != [] ==> Delivers(g, turns[k].drained(g)[0])
  {
    hide Slips, Delivers, Arrival, MayTimeOut, Truthful;
  }

  /** Some fetch under way answers with its shard's fate. */
  ghost function Answering(fate: seq<Reply>, g: Group): Option<Reply> {
    if g.outstanding == {} then None
    else
      var i :| i in g.outstanding;
      Some(if i < |fate| then fate[i] else Reply(i, [], false, false))
  }

  /** Whatever the fates, the world can be attentive. */
  lemma {:induction false} AttentiveWorld(p: Plan, rolling: bool, fate: seq<Reply>) returns (t: Turn)
    requires Fated(p, fate)
    ensures Attentive(p, rolling, fate, t) && t.late >= HedgeAfter
  {
    t := Turn(_ => [], true, true, HedgeAfter, HedgeAfter, g => Answering(fate, g));
  }

  lemma {:induction false} GrowsSelf(p: Plan, rolling: bool, g: Group)
    ensures Grows(p, rolling, g, g)
  {}

  lemma {:induction false} GrowsTrans(p: Plan, rolling: bool, f: Group, g: Group, h: Group)
    requires Grows(p, rolling, f, g) && Grows(p, rolling, g, h)
    ensures Grows(p, rolling, f, h)
  {}

  lemma {:induction false} RecoveringGrows(p: Plan, rolling: bool, g: Group)
    ensures Grows(p, rolling, g, g.(recovering := true))
  {}

  // ----- The start of a group

  /** The child is at hand from the cache. */
  predicate Known(p: Plan, cached: seq<Cached>, i: nat) {
    exists k :: 0 <= k < |p.requested| && k < |cached| && p.requested[k] == i && !cached[k].Miss?
  }

  /** The raw shard is at hand from the cache, and of use in rolling mode. */
  predicate Held(p: Plan, cached: seq<Cached>, rolling: bool, i: nat) {
    rolling && exists k :: 0 <= k < |p.requested| && k < |cached| && p.requested[k] == i && cached[k].DecodedAndRaw?
  }

  /** The shard is asked for at the start. */
  predicate AskedFirst(p: Plan, cached: seq<Cached>, i: nat) {
    exists k :: 0 <= k < |p.requested| && k < |cached| && p.requested[k] == i && cached[k].Miss?
  }

  /** What a group has done before its first turn: known children are handed on, held
      shards are received and all other wanted shards are asked for. */
  ghost predicate Begun(p: Plan, cached: seq<Cached>, rolling: bool, g: Group) {
    && Lengths(p, g) && g.completed == 0 && !g.recovering
    && (forall i :: 0 <= i < |g.ready| ==> (g.ready[i] <==> Known(p, cached, i)))
    && (forall i :: 0 <= i < |g.received| ==> (g.received[i].Some? <==> Held(p, cached, rolling, i)))
    && (forall i :: 0 <= i < |g.sent| ==> (g.sent[i] <==> AskedFirst(p, cached, i) || Held(p, cached, rolling, i)))
    && (forall i :: i in g.outstanding <==> AskedFirst(p, cached, i))
  }

  // ----- Every shard has a fate

  /** The fetch brings a chunk, and in a group with parity one whose address checks. */
  predicate Trusted(p: Plan, r: Reply) {
    |r.chunk| > 0 && (p.parityCount > 0 ==> r.canonical)
  }

  /** What fetching each shard comes to; a wanted child can be read from its shard. */
  ghost predicate Fated(p: Plan, fate: seq<Reply>) {
    && |fate| == Total(p)
    && forall i :: 0 <= i < |fate| ==>
         && fate[i].index == i
         && (fate[i].chunk == [] || Sized(fate[i].chunk))
         && (Trusted(p, fate[i]) && i in p.requested ==> fate[i].decodes)
  }

  predicate Truthful(fate: seq<Reply>, r: Reply) {
    r.index < |fate| ==> r == fate[r.index]
  }

  /** The caller stays, every answer is the shard's fate, a wait that does not end by
      itself ends with an answer when one is owed, and the gate does not slip. */
  ghost predicate Attentive(p: Plan, rolling: bool, fate: seq<Reply>, t: Turn) {
    && t.live && t.stillLive
    && (forall g: Group, r: Reply :: r in t.drained(g) ==> Truthful(fate, r))
    && (forall g: Group :: t.drained(g) != [] ==> Delivers(g, t.drained(g)[0]))
    && (forall g: Group :: t.waited(g).Some? ==> Truthful(fate, t.waited(g).value))
    && (forall g: Group :: g.outstanding != {} && !MayTimeOut(p, g, rolling, t) ==> Arrival(g, t).Some?)
    && (forall g: Group :: !Slips(p, g, rolling, t))
  }

  /** The shard can be had: held from the start, or asked for in this mode and brought. */
  predicate Obtainable(p: Plan, cached: seq<Cached>, rolling: bool, fate: seq<Reply>, i: nat)
    requires i < |fate|
  {
    || Held(p, cached, rolling, i)
    || (Trusted(p, fate[i]) && (rolling && i < p.dataCount ==> AskedFirst(p, cached, i)))
  }

  function Obtained(p: Plan, cached: seq<Cached>, rolling: bool, fate: seq<Reply>): (r: seq<Option<seq<Byte>>>)
    ensures |r| == |fate|
    ensures forall i :: 0 <= i < |r| ==> (r[i].Some? <==> Obtainable(p, cached, rolling, fate, i))
  {
    seq(|fate|, i requires 0 <= i < |fate| => if Obtainable(p, cached, rolling, fate, i) then Some(fate[i].chunk) else None)
  }

  /** All wanted children can be had, or enough shards to rebuild them. */
  ghost predicate Possible(p: Plan, cached: seq<Cached>, rolling: bool, fate: seq<Reply>) {
    || (forall i :: i in p.requested ==> i < |fate| && (Known(p, cached, i) || Trusted(p, fate[i])))
    || (p.parityCount > 0 && |Present(Obtained(p, cached, rolling, fate))| >= p.dataCount)
  }

  /** The books agree with the fates. */
  ghost predicate Agrees(p: Plan, cached: seq<Cached>, rolling: bool, fate: seq<Reply>, g: Group) {
    && Lengths(p, g) && |fate| == Total(p)
    && (forall i :: 0 <= i < |g.received| && g.received[i].Some? ==> Held(p, cached, rolling, i) || Usable(p, fate[i]))
    && (forall i :: 0 <= i < |g.received| && Held(p, cached, rolling, i) ==> g.received[i].Some?)
    && (forall i :: 0 <= i < |g.ready| && g.ready[i] ==> Known(p, cached, i) || g.received[i].Some?)
    && (forall i :: 0 <= i < |g.ready| && Known(p, cached, i) ==> g.ready[i])
    && (forall i :: 0 <= i < |g.sent| && g.sent[i] && i !in g.outstanding && g.received[i].None? ==> !Usable(p, fate[i]))
    && (rolling || p.parityCount == 0 ==>
          forall i :: 0 <= i < |g.sent| && i < p.dataCount && g.sent[i] ==> AskedFirst(p, cached, i) || Held(p, cached, rolling, i))
  }

  lemma {:induction false} BegunAgrees(p: Plan, cached: seq<Cached>, rolling: bool, fate: seq<Reply>, g: Group)
    requires Begun(p, cached, rolling, g) && Fated(p, fate)
    ensures Agrees(p, cached, rolling, fate, g)
  {
    hide AskedFirst;
    forall i | 0 <= i < |g.received| && Held(p, cached, rolling, i) ensures Known(p, cached, i) {}
  }

  lemma {:induction false} GrowsAgrees(p: Plan, cached: seq<Cached>, rolling: bool, fate: seq<Reply>, g: Group, h: Group)
    requires Agrees(p, cached, rolling, fate, g) && Grows(p, rolling, g, h)
    ensures Agrees(p, cached, rolling, fate, h)
  {
    hide Known, Held, AskedFirst;
  }

  lemma {:induction false} SettledAgrees(p: Plan, cached: seq<Cached>, rolling: bool, fate: seq<Reply>, g: Group, r: Reply)
    requires Agrees(p, cached, rolling, fate, g) && Fated(p, fate) && Fair(p)
    requires Truthful(fate, r) && r.index < |g.received|
    ensures Settled(p, g, r).Some? && Agrees(p, cached, rolling, fate, Settled(p, g, r).value)
  {
    hide Known, Held, AskedFirst, Fair;
  }

  lemma {:induction false} SettleAllAgrees(p: Plan, cached: seq<Cached>, rolling: bool, fate: seq<Reply>, g: Group, replies: seq<Reply>)
    requires Agrees(p, cached, rolling, fate, g) && Fated(p, fate) && Fair(p)
    requires forall r :: r in replies ==> Truthful(fate, r)
    ensures SettleAll(p, g, replies).Some? && Agrees(p, cached, rolling, fate, SettleAll(p, g, replies).value)
    decreases |replies|
  {
    hide Agrees, Fated, Fair, Truthful, Delivers;
    if replies != [] {
      assert replies[0] in replies;
      if !Delivers(g, replies[0]) || replies[0].index >= |g.received| {
        SettleAllAgrees(p, cached, rolling, fate, g, replies[1..]);
      } else {
        SettledAgrees(p, cached, rolling, fate, g, replies[0]);
        SettleAllAgrees(p, cached, rolling, fate, Settled(p, g, replies[0]).value, replies[1..]);
      }
    }
  }

  lemma {:induction false} GivenTruthful(p: Plan, rolling: bool, fate: seq<Reply>, g: Group, met: Group, t: Turn, replies: seq<Reply>, r: Reply)
    requires Attentive(p, rolling, fate, t) && Given(rolling, g, met, t, replies) && r in replies
    ensures Truthful(fate, r)
  {}

  /** A turn keeps the books in agreement with the fates. */
  lemma {:induction false} TurnedAgrees(p: Plan, cached: seq<Cached>, rolling: bool, fate: seq<Reply>,
                     g: Group, met: Group, t: Turn, replies: seq<Reply>, h: Group)
    requires Agrees(p, cached, rolling, fate, g) && Fated(p, fate) && Fair(p) && Attentive(p, rolling, fate, t)
    requires Given(rolling, g, met, t, replies) && Turned(p, rolling, g, met, replies, h)
    ensures Agrees(p, cached, rolling, fate, h)
  {
    hide Agrees, Fated, Fair, Grows, Given, Attentive, Truthful;
    GrowsAgrees(p, cached, rolling, fate, g, met);
    forall r | r in replies ensures Truthful(fate, r) {
      GivenTruthful(p, rolling, fate, g, met, t, replies, r);
    }
    SettleAllAgrees(p, cached, rolling, fate, met, replies);
    GrowsAgrees(p, cached, rolling, fate, SettleAll(p, met, replies).value, h);
  }

  // ----- When rolling is safe

  /** The shards whose children are known while their raw shards are gone. */
  ghost function Gone(p: Plan, cached: seq<Cached>): set<nat>
    requires |cached| <= |p.requested|
  {
    set k | 0 <= k < |cached| && cached[k].DecodedOnly? :: p.requested[k]
  }

  lemma {:induction false} GoneCounts(p: Plan, cached: seq<Cached>)
    requires Fair(p) && |cached| <= |p.requested|
    ensures |Gone(p, cached)| == DecodedOnlyCount(cached)
    decreases |cached|
  {
    if cached != [] {
      var k := |cached| - 1;
      var before := cached[..k];
      GoneCounts(p, before);
      assert p.requested[k] !in Gone(p, before);
      assert Gone(p, cached) == Gone(p, before) + if cached[k].DecodedOnly? then {p.requested[k]} else {};
    }
  }

  /** The numbers of the shards at hand are those of a set. */
  lemma {:induction false} PresentCounts(s: seq<Option<Shard>>, gone: set<nat>)
    requires forall i :: 0 <= i < |s| ==> (s[i].None? <==> i in gone)
    requires forall i :: i in gone ==> i < |s|
    ensures |Present(s)| == |s| - |gone|
    decreases |s|
  {
    if |s| == 0 {
      assert gone == {};
    } else {
      var last := |s| - 1;
      PresentCounts(s[..last], gone - {last});
    }
  }

  /** All but one of the shards can be fetched. */
  predicate AllButOne(p: Plan, fate: seq<Reply>, lost: nat) {
    |fate| == Total(p) && lost < |fate| && forall i :: 0 <= i < |fate| ==> (Trusted(p, fate[i]) <==> i != lost)
  }

  lemma {:induction false} ObtainedWhole(p: Plan, cached: seq<Cached>, fate: seq<Reply>, lost: nat)
    requires Fair(p) && RollingCandidate(p) && |cached| == |p.requested|
    requires AllButOne(p, fate, lost) && AskedFirst(p, cached, lost)
    ensures |Present(Obtained(p, cached, true, fate))| == Total(p) - DecodedOnlyCount(cached) - 1
  {
    hide Present, Gone, Trusted, Held, AskedFirst, Fair;
    var gone := Gone(p, cached) + {lost};
    var obtained := Obtained(p, cached, true, fate);
    forall i | 0 <= i < |obtained| ensures obtained[i].None? <==> i in gone {
      ShardKinds(p, cached, i);
    }
    forall i | i in gone ensures i < |obtained| {
      ShardKinds(p, cached, i);
    }
    ShardKinds(p, cached, lost);
    GoneCounts(p, cached);
    PresentCounts(obtained, gone);
  }

  /** In a whole group every data shard is held, gone or asked for, and no parity shard is. */
  lemma {:induction false} ShardKinds(p: Plan, cached: seq<Cached>, i: nat)
    requires Fair(p) && RollingCandidate(p) && |cached| == |p.requested|
    ensures i < p.dataCount ==> (i in Gone(p, cached) <==> !Held(p, cached, true, i) && !AskedFirst(p, cached, i))
    ensures i < p.dataCount ==> !(Held(p, cached, true, i) && AskedFirst(p, cached, i))
    ensures i >= p.dataCount ==> i !in Gone(p, cached) && !Held(p, cached, true, i) && !AskedFirst(p, cached, i)
  {
    if i < p.dataCount {
      AllAsked(p);
      assert i in p.requested;
      var k :| 0 <= k < |p.requested| && p.requested[k] == i;
      OnlyPlace(p, cached, k);
    }
  }

  lemma {:induction false} OnlyPlace(p: Plan, cached: seq<Cached>, k: nat)
    requires Fair(p) && k < |p.requested| == |cached|
    ensures Held(p, cached, true, p.requested[k]) <==> cached[k].DecodedAndRaw?
    ensures AskedFirst(p, cached, p.requested[k]) <==> cached[k].Miss?
    ensures p.requested[k] in Gone(p, cached) <==> cached[k].DecodedOnly?
  {}

  /** A plan that wants as many distinct shards as there are wants them all. */
  lemma {:induction false} AllAsked(p: Plan)
    requires Fair(p) && |p.requested| == p.dataCount
    ensures forall i :: 0 <= i < p.dataCount ==> i in p.requested
  {
    forall i | 0 <= i < p.dataCount ensures i in p.requested {
      if i !in p.requested {
        var moved := seq(|p.requested|, k requires 0 <= k < |p.requested| =>
          if p.requested[k] == p.dataCount - 1 then i else p.requested[k]);
        assert forall k :: 0 <= k < |p.requested| ==> p.requested[k] in p.requested;
        DistinctBelow(moved, p.dataCount - 1);
      }
    }
  }

  /** A whole group that misses something rolls exactly when it can do without any one
      of the shards it would ask for. */
  lemma {:induction false} RollsIff(p: Plan, cached: seq<Cached>, fate: seq<Reply>, lost: nat)
    requires Fair(p) && RollingCandidate(p) && |cached| == |p.requested|
    requires AllButOne(p, fate, lost) && AskedFirst(p, cached, lost)
    ensures Rolls(p, cached) <==> Possible(p, cached, true, fate)
  {
    hide Present, Gone;
    ObtainedWhole(p, cached, fate, lost);
    AskedFirstUnknown(p, cached, lost);
    SomethingMissing(p, cached, lost);
  }

  lemma {:induction false} SomethingMissing(p: Plan, cached: seq<Cached>, i: nat)
    requires AskedFirst(p, cached, i)
    ensures MissCount(cached) > 0
  {
    var k :| 0 <= k < |p.requested| && k < |cached| && p.requested[k] == i && cached[k].Miss?;
    MissCounted(cached, k);
  }

  lemma {:induction false} MissCounted(cached: seq<Cached>, k: nat)
    requires k < |cached| && cached[k].Miss?
    ensures MissCount(cached) > 0
    decreases |cached|
  {
    if k < |cached| - 1 {
      MissCounted(cached[..|cached| - 1], k);
    }
  }

  // ----- How runs end

  lemma {:induction false} PresentMonotone(a: seq<Option<Shard>>, b: seq<Option<Shard>>)
    requires |a| == |b| && forall i :: 0 <= i < |a| && a[i].Some? ==> b[i].Some?
    ensures |Present(a)| <= |Present(b)|
    decreases |a|
  {
    if |a| > 0 {
      PresentMonotone(a[..|a| - 1], b[..|b| - 1]);
    }
  }

  /** A finished group was possible. */
  lemma {:induction false} TerminalPossible(p: Plan, cached: seq<Cached>, rolling: bool, fate: seq<Reply>, g: Group)
    requires Sound(p, g) && Agrees(p, cached, rolling, fate, g) && IsTerminal(p, g)
    ensures Possible(p, cached, rolling, fate)
  {
    hide Present, Known, AskedFirst;
    if AllReady(p, g) {
      forall i | i in p.requested ensures i < |fate| && (Known(p, cached, i) || Trusted(p, fate[i])) {
        var k :| 0 <= k < |p.requested| && p.requested[k] == i;
        HeldIsKnown(p, cached, rolling, i);
      }
    } else {
      PresentMonotone(g.received, Obtained(p, cached, rolling, fate));
    }
  }

  lemma {:induction false} HeldIsKnown(p: Plan, cached: seq<Cached>, rolling: bool, i: nat)
    ensures Held(p, cached, rolling, i) ==> Known(p, cached, i)
  {}

  /** Nothing is owed, every wanted shard was asked for or is ready, yet some child is
      not: then some wanted shard's fate is unusable. */
  lemma {:induction false} WantedFailed(p: Plan, cached: seq<Cached>, rolling: bool, fate: seq<Reply>, g: Group)
    requires Sound(p, g) && NoneForgotten(p, g) && Agrees(p, cached, rolling, fate, g)
    requires g.outstanding == {} && !AllReady(p, g)
    ensures exists i :: i in p.requested && i < |fate| && !Known(p, cached, i) && !Usable(p, fate[i])
  {
    hide Present, Known, Held, AskedFirst;
    var k :| 0 <= k < |p.requested| && !(p.requested[k] < |g.ready| && g.ready[p.requested[k]]);
    var i := p.requested[k];
    assert g.sent[i] && g.received[i].None?;
    assert !Usable(p, fate[i]);
  }

  /** Everything that can be had was asked for and answered, and it was not enough. */
  lemma {:induction false} ExhaustedImpossible(p: Plan, cached: seq<Cached>, rolling: bool, fate: seq<Reply>, g: Group)
    requires Sound(p, g) && NoneForgotten(p, g) && Agrees(p, cached, rolling, fate, g)
    requires g.outstanding == {} && !AllReady(p, g)
    requires p.parityCount > 0 ==> g.successes < p.dataCount && AllSent(g, if rolling then p.dataCount else 0, Total(p))
    requires forall i :: AskedFirst(p, cached, i) ==> i in p.requested && !Known(p, cached, i)
    ensures !Possible(p, cached, rolling, fate)
  {
    hide Present, Known, Held, AskedFirst;
    WantedFailed(p, cached, rolling, fate, g);
    if p.parityCount > 0 {
      var obtained := Obtained(p, cached, rolling, fate);
      forall i | 0 <= i < |obtained| && obtained[i].Some? ensures g.received[i].Some? {
        assert Obtainable(p, cached, rolling, fate, i);
        if !Held(p, cached, rolling, i) {
          assert g.sent[i];
        }
      }
      PresentMonotone(obtained, g.received);
    }
  }

  lemma {:induction false} AskedFirstUnknown(p: Plan, cached: seq<Cached>, i: nat)
    requires Fair(p) && AskedFirst(p, cached, i)
    ensures i in p.requested && !Known(p, cached, i)
  {}

  /** With everybody attentive, a group gives up only what is impossible. */
  lemma {:induction false} GivesUpImpossible(p: Plan, cached: seq<Cached>, rolling: bool, fate: seq<Reply>,
                          g: Group, t: Turn, met: Group, replies: seq<Reply>, h: Group, reason: Reason)
    requires Fair(p) && Fated(p, fate) && Agrees(p, cached, rolling, fate, g) && Attentive(p, rolling, fate, t)
    requires GaveUp(p, rolling, g, t, met, replies, h, reason)
    ensures !Possible(p, cached, rolling, fate)
  {
    hide Agrees, Grows, Sound, NoneForgotten, Given, Truthful, Possible, Fair, Fated, AllReady, AllSent, SettleAll, MayTimeOut, Slips, Arrival, Usable;
    match reason
    case Cancelled => assert false;
    case Undecodable =>
      GrowsAgrees(p, cached, rolling, fate, g, met);
      forall r | r in replies ensures Truthful(fate, r) {
        GivenTruthful(p, rolling, fate, g, met, t, replies, r);
      }
      SettleAllAgrees(p, cached, rolling, fate, met, replies);
      assert false;
    case Exhausted =>
      GrowsAgrees(p, cached, rolling, fate, g, h);
      forall i | AskedFirst(p, cached, i) ensures i in p.requested && !Known(p, cached, i) {
        AskedFirstUnknown(p, cached, i);
      }
      ExhaustedImpossible(p, cached, rolling, fate, h);
    case Unrecoverable =>
      GrowsAgrees(p, cached, rolling, fate, g, met);
      UnrecoverableImpossible(p, cached, rolling, fate, met, t);
    case Stalled => assert false;
  }

  lemma {:induction false} UnrecoverableImpossible(p: Plan, cached: seq<Cached>, rolling: bool, fate: seq<Reply>, met: Group, t: Turn)
    requires Fair(p) && Agrees(p, cached, rolling, fate, met) && Attentive(p, rolling, fate, t)
    requires p.parityCount == 0 && Sound(p, met) && Arrival(met, t).Some? && !Usable(p, Arrival(met, t).value)
    ensures !Possible(p, cached, rolling, fate)
  {
    hide Known, AskedFirst, Held, Present, Slips, MayTimeOut;
    var i := Arrival(met, t).value.index;
    assert Truthful(fate, t.waited(met).value);
    assert i in met.outstanding && met.sent[i] && met.received[i].None?;
    assert !Held(p, cached, rolling, i);
    AskedFirstUnknown(p, cached, i);
  }

  // ----- Runs end

  lemma {:induction false} DistinctBelow(s: seq<nat>, n: nat)
    requires forall j, k :: 0 <= j < k < |s| ==> s[j] != s[k]
    requires forall j :: 0 <= j < |s| ==> s[j] < n
    ensures |s| <= n
    decreases |s|
  {
    if |s| > 0 {
      var last := |s| - 1;
      var rest := seq(last, j requires 0 <= j < last => if s[j] == n - 1 then s[last] else s[j]);
      DistinctBelow(rest, n - 1);
    }
  }

  lemma {:induction false} ProgressBound(p: Plan, g: Group)
    requires Sound(p, g)
    ensures Progress(g) <= 2 * Total(p) + 1
  {
    hide Present;
    assert forall j :: 0 <= j < |g.asked| ==> g.asked[j] in g.asked;
    DistinctBelow(g.asked, Total(p));
  }
}
