/** The coordinator of one shard group: it asks for the wanted data shards, asks
    for more when answers fail or are late, and stops when every wanted child is
    at hand or enough shards are there to rebuild the rest. */
module GroupCoordinator {
  import opened Options
  import opened GaloisField
  import opened ReedSolomon
  import opened ShardGroup
  import opened GroupRules

  class Coordinator {
    const plan: Plan
    var rolling: bool
    var sent: seq<bool>
    var ready: seq<bool>
    var received: seq<Option<seq<Byte>>>
    var successes: nat
    var dispatched: nat
    var completed: nat
    var recovering: bool
    var asked: seq<nat>
    var outstanding: set<nat>
    var emitted: seq<nat>

    function State(): Group
      reads this
    {
      Group(sent, ready, received, successes, dispatched, completed, recovering, asked, outstanding, emitted)
    }

    ghost predicate Valid()
      reads this
    {
      && Sound(plan, State())
      && RollingSound(plan, State(), rolling)
      && NoneForgotten(plan, State())
    }

    constructor (p: Plan)
      requires Fair(p)
      ensures plan == p && State() == Empty(p) && !rolling
    {
      plan := p;
      rolling := false;
      sent, ready, received := seq(Total(p), _ => false), seq(p.dataCount, _ => false), seq(Total(p), _ => None);
      successes, dispatched, completed, recovering := 0, 0, 0, false;
      asked, outstanding, emitted := [], {}, [];
    }

    // ----- Elementary changes

    method Dispatch(i: nat)
      requires i < |sent| && !sent[i] && Sound(plan, State())
      modifies this
      ensures State() == Dispatched(old(State()), i) && Sound(plan, State()) && rolling == old(rolling)
    {
      hide Sound;
      SoundParts(plan, State(), i);
      DispatchSound(plan, State(), i);
      sent := sent[i := true];
      dispatched, asked, outstanding := dispatched + 1, asked + [i], outstanding + {i};
    }

    method Emit(i: nat)
      requires Sound(plan, State()) && Wanted(plan, State(), i)
      modifies this
      ensures State() == HandOn(old(State()), i) && Sound(plan, State()) && rolling == old(rolling)
    {
      hide Sound;
      HandOnSound(plan, State(), i);
      Mark(i);
    }

    method Settle(r: Reply) returns (usable: Option<bool>)
      requires Sound(plan, State()) && Delivers(State(), r)
      modifies this
      ensures rolling == old(rolling) && dispatched == old(dispatched)
      ensures r.index < |old(received)|
      ensures usable.Some? <==> Settled(plan, old(State()), r).Some?
      ensures usable.Some? ==> Some(State()) == Settled(plan, old(State()), r) && Sound(plan, State())
      ensures usable.Some? ==> usable.value == Usable(plan, r)
      ensures Accounted(plan, State()) && old(emitted) <= emitted
    {
      hide Sound, Accounted, Sized, Fair, Lengths;
      ghost var before := State();
      SoundParts(plan, before, r.index);
      if Settled(plan, before, r).Some? {
        SettleSound(plan, before, r);
        SoundParts(plan, Settled(plan, before, r).value, r.index);
      }
      Answer(r.index);
      if r.chunk == [] || !(r.canonical || plan.parityCount == 0) {
        return Some(false);
      }
      Land(r.index, r.chunk);
      if r.index < plan.dataCount && r.index in plan.requested && !ready[r.index] {
        if !r.decodes {
          AccountedSame(plan, before, State());
          return None;
        }
        Mark(r.index);
      }
      return Some(true);
    }

    method Answer(i: nat)
      modifies this`completed, this`outstanding
      ensures State() == Answered(old(State()), i)
    {
      completed, outstanding := completed + 1, outstanding - {i};
    }

    method Land(i: nat, chunk: seq<Byte>)
      requires i < |received|
      modifies this`received, this`successes
      ensures State() == Arrives(old(State()), i, chunk)
    {
      received := received[i := Some(chunk)];
      successes := successes + 1;
    }

    method Mark(i: nat)
      requires i < |ready|
      modifies this`emitted, this`ready
      ensures State() == HandOn(old(State()), i)
    {
      emitted := emitted + [i];
      ready := ready[i := true];
    }

    // ----- Asking for more

    /** Whatever was newly asked for, nothing before it was left unasked. */
    static ghost predicate InOrder(before: seq<bool>, after: seq<bool>, low: nat) {
      forall i, j :: low <= j < i < |before| && i < |after| && after[i] && !before[i] ==> after[j]
    }

    method DispatchParity(limit: nat) returns (count: nat)
      requires Sound(plan, State())
      modifies this
      ensures Sound(plan, State()) && OnlyAsked(old(State()), State()) && rolling == old(rolling)
      ensures dispatched == old(dispatched) + count && count <= limit
      ensures count < limit ==> AllSent(State(), plan.dataCount, Total(plan))
      ensures count == 0 ==> State() == old(State())
      ensures |sent| == |old(sent)| == Total(plan) && InOrder(old(sent), sent, plan.dataCount)
      ensures forall i :: 0 <= i < plan.dataCount ==> sent[i] == old(sent[i])
    {
      hide Sound, OnlyAsked;
      count := 0;
      OnlyAskedSelf(State());
      SoundParts(plan, State(), 0);
      for i := plan.dataCount to Total(plan)
        invariant count == 0 ==> State() == old(State())
        invariant |sent| == |old(sent)| == Total(plan)
        invariant forall j :: 0 <= j < plan.dataCount || i <= j < Total(plan) ==> sent[j] == old(sent[j])
        invariant Sound(plan, State()) && OnlyAsked(old(State()), State()) && rolling == old(rolling)
        invariant dispatched == old(dispatched) + count && count <= limit
        invariant forall j :: plan.dataCount <= j < i ==> sent[j]
      {
        if count >= limit {
          return;
        }
        if !sent[i] {
          OnlyAskedMore(old(State()), State(), i);
          Dispatch(i);
          count := count + 1;
        }
      }
    }

    method DispatchRecovery(limit: nat) returns (count: nat)
      requires Sound(plan, State())
      modifies this
      ensures Sound(plan, State()) && OnlyAsked(old(State()), State()) && rolling == old(rolling)
      ensures dispatched == old(dispatched) + count && count <= limit
      ensures count < limit ==> AllSent(State(), 0, Total(plan))
      ensures count == 0 ==> State() == old(State())
      ensures |sent| == |old(sent)| && InOrder(old(sent), sent, 0)
    {
      hide Sound, OnlyAsked;
      count := 0;
      OnlyAskedSelf(State());
      SoundParts(plan, State(), 0);
      for i := 0 to plan.dataCount
        invariant count == 0 ==> State() == old(State())
        invariant |sent| == |old(sent)| == Total(plan)
        invariant forall j :: i <= j < Total(plan) ==> sent[j] == old(sent[j])
        invariant Sound(plan, State()) && OnlyAsked(old(State()), State()) && rolling == old(rolling)
        invariant dispatched == old(dispatched) + count && count <= limit
        invariant forall j :: 0 <= j < i ==> sent[j]
      {
        if count >= limit {
          return;
        }
        if !sent[i] {
          OnlyAskedMore(old(State()), State(), i);
          Dispatch(i);
          count := count + 1;
        }
      }
      ghost var middle := State();
      var more := DispatchParity(limit - count);
      OnlyAskedTrans(old(State()), middle, State());
      OnlyAskedKeeps(middle, State(), plan.dataCount);
      count := count + more;
    }

    /** The first parity shard not asked for yet. */
    method NextParity() returns (r: Option<nat>)
      requires |sent| == Total(plan)
      ensures r.None? <==> AllSent(State(), plan.dataCount, Total(plan))
      ensures r.Some? ==> plan.dataCount <= r.value < Total(plan) && !sent[r.value]
    {
      for i := plan.dataCount to Total(plan)
        invariant forall j :: plan.dataCount <= j < i ==> sent[j]
      {
        if !sent[i] {
          return Some(i);
        }
      }
      return None;
    }

    /** How many parity shards are left to ask for. */
    method RemainingParity() returns (n: nat)
      requires |sent| == Total(plan)
      ensures n == 0 <==> AllSent(State(), plan.dataCount, Total(plan))
    {
      n := 0;
      for i := plan.dataCount to Total(plan)
        invariant n == 0 <==> forall j :: plan.dataCount <= j < i ==> sent[j]
      {
        if !sent[i] {
          n := n + 1;
        }
      }
    }

    // ----- Starting

    method Begin(cached: seq<Cached>)
      requires |cached| == |plan.requested| && State() == Empty(plan) && !rolling && Fair(plan)
      requires forall k :: 0 <= k < |cached| && cached[k].DecodedAndRaw? ==> Sized(cached[k].raw)
      modifies this
      ensures Valid()
      ensures rolling == Rolls(plan, cached) && Begun(plan, cached, rolling, State())
    {
      hide Sound, Sized, Begun, Known, Held, AskedFirst;
      var decodedOnly, unresolved := 0, 0;
      for k := 0 to |cached|
        invariant State() == Empty(plan) && !rolling
        invariant decodedOnly == DecodedOnlyCount(cached[..k]) && unresolved == MissCount(cached[..k])
      {
        assert cached[..k + 1][..k] == cached[..k];
        match cached[k]
        case DecodedAndRaw(_) =>
        case DecodedOnly => decodedOnly := decodedOnly + 1;
        case Miss => unresolved := unresolved + 1;
      }
      assert cached[..|cached|] == cached;
      rolling := RollingEligible(plan, decodedOnly, unresolved);
      EmptySound(plan);
      NothingBegun(plan, rolling);
      for k := 0 to |plan.requested|
        invariant Sound(plan, State()) && Started(plan, State(), k) && Begun(plan, cached[..k], rolling, State())
        invariant rolling == Rolls(plan, cached)
      {
        StartOne(k, cached);
      }
      AllStarted(plan, State(), rolling);
    }

    method StartOne(k: nat, cached: seq<Cached>)
      requires k < |plan.requested| == |cached|
      requires Sound(plan, State()) && Started(plan, State(), k) && Begun(plan, cached[..k], rolling, State())
      requires cached[k].DecodedAndRaw? ==> Sized(cached[k].raw)
      modifies this
      ensures Sound(plan, State()) && Started(plan, State(), k + 1) && Begun(plan, cached[..k + 1], rolling, State())
      ensures rolling == old(rolling)
    {
      hide Started, Sound, Sized, Begun;
      StartedMeans(plan, State(), k);
      var i := plan.requested[k];
      match cached[k] {
        case DecodedAndRaw(raw) =>
          Emit(i);
          if rolling {
            HoldSound(plan, State(), i, raw);
            received, sent, successes := received[i := Some(raw)], sent[i := true], successes + 1;
          }
        case DecodedOnly => Emit(i);
        case Miss => Dispatch(i);
      }
      StartedMore(plan, old(State()), State(), k);
      BegunMore(plan, cached, rolling, old(State()), State(), k);
    }

    // ----- Turns

    method SettleValid(r: Reply) returns (usable: Option<bool>)
      requires Valid() && Delivers(State(), r)
      modifies this
      ensures r.index < |old(received)|
      ensures usable.Some? <==> Settled(plan, old(State()), r).Some?
      ensures usable.Some? ==> Valid() && usable.value == Usable(plan, r) && Some(State()) == Settled(plan, old(State()), r)
      ensures Accounted(plan, State()) && old(emitted) <= emitted && rolling == old(rolling)
      ensures usable.Some? ==> recovering == old(recovering) && completed == old(completed) + 1
      ensures dispatched == old(dispatched)
    {
      hide Sound, RollingSound, NoneForgotten, Delivers, Usable, Accounted;
      usable := Settle(r);
      if usable.Some? {
        SettledKeeps(plan, old(State()), r, rolling);
      }
    }

    method Recover()
      requires Valid() && plan.parityCount > 0
      modifies this`recovering
      ensures Valid() && State() == old(State()).(recovering := true)
    {
      RecoverKeeps(plan, State(), rolling);
      recovering := true;
    }

    /** Settles the answers already waiting. */
    method Drain(replies: seq<Reply>) returns (ok: bool)
      requires Valid()
      modifies this
      ensures ok ==> Valid()
      ensures SettleAll(plan, old(State()), replies) == if ok then Some(State()) else None
      ensures ok && replies != [] && Delivers(old(State()), replies[0]) ==> Progress(State()) > Progress(old(State()))
      ensures Accounted(plan, State()) && old(emitted) <= emitted && rolling == old(rolling)
    {
      hide Sound, RollingSound, NoneForgotten, Delivers, Accounted, Usable;
      SoundParts(plan, State(), 0);
      for k := 0 to |replies|
        invariant Valid() && Accounted(plan, State()) && old(emitted) <= emitted && rolling == old(rolling)
        invariant SettleAll(plan, old(State()), replies) == SettleAll(plan, State(), replies[k..])
        invariant k == 0 ==> State() == old(State())
        invariant dispatched == old(dispatched) && recovering == old(recovering) && completed >= old(completed)
        invariant k > 0 && Delivers(old(State()), replies[0]) ==> completed > old(completed)
      {
        assert replies[k..][0] == replies[k] && replies[k..][1..] == replies[k + 1..];
        if Delivers(State(), replies[k]) {
          var usable := SettleValid(replies[k]);
          if usable.None? {
            return false;
          }
        }
      }
      return true;
    }

    /** An answer that arrived while waiting. A failed one starts the recovery. */
    method Receive(r: Reply, live: bool) returns (v: TurnResult)
      requires Valid() && Delivers(State(), r)
      modifies this
      ensures r.index < |old(received)|
      ensures v == GivesUp(Cancelled) <==> !live
      ensures v == GivesUp(Undecodable) <==> live && Settled(plan, old(State()), r).None?
      ensures v == GivesUp(Unrecoverable) <==>
                live && !Usable(plan, r) && !rolling && !old(recovering) && plan.parityCount == 0
      ensures v.Again? || v in {GivesUp(Cancelled), GivesUp(Undecodable), GivesUp(Unrecoverable)}
      ensures v.Again? ==> Valid() && Some(State().(recovering := old(recovering))) == Settled(plan, old(State()), r)
      ensures v.Again? ==> (recovering <==> old(recovering) || (!rolling && !Usable(plan, r)))
      ensures dispatched == old(dispatched)
      ensures Accounted(plan, State()) && old(emitted) <= emitted && rolling == old(rolling)
      ensures v.Again? ==> completed == old(completed) + 1
    {
      hide Sound, RollingSound, NoneForgotten, Delivers, Accounted, Usable;
      SoundParts(plan, State(), r.index);
      assert r.index in outstanding by { DeliversOwed(State(), r); }
      if !live {
        return GivesUp(Cancelled);
      }
      UnusableSettles(plan, State(), r);
      var usable := SettleValid(r);
      if usable.None? {
        return GivesUp(Undecodable);
      }
      if !usable.value && !rolling && !recovering {
        if plan.parityCount == 0 {
          return GivesUp(Unrecoverable);
        }
        SoundParts(plan, State(), 0);
        Recover();
        AccountedSame(plan, State().(recovering := false), State());
      }
      return Again;
    }

    /** One turn in rolling mode, once the group is known to be unfinished. One parity
        shard is admitted exactly when the gate has passed, a place is free and parity is
        left; otherwise an answer is taken. */
    method RollingTurn(t: Turn) returns (v: TurnResult, ghost replies: seq<Reply>)
      requires Valid() && rolling && !IsTerminal(plan, State())
      modifies this
      ensures v.Again? ==> Valid()
      ensures !v.Terminal? && Accounted(plan, State()) && old(emitted) <= emitted && rolling
      ensures replies == [] || (Arrival(old(State()), t).Some? && replies == [Arrival(old(State()), t).value])
      ensures var admits := t.early >= HedgeAfter && old(dispatched - completed) < plan.dataCount
                            && !old(AllSent(State(), plan.dataCount, Total(plan)));
              && (admits ==> v.Again? && recovering && replies == [])
              && dispatched == old(dispatched) + if admits then 1 else 0
      ensures v.Again? && Arrival(old(State()), t).Some? && dispatched == old(dispatched) ==> replies != []
      ensures v.Again? ==> Turned(plan, true, old(State()), old(State()), replies, State())
      ensures v.Again? ==> Progress(State()) > Progress(old(State())) || t.late < HedgeAfter
      ensures v == GivesUp(Stalled) <==>
                t.early < HedgeAfter <= t.late && old(completed == dispatched) && !old(AllSent(State(), plan.dataCount, Total(plan)))
      ensures v == GivesUp(Exhausted) ==> State() == old(State()) && completed == dispatched && AllSent(State(), plan.dataCount, Total(plan))
      ensures v == GivesUp(Cancelled) ==>
                !t.stillLive || (t.late >= HedgeAfter && old(outstanding) != {} && Arrival(old(State()), t).None?)
      ensures v == GivesUp(Undecodable) ==> replies != [] && SettleAll(plan, old(State()), replies).None?
      ensures v != GivesUp(Unrecoverable)
    {
      hide Sound, NoneForgotten, Accounted, IsTerminal, Grows, Usable;
      SoundParts(plan, State(), 0);
      replies := [];
      GrowsSelf(plan, true, State());
      var remaining := RemainingParity();
      if ParityAdmission(t.early, false, plan.dataCount, dispatched - completed, remaining) != 0 {
        var next := NextParity();
        Dispatch(next.value);
        recovering := true;
        AdmitKeeps(plan, old(State()), next.value);
        SoundParts(plan, State(), 0);
        AdmitGrows(plan, old(State()), next.value);
        return Again, replies;
      }
      var next := NextParity();
      if completed == dispatched && t.late >= HedgeAfter && next.None? {
        return GivesUp(Exhausted), replies;
      }
      var arrival := Arrival(State(), t);
      if arrival.Some? {
        replies := [arrival.value];
        DeliversOwed(State(), arrival.value);
        SoundParts(plan, State(), arrival.value.index);
        SettleOne(plan, State(), arrival.value);
        v := Receive(arrival.value, t.stillLive);
        if v.Again? {
          GrowsSelf(plan, true, State());
        }
      } else if t.late < HedgeAfter {
        v := Again;
      } else if outstanding == {} {
        v := GivesUp(Stalled);
      } else {
        v := GivesUp(Cancelled);
      }
    }

    /** One turn otherwise, once the group is known to be unfinished. A group in recovery
        first asks for more until two shards beyond the data count are received or under
        way; `met` is the group as it waits. */
    method OrdinaryTurn(t: Turn) returns (v: TurnResult, ghost met: Group, ghost replies: seq<Reply>)
      requires Valid() && !rolling && !IsTerminal(plan, State())
      modifies this
      ensures v.Again? ==> Valid()
      ensures !v.Terminal? && v != GivesUp(Stalled) && Accounted(plan, State()) && old(emitted) <= emitted && !rolling
      ensures Grows(plan, false, old(State()), met) && Sound(plan, met) && NoneForgotten(plan, met)
      ensures met.recovering == old(recovering) && (!old(recovering) ==> met == old(State()))
      ensures old(recovering) ==>
                var active := met.successes + met.dispatched - met.completed;
                && (active >= plan.dataCount + ExtraShards || AllSent(met, 0, Total(plan)))
                && (met == old(State()) || active <= plan.dataCount + ExtraShards)
      ensures old(recovering) && met.outstanding == {} ==> AllSent(met, 0, Total(plan))
      ensures WaitEnds(plan, met, t, replies, State(), v)
      ensures v.Again? && Arrival(met, t).None? && met.outstanding != {} && !old(recovering) && |plan.requested| == plan.dataCount ==>
                AllSent(State(), plan.dataCount, Total(plan))
      ensures v.Again? ==> Progress(State()) > Progress(old(State()))
    {
      hide Sound, NoneForgotten, Accounted, OnlyAsked, Delivers, AllReady, Grows, Usable;
      replies := [];
      SoundParts(plan, State(), 0);
      GrowsSelf(plan, false, State());
      if recovering {
        TopUp();
      }
      met := State();
      SoundParts(plan, State(), 0);
      if completed == dispatched {
        if recovering || plan.parityCount == 0 {
          return GivesUp(Exhausted), met, replies;
        }
        Recover();
        SoundParts(plan, State(), 0);
        return Again, met, replies;
      }
      var arrival := Arrival(State(), t);
      if arrival.Some? {
        replies := [arrival.value];
        v := Receive(arrival.value, t.stillLive);
        return;
      }
      v := OnTimeout(t, t.stillLive);
    }

    /** Asks for more until enough is received or under way. */
    method TopUp()
      requires Valid() && !rolling && recovering
      modifies this
      ensures Valid() && !rolling && recovering
      ensures Grows(plan, false, old(State()), State()) && dispatched >= old(dispatched)
      ensures successes == old(successes) && completed == old(completed) && emitted == old(emitted)
      ensures ready == old(ready)
      ensures successes + dispatched - completed >= plan.dataCount + ExtraShards || AllSent(State(), 0, Total(plan))
      ensures State() == old(State()) || successes + dispatched - completed <= plan.dataCount + ExtraShards
    {
      hide Sound, NoneForgotten, OnlyAsked, Grows;
      SoundParts(plan, State(), 0);
      GrowsSelf(plan, false, State());
      var topUp := RecoveryTopUp(plan, State());
      if topUp > 0 {
        var count := DispatchRecovery(topUp);
        AskedKeeps(plan, old(State()), State());
        AskedGrows(plan, old(State()), State());
        SoundParts(plan, State(), 0);
      }
    }

    /** Nothing arrived while waiting: ask for more, if there is more to ask for. */
    method OnTimeout(t: Turn, live: bool) returns (v: TurnResult)
      requires Valid() && !rolling
      modifies this
      ensures v.Again? ==> Valid()
      ensures v.Again? <==> MayTimeOut(plan, old(State()), false, t) && live
      ensures v == Again || v == GivesUp(Cancelled)
      ensures Accounted(plan, State()) && emitted == old(emitted) && !rolling
      ensures v.Again? ==> Grows(plan, false, old(State()), State()) && recovering && Progress(State()) > Progress(old(State()))
      ensures v.Again? && !old(recovering) && |plan.requested| == plan.dataCount ==>
                AllSent(State(), plan.dataCount, Total(plan))
      ensures v.Again? && old(recovering) ==>
                dispatched <= old(dispatched) + ProgressiveBatch
                && (dispatched < old(dispatched) + ProgressiveBatch ==> AllSent(State(), 0, Total(plan)))
    {
      hide Sound, NoneForgotten, Accounted, OnlyAsked, Grows;
      SoundParts(plan, State(), 0);
      var left := exists i :: 0 <= i < |sent| && !sent[i];
      if (!recovering && plan.parityCount == 0) || (recovering && !left) || !live {
        return GivesUp(Cancelled);
      }
      ghost var before := State();
      GrowsSelf(plan, false, before);
      if !recovering {
        if |plan.requested| == plan.dataCount {
          var count := DispatchParity(WordSize - 1);
          DispatchedBound(plan, State());
          AskedKeeps(plan, before, State());
          AskedGrows(plan, before, State());
        }
        ghost var middle := State();
        Recover();
        RecoveringGrows(plan, false, middle);
        GrowsTrans(plan, false, before, middle, State());
      } else {
        var count := DispatchRecovery(ProgressiveBatch);
        AskedKeeps(plan, before, State());
        AskedGrows(plan, before, State());
      }
      SoundParts(plan, State(), 0);
      return Again;
    }

    /** One turn. It gives up only for the reasons named, and waits without end exactly
        when the gate slips. */
    method TakeTurn(t: Turn) returns (v: TurnResult, ghost met: Group, ghost replies: seq<Reply>)
      requires Valid()
      modifies this
      ensures Accounted(plan, State()) && old(emitted) <= emitted && rolling == old(rolling)
      ensures v.Again? || v.Terminal? ==> Valid()
      ensures !t.live ==> v == GivesUp(Cancelled)
      ensures v.Terminal? <==> t.live && IsTerminal(plan, old(State())) && !(rolling && t.drained(old(State())) != [])
      ensures v.Terminal? ==> State() == old(State())
      ensures v == GivesUp(Stalled) <==> Slips(plan, old(State()), rolling, t)
      ensures v.GivesUp? ==> GaveUp(plan, rolling, old(State()), t, met, replies, State(), v.reason)
      ensures v.Again? ==> Given(rolling, old(State()), met, t, replies) && Turned(plan, rolling, old(State()), met, replies, State())
      ensures v.Again? && replies == [] && Arrival(met, t).Some? ==> rolling && dispatched == old(dispatched) + 1
      ensures (!rolling && t.live && t.stillLive && !IsTerminal(plan, old(State())) && plan.parityCount > 0
               && Arrival(met, t).Some? && !Usable(plan, Arrival(met, t).value)) ==> v.Again? && recovering
      ensures v.Again? && (rolling && t.drained(old(State())) != [] ==> Delivers(old(State()), t.drained(old(State()))[0])) ==>
                Progress(State()) > Progress(old(State())) || (rolling && t.late < HedgeAfter)
    {
      hide Sound, NoneForgotten, Accounted, AllReady, Grows, Delivers, Usable, Arrival, SettleAll;
      hide Slips, GaveUp, Turned, Given, RollingSound, WaitEnds, AllSent;
      met, replies := State(), [];
      SoundParts(plan, State(), 0);
      GrowsSelf(plan, rolling, State());
      var waiting := t.drained(State());
      if rolling && waiting != [] {
        NoSlip(plan, met, rolling, t);
        CancelledEnds(plan, met, rolling, t, met, replies, met);
        if !t.live {
          return GivesUp(Cancelled), met, replies;
        }
        replies := waiting;
        var ok := Drain(waiting);
        DrainEnds(plan, met, t, replies, State(), ok);
        return if ok then Again else GivesUp(Undecodable), met, replies;
      }
      var terminal := IsTerminal(plan, State());
      NoSlip(plan, met, rolling, t);
      CancelledEnds(plan, met, rolling, t, met, replies, met);
      if !t.live {
        return GivesUp(Cancelled), met, replies;
      }
      if terminal {
        return Terminal, met, replies;
      }
      if rolling {
        v, replies := RollingTurn(t);
        RollingEnds(plan, met, t, replies, State(), v);
      } else {
        v, met, replies := OrdinaryTurn(t);
        OrdinaryEnds(plan, old(State()), met, t, replies, State(), v);
      }
    }

    // ----- The whole group

    /** Turn after turn, as long as the world goes on. When every shard has its fate,
        the caller stays and answers come, the group gives up only the impossible, and
        every turn after the gate takes it further. */
    method Coordinate(turns: seq<Turn>, ghost cached: seq<Cached>, ghost fate: seq<Reply>, ghost gate: nat) returns (v: TurnResult)
      requires Valid()
      modifies this
      ensures Accounted(plan, State()) && old(emitted) <= emitted && rolling == old(rolling)
      ensures v.Again? || v.Terminal? ==> Valid()
      ensures v.Terminal? ==> IsTerminal(plan, State())
      ensures Fated(plan, fate) && Agrees(plan, cached, rolling, fate, old(State())) && Favours(plan, rolling, fate, turns, gate) ==>
                && (v.Terminal? ==> Possible(plan, cached, rolling, fate))
                && (v.GivesUp? ==> !Possible(plan, cached, rolling, fate))
                && (v.Again? ==> |turns| <= gate + 2 * Total(plan) + 1)
    {
      hide Valid, Accounted, IsTerminal, Agrees, Fated, Favours, Possible, GaveUp, Turned, Given, Slips, Usable, Arrival, Delivers;
      ValidHands();
      ghost var favoured := Fated(plan, fate) && Agrees(plan, cached, rolling, fate, State()) && Favours(plan, rolling, fate, turns, gate);
      for k := 0 to |turns|
        invariant Valid() && Accounted(plan, State()) && old(emitted) <= emitted && rolling == old(rolling)
        invariant favoured ==> Agrees(plan, cached, rolling, fate, State()) && Progress(State()) + gate >= k
      {
        ghost var before := State();
        ghost var met, replies;
        ValidHands();
        v, met, replies := TakeTurn(turns[k]);
        if favoured {
          Favoured(plan, rolling, fate, turns, gate, k, before);
        }
        if !v.Again? {
          if favoured {
            if v.Terminal? {
              ValidHands();
              TerminalPossible(plan, cached, rolling, fate, State());
            } else {
              GivesUpImpossible(plan, cached, rolling, fate, before, turns[k], met, replies, State(), v.reason);
            }
          }
          return;
        }
        if favoured {
          TurnedAgrees(plan, cached, rolling, fate, before, met, turns[k], replies, State());
        }
      }
      ValidHands();
      ProgressBound(plan, State());
      return Again;
    }

    lemma {:induction false} ValidHands()
      requires Valid()
      ensures Accounted(plan, State()) && Sound(plan, State()) && Fair(plan)
    {
      SoundParts(plan, State(), 0);
    }

    /** The wanted shards that are not ready. */
    method MissingIndices() returns (missing: seq<nat>)
      requires Sound(plan, State())
      ensures forall i :: i in missing <==> Wanted(plan, State(), i)
      ensures forall j, k :: 0 <= j < k < |missing| ==> missing[j] != missing[k]
    {
      hide Sound;
      SoundParts(plan, State(), 0);
      missing := [];
      for k := 0 to |plan.requested|
        invariant forall i :: i in missing <==> i in plan.requested[..k] && !ready[i]
        invariant forall i, j :: 0 <= i < j < |missing| ==> missing[i] != missing[j]
      {
        var i := plan.requested[k];
        assert plan.requested[..k + 1] == plan.requested[..k] + [i];
        assert i !in plan.requested[..k];
        if !ready[i] {
          missing := missing + [i];
        }
      }
      assert plan.requested[..|plan.requested|] == plan.requested;
    }

    /** Rebuilds and hands on what is missing. `accepts` tells which rebuilt chunks
        pass the content check and can be read. */
    method Finish(cache: CodingMatrixCache, accepts: nat -> bool) returns (ok: bool, rebuilt: map<nat, Shard>)
      requires Valid() && IsTerminal(plan, State()) && cache.Valid()
      modifies this, cache
      ensures Accounted(plan, State()) && old(emitted) <= emitted
      ensures ok ==> AllReady(plan, State())
      ensures !ok ==> exists i :: Wanted(plan, old(State()), i) && !accepts(i)
      ensures forall i :: i in rebuilt.Keys ==> Wanted(plan, old(State()), i)
      ensures forall data: seq<Shard>, i ::
                (|data| == plan.dataCount && Encodes(PaddedAll(old(received)), data, ChunkWithSpanSize) && i in rebuilt.Keys) ==>
                  i < |data| && rebuilt[i] == data[i]
    {
      hide Sound, RollingSound, NoneForgotten, Accounted, Encodes, PaddedAll, Wanted, AllReady;
      ghost var before := State();
      SoundParts(plan, before, 0);
      rebuilt := map[];
      var missing := MissingIndices();
      if missing == [] {
        NoneMissing(plan, before, missing);
        return true, rebuilt;
      }
      assert missing[0] in missing;
      NotAllReady(plan, before, missing[0]);
      var shards := Rebuild(cache, missing);
      ok, rebuilt := HandOnRebuilt(shards, missing, accepts);
      if ok {
        NowReady(plan, before, State(), missing);
      }
    }

    /** The received shards, with the missing ones rebuilt among them. */
    method Rebuild(cache: CodingMatrixCache, missing: seq<nat>) returns (shards: seq<Option<Shard>>)
      requires Sound(plan, State()) && recovering && successes >= plan.dataCount && cache.Valid()
      requires forall i :: i in missing ==> Wanted(plan, State(), i)
      modifies cache
      ensures forall i :: i in missing ==> i < |shards| && shards[i].Some?
      ensures forall data: seq<Shard>, i ::
                (|data| == plan.dataCount && Encodes(PaddedAll(received), data, ChunkWithSpanSize) && i in missing) ==>
                  i < |data| && shards[i] == Some(data[i])
    {
      hide Sound, Encodes, Padded, PaddedAll, Missing, Verdict, Present;
      SoundParts(plan, State(), 0);
      ghost var before := State();
      var padded := PaddedAll(received);
      forall i | i in missing ensures i < plan.dataCount && i < |padded| && Missing(padded, plan.dataCount, missing, i) {
        WantedMissing(plan, before, missing, i);
      }
      RebuildingSucceeds(plan, before, missing);
      var work := new Option<Shard>[|padded|](i requires 0 <= i < |padded| => padded[i]);
      assert work[..] == padded;
      var outcome := ReconstructDataIndices(cache, work, plan.dataCount, missing);
      shards := work[..];
    }

    method HandOnRebuilt(shards: seq<Option<Shard>>, missing: seq<nat>, accepts: nat -> bool)
      returns (ok: bool, rebuilt: map<nat, Shard>)
      requires Sound(plan, State())
      requires forall i :: i in missing ==> Wanted(plan, State(), i) && i < |shards| && shards[i].Some?
      requires forall j, k :: 0 <= j < k < |missing| ==> missing[j] != missing[k]
      modifies this
      ensures Sound(plan, State()) && Accounted(plan, State()) && old(emitted) <= emitted
      ensures ok ==> |ready| == |old(ready)| && forall i :: 0 <= i < |ready| && (old(ready[i]) || i in missing) ==> ready[i]
      ensures !ok ==> exists i :: i in missing && !accepts(i)
      ensures forall i :: i in rebuilt.Keys ==> i in missing && rebuilt[i] == shards[i].value
    {
      hide Sound, Accounted;
      rebuilt := map[];
      SoundParts(plan, State(), 0);
      for k := 0 to |missing|
        invariant Sound(plan, State()) && Accounted(plan, State()) && old(emitted) <= emitted
        invariant |ready| == |old(ready)|
        invariant forall i :: 0 <= i < |ready| && (old(ready[i]) || i in missing[..k]) ==> ready[i]
        invariant forall j :: k <= j < |missing| ==> Wanted(plan, State(), missing[j])
        invariant forall i :: i in rebuilt.Keys ==> i in missing && rebuilt[i] == shards[i].value
      {
        var i := missing[k];
        assert i in missing;
        if !accepts(i) {
          return false, rebuilt;
        }
        assert missing[..k + 1] == missing[..k] + [i];
        rebuilt := rebuilt[i := shards[i].value];
        Emit(i);
        SoundParts(plan, State(), 0);
      }
      assert missing[..|missing|] == missing;
      ok := true;
    }
  }

  /** The wait without end can be reached: one data shard, one parity shard, and a
      failed first fetch, with the gate passing between the two clock readings. */
  lemma {:induction false} SlipHappens()
    ensures var p := Plan(1, 1, [0]);
            var g := Settled(p, Dispatched(Empty(p), 0), Reply(0, [], false, false)).value;
            && Sound(p, g) && RollingSound(p, g, true) && NoneForgotten(p, g)
            && Slips(p, g, true, Turn(_ => [], true, true, HedgeAfter - 1, HedgeAfter, _ => None))
  {
    hide Sound, Present;
    var p := Plan(1, 1, [0]);
    EmptySound(p);
    DispatchSound(p, Empty(p), 0);
    var g := Dispatched(Empty(p), 0);
    var r := Reply(0, [], false, false);
    SettleSound(p, g, r);
    var h := Settled(p, g, r).value;
    assert !h.ready[p.requested[0]] && !h.sent[1];
  }

  /** Fetches the wanted shards of a group. Whatever the world does, a child is
      handed on at most once; on success every wanted child was, exactly once. When every
      shard has its fate and the world is attentive for long enough, the group succeeds
      exactly when its children, or enough shards to rebuild them, can be had. */
  method FetchGroup(dataCount: nat, parityCount: nat, requested: seq<nat>, cached: seq<Cached>, live: bool,
                    referencesFit: bool, turns: seq<Turn>, cache: CodingMatrixCache, accepts: nat -> bool,
                    ghost fate: seq<Reply>, ghost gate: nat)
    returns (result: Option<bool>, emitted: seq<nat>, asked: seq<nat>)
    requires forall k :: 0 <= k < |requested| ==> requested[k] < dataCount
    requires forall j, k :: 0 <= j < k < |requested| ==> requested[j] != requested[k]
    requires |cached| == |requested| && cache.Valid()
    requires forall k :: 0 <= k < |cached| && cached[k].DecodedAndRaw? ==> Sized(cached[k].raw)
    modifies cache
    ensures dataCount == 0 || dataCount + parityCount > 256 || !referencesFit || !live ==>
              result == Some(false) && emitted == [] && asked == []
    ensures forall i :: i in emitted ==> i in requested
    ensures forall j, k :: 0 <= j < k < |emitted| ==> emitted[j] != emitted[k]
    ensures result == Some(true) ==> forall i :: i in requested ==> i in emitted
    ensures forall j, k :: 0 <= j < k < |asked| ==> asked[j] != asked[k]
    ensures forall i :: i in asked ==> i < dataCount + parityCount
    ensures 0 < dataCount <= dataCount + parityCount <= 256 && referencesFit && live && (forall i :: i in requested ==> accepts(i)) ==>
              var p := Plan(dataCount, parityCount, requested);
              var rolling := Rolls(p, cached);
              Fated(p, fate) && Favours(p, rolling, fate, turns, gate) && |turns| >= gate + 2 * Total(p) + 2 ==>
                result == Some(Possible(p, cached, rolling, fate))
  {
    hide Sound, RollingSound, NoneForgotten, IsTerminal, Sized, Accounted, Begun, Agrees, Favours, Possible, Fated, Rolls;
    emitted, asked := [], [];
    if dataCount == 0 || dataCount + parityCount > 256 || !referencesFit || !live {
      return Some(false), emitted, asked;
    }
    var c := new Coordinator(Plan(dataCount, parityCount, requested));
    c.Begin(cached);
    if Fated(c.plan, fate) {
      BegunAgrees(c.plan, cached, c.rolling, fate, c.State());
    }
    var v := c.Coordinate(turns, cached, fate, gate);
    if v.Terminal? {
      var ok, rebuilt := c.Finish(cache, accepts);
      result := Some(ok);
      if ok {
        ReadyHandedOn(c.plan, c.State());
      }
    } else {
      result := if v.Again? then None else Some(false);
    }
    AccountedMeans(c.plan, c.State());
    emitted, asked := c.emitted, c.asked;
  }

  lemma {:induction false} AccountedMeans(p: Plan, g: Group)
    requires Accounted(p, g)
    ensures HandedOnce(p, g) && AskedOnce(g) && |g.sent| == Total(p)
  {}

  lemma {:induction false} ReadyHandedOn(p: Plan, g: Group)
    requires Accounted(p, g) && AllReady(p, g)
    ensures forall i :: i in p.requested ==> i in g.emitted
  {
    forall i | i in p.requested ensures i in g.emitted {
      var k :| 0 <= k < |p.requested| && p.requested[k] == i;
      assert g.ready[p.requested[k]];
    }
  }

  lemma {:induction false} NoneMissing(p: Plan, g: Group, missing: seq<nat>)
    requires Fair(p) && |g.ready| == p.dataCount && missing == [] && forall i :: i in missing <==> Wanted(p, g, i)
    ensures AllReady(p, g)
  {
    forall k | 0 <= k < |p.requested| ensures p.requested[k] < |g.ready| && g.ready[p.requested[k]] {
      assert p.requested[k] !in missing;
    }
  }

  lemma {:induction false} NotAllReady(p: Plan, g: Group, i: nat)
    requires Wanted(p, g, i)
    ensures !AllReady(p, g)
  {
    var k :| 0 <= k < |p.requested| && p.requested[k] == i;
  }

  lemma {:induction false} NowReady(p: Plan, g: Group, h: Group, missing: seq<nat>)
    requires Fair(p) && |g.ready| == |h.ready| == p.dataCount
    requires forall i :: Wanted(p, g, i) ==> i in missing
    requires forall i :: 0 <= i < |h.ready| && (g.ready[i] || i in missing) ==> h.ready[i]
    ensures AllReady(p, h)
  {
    forall k | 0 <= k < |p.requested| ensures p.requested[k] < |h.ready| && h.ready[p.requested[k]] {
      assert Wanted(p, g, p.requested[k]) || g.ready[p.requested[k]];
    }
  }

  lemma {:induction false} NothingBegun(p: Plan, rolling: bool)
    ensures Begun(p, [], rolling, Empty(p))
  {}

  lemma {:induction false} CachedMore(p: Plan, cached: seq<Cached>, rolling: bool, k: nat, i: nat)
    requires k < |p.requested| == |cached|
    ensures Known(p, cached[..k + 1], i) <==> Known(p, cached[..k], i) || (i == p.requested[k] && !cached[k].Miss?)
    ensures Held(p, cached[..k + 1], rolling, i) <==>
              Held(p, cached[..k], rolling, i) || (rolling && i == p.requested[k] && cached[k].DecodedAndRaw?)
    ensures AskedFirst(p, cached[..k + 1], i) <==> AskedFirst(p, cached[..k], i) || (i == p.requested[k] && cached[k].Miss?)
  {
    var before, after := cached[..k], cached[..k + 1];
    assert after == before + [cached[k]];
    assert forall j :: 0 <= j < k ==> after[j] == before[j];
    assert after[k] == cached[k];
  }

  /** What starting one wanted shard does. */
  ghost predicate StartedAs(g: Group, h: Group, i: nat, cached: Cached, rolling: bool) {
    && i < |g.ready| && i < |g.sent| == |g.received|
    && h == match cached
            case DecodedAndRaw(raw) => if rolling then Hold(HandOn(g, i), i, raw) else HandOn(g, i)
            case DecodedOnly => HandOn(g, i)
            case Miss => Dispatched(g, i)
  }

  lemma {:induction false} BegunMore(p: Plan, cached: seq<Cached>, rolling: bool, g: Group, h: Group, k: nat)
    requires k < |p.requested| == |cached| && Begun(p, cached[..k], rolling, g)
    requires StartedAs(g, h, p.requested[k], cached[k], rolling)
    ensures Begun(p, cached[..k + 1], rolling, h)
  {
    hide Known, Held, AskedFirst;
    var now := cached[..k + 1];
    forall i | 0 <= i < |h.ready| ensures h.ready[i] <==> Known(p, now, i) {
      CachedMore(p, cached, rolling, k, i);
    }
    forall i | 0 <= i < |h.received| ensures h.received[i].Some? <==> Held(p, now, rolling, i) {
      CachedMore(p, cached, rolling, k, i);
    }
    forall i | 0 <= i < |h.sent| ensures h.sent[i] <==> AskedFirst(p, now, i) || Held(p, now, rolling, i) {
      CachedMore(p, cached, rolling, k, i);
    }
    forall i: nat ensures i in h.outstanding <==> AskedFirst(p, now, i) {
      CachedMore(p, cached, rolling, k, i);
    }
  }

  lemma {:induction false} DeliversOwed(g: Group, r: Reply)
    requires Delivers(g, r)
    ensures r.index in g.outstanding
  {}

  lemma {:induction false} UnusableSettles(p: Plan, g: Group, r: Reply)
    requires r.index < |g.received|
    ensures !Usable(p, r) ==> Settled(p, g, r).Some?
  {}

  lemma {:induction false} SettleOne(p: Plan, g: Group, r: Reply)
    requires Delivers(g, r) && r.index < |g.received|
    ensures SettleAll(p, g, [r]) == Settled(p, g, r)
  {
    hide Settled, Delivers;
    var h := Settled(p, g, r);
    assert [r][1..] == [];
    if h.Some? {
      assert SettleAll(p, h.value, []) == Some(h.value);
    }
  }

  lemma {:induction false} AdmitGrows(p: Plan, g: Group, i: nat)
    requires p.dataCount <= i < |g.sent|
    ensures Grows(p, true, g, Dispatched(g, i).(recovering := true))
  {}

  lemma {:induction false} AskedGrows(p: Plan, g: Group, h: Group)
    requires OnlyAsked(g, h) && p.parityCount > 0
    ensures Grows(p, false, g, h)
  {}

  lemma {:induction false} DispatchedBound(p: Plan, g: Group)
    requires Sound(p, g)
    ensures g.dispatched <= 256
  {
    hide Present;
    assert forall j :: 0 <= j < |g.asked| ==> g.asked[j] in g.asked;
    DistinctBelow(g.asked, Total(p));
  }

  /** A whole turn outside rolling mode, from its parts. */
  lemma {:induction false} OrdinaryEnds(p: Plan, g: Group, met: Group, t: Turn, replies: seq<Reply>, h: Group, v: TurnResult)
    requires Grows(p, false, g, met) && Sound(p, met) && NoneForgotten(p, met) && !IsTerminal(p, g)
    requires g.recovering == met.recovering && (g.recovering ==> met.outstanding == {} ==> AllSent(met, 0, Total(p)))
    requires WaitEnds(p, met, t, replies, h, v)
    ensures v.Again? ==> Given(false, g, met, t, replies) && Turned(p, false, g, met, replies, h)
    ensures v.GivesUp? ==> GaveUp(p, false, g, t, met, replies, h, v.reason)
    ensures v.Again? && replies == [] ==> Arrival(met, t).None?
    ensures t.stillLive && p.parityCount > 0 && Arrival(met, t).Some? && !Usable(p, Arrival(met, t).value) ==> v.Again? && h.recovering
  {
    hide MayTimeOut, Sized, Sound, NoneForgotten;
    GrowsSelf(p, false, met);
    RecoveringGrows(p, false, met);
    assert SettleAll(p, met, []) == Some(met);
    if Arrival(met, t).Some? {
      var r := Arrival(met, t).value;
      UnusableSettles(p, met, r);
      SettleOne(p, met, r);
      if Settled(p, met, r).Some? {
        GrowsSelf(p, false, Settled(p, met, r).value);
        RecoveringGrows(p, false, Settled(p, met, r).value);
      }
    }
    SoundParts(p, met, 0);
  }

  lemma {:induction false} NoSlip(p: Plan, g: Group, rolling: bool, t: Turn)
    ensures !rolling || !t.live || t.drained(g) != [] || IsTerminal(p, g) ==> !Slips(p, g, rolling, t)
  {}

  lemma {:induction false} CancelledEnds(p: Plan, g: Group, rolling: bool, t: Turn, met: Group, replies: seq<Reply>, h: Group)
    ensures !t.live ==> GaveUp(p, rolling, g, t, met, replies, h, Cancelled)
  {}

  lemma {:induction false} DrainEnds(p: Plan, g: Group, t: Turn, replies: seq<Reply>, h: Group, ok: bool)
    requires replies == t.drained(g) && SettleAll(p, g, replies) == if ok then Some(h) else None
    ensures if ok then Given(true, g, g, t, replies) && Turned(p, true, g, g, replies, h)
            else GaveUp(p, true, g, t, g, replies, h, Undecodable)
  {
    hide SettleAll;
    GrowsSelf(p, true, g);
    if ok {
      GrowsSelf(p, true, h);
    }
  }

  /** A whole turn in rolling mode, from its parts. */
  lemma {:induction false} RollingEnds(p: Plan, g: Group, t: Turn, replies: seq<Reply>, h: Group, v: TurnResult)
    requires Sound(p, g) && RollingSound(p, g, true) && NoneForgotten(p, g) && !IsTerminal(p, g) && t.live && t.drained(g) == []
    requires replies == [] || (Arrival(g, t).Some? && replies == [Arrival(g, t).value])
    requires v == GivesUp(Stalled) <==>
               t.early < HedgeAfter <= t.late && g.completed == g.dispatched && !AllSent(g, p.dataCount, Total(p))
    requires v == GivesUp(Exhausted) ==> h == g && h.completed == h.dispatched && AllSent(h, p.dataCount, Total(p))
    requires v == GivesUp(Cancelled) ==> !t.stillLive || (t.late >= HedgeAfter && g.outstanding != {} && Arrival(g, t).None?)
    requires v == GivesUp(Undecodable) ==> replies != [] && SettleAll(p, g, replies).None?
    requires v != GivesUp(Unrecoverable)
    ensures v == GivesUp(Stalled) <==> Slips(p, g, true, t)
    ensures Given(true, g, g, t, replies)
    ensures v.GivesUp? ==> GaveUp(p, true, g, t, g, replies, h, v.reason)
  {
    hide Sound, NoneForgotten, AllReady, SettleAll, Arrival, Present;
    SoundParts(p, g, 0);
    GrowsSelf(p, true, g);
    if v == GivesUp(Exhausted) {
      RollingExhausted(p, g);
    }
  }

  /** A rolling group that asked for all parity is recovering, and still short. */
  lemma {:induction false} RollingExhausted(p: Plan, g: Group)
    requires Sound(p, g) && RollingSound(p, g, true) && !IsTerminal(p, g) && g.completed == g.dispatched
    requires AllSent(g, p.dataCount, Total(p))
    ensures g.recovering && g.successes < p.dataCount && g.outstanding == {}
  {
    hide Sound, AllReady;
    SoundParts(p, g, 0);
    assert g.sent[p.dataCount];
  }

  /** Asking for more outside rolling mode keeps everything. */
  lemma {:induction false} AskedKeeps(p: Plan, g: Group, h: Group)
    requires NoneForgotten(p, g) && OnlyAsked(g, h)
    ensures NoneForgotten(p, h)
    ensures h.recovering == g.recovering && h.successes == g.successes && h.completed == g.completed && h.emitted == g.emitted
  {
    ForgetsNone(p, g, h);
  }

  /** Admitting one parity shard keeps at most `dataCount` fetches under way. */
  lemma {:induction false} AdmitKeeps(p: Plan, g: Group, i: nat)
    requires Sound(p, g) && RollingSound(p, g, true) && NoneForgotten(p, g)
    requires p.dataCount <= i < Total(p) && !g.sent[i] && g.dispatched - g.completed < p.dataCount
    ensures var h := Dispatched(g, i).(recovering := true);
            Sound(p, h) && RollingSound(p, h, true) && NoneForgotten(p, h)
  {
    hide Sound, NoneForgotten, Present;
    SoundParts(p, g, 0);
    DispatchSound(p, g, i);
    assert Sound(p, Dispatched(g, i).(recovering := true)) by { RecoverSound(p, Dispatched(g, i)); }
    ForgetsNone(p, g, Dispatched(g, i).(recovering := true));
  }

  lemma {:induction false} RecoverSound(p: Plan, g: Group)
    requires Sound(p, g) && p.parityCount > 0
    ensures Sound(p, g.(recovering := true))
  {
    hide Present;
  }

  lemma {:induction false} ForgetsNone(p: Plan, g: Group, h: Group)
    requires NoneForgotten(p, g) && h.ready == g.ready && |h.sent| == |g.sent|
    requires forall i :: 0 <= i < |g.sent| && g.sent[i] ==> h.sent[i]
    ensures NoneForgotten(p, h)
  {}

  /** A settled reply keeps the bound on fetches under way and forgets nobody. */
  lemma {:induction false} SettledKeeps(p: Plan, g: Group, r: Reply, rolling: bool)
    requires r.index < |g.received| && Settled(p, g, r).Some?
    requires RollingSound(p, g, rolling) && NoneForgotten(p, g)
    ensures RollingSound(p, Settled(p, g, r).value, rolling) && NoneForgotten(p, Settled(p, g, r).value)
  {}

  lemma {:induction false} RecoverKeeps(p: Plan, g: Group, rolling: bool)
    requires Sound(p, g) && RollingSound(p, g, rolling) && NoneForgotten(p, g) && p.parityCount > 0
    ensures var h := g.(recovering := true); Sound(p, h) && RollingSound(p, h, rolling) && NoneForgotten(p, h)
  {
    hide Present;
  }

  /** The first `k` wanted shards are ready or asked for, the others untouched. */
  ghost predicate Started(p: Plan, g: Group, k: nat) {
    && Fair(p) && Lengths(p, g) && k <= |p.requested|
    && g.completed == 0 && g.dispatched <= k && !g.recovering
    && (forall j :: 0 <= j < k ==> g.ready[p.requested[j]] || g.sent[p.requested[j]])
    && (forall j :: k <= j < |p.requested| ==> !g.ready[p.requested[j]] && !g.sent[p.requested[j]])
    && (forall i :: p.dataCount <= i < |g.sent| ==> !g.sent[i])
  }

  lemma {:induction false} StartedMeans(p: Plan, g: Group, k: nat)
    requires Started(p, g, k) && k < |p.requested|
    ensures Lengths(p, g) && Wanted(p, g, p.requested[k]) && p.requested[k] < |g.sent| && !g.sent[p.requested[k]]
  {}

  /** Nothing but shard `i` was touched, and it is ready or asked for now. */
  lemma {:induction false} StartedMore(p: Plan, g: Group, h: Group, k: nat)
    requires Started(p, g, k) && k < |p.requested| && Lengths(p, h)
    requires h.completed == g.completed && h.dispatched <= g.dispatched + 1 && h.recovering == g.recovering
    requires h.ready == g.ready || h.ready == g.ready[p.requested[k] := true]
    requires h.sent == g.sent || h.sent == g.sent[p.requested[k] := true]
    requires h.ready[p.requested[k]] || h.sent[p.requested[k]]
    ensures Started(p, h, k + 1)
  {}

  lemma {:induction false} AllStarted(p: Plan, g: Group, rolling: bool)
    requires Started(p, g, |p.requested|) && (rolling ==> RollingCandidate(p))
    ensures RollingSound(p, g, rolling) && NoneForgotten(p, g)
  {}

  lemma {:induction false} OnlyAskedSelf(g: Group)
    ensures OnlyAsked(g, g)
  {}

  lemma {:induction false} OnlyAskedKeeps(g: Group, h: Group, high: nat)
    requires OnlyAsked(g, h) && high <= |g.sent| && forall j :: 0 <= j < high ==> g.sent[j]
    ensures high <= |h.sent| && forall j :: 0 <= j < high ==> h.sent[j]
  {}

  lemma {:induction false} AccountedSame(p: Plan, g: Group, h: Group)
    requires Accounted(p, g) && h.ready == g.ready && h.emitted == g.emitted
    requires h.sent == g.sent && h.asked == g.asked && h.dispatched == g.dispatched
    ensures Accounted(p, h)
  {}

  lemma {:induction false} SoundParts(p: Plan, g: Group, i: nat)
    requires Sound(p, g)
    ensures Fair(p) && Lengths(p, g) && Accounted(p, g)
    ensures |g.sent| == |g.received| == Total(p) && |g.ready| == p.dataCount > 0
    ensures g.completed <= g.dispatched && |g.outstanding| == g.dispatched - g.completed
    ensures i in g.outstanding ==> i < |g.received| && g.sent[i]
    ensures g.recovering ==> p.parityCount > 0
  {
    hide Present;
  }
}
