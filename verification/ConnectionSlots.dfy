/** Connection slots: reserved by the dial tasks, turned into a connected slot when
    a peer is priced, given back when a dial fails or a connection closes. The
    tasks run concurrently; each step below is what one of them does under one
    lock. Bootnodes and changes of the connection generation are not covered. */
module ConnectionSlots {
  import opened Options

  type Peer = nat
  type Overlay = nat

  datatype Attempt = Attempt(id: nat, connection: Option<nat>)

  datatype PeerFile = PeerFile(overlay: Overlay, attemptId: nat, connection: nat)

  /** The two event handles that promote peers, one event at a time. */
  datatype Who = Accounting | Pricing

  /** What a handle is about: it waits for its next event, is about to promote a peer,
      promotes it under the lock, has to drop the file of a duplicate, or has to drop
      its account. */
  datatype Handle = Idle | Ready(peer: Peer) | Acting | Dropping(peer: Peer, attemptId: nat) | Forgetting(peer: Peer)

  /** Who holds the lock on the connected peers, and how far it has come. */
  datatype Holder =
    | Nobody
    | Promoting(peer: Peer, who: Who)
    | Decided(peer: Peer, promoted: bool, who: Who)
    | Closing(peer: Peer, file: Option<PeerFile>, connection: nat)
    | Disowned(peer: Peer, file: Option<PeerFile>, connection: nat, left: bool)
    | Leaving(attempt: bool, left: bool)

  /** `loose` counts the slots in the hands of single tasks: reserved and not yet
      an attempt, or taken from an attempt and not yet given back. `priced` holds the
      peers whose account has a threshold above zero, `resting` those in a cooldown or
      waiting for a delayed retry. `reserved` and `freed` count reservations and
      releases since the start. */
  datatype Net = Net(
    limit: nat, connected: nat, ongoing: nat, attempts: map<Peer, Attempt>, peers: map<Peer, PeerFile>,
    overlays: map<Overlay, Peer>, priced: set<Peer>, accounting: Handle, pricing: Handle, resting: set<Peer>,
    nextId: nat, holder: Holder, loose: nat, reserved: nat, freed: nat)

  datatype Step =
    | Reserve
    | Mark(peer: Peer)
    | Bind(peer: Peer, id: nat, connection: nat)
    | GiveBack
    | Abandon(peer: Peer, id: nat)
    | DialFailed(peer: Peer, connection: nat)
    | Publish(peer: Peer, file: PeerFile, exclusive: Option<nat>)
    | Price(peer: Peer, connection: nat, amount: nat)
    | Promote(who: Who, exclusive: Option<nat>)
    | Decide
    | Complete
    | Close(peer: Peer, connection: nat)
    | Disown
    | Detach
    | Release
    | Drop(who: Who)
    | Forget(who: Who)
    | Rest(peer: Peer)
    | Wake(peer: Peer)

  predicate Tries(attempts: map<Peer, Attempt>, peer: Peer, id: nat) {
    peer in attempts && attempts[peer].id == id
  }

  predicate Uses(attempts: map<Peer, Attempt>, peer: Peer, connection: nat) {
    peer in attempts && attempts[peer].connection == Some(connection)
  }

  function HandleOf(n: Net, who: Who): Handle {
    if who.Accounting? then n.accounting else n.pricing
  }

  function WithHandle(n: Net, who: Who, h: Handle): Net {
    if who.Accounting? then n.(accounting := h) else n.(pricing := h)
  }

  /** A finished handshake is published while its attempt and connection are current. */
  predicate Publishable(n: Net, peer: Peer, file: PeerFile, exclusive: Option<nat>) {
    && exclusive == Some(file.connection)
    && Tries(n.attempts, peer, file.attemptId)
    && Uses(n.attempts, peer, file.connection)
    && (peer in n.peers ==> n.peers[peer].attemptId == file.attemptId)
  }

  /** Whether a price or the close of a connection concerns this client's own session. */
  predicate OwnsClose(n: Net, peer: Peer, connection: nat) {
    if peer in n.peers then n.peers[peer].connection == connection else Uses(n.attempts, peer, connection)
  }

  /** One step; a step that is not possible changes nothing. */
  function Next(n: Net, step: Step): Net {
    match step
    case Reserve =>
      if n.connected + n.ongoing < n.limit
      then n.(ongoing := n.ongoing + 1, loose := n.loose + 1, reserved := n.reserved + 1)
      else n
    case Mark(peer) =>
      if n.holder.Nobody? && n.loose > 0 && peer !in n.peers && peer !in n.resting && peer !in n.attempts
      then n.(attempts := n.attempts[peer := Attempt(n.nextId, None)], nextId := n.nextId + 1, loose := n.loose - 1)
      else n
    case Bind(peer, id, connection) =>
      if Tries(n.attempts, peer, id)
      then n.(attempts := n.attempts[peer := Attempt(id, Some(connection))])
      else n
    case GiveBack =>
      if n.loose > 0 then n.(ongoing := SaturatingSub(n.ongoing, 1), loose := n.loose - 1, freed := n.freed + 1) else n
    case Abandon(peer, id) => if Tries(n.attempts, peer, id) then TakenBack(n, peer) else n
    case DialFailed(peer, connection) => if Uses(n.attempts, peer, connection) then TakenBack(n, peer) else n
    case Publish(peer, file, exclusive) =>
      if n.accounting.Idle? && n.holder.Nobody? && Publishable(n, peer, file, exclusive)
      then n.(peers := n.peers[peer := file], accounting := if peer in n.priced then Ready(peer) else Idle)
      else n
    case Price(peer, connection, amount) =>
      if n.pricing.Idle? && n.holder.Nobody? && OwnsClose(n, peer, connection)
      then n.(priced := if amount > 0 then n.priced + {peer} else n.priced - {peer}, pricing := Ready(peer))
      else n
    case Promote(who, exclusive) =>
      if n.holder.Nobody? && HandleOf(n, who).Ready? then Promotion(n, who, HandleOf(n, who).peer, exclusive) else n
    case Decide => if n.holder.Promoting? && n.holder.peer in n.peers then Decision(n) else n
    case Complete => if n.holder.Decided? && n.holder.peer in n.peers then Completion(n) else n
    case Close(peer, connection) =>
      if n.holder.Nobody? && OwnsClose(n, peer, connection)
      then n.(peers := n.peers - {peer},
              holder := Closing(peer, if peer in n.peers then Some(n.peers[peer]) else None, connection))
      else n
    case Disown => if n.holder.Closing? then Disowning(n) else n
    case Detach => if n.holder.Disowned? then Detaching(n) else n
    case Release => if n.holder.Leaving? then Releasing(n) else n
    case Drop(who) =>
      if n.holder.Nobody? && HandleOf(n, who).Dropping? then Dropped(n, who, HandleOf(n, who).peer) else n
    case Forget(who) =>
      if HandleOf(n, who).Forgetting?
      then WithHandle(n.(priced := n.priced - {HandleOf(n, who).peer}), who, Idle)
      else n
    case Rest(peer) => n.(resting := n.resting + {peer})
    case Wake(peer) => n.(resting := n.resting - {peer})
  }

  /** An attempt is removed; its slot passes to whoever removed it. */
  function TakenBack(n: Net, peer: Peer): Net {
    n.(attempts := n.attempts - {peer}, loose := n.loose + 1)
  }

  /** A handle starts to promote a peer whose file and attempt are current, or lets go. */
  function Promotion(n: Net, who: Who, peer: Peer, exclusive: Option<nat>): Net {
    if peer in n.peers && exclusive == Some(n.peers[peer].connection) && Tries(n.attempts, peer, n.peers[peer].attemptId)
    then WithHandle(n.(attempts := n.attempts - {peer}, holder := Promoting(peer, who)), who, Acting)
    else WithHandle(n, who, Idle)
  }

  /** The file of a duplicate is dropped, whichever file that is by now. */
  function Dropped(n: Net, who: Who, peer: Peer): Net {
    WithHandle(n.(peers := n.peers - {peer}), who, Forgetting(peer))
  }

  /** The overlay is taken if nobody owns it. */
  function Decision(n: Net): Net
    requires n.holder.Promoting? && n.holder.peer in n.peers
  {
    var peer := n.holder.peer;
    var overlay := n.peers[peer].overlay;
    if overlay !in n.overlays
    then n.(overlays := n.overlays[overlay := peer], holder := Decided(peer, true, n.holder.who))
    else n.(holder := Decided(peer, false, n.holder.who))
  }

  function Completion(n: Net): Net
    requires n.holder.Decided? && n.holder.peer in n.peers
  {
    var peer := n.holder.peer;
    var overlay := n.peers[peer].overlay;
    if n.holder.promoted
    then WithHandle(n.(ongoing := SaturatingSub(n.ongoing, 1), connected := n.connected + 1, holder := Nobody),
                    n.holder.who, Idle)
    else
      WithHandle(n.(ongoing := SaturatingSub(n.ongoing, 1), freed := n.freed + 1, holder := Nobody), n.holder.who,
                 if overlay in n.overlays && n.overlays[overlay] != peer
                 then Dropping(peer, n.peers[peer].attemptId) else Idle)
  }

  function Disowning(n: Net): Net
    requires n.holder.Closing?
  {
    var h := n.holder;
    if h.file.Some? && h.file.value.overlay in n.overlays && n.overlays[h.file.value.overlay] == h.peer
    then n.(overlays := n.overlays - {h.file.value.overlay}, holder := Disowned(h.peer, h.file, h.connection, true))
    else n.(holder := Disowned(h.peer, h.file, h.connection, false))
  }

  /** Whether the closed session still has its attempt. */
  predicate HadAttempt(n: Net, h: Holder)
    requires h.Disowned?
  {
    if h.file.Some? then Tries(n.attempts, h.peer, h.file.value.attemptId) else Uses(n.attempts, h.peer, h.connection)
  }

  function Detaching(n: Net): Net
    requires n.holder.Disowned?
  {
    var h := n.holder;
    if HadAttempt(n, h)
    then n.(attempts := n.attempts - {h.peer}, priced := n.priced - {h.peer}, holder := Leaving(true, h.left))
    else if h.file.None? then n.(holder := Nobody)
    else n.(priced := n.priced - {h.peer}, holder := Leaving(false, h.left))
  }

  function Releasing(n: Net): Net
    requires n.holder.Leaving?
  {
    if n.holder.attempt then n.(ongoing := SaturatingSub(n.ongoing, 1), freed := n.freed + 1, holder := Nobody)
    else if n.holder.left then n.(connected := SaturatingSub(n.connected, 1), freed := n.freed + 1, holder := Nobody)
    else n.(holder := Nobody)
  }

  // ----- What every step keeps

  /** A slot in the hands of the lock's holder that still counts as ongoing. */
  function OngoingHeld(h: Holder): nat {
    if h.Promoting? || h.Decided? || (h.Leaving? && h.attempt) then 1 else 0
  }

  /** A slot given up by its overlay and still counted as connected. */
  function ConnectedHeld(h: Holder): nat {
    if (h.Disowned? && h.left) || (h.Leaving? && h.left) then 1 else 0
  }

  /** A slot already with an overlay and not yet counted as connected. */
  function Uncounted(h: Holder): nat {
    if h.Decided? && h.promoted then 1 else 0
  }

  /** The counters add up for so many attempts and so many overlays. */
  ghost predicate Tallied(n: Net, attempts: nat, overlays: nat) {
    && n.ongoing == attempts + n.loose + OngoingHeld(n.holder)
    && n.connected + Uncounted(n.holder) == overlays + ConnectedHeld(n.holder)
    && n.connected + n.ongoing <= n.limit
    && n.reserved == n.freed + n.connected + n.ongoing
  }

  ghost predicate Counted(n: Net) {
    Tallied(n, |n.attempts.Keys|, |n.overlays.Keys|)
  }

  ghost predicate Numbered(n: Net) {
    && (forall p :: p in n.attempts ==> n.attempts[p].id < n.nextId)
    && (forall p :: p in n.peers ==> n.peers[p].attemptId < n.nextId)
    && (n.holder.Closing? && n.holder.file.Some? ==> n.holder.file.value.attemptId < n.nextId)
    && (n.holder.Disowned? && n.holder.file.Some? ==> n.holder.file.value.attemptId < n.nextId)
  }

  /** The peer's file names the overlay, and the attempt behind it is over. */
  predicate FileOf(file: PeerFile, attempts: map<Peer, Attempt>, p: Peer, o: Overlay) {
    file.overlay == o && !Tries(attempts, p, file.attemptId)
  }

  /** Every overlay's owner has such a file, or is being closed with it. */
  ghost predicate Filed(n: Net) {
    forall o :: o in n.overlays ==>
      || (n.overlays[o] in n.peers && FileOf(n.peers[n.overlays[o]], n.attempts, n.overlays[o], o))
      || (n.holder.Closing? && n.holder.peer == n.overlays[o] && n.holder.file.Some?
          && FileOf(n.holder.file.value, n.attempts, n.overlays[o], o))
  }

  predicate OwnsNothing(n: Net, p: Peer) {
    forall o :: o in n.overlays ==> n.overlays[o] != p
  }

  /** The peer owns no overlay, and nobody is about to give it one. */
  predicate Clear(n: Net, p: Peer) {
    OwnsNothing(n, p) && (n.holder.Promoting? || n.holder.Decided? ==> n.holder.peer != p)
  }

  /** The peer's session is being closed and its account is about to go. */
  predicate LosesAccount(h: Holder, p: Peer) {
    (h.Closing? || h.Disowned?) && h.peer == p && h.file.Some?
  }

  /** The rejected attempt is over, and the peer has no overlay. */
  ghost predicate Refused(n: Net, p: Peer, attemptId: nat) {
    attemptId < n.nextId && !Tries(n.attempts, p, attemptId) && Clear(n, p)
  }

  /** While a drop is pending, the peer gets no overlay: files are published by the
      accounting handle alone, and a file it publishes meanwhile is not promoted, since
      only the pricing handle prices the new account. */
  ghost predicate Gated(n: Net) {
    && (n.accounting.Dropping? ==>
          var p, a := n.accounting.peer, n.accounting.attemptId;
          Refused(n, p, a) && (p in n.peers ==> n.peers[p].attemptId == a))
    && (n.pricing.Dropping? ==>
          var p, a := n.pricing.peer, n.pricing.attemptId;
          && Refused(n, p, a)
          && (n.accounting == Ready(p) && p in n.peers ==> n.peers[p].attemptId == a)
          && (p in n.priced && !LosesAccount(n.holder, p) ==> p in n.peers && n.peers[p].attemptId == a))
    && (n.accounting.Dropping? && n.pricing.Dropping? ==> n.accounting.peer != n.pricing.peer)
  }

  /** What holds of the peer in the hands of the holder. */
  ghost predicate Held(n: Net) {
    match n.holder
    case Promoting(p, _) => p in n.peers && !Tries(n.attempts, p, n.peers[p].attemptId) && OwnsNothing(n, p)
    case Decided(p, promoted, _) =>
      p in n.peers && !Tries(n.attempts, p, n.peers[p].attemptId) && (promoted || OwnsNothing(n, p))
    case Closing(p, _, _) => p !in n.peers
    case Disowned(p, file, _, left) =>
      left ==> file.Some? && !Tries(n.attempts, p, file.value.attemptId)
    case Leaving(attempt, left) => !attempt || !left
    case Nobody => true
  }

  ghost predicate Inv(n: Net) {
    Counted(n) && Numbered(n) && Filed(n) && Gated(n) && Held(n)
  }

  function Initial(limit: nat): Net {
    Net(limit, 0, 0, map[], map[], map[], {}, Idle, Idle, {}, 1, Nobody, 0, 0, 0)
  }

  lemma {:induction false} InitialInv(limit: nat)
    ensures Inv(Initial(limit))
  {}

  // ----- Steps keep it

  lemma {:induction false} InsertSize<K, V>(m: map<K, V>, k: K, v: V)
    ensures |m[k := v].Keys| == |m.Keys| + if k in m then 0 else 1
  {
    assert m[k := v].Keys == m.Keys + {k};
  }

  lemma {:induction false} RemoveSize<K, V>(m: map<K, V>, k: K)
    requires k in m
    ensures |(m - {k}).Keys| == |m.Keys| - 1
  {
    assert (m - {k}).Keys == m.Keys - {k};
  }

  /** The tables the books are about, apart from the counters. */
  ghost predicate SameTables(n: Net, m: Net) {
    m.attempts == n.attempts && m.peers == n.peers && m.overlays == n.overlays && m.nextId == n.nextId
  }

  lemma {:induction false} SameNumbered(n: Net, m: Net)
    requires Numbered(n) && Filed(n) && SameTables(n, m)
    requires m.holder == n.holder || (!n.holder.Closing? && !m.holder.Closing? && !m.holder.Disowned?)
    ensures Numbered(m) && Filed(m)
  {}

  /** The gate depends on the handles and the files; it survives fewer overlays, fewer
      priced accounts and no revived attempt. */
  lemma {:induction false} SameGate(n: Net, m: Net)
    requires Gated(n) && m.accounting == n.accounting && m.pricing == n.pricing && m.peers == n.peers
    requires n.nextId <= m.nextId
    requires forall p, a: nat :: a < n.nextId && Tries(m.attempts, p, a) ==> Tries(n.attempts, p, a)
    requires forall o :: o in m.overlays ==> o in n.overlays && m.overlays[o] == n.overlays[o]
    requires m.holder == n.holder || (!m.holder.Promoting? && !m.holder.Decided?)
    requires forall p :: p in m.priced ==> p in n.priced && (LosesAccount(n.holder, p) ==> LosesAccount(m.holder, p))
    ensures Gated(m)
  {}

  /** Steps that touch only the counters and the resting peers. */
  lemma {:induction false} CountersOnly(n: Net, m: Net)
    requires Numbered(n) && Filed(n) && Gated(n) && SameTables(n, m)
    requires m.holder == n.holder && m.priced == n.priced && m.accounting == n.accounting && m.pricing == n.pricing
    ensures Numbered(m) && Filed(m) && Gated(m)
  {
    hide Numbered, Filed, Gated;
    SameNumbered(n, m);
    SameGate(n, m);
  }

  lemma {:induction false} ReserveKeeps(n: Net)
    requires Inv(n)
    ensures Inv(Next(n, Reserve))
  {
    hide Numbered, Filed, Gated;
    CountersOnly(n, Next(n, Reserve));
  }

  lemma {:induction false} GiveBackKeeps(n: Net)
    requires Inv(n)
    ensures Inv(Next(n, GiveBack))
  {
    hide Numbered, Filed, Gated;
    CountersOnly(n, Next(n, GiveBack));
  }

  lemma {:induction false} RestKeeps(n: Net, resting: set<Peer>)
    requires Inv(n)
    ensures Inv(n.(resting := resting))
  {
    hide Numbered, Filed, Gated;
    CountersOnly(n, n.(resting := resting));
  }

  lemma {:induction false} MarkKeeps(n: Net, peer: Peer)
    requires Inv(n)
    ensures Inv(Next(n, Mark(peer)))
  {
    hide Gated;
    InsertSize(n.attempts, peer, Attempt(n.nextId, None));
    MarkGated(n, peer);
  }

  lemma {:induction false} MarkGated(n: Net, peer: Peer)
    requires Gated(n)
    ensures Gated(Next(n, Mark(peer)))
  {
    hide Gated;
    SameGate(n, Next(n, Mark(peer)));
  }

  lemma {:induction false} BindKeeps(n: Net, peer: Peer, id: nat, connection: nat)
    requires Inv(n)
    ensures Inv(Next(n, Bind(peer, id, connection)))
  {
    hide Gated;
    InsertSize(n.attempts, peer, Attempt(id, Some(connection)));
    BindGated(n, peer, id, connection);
  }

  lemma {:induction false} BindGated(n: Net, peer: Peer, id: nat, connection: nat)
    requires Gated(n)
    ensures Gated(Next(n, Bind(peer, id, connection)))
  {
    hide Gated;
    SameGate(n, Next(n, Bind(peer, id, connection)));
  }

  lemma {:induction false} FewerAttempts(n: Net, peer: Peer)
    requires Numbered(n) && Filed(n)
    ensures var m := n.(attempts := n.attempts - {peer}); Numbered(m) && Filed(m)
  {}

  lemma {:induction false} TakenBackKeeps(n: Net, peer: Peer)
    requires Inv(n) && peer in n.attempts
    ensures Inv(TakenBack(n, peer))
  {
    hide Numbered, Filed, Gated;
    RemoveSize(n.attempts, peer);
    FewerAttempts(n, peer);
    SameNumbered(n.(attempts := n.attempts - {peer}), TakenBack(n, peer));
    SameGate(n, TakenBack(n, peer));
  }

  lemma {:induction false} PublishKeeps(n: Net, peer: Peer, file: PeerFile, exclusive: Option<nat>)
    requires Inv(n) && n.accounting.Idle? && n.holder.Nobody? && Publishable(n, peer, file, exclusive)
    ensures Inv(Next(n, Publish(peer, file, exclusive)))
  {
    var m := Next(n, Publish(peer, file, exclusive));
    assert Numbered(m) && Filed(m);
    hide Numbered, Filed, Counted;
    assert Gated(m);
  }

  lemma {:induction false} PriceKeeps(n: Net, peer: Peer, connection: nat, amount: nat)
    requires Inv(n)
    ensures Inv(Next(n, Price(peer, connection, amount)))
  {
    hide Numbered, Filed;
    SameNumbered(n, Next(n, Price(peer, connection, amount)));
  }

  lemma {:induction false} PromotionKeeps(n: Net, who: Who, exclusive: Option<nat>)
    requires Inv(n) && n.holder.Nobody? && HandleOf(n, who).Ready?
    ensures Inv(Promotion(n, who, HandleOf(n, who).peer, exclusive))
  {
    hide Numbered, Gated, Filed;
    var peer := HandleOf(n, who).peer;
    var m := Promotion(n, who, peer, exclusive);
    PromotionGated(n, who, exclusive);
    if m.holder.Promoting? {
      RemoveSize(n.attempts, peer);
      TryingOwnsNothing(n, peer);
      FewerAttempts(n, peer);
      SameNumbered(n.(attempts := n.attempts - {peer}), m);
    } else {
      SameNumbered(n, m);
    }
  }

  /** A peer whose drop is pending is not promoted. */
  lemma {:induction false} PromotionGated(n: Net, who: Who, exclusive: Option<nat>)
    requires Gated(n) && n.holder.Nobody? && HandleOf(n, who).Ready?
    ensures Gated(Promotion(n, who, HandleOf(n, who).peer, exclusive))
  {}

  /** A peer whose file still has its attempt owns nothing. */
  lemma {:induction false} TryingOwnsNothing(n: Net, peer: Peer)
    requires Filed(n) && n.holder.Nobody? && peer in n.peers && Tries(n.attempts, peer, n.peers[peer].attemptId)
    ensures OwnsNothing(n, peer)
  {}

  lemma {:induction false} DecisionKeeps(n: Net)
    requires Inv(n) && n.holder.Promoting?
    ensures Inv(Decision(n))
  {
    hide Gated;
    InsertSize(n.overlays, n.peers[n.holder.peer].overlay, n.holder.peer);
    DecisionGated(n);
  }

  lemma {:induction false} DecisionGated(n: Net)
    requires Gated(n) && n.holder.Promoting? && n.holder.peer in n.peers
    ensures Gated(Decision(n))
  {}

  lemma {:induction false} CompletionKeeps(n: Net)
    requires Inv(n) && n.holder.Decided?
    ensures Inv(Completion(n))
  {
    hide Numbered, Filed, Gated;
    SameNumbered(n, Completion(n));
    FileNumbered(n, n.holder.peer);
    CompletionGated(n);
  }

  lemma {:induction false} CompletionGated(n: Net)
    requires Gated(n) && Held(n) && n.holder.Decided? && n.peers[n.holder.peer].attemptId < n.nextId
    ensures Gated(Completion(n))
  {}

  lemma {:induction false} FileNumbered(n: Net, p: Peer)
    requires Numbered(n) && p in n.peers
    ensures n.peers[p].attemptId < n.nextId
  {}

  lemma {:induction false} CloseKeeps(n: Net, peer: Peer, connection: nat)
    requires Inv(n)
    ensures Inv(Next(n, Close(peer, connection)))
  {
    hide Numbered, Filed, Gated;
    CloseGated(n, peer, connection);
    CloseNumbered(n, peer, connection);
    CloseCounted(n, peer, connection);
  }

  lemma {:induction false} CloseNumbered(n: Net, peer: Peer, connection: nat)
    requires Numbered(n) && Filed(n)
    ensures Numbered(Next(n, Close(peer, connection))) && Filed(Next(n, Close(peer, connection)))
  {}

  lemma {:induction false} CloseCounted(n: Net, peer: Peer, connection: nat)
    requires Counted(n) && Held(n)
    ensures Counted(Next(n, Close(peer, connection))) && Held(Next(n, Close(peer, connection)))
  {
    hide Tries, Uses, Next, OwnsClose, Tallied, OwnsNothing;
    NextOfClose(n, peer, connection);
    var m := Next(n, Close(peer, connection));
    if m != n {
      TalliedSame(n, m, |n.attempts.Keys|, |n.overlays.Keys|);
    }
  }

  lemma {:induction false} TalliedSame(n: Net, m: Net, attempts: nat, overlays: nat)
    requires Tallied(n, attempts, overlays) && n.holder.Nobody? && m.holder.Closing?
    requires m == n.(peers := m.peers, holder := m.holder)
    ensures Tallied(m, attempts, overlays)
  {}

  /** A close takes the file first and the account later, both under the lock. */
  lemma {:induction false} CloseGated(n: Net, peer: Peer, connection: nat)
    requires Gated(n)
    ensures Gated(Next(n, Close(peer, connection)))
  {
    hide Tries;
  }

  lemma {:induction false} DisowningKeeps(n: Net)
    requires Inv(n) && n.holder.Closing?
    ensures Inv(Disowning(n))
  {
    hide Numbered, Filed, Gated;
    DisowningGated(n);
    DisowningNumbered(n);
    if Disowning(n).holder.left {
      RemoveSize(n.overlays, n.holder.file.value.overlay);
    }
  }

  lemma {:induction false} DisowningGated(n: Net)
    requires Gated(n) && n.holder.Closing?
    ensures Gated(Disowning(n))
  {
    hide Gated;
    SameGate(n, Disowning(n));
  }

  lemma {:induction false} DisowningNumbered(n: Net)
    requires Numbered(n) && Filed(n) && n.holder.Closing? && n.holder.peer !in n.peers
    ensures Numbered(Disowning(n)) && Filed(Disowning(n))
    ensures Disowning(n).holder.left ==> !Tries(n.attempts, n.holder.peer, n.holder.file.value.attemptId)
  {
    hide Numbered, Filed;
    if Disowning(n).holder.left {
      OverlayGivenUp(n);
    } else {
      OverlayElsewhere(n);
    }
  }

  lemma {:induction false} OverlayGivenUp(n: Net)
    requires Numbered(n) && Filed(n) && n.holder.Closing? && n.holder.peer !in n.peers
    requires n.holder.file.Some? && n.holder.file.value.overlay in n.overlays
    requires n.overlays[n.holder.file.value.overlay] == n.holder.peer
    ensures var m := Disowning(n); Numbered(m) && Filed(m)
    ensures !Tries(n.attempts, n.holder.peer, n.holder.file.value.attemptId)
  {}

  lemma {:induction false} OverlayElsewhere(n: Net)
    requires Numbered(n) && Filed(n) && n.holder.Closing? && n.holder.peer !in n.peers
    requires !(n.holder.file.Some? && n.holder.file.value.overlay in n.overlays
               && n.overlays[n.holder.file.value.overlay] == n.holder.peer)
    ensures var m := Disowning(n); Numbered(m) && Filed(m)
  {}

  lemma {:induction false} DetachingKeeps(n: Net)
    requires Inv(n) && n.holder.Disowned?
    ensures Inv(Detaching(n))
  {
    hide Numbered, Filed, Gated;
    DetachingGated(n);
    DetachingNumbered(n);
    DetachingCounted(n);
  }

  lemma {:induction false} DetachingCounted(n: Net)
    requires Counted(n) && Held(n) && n.holder.Disowned?
    ensures Counted(Detaching(n)) && Held(Detaching(n))
  {
    hide HadAttempt, Tallied, Held, Detaching;
    DetachingTables(n);
    if HadAttempt(n, n.holder) {
      HadMeans(n);
      RemoveSize(n.attempts, n.holder.peer);
    }
    DetachingTallied(n, |n.attempts.Keys|, |n.overlays.Keys|);
  }

  lemma {:induction false} DetachingTables(n: Net)
    requires n.holder.Disowned?
    ensures Detaching(n).attempts == if HadAttempt(n, n.holder) then n.attempts - {n.holder.peer} else n.attempts
    ensures Detaching(n).overlays == n.overlays
  {
    hide HadAttempt;
  }

  lemma {:induction false} DetachingTallied(n: Net, attempts: nat, overlays: nat)
    requires Tallied(n, attempts, overlays) && Held(n) && n.holder.Disowned?
    requires HadAttempt(n, n.holder) ==> attempts > 0 && !n.holder.left
    ensures Tallied(Detaching(n), if HadAttempt(n, n.holder) then attempts - 1 else attempts, overlays)
    ensures Held(Detaching(n))
  {
    hide HadAttempt;
  }

  lemma {:induction false} HadMeans(n: Net)
    requires Held(n) && n.holder.Disowned? && HadAttempt(n, n.holder)
    ensures n.holder.peer in n.attempts && !n.holder.left
  {}

  lemma {:induction false} DetachingGated(n: Net)
    requires Gated(n) && n.holder.Disowned?
    ensures Gated(Detaching(n))
  {
    hide Gated;
    SameGate(n, Detaching(n));
  }

  lemma {:induction false} DetachingNumbered(n: Net)
    requires Numbered(n) && Filed(n) && n.holder.Disowned?
    ensures Numbered(Detaching(n)) && Filed(Detaching(n))
  {
    hide Numbered, Filed;
    FewerAttempts(n, n.holder.peer);
    var m := Detaching(n);
    SameNumbered(n.(attempts := m.attempts), m);
  }

  lemma {:induction false} ReleasingKeeps(n: Net)
    requires Inv(n) && n.holder.Leaving?
    ensures Inv(Releasing(n))
  {
    hide Numbered, Filed, Gated;
    SameNumbered(n, Releasing(n));
    SameGate(n, Releasing(n));
  }

  /** The drop of a duplicate's file meets a peer without overlay, whenever it comes. */
  lemma {:induction false} DropMeetsNoOwner(n: Net, who: Who)
    requires Inv(n) && HandleOf(n, who).Dropping?
    ensures OwnsNothing(n, HandleOf(n, who).peer)
  {
    hide Numbered, Filed, Counted, Held;
  }

  lemma {:induction false} DroppedKeeps(n: Net, who: Who)
    requires Inv(n) && n.holder.Nobody? && HandleOf(n, who).Dropping?
    ensures Inv(Dropped(n, who, HandleOf(n, who).peer))
  {
    hide Numbered, Filed, Gated, Tries;
    DropMeetsNoOwner(n, who);
    assert Counted(Dropped(n, who, HandleOf(n, who).peer));
    FewerFiles(n, HandleOf(n, who).peer, Dropped(n, who, HandleOf(n, who).peer));
    DroppedGated(n, who);
  }

  lemma {:induction false} DroppedGated(n: Net, who: Who)
    requires Gated(n) && HandleOf(n, who).Dropping?
    ensures Gated(Dropped(n, who, HandleOf(n, who).peer))
  {
    hide Tries;
  }

  lemma {:induction false} FewerFiles(n: Net, peer: Peer, m: Net)
    requires Numbered(n) && Filed(n) && n.holder.Nobody? && OwnsNothing(n, peer)
    requires m.attempts == n.attempts && m.peers == n.peers - {peer} && m.overlays == n.overlays && m.nextId == n.nextId
    requires m.holder == n.holder
    ensures Numbered(m) && Filed(m)
  {}

  lemma {:induction false} ForgetKeeps(n: Net, who: Who)
    requires Inv(n)
    ensures Inv(Next(n, Forget(who)))
  {
    hide Numbered, Filed, Gated;
    SameNumbered(n, Next(n, Forget(who)));
    ForgetGated(n, who);
  }

  lemma {:induction false} ForgetGated(n: Net, who: Who)
    requires Gated(n)
    ensures Gated(Next(n, Forget(who)))
  {
    hide Tries;
  }

  // ----- Runs

  lemma {:induction false} StepKeeps(n: Net, step: Step)
    requires Inv(n)
    ensures Inv(Next(n, step))
  {
    hide Inv, Promotion, Dropped, Publishable;
    match step
    case Reserve => ReserveKeeps(n);
    case Mark(peer) => MarkKeeps(n, peer);
    case Bind(peer, id, connection) => BindKeeps(n, peer, id, connection);
    case GiveBack => GiveBackKeeps(n);
    case Abandon(peer, id) =>
      if Tries(n.attempts, peer, id) {
        TakenBackKeeps(n, peer);
      }
    case DialFailed(peer, connection) =>
      if Uses(n.attempts, peer, connection) {
        TakenBackKeeps(n, peer);
      }
    case Publish(peer, file, exclusive) =>
      if n.accounting.Idle? && n.holder.Nobody? && Publishable(n, peer, file, exclusive) {
        PublishKeeps(n, peer, file, exclusive);
      }
    case Price(peer, connection, amount) => PriceKeeps(n, peer, connection, amount);
    case Promote(who, exclusive) =>
      if n.holder.Nobody? && HandleOf(n, who).Ready? {
        PromotionKeeps(n, who, exclusive);
      }
    case Decide =>
      if n.holder.Promoting? && n.holder.peer in n.peers {
        DecisionKeeps(n);
      }
    case Complete =>
      if n.holder.Decided? && n.holder.peer in n.peers {
        CompletionKeeps(n);
      }
    case Close(peer, connection) => CloseKeeps(n, peer, connection);
    case Disown =>
      if n.holder.Closing? {
        DisowningKeeps(n);
      }
    case Detach =>
      if n.holder.Disowned? {
        DetachingKeeps(n);
      }
    case Release =>
      if n.holder.Leaving? {
        ReleasingKeeps(n);
      }
    case Drop(who) =>
      if n.holder.Nobody? && HandleOf(n, who).Dropping? {
        DroppedKeeps(n, who);
      }
    case Forget(who) => ForgetKeeps(n, who);
    case Rest(peer) => RestKeeps(n, n.resting + {peer});
    case Wake(peer) => RestKeeps(n, n.resting - {peer});
  }

  function Run(n: Net, steps: seq<Step>): Net {
    if steps == [] then n else Next(Run(n, steps[..|steps| - 1]), steps[|steps| - 1])
  }

  /** Every owned overlay belongs to a session: the owner's file names it, or the
      owner is being closed with that file. So every connected slot has a close to
      come that gives it back. */
  ghost predicate Backed(n: Net) {
    forall o :: o in n.overlays ==>
      || (n.overlays[o] in n.peers && n.peers[n.overlays[o]].overlay == o)
      || (n.holder.Closing? && n.holder.peer == n.overlays[o] && n.holder.file.Some? && n.holder.file.value.overlay == o)
  }

  /** A counter that is about to be lowered is above zero. */
  ghost predicate Lowerable(n: Net) {
    && (n.loose > 0 || n.holder.Promoting? || n.holder.Decided? ==> n.ongoing > 0)
    && (n.holder.Leaving? && n.holder.attempt ==> n.ongoing > 0)
    && (n.holder.Leaving? && n.holder.left && !n.holder.attempt ==> n.connected > 0)
  }

  ghost predicate InOrder(n: Net) {
    Counted(n) && Backed(n) && Lowerable(n)
  }

  lemma {:induction false} InvInOrder(n: Net)
    requires Inv(n)
    ensures InOrder(n)
  {
    hide Numbered, Gated;
  }

  lemma {:induction false} RunInv(limit: nat, steps: seq<Step>)
    ensures Inv(Run(Initial(limit), steps))
    decreases |steps|
  {
    hide Inv, Next;
    if steps == [] {
      InitialInv(limit);
    } else {
      RunInv(limit, steps[..|steps| - 1]);
      StepKeeps(Run(Initial(limit), steps[..|steps| - 1]), steps[|steps| - 1]);
    }
  }

  /** In every interleaving: ongoing slots are the attempts and the loose tokens,
      connected slots are the owned overlays up to those in hand, their sum stays
      within the limit, every slot ever reserved is ongoing, connected or was given
      back once, every owned overlay belongs to a session, and no counter is lowered
      at zero. */
  lemma {:induction false} RunInOrder(limit: nat, steps: seq<Step>)
    ensures InOrder(Run(Initial(limit), steps))
  {
    hide Inv, InOrder, Run;
    RunInv(limit, steps);
    InvInOrder(Run(Initial(limit), steps));
  }

  /** In every interleaving the late drop of a duplicate's file meets a peer that owns
      no overlay, although the lock was let go in between. */
  lemma {:induction false} RunDropsHarmlessly(limit: nat, steps: seq<Step>, who: Who)
    requires HandleOf(Run(Initial(limit), steps), who).Dropping?
    ensures OwnsNothing(Run(Initial(limit), steps), HandleOf(Run(Initial(limit), steps), who).peer)
  {
    hide Inv, Run;
    RunInv(limit, steps);
    DropMeetsNoOwner(Run(Initial(limit), steps), who);
  }

  // ----- What the operations come to

  /** The file, the connection and the attempt of a handle's peer are all current. */
  predicate Promotable(n: Net, peer: Peer, exclusive: Option<nat>) {
    peer in n.peers && exclusive == Some(n.peers[peer].connection) && Tries(n.attempts, peer, n.peers[peer].attemptId)
  }

  function Promoted(n: Net, who: Who, exclusive: Option<nat>): Net {
    Next(Next(Next(n, Promote(who, exclusive)), Decide), Complete)
  }

  /** A promotion gives a current peer its overlay and turns its attempt into a connected
      slot when nobody owns that overlay; frees the slot and leaves a duplicate to drop
      when somebody does; and does nothing for a peer that is not current. */
  lemma {:induction false} PromotionGives(n: Net, who: Who, exclusive: Option<nat>)
    requires Inv(n) && n.holder.Nobody? && HandleOf(n, who).Ready?
    ensures var peer, m := HandleOf(n, who).peer, Promoted(n, who, exclusive);
            && (!Promotable(n, peer, exclusive) ==> m == WithHandle(n, who, Idle))
            && (Promotable(n, peer, exclusive) ==>
                  var overlay := n.peers[peer].overlay;
                  && m.peers == n.peers && m.priced == n.priced && m.holder.Nobody?
                  && m.attempts == n.attempts - {peer} && m.ongoing == n.ongoing - 1
                  && (overlay !in n.overlays ==>
                        && m.overlays == n.overlays[overlay := peer] && m.connected == n.connected + 1
                        && HandleOf(m, who) == Idle)
                  && (overlay in n.overlays ==>
                        && m.overlays == n.overlays && m.connected == n.connected && m.freed == n.freed + 1
                        && HandleOf(m, who) == Dropping(peer, n.peers[peer].attemptId)))
  {
    hide Inv, Next, Tries;
    var peer := HandleOf(n, who).peer;
    NextPromote(n, who, exclusive);
    var a := Promotion(n, who, peer, exclusive);
    NextDecide(a);
    if Promotable(n, peer, exclusive) {
      CurrentOwnsNothing(n, peer);
      NextComplete(Decision(a));
    } else {
      NextComplete(a);
    }
  }

  lemma {:induction false} NextPromote(n: Net, who: Who, exclusive: Option<nat>)
    requires n.holder.Nobody? && HandleOf(n, who).Ready?
    ensures Next(n, Promote(who, exclusive)) == Promotion(n, who, HandleOf(n, who).peer, exclusive)
  {}

  lemma {:induction false} NextDecide(n: Net)
    ensures Next(n, Decide) == if n.holder.Promoting? && n.holder.peer in n.peers then Decision(n) else n
  {}

  lemma {:induction false} NextComplete(n: Net)
    ensures Next(n, Complete) == if n.holder.Decided? && n.holder.peer in n.peers then Completion(n) else n
  {}

  lemma {:induction false} NextOfClose(n: Net, peer: Peer, connection: nat)
    ensures Next(n, Close(peer, connection)) ==
            if n.holder.Nobody? && OwnsClose(n, peer, connection)
            then n.(peers := n.peers - {peer},
                    holder := Closing(peer, if peer in n.peers then Some(n.peers[peer]) else None, connection))
            else n
    ensures n.holder.Nobody? ==> Next(n, Disown) == n && Next(n, Detach) == n && Next(n, Release) == n
  {}

  lemma {:induction false} NextDisown(n: Net)
    ensures n.holder.Closing? ==> Next(n, Disown) == Disowning(n)
  {}

  lemma {:induction false} NextDetach(n: Net)
    ensures n.holder.Disowned? ==> Next(n, Detach) == Detaching(n)
  {}

  lemma {:induction false} NextRelease(n: Net)
    ensures Next(n, Release) == if n.holder.Leaving? then Releasing(n) else n
  {}

  /** A peer whose attempt still runs owns no overlay, and its slot counts as ongoing. */
  lemma {:induction false} CurrentOwnsNothing(n: Net, peer: Peer)
    requires Inv(n) && n.holder.Nobody? && peer in n.peers && Tries(n.attempts, peer, n.peers[peer].attemptId)
    ensures OwnsNothing(n, peer) && n.ongoing > 0
  {
    assert n.attempts.Keys != {};
  }

  function Closed(n: Net, peer: Peer, connection: nat): Net {
    Next(Next(Next(Next(n, Close(peer, connection)), Disown), Detach), Release)
  }

  /** The session's attempt still runs. */
  predicate StillTrying(n: Net, peer: Peer, connection: nat) {
    if peer in n.peers then Tries(n.attempts, peer, n.peers[peer].attemptId) else Uses(n.attempts, peer, connection)
  }

  predicate OwnsOverlay(n: Net, peer: Peer) {
    peer in n.peers && n.peers[peer].overlay in n.overlays && n.overlays[n.peers[peer].overlay] == peer
  }

  /** Closing a session removes its file, its account, and its attempt with an ongoing
      slot or its overlay with a connected one, and leaves the peer without an overlay;
      the close of a connection that is no session's changes nothing. */
  lemma {:induction false} CloseTakes(n: Net, peer: Peer, connection: nat)
    requires Inv(n) && n.holder.Nobody?
    ensures var m := Closed(n, peer, connection);
            && (!OwnsClose(n, peer, connection) ==> m == n)
            && (OwnsClose(n, peer, connection) ==>
                  var trying, owning := StillTrying(n, peer, connection), OwnsOverlay(n, peer);
                  && !(trying && owning) && OwnsNothing(m, peer) && m.holder.Nobody?
                  && m.peers == n.peers - {peer} && m.priced == n.priced - {peer}
                  && m.attempts == (if trying then n.attempts - {peer} else n.attempts)
                  && m.overlays == (if owning then n.overlays - {n.peers[peer].overlay} else n.overlays)
                  && m.ongoing == n.ongoing - (if trying then 1 else 0)
                  && m.connected == n.connected - if owning then 1 else 0)
  {
    hide Inv, Next;
    NextOfClose(n, peer, connection);
    if OwnsClose(n, peer, connection) {
      SessionOwns(n, peer, connection);
      var a := Next(n, Close(peer, connection));
      NextDisown(a);
      NextDetach(Disowning(a));
      NextRelease(Detaching(Disowning(a)));
    }
  }

  lemma {:induction false} SessionOwns(n: Net, peer: Peer, connection: nat)
    requires Inv(n) && n.holder.Nobody? && OwnsClose(n, peer, connection)
    ensures !(StillTrying(n, peer, connection) && OwnsOverlay(n, peer))
    ensures StillTrying(n, peer, connection) ==> n.ongoing > 0
    ensures OwnsOverlay(n, peer) ==> n.connected > 0
    ensures forall o :: o in n.overlays && n.overlays[o] == peer ==> OwnsOverlay(n, peer) && o == n.peers[peer].overlay
  {
    if StillTrying(n, peer, connection) {
      assert n.attempts.Keys != {};
    }
    if OwnsOverlay(n, peer) {
      assert n.overlays.Keys != {};
    }
  }

  // ----- The life of a session

  ghost predicate AtRest(n: Net) {
    n.holder.Nobody? && n.accounting.Idle? && n.pricing.Idle?
  }

  /** A new peer may be dialled: there is room, and nothing is known of the peer. */
  predicate Dialable(n: Net, peer: Peer) {
    n.connected + n.ongoing < n.limit && peer !in n.peers && peer !in n.resting && peer !in n.attempts && peer !in n.priced
  }

  /** The dial task reserves a slot, marks its attempt and binds the connection. */
  function Dialled(n: Net, peer: Peer, connection: nat): Net {
    Next(Next(Next(n, Reserve), Mark(peer)), Bind(peer, n.nextId, connection))
  }

  lemma {:induction false} DialTakesASlot(n: Net, peer: Peer, connection: nat)
    requires AtRest(n) && Dialable(n, peer)
    ensures Dialled(n, peer, connection) ==
            n.(ongoing := n.ongoing + 1, reserved := n.reserved + 1, nextId := n.nextId + 1,
               attempts := n.attempts[peer := Attempt(n.nextId, Some(connection))])
  {
    hide Next;
    var a := n.(ongoing := n.ongoing + 1, loose := n.loose + 1, reserved := n.reserved + 1);
    NextReserve(n);
    NextMark(a, peer);
    var b := Next(a, Mark(peer));
    NextBind(b, peer, n.nextId, connection);
    assert b.attempts[peer := Attempt(n.nextId, Some(connection))] == n.attempts[peer := Attempt(n.nextId, Some(connection))];
  }

  lemma {:induction false} NextReserve(n: Net)
    requires n.connected + n.ongoing < n.limit
    ensures Next(n, Reserve) == n.(ongoing := n.ongoing + 1, loose := n.loose + 1, reserved := n.reserved + 1)
  {}

  lemma {:induction false} NextMark(n: Net, peer: Peer)
    requires n.holder.Nobody? && n.loose > 0 && peer !in n.peers && peer !in n.resting && peer !in n.attempts
    ensures Next(n, Mark(peer)) ==
            n.(attempts := n.attempts[peer := Attempt(n.nextId, None)], nextId := n.nextId + 1, loose := n.loose - 1)
  {}

  lemma {:induction false} NextBind(n: Net, peer: Peer, id: nat, connection: nat)
    requires Tries(n.attempts, peer, id)
    ensures Next(n, Bind(peer, id, connection)) == n.(attempts := n.attempts[peer := Attempt(id, Some(connection))])
  {}

  lemma {:induction false} NextPublish(n: Net, peer: Peer, file: PeerFile)
    requires n.accounting.Idle? && n.holder.Nobody? && Publishable(n, peer, file, Some(file.connection))
    ensures Next(n, Publish(peer, file, Some(file.connection))) ==
            n.(peers := n.peers[peer := file], accounting := if peer in n.priced then Ready(peer) else Idle)
  {}

  lemma {:induction false} NextPrice(n: Net, peer: Peer, connection: nat, amount: nat)
    requires n.pricing.Idle? && n.holder.Nobody? && OwnsClose(n, peer, connection) && amount > 0
    ensures Next(n, Price(peer, connection, amount)) == n.(priced := n.priced + {peer}, pricing := Ready(peer))
  {}

  /** The handshake is published and the price announced, in either order. */
  function Introduced(n: Net, peer: Peer, file: PeerFile, amount: nat, priceFirst: bool): Net {
    if priceFirst
    then Next(Next(n, Price(peer, file.connection, amount)), Publish(peer, file, Some(file.connection)))
    else Next(Next(n, Publish(peer, file, Some(file.connection))), Price(peer, file.connection, amount))
  }

  lemma {:induction false} IntroductionIsReady(n: Net, peer: Peer, file: PeerFile, amount: nat, priceFirst: bool)
    requires AtRest(n) && peer !in n.peers && peer !in n.priced && amount > 0
    requires Tries(n.attempts, peer, file.attemptId) && Uses(n.attempts, peer, file.connection)
    ensures Introduced(n, peer, file, amount, priceFirst) ==
            n.(peers := n.peers[peer := file], priced := n.priced + {peer}, pricing := Ready(peer),
               accounting := if priceFirst then Ready(peer) else Idle)
  {
    hide Next;
    if priceFirst {
      NextPrice(n, peer, file.connection, amount);
      NextPublish(n.(priced := n.priced + {peer}, pricing := Ready(peer)), peer, file);
    } else {
      NextPublish(n, peer, file);
      NextPrice(n.(peers := n.peers[peer := file]), peer, file.connection, amount);
    }
  }

  /** A dialled peer with a free overlay, once published and priced in either order and
      promoted by the handle that saw the second of the two, owns its overlay on one more
      connected slot. */
  lemma {:induction false} DialConnects(n: Net, peer: Peer, overlay: Overlay, connection: nat, amount: nat, priceFirst: bool)
    requires Inv(n) && AtRest(n) && Dialable(n, peer) && overlay !in n.overlays && amount > 0
    ensures var file := PeerFile(overlay, n.nextId, connection);
            var ready := Introduced(Dialled(n, peer, connection), peer, file, amount, priceFirst);
            var m := Promoted(ready, if priceFirst then Accounting else Pricing, Some(connection));
            && m.connected == n.connected + 1 && m.ongoing == n.ongoing
            && m.overlays == n.overlays[overlay := peer] && m.peers == n.peers[peer := file]
            && m.attempts == n.attempts && m.priced == n.priced + {peer} && m.holder.Nobody?
  {
    hide Inv, Next;
    var file := PeerFile(overlay, n.nextId, connection);
    var dialled := Dialled(n, peer, connection);
    DialTakesASlot(n, peer, connection);
    IntroductionIsReady(dialled, peer, file, amount, priceFirst);
    var ready := Introduced(dialled, peer, file, amount, priceFirst);
    IntroducedInv(n, peer, file, connection, amount, priceFirst);
    PromotionGives(ready, if priceFirst then Accounting else Pricing, Some(connection));
    assert ready.attempts - {peer} == n.attempts;
  }

  lemma {:induction false} IntroducedInv(n: Net, peer: Peer, file: PeerFile, connection: nat, amount: nat, priceFirst: bool)
    requires Inv(n)
    ensures Inv(Introduced(Dialled(n, peer, connection), peer, file, amount, priceFirst))
  {
    hide Inv, Next;
    StepKeeps(n, Reserve);
    StepKeeps(Next(n, Reserve), Mark(peer));
    StepKeeps(Next(Next(n, Reserve), Mark(peer)), Bind(peer, n.nextId, connection));
    var d := Dialled(n, peer, connection);
    if priceFirst {
      StepKeeps(d, Price(peer, file.connection, amount));
      StepKeeps(Next(d, Price(peer, file.connection, amount)), Publish(peer, file, Some(file.connection)));
    } else {
      StepKeeps(d, Publish(peer, file, Some(file.connection)));
      StepKeeps(Next(d, Publish(peer, file, Some(file.connection))), Price(peer, file.connection, amount));
    }
  }

  // ----- The tables in place

  class Wings {
    const limit: nat
    var connected: nat
    var ongoing: nat
    var attempts: map<Peer, Attempt>
    var peers: map<Peer, PeerFile>
    var overlays: map<Overlay, Peer>
    var priced: set<Peer>
    var accounting: Handle
    var pricing: Handle
    var resting: set<Peer>
    var nextId: nat
    var holder: Holder
    ghost var loose: nat
    ghost var reserved: nat
    ghost var freed: nat

    ghost function State(): Net
      reads this
    {
      Net(limit, connected, ongoing, attempts, peers, overlays, priced, accounting, pricing, resting, nextId, holder,
          loose, reserved, freed)
    }

    constructor (most: nat)
      ensures State() == Initial(most) && Inv(State())
    {
      limit := most;
      connected, ongoing, attempts, peers, overlays, resting, nextId := 0, 0, map[], map[], map[], {}, 1;
      priced, accounting, pricing := {}, Idle, Idle;
      holder, loose, reserved, freed := Nobody, 0, 0, 0;
      new;
      InitialInv(limit);
    }

    method TryReserve() returns (ok: bool)
      requires Inv(State())
      modifies this
      ensures Inv(State()) && State() == Next(old(State()), Reserve)
      ensures ok <==> old(connected + ongoing) < limit
    {
      hide Inv;
      ReserveKeeps(State());
      ok := connected + ongoing < limit;
      if ok {
        ongoing := ongoing + 1;
        loose, reserved := loose + 1, reserved + 1;
      }
    }

    /** Gives back a slot the caller holds. */
    method ReleaseReservation()
      requires Inv(State()) && loose > 0
      modifies this
      ensures Inv(State()) && State() == Next(old(State()), GiveBack)
      ensures ongoing == old(ongoing) - 1
    {
      hide Inv;
      GiveBackKeeps(State());
      InvInOrder(State());
      ongoing := SaturatingSub(ongoing, 1);
      loose, freed := loose - 1, freed + 1;
    }

    method TryMarkAttempt(peer: Peer) returns (id: Option<nat>)
      requires Inv(State()) && loose > 0 && holder.Nobody?
      modifies this
      ensures Inv(State()) && State() == Next(old(State()), Mark(peer))
      ensures id.Some? <==> peer !in old(peers) && peer !in old(resting) && peer !in old(attempts)
      ensures id.Some? ==> Tries(attempts, peer, id.value)
    {
      hide Inv;
      MarkKeeps(State(), peer);
      if peer in peers || peer in resting || peer in attempts {
        return None;
      }
      id := Some(nextId);
      attempts := attempts[peer := Attempt(nextId, None)];
      nextId := nextId + 1;
      loose := loose - 1;
    }

    method RemoveAttempt(peer: Peer, id: nat) returns (removed: bool)
      requires Inv(State())
      modifies this
      ensures Inv(State()) && State() == Next(old(State()), Abandon(peer, id))
      ensures removed <==> Tries(old(attempts), peer, id)
      ensures loose == old(loose) + if removed then 1 else 0
    {
      hide Inv;
      StepKeeps(State(), Abandon(peer, id));
      removed := Tries(attempts, peer, id);
      if removed {
        attempts := attempts - {peer};
        loose := loose + 1;
      }
    }

    // ----- Promotion: the lock on the connected peers is held from the first step to the last

    /** What a handle does next. */
    method SetHandle(who: Who, h: Handle)
      modifies this`accounting, this`pricing
      ensures State() == WithHandle(old(State()), who, h)
    {
      if who.Accounting? {
        accounting := h;
      } else {
        pricing := h;
      }
    }

    method TakeAttempt(who: Who, exclusive: Option<nat>)
      requires Inv(State()) && holder.Nobody? && HandleOf(State(), who).Ready?
      modifies this
      ensures Inv(State()) && State() == Next(old(State()), Promote(who, exclusive))
    {
      hide Inv;
      StepKeeps(State(), Promote(who, exclusive));
      var peer := if who.Accounting? then accounting.peer else pricing.peer;
      if peer in peers && exclusive == Some(peers[peer].connection) && Tries(attempts, peer, peers[peer].attemptId) {
        attempts := attempts - {peer};
        holder := Promoting(peer, who);
        SetHandle(who, Acting);
      } else {
        SetHandle(who, Idle);
      }
    }

    method TakeOverlay()
      requires Inv(State())
      modifies this
      ensures Inv(State()) && State() == Next(old(State()), Decide)
    {
      hide Inv;
      StepKeeps(State(), Decide);
      if holder.Promoting? && holder.peer in peers {
        var overlay := peers[holder.peer].overlay;
        if overlay !in overlays {
          overlays := overlays[overlay := holder.peer];
          holder := Decided(holder.peer, true, holder.who);
        } else {
          holder := Decided(holder.peer, false, holder.who);
        }
      }
    }

    method CompleteReservation()
      requires Inv(State())
      modifies this
      ensures Inv(State()) && State() == Next(old(State()), Complete)
    {
      hide Inv;
      StepKeeps(State(), Complete);
      if holder.Decided? && holder.peer in peers {
        var peer, who := holder.peer, holder.who;
        var overlay := peers[peer].overlay;
        var next := Idle;
        if holder.promoted {
          connected := connected + 1;
        } else {
          if overlay in overlays && overlays[overlay] != peer {
            next := Dropping(peer, peers[peer].attemptId);
          }
          freed := freed + 1;
        }
        ongoing := SaturatingSub(ongoing, 1);
        holder := Nobody;
        SetHandle(who, next);
      }
    }

    /** A priced peer takes its overlay, or its slot is given back. */
    method PromotePricedPeer(who: Who, exclusive: Option<nat>)
      requires Inv(State()) && holder.Nobody? && HandleOf(State(), who).Ready?
      modifies this
      ensures Inv(State())
      ensures State() == Promoted(old(State()), who, exclusive)
      ensures var peer := HandleOf(old(State()), who).peer;
              && (!Promotable(old(State()), peer, exclusive) ==> overlays == old(overlays) && connected == old(connected))
              && (Promotable(old(State()), peer, exclusive) ==>
                    var overlay := old(peers)[peer].overlay;
                    && ongoing == old(ongoing) - 1 && attempts == old(attempts) - {peer}
                    && connected == old(connected) + (if overlay in old(overlays) then 0 else 1)
                    && overlays == if overlay in old(overlays) then old(overlays) else old(overlays)[overlay := peer])
    {
      hide Inv, Next;
      PromotionGives(State(), who, exclusive);
      TakeAttempt(who, exclusive);
      TakeOverlay();
      CompleteReservation();
    }

    method DropFile(who: Who)
      requires Inv(State()) && holder.Nobody? && HandleOf(State(), who).Dropping?
      modifies this
      ensures Inv(State()) && State() == Next(old(State()), Drop(who)) && HandleOf(State(), who).Forgetting?
    {
      hide Inv;
      StepKeeps(State(), Drop(who));
      var peer := if who.Accounting? then accounting.peer else pricing.peer;
      peers := peers - {peer};
      SetHandle(who, Forgetting(peer));
    }

    method DropAccount(who: Who)
      requires Inv(State()) && HandleOf(State(), who).Forgetting?
      modifies this
      ensures Inv(State()) && State() == Next(old(State()), Forget(who))
    {
      hide Inv;
      StepKeeps(State(), Forget(who));
      priced := priced - {if who.Accounting? then accounting.peer else pricing.peer};
      SetHandle(who, Idle);
    }

    /** The end of a promotion that met a duplicate: the file goes, then the account. */
    method DropDuplicate(who: Who)
      requires Inv(State()) && holder.Nobody? && HandleOf(State(), who).Dropping?
      modifies this
      ensures Inv(State()) && State() == Next(Next(old(State()), Drop(who)), Forget(who))
      ensures var peer := HandleOf(old(State()), who).peer;
              && peers == old(peers) - {peer} && priced == old(priced) - {peer} && HandleOf(State(), who) == Idle
              && attempts == old(attempts) && overlays == old(overlays) && ongoing == old(ongoing) && connected == old(connected)
    {
      hide Inv;
      DropFile(who);
      DropAccount(who);
    }

    // ----- The two handles' events

    method PublishFile(peer: Peer, file: PeerFile, exclusive: Option<nat>)
      requires Inv(State()) && holder.Nobody? && accounting.Idle?
      modifies this
      ensures Inv(State()) && State() == Next(old(State()), Publish(peer, file, exclusive))
      ensures var published := Publishable(old(State()), peer, file, exclusive);
              && peers == (if published then old(peers)[peer := file] else old(peers))
              && accounting == if published && peer in priced then Ready(peer) else Idle
    {
      hide Inv;
      StepKeeps(State(), Publish(peer, file, exclusive));
      if exclusive != Some(file.connection) || !Tries(attempts, peer, file.attemptId) || !Uses(attempts, peer, file.connection) {
        return;
      }
      if peer in peers && peers[peer].attemptId != file.attemptId {
        return;
      }
      var thresholdReady := peer in priced;
      peers := peers[peer := file];
      if thresholdReady {
        accounting := Ready(peer);
      }
    }

    method SetThreshold(peer: Peer, connection: nat, amount: nat)
      requires Inv(State()) && holder.Nobody? && pricing.Idle?
      modifies this
      ensures Inv(State()) && State() == Next(old(State()), Price(peer, connection, amount))
      ensures OwnsClose(old(State()), peer, connection) ==> pricing == Ready(peer) && (peer in priced <==> amount > 0)
      ensures !OwnsClose(old(State()), peer, connection) ==> State() == old(State())
    {
      hide Inv;
      StepKeeps(State(), Price(peer, connection, amount));
      if (if peer in peers then peers[peer].connection == connection else Uses(attempts, peer, connection)) {
        priced := if amount > 0 then priced + {peer} else priced - {peer};
        pricing := Ready(peer);
      }
    }

    // ----- Closing, under the same lock

    method RemoveFile(peer: Peer, connection: nat)
      requires Inv(State()) && holder.Nobody?
      modifies this
      ensures Inv(State()) && State() == Next(old(State()), Close(peer, connection))
    {
      hide Inv;
      CloseKeeps(State(), peer, connection);
      if (if peer in peers then peers[peer].connection == connection else Uses(attempts, peer, connection)) {
        holder := Closing(peer, if peer in peers then Some(peers[peer]) else None, connection);
        peers := peers - {peer};
      }
    }

    method RemoveOverlay()
      requires Inv(State())
      modifies this
      ensures Inv(State()) && State() == Next(old(State()), Disown)
    {
      hide Inv;
      StepKeeps(State(), Disown);
      if holder.Closing? {
        var left := holder.file.Some? && holder.file.value.overlay in overlays
                    && overlays[holder.file.value.overlay] == holder.peer;
        if left {
          overlays := overlays - {holder.file.value.overlay};
        }
        holder := Disowned(holder.peer, holder.file, holder.connection, left);
      }
    }

    method RemoveClosedAttempt()
      requires Inv(State())
      modifies this
      ensures Inv(State()) && State() == Next(old(State()), Detach)
    {
      hide Inv;
      StepKeeps(State(), Detach);
      if holder.Disowned? {
        var had := if holder.file.Some? then Tries(attempts, holder.peer, holder.file.value.attemptId)
                   else Uses(attempts, holder.peer, holder.connection);
        assert had == HadAttempt(State(), holder);
        if had {
          attempts := attempts - {holder.peer};
        }
        if had || holder.file.Some? {
          priced := priced - {holder.peer};
        }
        holder := if !had && holder.file.None? then Nobody else Leaving(had, holder.left);
      }
    }

    method ReleaseSlot()
      requires Inv(State())
      modifies this
      ensures Inv(State()) && State() == Next(old(State()), Release)
    {
      hide Inv;
      StepKeeps(State(), Release);
      if holder.Leaving? {
        if holder.attempt {
          ongoing, freed := SaturatingSub(ongoing, 1), freed + 1;
        } else if holder.left {
          connected, freed := SaturatingSub(connected, 1), freed + 1;
        }
        holder := Nobody;
      }
    }

    /** A closed connection gives back the slot its session held, if any. */
    method ConnectionClosed(peer: Peer, connection: nat)
      requires Inv(State()) && holder.Nobody?
      modifies this
      ensures Inv(State())
      ensures State() == Closed(old(State()), peer, connection)
      ensures OwnsClose(old(State()), peer, connection) ==>
                && peer !in peers && peer !in priced && OwnsNothing(State(), peer)
                && ongoing == old(ongoing) - (if StillTrying(old(State()), peer, connection) then 1 else 0)
                && connected == old(connected) - if OwnsOverlay(old(State()), peer) then 1 else 0
    {
      hide Inv, Next, OwnsNothing;
      CloseTakes(State(), peer, connection);
      RemoveFile(peer, connection);
      RemoveOverlay();
      RemoveClosedAttempt();
      ReleaseSlot();
    }
  }
}
