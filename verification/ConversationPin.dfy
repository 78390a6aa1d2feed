/** The tier lock of a conversation: the expiring store (internal/store/memory.go), the clamp and
    the pin in the request handler (internal/proxy/handler.go), and the classifier's own clamp
    ahead of it (internal/classifier/app/model_select.py). */
module ConversationPin {
  import opened Options
  import opened Routing

  // ----- The store -----

  datatype ConvState = ConvState(tier: string, model: string, bucket: string, turns: int, updatedAt: int)

  datatype Entry<+T> = Entry(value: T, expiresAt: int)

  /** An entry is still there at the very instant it expires, and gone after it. */
  function Live<T>(entries: map<int, Entry<T>>, key: int, now: int): Option<T> {
    if key in entries && now <= entries[key].expiresAt then Some(entries[key].value) else None
  }

  class MemoryStore {
    var data: map<int, Entry<string>>
    var conv: map<int, Entry<ConvState>>

    constructor ()
      ensures data == map[] && conv == map[]
    {
      data, conv := map[], map[];
    }

    method GetAffinity(hash: int, now: int) returns (replica: Option<string>)
      ensures replica == Live(data, hash, now)
    {
      if hash !in data || now > data[hash].expiresAt {
        return None;
      }
      replica := Some(data[hash].value);
    }

    method SetAffinity(hash: int, replica: string, ttl: int, now: int)
      modifies this`data
      ensures data == old(data)[hash := Entry(replica, now + ttl)] && conv == old(conv)
      ensures forall t :: Live(data, hash, t) == if t <= now + ttl then Some(replica) else None
      ensures forall h, t | h != hash :: Live(data, h, t) == Live(old(data), h, t)
    {
      data := data[hash := Entry(replica, now + ttl)];
    }

    method GetConversation(hash: int, now: int) returns (state: Option<ConvState>)
      ensures state == Live(conv, hash, now)
    {
      if hash !in conv || now > conv[hash].expiresAt {
        return None;
      }
      state := Some(conv[hash].value);
    }

    method SetConversation(hash: int, state: ConvState, ttl: int, now: int)
      modifies this`conv
      ensures conv == old(conv)[hash := Entry(state, now + ttl)] && data == old(data)
      ensures forall t :: Live(conv, hash, t) == if t <= now + ttl then Some(state) else None
      ensures forall h, t | h != hash :: Live(conv, h, t) == Live(old(conv), h, t)
    {
      conv := conv[hash := Entry(state, now + ttl)];
    }
  }

  // ----- One turn of a conversation -----

  const SMALL_TIER := "small"

  /** The replica that served a turn. */
  datatype Service = Service(replica: string, model: string)

  /** What surrounds one turn: when the pin is read, when the prefix and the pin are written, what the
      classifier answers to the current tier it is sent (nothing on an error), and what serves the
      tier asked for (nothing when every attempt failed). */
  datatype Turn = Turn(hash: int, prefix: int, readAt: int, hitAt: int, writeAt: int, classify: string -> Option<string>,
                       serve: string -> Option<Service>, bucket: string, turns: int)

  datatype Settings = Settings(replicas: seq<Replica>, ttl: int)

  function Classified(t: Turn, current: string): string {
    match t.classify(current)
    case Some(tier) => tier
    case None => SMALL_TIER
  }

  /** The tier the classifier names when the pin is read back as `pin`. */
  function Named(t: Turn, pin: Option<ConvState>): string {
    Classified(t, if pin.Some? then pin.value.tier else "")
  }

  /** The tier the turn is routed to. */
  function Routed(s: Settings, t: Turn, pin: Option<ConvState>): string {
    if pin.Some? then HigherTier(s.replicas, pin.value.tier, Named(t, pin)) else Named(t, pin)
  }

  /** The pin is read before the request is served and written after it. */
  function AfterWrite(s: Settings, t: Turn, pin: Option<ConvState>, conv: map<int, Entry<ConvState>>): map<int, Entry<ConvState>> {
    var tier := Routed(s, t, pin);
    match t.serve(tier)
    case None => conv
    case Some(service) => conv[t.hash := Entry(ConvState(tier, service.model, t.bucket, t.turns, t.writeAt), t.writeAt + s.ttl)]
  }

  /** A turn that overlaps no other. */
  function AfterTurn(s: Settings, t: Turn, conv: map<int, Entry<ConvState>>): map<int, Entry<ConvState>> {
    AfterWrite(s, t, Live(conv, t.hash, t.readAt), conv)
  }

  predicate Completed(s: Settings, t: Turn, conv: map<int, Entry<ConvState>>) {
    t.serve(Routed(s, t, Live(conv, t.hash, t.readAt))).Some?
  }

  /** A served turn also remembers which replica has the prefix, for as long as the pin lives. */
  method HandleTurn(s: Settings, t: Turn, store: MemoryStore) returns (served: bool)
    modifies store
    ensures served == Completed(s, t, old(store.conv))
    ensures store.conv == AfterTurn(s, t, old(store.conv))
    ensures !served ==> store.data == old(store.data)
    ensures served ==>
              var replica := t.serve(Routed(s, t, Live(old(store.conv), t.hash, t.readAt))).value.replica;
              && (forall now :: Live(store.data, t.prefix, now) == if now <= t.hitAt + s.ttl then Some(replica) else None)
              && (forall prefix, now | prefix != t.prefix :: Live(store.data, prefix, now) == Live(old(store.data), prefix, now))
  {
    var prev := store.GetConversation(t.hash, t.readAt);
    var current := if prev.Some? then prev.value.tier else "";
    var answer := t.classify(current);
    var tier := if answer.Some? then answer.value else SMALL_TIER;
    if prev.Some? {
      tier := HigherTier(s.replicas, prev.value.tier, tier);
    }
    var service := t.serve(tier);
    if service.None? {
      return false;
    }
    store.SetAffinity(t.prefix, service.value.replica, s.ttl, t.hitAt);
    store.SetConversation(t.hash, ConvState(tier, service.value.model, t.bucket, t.turns, t.writeAt), s.ttl, t.writeAt);
    served := true;
  }

  // ----- Serial runs -----

  function AfterTurns(s: Settings, turns: seq<Turn>, conv: map<int, Entry<ConvState>>): map<int, Entry<ConvState>> {
    if turns == [] then conv
    else AfterTurn(s, turns[|turns| - 1], AfterTurns(s, turns[..|turns| - 1], conv))
  }

  /** The tier a conversation is pinned to, expired or not. */
  function PinOf(conv: map<int, Entry<ConvState>>, h: int): Option<string> {
    if h in conv then Some(conv[h].value.tier) else None
  }

  /** The tiers the classifier named on the completed turns of a conversation, in order. */
  function NamedTiers(s: Settings, turns: seq<Turn>, conv: map<int, Entry<ConvState>>, h: int): seq<string> {
    if turns == [] then []
    else
      var init, t := turns[..|turns| - 1], turns[|turns| - 1];
      var before := AfterTurns(s, init, conv);
      NamedTiers(s, init, conv, h)
      + if t.hash == h && Completed(s, t, before) then [Named(t, Live(before, h, t.readAt))] else []
  }

  /** Every turn of the conversation reads the entry there is before it expires. */
  ghost predicate ReadsLive(s: Settings, turns: seq<Turn>, conv: map<int, Entry<ConvState>>, h: int) {
    forall k | 0 <= k < |turns| && turns[k].hash == h :: InTime(turns[k], AfterTurns(s, turns[..k], conv))
  }

  predicate InTime(t: Turn, conv: map<int, Entry<ConvState>>) {
    t.hash in conv ==> t.readAt <= conv[t.hash].expiresAt
  }

  /** The first name of highest priority in a list. */
  ghost predicate IsHighest(replicas: seq<Replica>, names: seq<string>, i: nat) {
    && i < |names|
    && forall j | 0 <= j < |names| ::
         && PriorityOf(replicas, names[j]) <= PriorityOf(replicas, names[i])
         && (j < i ==> PriorityOf(replicas, names[j]) < PriorityOf(replicas, names[i]))
  }

  function InitialPin(conv: map<int, Entry<ConvState>>, h: int): seq<string> {
    if h in conv then [conv[h].value.tier] else []
  }

  /** What the pin of a conversation is: the first of the highest tiers among the one it started
      with and the ones the classifier named on completed turns. */
  ghost predicate PinnedToHighest(s: Settings, names: seq<string>, pin: Option<string>) {
    if names == [] then pin == None
    else pin.Some? && exists i: nat :: IsHighest(s.replicas, names, i) && names[i] == pin.value
  }

  lemma {:induction false} LivePinIsHighest(s: Settings, turns: seq<Turn>, conv: map<int, Entry<ConvState>>, h: int)
    requires ReadsLive(s, turns, conv, h)
    ensures PinnedToHighest(s, InitialPin(conv, h) + NamedTiers(s, turns, conv, h), PinOf(AfterTurns(s, turns, conv), h))
  {
    hide AfterTurn, Completed, Named, InTime, PinnedToHighest, InitialPin, PinOf;
    var start := InitialPin(conv, h);
    if turns == [] {
      StartsHighest(s, conv, h);
      assert start + [] == start;
    } else {
      var init, t := turns[..|turns| - 1], turns[|turns| - 1];
      var before := AfterTurns(s, init, conv);
      InitInTime(s, turns, conv, h);
      LivePinIsHighest(s, init, conv, h);
      NameTurn(s, t, before, start + NamedTiers(s, init, conv, h), h);
      assert start + NamedTiers(s, turns, conv, h)
             == start + NamedTiers(s, init, conv, h)
                + if t.hash == h && Completed(s, t, before) then [Named(t, Live(before, h, t.readAt))] else [];
    }
  }

  /** When the last completed turn of the conversation wrote its pin. */
  function LastWrite(s: Settings, turns: seq<Turn>, conv: map<int, Entry<ConvState>>, h: int): Option<int> {
    if turns == [] then None
    else
      var init, t := turns[..|turns| - 1], turns[|turns| - 1];
      if t.hash == h && Completed(s, t, AfterTurns(s, init, conv)) then Some(t.writeAt) else LastWrite(s, init, conv, h)
  }

  /** No turn of the conversation reads later than the time to live after the last write, or after the
      entry that was there at the start has expired. */
  ghost predicate ReadsInTime(s: Settings, turns: seq<Turn>, conv: map<int, Entry<ConvState>>, h: int) {
    forall k | 0 <= k < |turns| && turns[k].hash == h ::
      match LastWrite(s, turns[..k], conv, h)
      case Some(at) => turns[k].readAt <= at + s.ttl
      case None => h in conv ==> turns[k].readAt <= conv[h].expiresAt
  }

  /** A pin lives for the time to live from the moment it was written, and holds what the turn was
      routed to and served by. */
  lemma PinLives(s: Settings, t: Turn, conv: map<int, Entry<ConvState>>, now: int)
    requires Completed(s, t, conv)
    ensures var live := Live(AfterTurn(s, t, conv), t.hash, now);
            && (live.Some? <==> now <= t.writeAt + s.ttl)
            && (live.Some? ==>
                  var tier := Routed(s, t, Live(conv, t.hash, t.readAt));
                  && live.value.tier == tier && live.value.model == t.serve(tier).value.model
                  && live.value.bucket == t.bucket && live.value.turns == t.turns && live.value.updatedAt == t.writeAt)
  {
    hide Routed;
  }

  lemma {:induction false} ExpiryFollows(s: Settings, turns: seq<Turn>, conv: map<int, Entry<ConvState>>, h: int)
    ensures var after := AfterTurns(s, turns, conv);
            match LastWrite(s, turns, conv, h)
            case Some(at) => h in after && after[h].expiresAt == at + s.ttl
            case None => (h in after <==> h in conv) && (h in conv ==> after[h] == conv[h])
  {
    hide AfterTurn, Completed;
    if turns != [] {
      var init, t := turns[..|turns| - 1], turns[|turns| - 1];
      ExpiryFollows(s, init, conv, h);
      ExpiryStep(s, t, AfterTurns(s, init, conv), h);
    }
  }

  lemma ExpiryStep(s: Settings, t: Turn, conv: map<int, Entry<ConvState>>, h: int)
    ensures var after := AfterTurn(s, t, conv);
            if t.hash == h && Completed(s, t, conv) then h in after && after[h].expiresAt == t.writeAt + s.ttl
            else (h in after <==> h in conv) && (h in conv ==> after[h] == conv[h])
  {
    hide Routed;
  }

  lemma InTimeIsLive(s: Settings, turns: seq<Turn>, conv: map<int, Entry<ConvState>>, h: int)
    requires ReadsInTime(s, turns, conv, h)
    ensures ReadsLive(s, turns, conv, h)
  {
    hide AfterTurns, LastWrite;
    forall k | 0 <= k < |turns| && turns[k].hash == h
      ensures InTime(turns[k], AfterTurns(s, turns[..k], conv))
    {
      ExpiryFollows(s, turns[..k], conv, h);
    }
  }

  /** Over a serial run whose reads come in time: the pin is the first of the highest tiers among the one
      it started with and those the classifier named on completed turns. */
  lemma PinIsHighest(s: Settings, turns: seq<Turn>, conv: map<int, Entry<ConvState>>, h: int)
    requires ReadsInTime(s, turns, conv, h)
    ensures PinnedToHighest(s, InitialPin(conv, h) + NamedTiers(s, turns, conv, h), PinOf(AfterTurns(s, turns, conv), h))
  {
    InTimeIsLive(s, turns, conv, h);
    LivePinIsHighest(s, turns, conv, h);
  }

  /** ... and along such a run its priority never falls. */
  lemma PinNeverFalls(s: Settings, turns: seq<Turn>, conv: map<int, Entry<ConvState>>, h: int, m: nat)
    requires ReadsInTime(s, turns, conv, h) && m <= |turns|
    ensures var then_, now := PinOf(AfterTurns(s, turns[..m], conv), h), PinOf(AfterTurns(s, turns, conv), h);
            then_.Some? ==> now.Some? && PriorityOf(s.replicas, then_.value) <= PriorityOf(s.replicas, now.value)
  {
    InTimeIsLive(s, turns, conv, h);
    LivePinNeverFalls(s, turns, conv, h, m);
  }

  /** While it is up it is told the pin, and the pin moves exactly if its answer ranks higher. */
  lemma ClassifierUp(s: Settings, t: Turn, conv: map<int, Entry<ConvState>>)
    requires t.hash in conv && t.readAt <= conv[t.hash].expiresAt && Completed(s, t, conv)
    requires t.classify(conv[t.hash].value.tier).Some?
    ensures var pin, answer := conv[t.hash].value.tier, t.classify(conv[t.hash].value.tier).value;
            AfterTurn(s, t, conv)[t.hash].value.tier
            == if PriorityOf(s.replicas, answer) > PriorityOf(s.replicas, pin) then answer else pin
  {
    hide PriorityOf;
  }

  /** While the classifier is down every turn asks for the smallest tier: an unpinned conversation is
      pinned to it, and a pinned one that reads in time keeps its pin unless that ranks below it. */
  lemma ClassifierDown(s: Settings, t: Turn, conv: map<int, Entry<ConvState>>)
    requires (forall current :: t.classify(current) == None) && Completed(s, t, conv)
    ensures var pin, after := Live(conv, t.hash, t.readAt), AfterTurn(s, t, conv)[t.hash].value.tier;
            && (pin.None? ==> after == "small")
            && (pin.Some? ==> after == if PriorityOf(s.replicas, pin.value.tier) >= PriorityOf(s.replicas, "small") then pin.value.tier else "small")
  {
    hide PriorityOf;
  }

  lemma StartsHighest(s: Settings, conv: map<int, Entry<ConvState>>, h: int)
    ensures PinnedToHighest(s, InitialPin(conv, h), PinOf(conv, h))
  {
    assert h in conv ==> IsHighest(s.replicas, InitialPin(conv, h), 0);
  }

  lemma InitInTime(s: Settings, turns: seq<Turn>, conv: map<int, Entry<ConvState>>, h: int)
    requires ReadsLive(s, turns, conv, h) && turns != []
    ensures ReadsLive(s, turns[..|turns| - 1], conv, h)
    ensures turns[|turns| - 1].hash == h ==> InTime(turns[|turns| - 1], AfterTurns(s, turns[..|turns| - 1], conv))
  {
    hide AfterTurns, InTime;
    var init := turns[..|turns| - 1];
    forall k | 0 <= k < |init| && init[k].hash == h
      ensures InTime(init[k], AfterTurns(s, init[..k], conv))
    {
      assert init[..k] == turns[..k] && turns[k] == init[k];
    }
  }

  lemma NameTurn(s: Settings, t: Turn, before: map<int, Entry<ConvState>>, names: seq<string>, h: int)
    requires t.hash == h ==> InTime(t, before)
    requires PinnedToHighest(s, names, PinOf(before, h))
    ensures PinnedToHighest(s, names + if t.hash == h && Completed(s, t, before) then [Named(t, Live(before, h, t.readAt))] else [],
                            PinOf(AfterTurn(s, t, before), h))
  {
    hide PriorityOf, PinnedToHighest;
    if t.hash == h && Completed(s, t, before) {
      OneMoreName(s, names, PinOf(before, h), Named(t, Live(before, h, t.readAt)));
    } else {
      assert names + [] == names;
    }
  }

  lemma OneMoreName(s: Settings, names: seq<string>, pin: Option<string>, name: string)
    requires PinnedToHighest(s, names, pin)
    ensures PinnedToHighest(s, names + [name], Some(if pin.Some? then HigherTier(s.replicas, pin.value, name) else name))
  {
    hide PriorityOf;
    if pin.None? {
      assert IsHighest(s.replicas, names + [name], 0);
    } else {
      var i: nat :| IsHighest(s.replicas, names, i) && names[i] == pin.value;
      var best := if PriorityOf(s.replicas, pin.value) >= PriorityOf(s.replicas, name) then i else |names|;
      assert IsHighest(s.replicas, names + [name], best);
    }
  }

  /** A turn touches no conversation but its own, and not even that when it ends in a 503. */
  lemma OnlyCompletedTurnsPin(s: Settings, t: Turn, conv: map<int, Entry<ConvState>>, h: int)
    requires t.hash != h || !Completed(s, t, conv)
    ensures (h in AfterTurn(s, t, conv) <==> h in conv) && (h in conv ==> AfterTurn(s, t, conv)[h] == conv[h])
  {
  }

  /** Over a whole run, a conversation none of whose turns completes keeps its entry - tier, model and
      expiry - whatever happens to the others. */
  lemma {:induction false} PinUnchanged(s: Settings, turns: seq<Turn>, conv: map<int, Entry<ConvState>>, h: int)
    requires NamedTiers(s, turns, conv, h) == []
    ensures var after := AfterTurns(s, turns, conv);
            (h in after <==> h in conv) && (h in conv ==> after[h] == conv[h])
  {
    hide AfterTurn, Completed, Named;
    if turns != [] {
      var init, t := turns[..|turns| - 1], turns[|turns| - 1];
      PinUnchanged(s, init, conv, h);
      OnlyCompletedTurnsPin(s, t, AfterTurns(s, init, conv), h);
    }
  }

  /** When the pin goes down: exactly on a completed turn that read it after it had expired and
      was classified lower. */
  lemma PinFallsExactly(s: Settings, t: Turn, conv: map<int, Entry<ConvState>>)
    requires t.hash in conv
    ensures var pin := conv[t.hash].value.tier;
            PriorityOf(s.replicas, AfterTurn(s, t, conv)[t.hash].value.tier) < PriorityOf(s.replicas, pin)
            <==> Completed(s, t, conv) && t.readAt > conv[t.hash].expiresAt
                 && PriorityOf(s.replicas, Classified(t, "")) < PriorityOf(s.replicas, pin)
  {
    hide PriorityOf;
  }

  /** When turns overlap, so that `pin` was read before others wrote: the write lowers the stored
      pin exactly when both what it read and what it was classified as rank below it. */
  lemma OverlapFallsExactly(s: Settings, t: Turn, pin: Option<ConvState>, conv: map<int, Entry<ConvState>>)
    requires t.hash in conv && t.serve(Routed(s, t, pin)).Some?
    ensures var stored := PriorityOf(s.replicas, conv[t.hash].value.tier);
            PriorityOf(s.replicas, AfterWrite(s, t, pin, conv)[t.hash].value.tier) < stored
            <==> PriorityOf(s.replicas, Named(t, pin)) < stored
                 && (pin.Some? ==> PriorityOf(s.replicas, pin.value.tier) < stored)
  {
    hide PriorityOf;
  }

  /** Two tiers, "low" below "high". */
  function TwoTiers(): seq<Replica> {
    var routing := TierRouting([], [], false, false);
    [Replica("a", "u", "m", "low", TierConfig("low", 1, routing), 0), Replica("b", "u", "m", "high", TierConfig("high", 2, routing), 0)]
  }

  lemma TwoPriorities()
    ensures PriorityOf(TwoTiers(), "low") == 1 && PriorityOf(TwoTiers(), "high") == 2
  {
    var r := TwoTiers();
    assert PriorityOf(r[1..], "high") == 2;
  }

  function Plain(readAt: int, writeAt: int, tier: string): Turn {
    Turn(0, 0, readAt, writeAt, writeAt, _ => Some(tier), _ => Some(Service("a", "m")), "b0", 1)
  }

  /** It does fall: a turn reads a pin to "high" after it has expired and is classified "low". */
  lemma ExpiredPinFalls(pin: ConvState)
    requires pin.tier == "high"
    ensures var s, conv, t := Settings(TwoTiers(), 10), map[0 := Entry(pin, 5)], Plain(6, 7, "low");
            PriorityOf(s.replicas, AfterTurn(s, t, conv)[0].value.tier) < PriorityOf(s.replicas, pin.tier)
  {
    TwoPriorities();
    PinFallsExactly(Settings(TwoTiers(), 10), Plain(6, 7, "low"), map[0 := Entry(pin, 5)]);
  }

  // ----- Interleaved turns -----

  /** A turn reads its pin at one moment and writes it back at another. */
  datatype Moment = Read(k: nat) | Write(k: nat)

  datatype World = World(conv: map<int, Entry<ConvState>>, seen: map<nat, Option<ConvState>>)

  function Happens(s: Settings, turns: seq<Turn>, w: World, m: Moment): World {
    if m.k >= |turns| then w
    else
      var t := turns[m.k];
      match m
      case Read(k) => w.(seen := w.seen[k := Live(w.conv, t.hash, t.readAt)])
      case Write(k) => if k in w.seen then w.(conv := AfterWrite(s, t, w.seen[k], w.conv)) else w
  }

  function Interleave(s: Settings, turns: seq<Turn>, w: World, run: seq<Moment>): World {
    if run == [] then w
    else Happens(s, turns, Interleave(s, turns, w, run[..|run| - 1]), run[|run| - 1])
  }

  lemma InterleaveOne(s: Settings, turns: seq<Turn>, w: World, run: seq<Moment>, m: Moment)
    ensures Interleave(s, turns, w, run + [m]) == Happens(s, turns, Interleave(s, turns, w, run), m)
  {
    assert (run + [m])[..|run|] == run;
  }

  /** In any interleaving of any turns, a served turn's write lowers the stored pin exactly when both
      the pin it had read and the tier it was classified as rank below the stored one. */
  lemma InterleavedFallsExactly(s: Settings, turns: seq<Turn>, w: World, run: seq<Moment>, k: nat)
    requires k < |turns|
    requires var before := Interleave(s, turns, w, run);
             k in before.seen && turns[k].hash in before.conv && turns[k].serve(Routed(s, turns[k], before.seen[k])).Some?
    ensures var t, before, after := turns[k], Interleave(s, turns, w, run), Interleave(s, turns, w, run + [Write(k)]);
            var stored := PriorityOf(s.replicas, before.conv[t.hash].value.tier);
            PriorityOf(s.replicas, after.conv[t.hash].value.tier) < stored
            <==> PriorityOf(s.replicas, Named(t, before.seen[k])) < stored
                 && (before.seen[k].Some? ==> PriorityOf(s.replicas, before.seen[k].value.tier) < stored)
  {
    hide PriorityOf;
    InterleaveOne(s, turns, w, run, Write(k));
    var before := Interleave(s, turns, w, run);
    OverlapFallsExactly(s, turns[k], before.seen[k], before.conv);
  }

  /** No other turn of the conversation writes, and the turn does not read again. */
  ghost predicate LeavesAlone(turns: seq<Turn>, run: seq<Moment>, k: nat)
    requires k < |turns|
  {
    forall m | m in run :: m.k != k && (m.Write? && m.k < |turns| ==> turns[m.k].hash != turns[k].hash)
  }

  lemma {:induction false} LeftAlone(s: Settings, turns: seq<Turn>, w: World, run: seq<Moment>, k: nat)
    requires k < |turns| && LeavesAlone(turns, run, k)
    ensures var after, h := Interleave(s, turns, w, run), turns[k].hash;
            && (k in after.seen <==> k in w.seen) && (k in w.seen ==> after.seen[k] == w.seen[k])
            && (h in after.conv <==> h in w.conv) && (h in w.conv ==> after.conv[h] == w.conv[h])
  {
    hide Routed, PriorityOf;
    if run != [] {
      var init := run[..|run| - 1];
      assert run[|run| - 1] in run && forall m | m in init :: m in run;
      LeftAlone(s, turns, w, init, k);
    }
  }

  /** A turn that overlaps no other write of its conversation, and reads in time, never lowers the
      pin, however turns of other conversations are interleaved with it. */
  lemma UndisturbedTurnKeeps(s: Settings, turns: seq<Turn>, w: World, run: seq<Moment>, k: nat)
    requires k < |turns| && LeavesAlone(turns, run, k)
    requires turns[k].hash in w.conv && InTime(turns[k], w.conv)
    ensures var after := Interleave(s, turns, w, [Read(k)] + run + [Write(k)]);
            && turns[k].hash in after.conv
            && PriorityOf(s.replicas, after.conv[turns[k].hash].value.tier) >= PriorityOf(s.replicas, w.conv[turns[k].hash].value.tier)
  {
    hide PriorityOf;
    var read := Happens(s, turns, w, Read(k));
    InterleaveFrom(s, turns, w, Read(k), run);
    LeftAlone(s, turns, read, run, k);
    InterleaveOne(s, turns, w, [Read(k)] + run, Write(k));
  }

  lemma {:induction false} InterleaveFrom(s: Settings, turns: seq<Turn>, w: World, m: Moment, run: seq<Moment>)
    ensures Interleave(s, turns, w, [m] + run) == Interleave(s, turns, Happens(s, turns, w, m), run)
  {
    hide Happens;
    if run == [] {
      assert [m] + [] == [] + [m];
      InterleaveOne(s, turns, w, [], m);
    } else {
      var init, last := run[..|run| - 1], run[|run| - 1];
      assert [m] + run == ([m] + init) + [last];
      InterleaveFrom(s, turns, w, m, init);
      InterleaveOne(s, turns, w, [m] + init, last);
    }
  }

  /** An update is lost: both turns read before either writes, and the one classified "low" writes
      last. */
  lemma LostUpdate()
    ensures var s, turns := Settings(TwoTiers(), 10), [Plain(0, 1, "high"), Plain(0, 2, "low")];
            var run := [Read(0)] + [Read(1)] + [Write(0)];
            && PinOf(Interleave(s, turns, World(map[], map[]), run).conv, 0) == Some("high")
            && PinOf(Interleave(s, turns, World(map[], map[]), run + [Write(1)]).conv, 0) == Some("low")
  {
    var s, turns, w := Settings(TwoTiers(), 10), [Plain(0, 1, "high"), Plain(0, 2, "low")], World(map[], map[]);
    hide Interleave, PriorityOf;
    InterleaveOne(s, turns, w, [], Read(0));
    assert [] + [Read(0)] == [Read(0)];
    InterleaveOne(s, turns, w, [Read(0)], Read(1));
    InterleaveOne(s, turns, w, [Read(0)] + [Read(1)], Write(0));
    InterleaveOne(s, turns, w, [Read(0)] + [Read(1)] + [Write(0)], Write(1));
    NothingHappens(s, turns, w);
  }

  lemma NothingHappens(s: Settings, turns: seq<Turn>, w: World)
    ensures Interleave(s, turns, w, []) == w
  {
  }

  lemma {:induction false} LivePinNeverFalls(s: Settings, turns: seq<Turn>, conv: map<int, Entry<ConvState>>, h: int, m: nat)
    requires ReadsLive(s, turns, conv, h) && m <= |turns|
    ensures var then_, now := PinOf(AfterTurns(s, turns[..m], conv), h), PinOf(AfterTurns(s, turns, conv), h);
            then_.Some? ==> now.Some? && PriorityOf(s.replicas, then_.value) <= PriorityOf(s.replicas, now.value)
  {
    hide PriorityOf;
    if m == |turns| {
      assert turns[..m] == turns;
    } else {
      var init, t := turns[..|turns| - 1], turns[|turns| - 1];
      assert init[..m] == turns[..m];
      InitInTime(s, turns, conv, h);
      LivePinNeverFalls(s, init, conv, h, m);
    }
  }

  /** In a checked configuration, a conversation pinned to a configured tier stays on one, except
      exactly when a completed turn reads the pin after it has expired and is classified as a tier
      that is not configured. */
  lemma PinStaysConfigured(s: Settings, sizeOf: SizeOf, tiers: seq<Tier>, sorted: seq<Tier>, t: Turn, conv: map<int, Entry<ConvState>>)
    requires ValidTiers(tiers) && IsSortOf(sorted, tiers) && s.replicas == Flatten(sizeOf, sorted)
    requires t.hash in conv && Configured(tiers, conv[t.hash].value.tier)
    ensures Configured(tiers, AfterTurn(s, t, conv)[t.hash].value.tier)
            <==> !Completed(s, t, conv) || t.readAt <= conv[t.hash].expiresAt || Configured(tiers, Classified(t, ""))
  {
    PriorityIsConfigured(sizeOf, tiers, sorted, conv[t.hash].value.tier);
    PriorityIsConfigured(sizeOf, tiers, sorted, AfterTurn(s, t, conv)[t.hash].value.tier);
    hide PriorityOf, Flatten, ValidTiers, IsSortOf;
    PinFallsExactly(s, t, conv);
  }

  // ----- The classifier's own clamp -----

  const SMALL := "qwen2.5-1.5B-instruct-awq"
  const CODE := "qwen2.5-coder-7b-instruct-awq"
  const REASONING := "qwen2.5-7B-instruct-awq"
  const LARGE := "qwen2.5-72b-instruct"

  const CODE_SIGNALS := {"html", "css", "javascript", "python", "code", "function", "script", "api", "sql", "regex",
                         "website", "app", "debug", "error", "compile", "algorithm", "class", "import", "return"}

  /** Of an unknown model, the empty tier. */
  function ModelToTier(model: string): string {
    if model == SMALL then "small"
    else if model == CODE then "code"
    else if model == REASONING then "reasoning"
    else if model == LARGE then "large"
    else ""
  }

  /** "medium" has a priority but no model. */
  function TierToModel(tier: string): Option<string> {
    if tier == "small" then Some(SMALL)
    else if tier == "code" then Some(CODE)
    else if tier == "reasoning" then Some(REASONING)
    else if tier == "large" then Some(LARGE)
    else None
  }

  function TierPriority(tier: string): int {
    if tier == "small" then 1
    else if tier == "code" then 2
    else if tier == "medium" then 3
    else if tier == "large" then 4
    else if tier == "reasoning" then 5
    else 0
  }

  function Lower(s: string): string {
    seq(|s|, i requires 0 <= i < |s| => ToLower(s[i]))
  }

  /** The model choice that ignores the conversation. */
  function BasePick(r: Signals): string {
    if r.taskType == "Code Generation" then CODE
    else if exists word :: word in CODE_SIGNALS && Contains(Lower(r.taskType), word) then CODE
    else if r.text != "" && (Contains(r.text, "```") || Contains(r.text, "def ") || Contains(r.text, "class ") || Contains(r.text, "function "))
            && r.score < 0.60 then CODE
    else if (Contains(r.taskType, "QA") || r.taskType == "Classification") && r.score < 0.15 && r.reasoning < 0.15 then SMALL
    else if r.reasoning >= 0.70 && r.score >= 0.55 then LARGE
    else if r.score >= 0.65 && r.domain >= 0.80 && r.constraint >= 0.60 then LARGE
    else REASONING
  }

  function ClampUp(model: string, current: string): string {
    if TierPriority(current) > TierPriority(ModelToTier(model)) then
      match TierToModel(current)
      case Some(m) => m
      case None => model
    else model
  }

  function PickModel(r: Signals, current: string): string {
    if current == "" then BasePick(r) else ClampUp(BasePick(r), current)
  }

  /** The tier the classifier service answers with. */
  function ServiceTier(model: string): string {
    if ModelToTier(model) == "" then "small" else ModelToTier(model)
  }

  /** The service as it is, and without its clamp; no signals stand for an error. */
  function WithClamp(r: Option<Signals>): string -> Option<string> {
    current => if r.Some? then Some(ServiceTier(PickModel(r.value, current))) else None
  }

  function WithoutClamp(r: Option<Signals>): string -> Option<string> {
    _ => if r.Some? then Some(ServiceTier(BasePick(r.value))) else None
  }

  /** The service never names the configured tier "medium", whatever the signals and the pin. */
  lemma ServiceTiers(r: Signals, current: string)
    ensures ServiceTier(PickModel(r, current)) in {"small", "code", "reasoning", "large"}
  {
    hide Contains;
  }

  /** The service's clamp raises to the pin exactly when the pin ranks higher in its own table and
      has a model; otherwise it changes nothing. */
  lemma ClampRaisesToPin(r: Signals, current: string)
    ensures ServiceTier(PickModel(r, current))
            == if current in {"code", "reasoning", "large"} && TierPriority(current) > TierPriority(ServiceTier(BasePick(r)))
               then current else ServiceTier(BasePick(r))
  {
    hide Contains;
  }

  /** The service's ranking is the router's. */
  predicate PrioritiesAgree(replicas: seq<Replica>) {
    PriorityOf(replicas, "small") <= PriorityOf(replicas, "code") <= PriorityOf(replicas, "large") <= PriorityOf(replicas, "reasoning")
  }

  /** Whatever the pin and the signals, the router's clamp makes the service's superfluous. */
  ghost predicate ClampInvisible(replicas: seq<Replica>) {
    forall r: Signals, pin: string :: Unaffected(replicas, r, pin)
  }

  predicate Unaffected(replicas: seq<Replica>, r: Signals, pin: string) {
    HigherTier(replicas, pin, ServiceTier(PickModel(r, pin))) == HigherTier(replicas, pin, ServiceTier(BasePick(r)))
  }

  lemma AgreementHidesClamp(replicas: seq<Replica>, r: Signals, pin: string)
    requires PrioritiesAgree(replicas)
    ensures Unaffected(replicas, r, pin)
  {
    hide Contains, PriorityOf;
    ServiceTiers(r, "");
    ClampRaisesToPin(r, pin);
    hide BasePick, PickModel;
  }

  function Sample(task: string, level: real): Signals {
    Signals(task, level, level, 0.0, 0.0, 0.0, "")
  }

  lemma BaseChoices()
    ensures BasePick(Sample("QA", 0.0)) == SMALL
    ensures BasePick(Sample("Code Generation", 0.0)) == CODE
    ensures BasePick(Sample("", 1.0)) == LARGE
  {
    NoCodeSignal("QA");
    NoCodeSignal("");
    assert ContainsAt("QA", "QA", 0);
  }

  lemma NoCodeSignal(task: string)
    requires |task| <= 2
    ensures !exists word :: word in CODE_SIGNALS && Contains(Lower(task), word)
  {
    assert forall word | word in CODE_SIGNALS :: |word| > 2;
  }

  /** The service's clamp makes no difference exactly when the two rankings agree. */
  lemma ClampInvisibleExactly(replicas: seq<Replica>)
    ensures ClampInvisible(replicas) <==> PrioritiesAgree(replicas)
  {
    hide PriorityOf;
    if PrioritiesAgree(replicas) {
      forall r: Signals, pin: string
        ensures Unaffected(replicas, r, pin)
      {
        AgreementHidesClamp(replicas, r, pin);
      }
    }
    if ClampInvisible(replicas) {
      BaseChoices();
      hide BasePick;
      assert Unaffected(replicas, Sample("QA", 0.0), "code");
      assert Unaffected(replicas, Sample("Code Generation", 0.0), "large");
      assert Unaffected(replicas, Sample("", 1.0), "reasoning");
    }
  }

  /** The same turns, classified by the service with or without its clamp. */
  function Turns(base: seq<Turn>, signals: seq<Option<Signals>>, clamp: bool): seq<Turn>
    requires |base| == |signals|
  {
    seq(|base|, k requires 0 <= k < |base| =>
      base[k].(classify := if clamp then WithClamp(signals[k]) else WithoutClamp(signals[k])))
  }

  lemma TurnsInit(base: seq<Turn>, signals: seq<Option<Signals>>, clamp: bool)
    requires |base| == |signals| > 0
    ensures var n := |base| - 1;
            var t := base[n].(classify := if clamp then WithClamp(signals[n]) else WithoutClamp(signals[n]));
            Turns(base, signals, clamp) == Turns(base[..n], signals[..n], clamp) + [t]
  {
    hide WithClamp, WithoutClamp;
  }

  lemma AfterOneMore(s: Settings, turns: seq<Turn>, t: Turn, conv: map<int, Entry<ConvState>>)
    ensures AfterTurns(s, turns + [t], conv) == AfterTurn(s, t, AfterTurns(s, turns, conv))
  {
    hide AfterTurn;
    assert (turns + [t])[..|turns|] == turns;
  }

  /** Over a whole run, expired pins included, the stored conversations do not depend on the
      service's clamp. */
  lemma {:induction false} ClampNeverShows(s: Settings, base: seq<Turn>, signals: seq<Option<Signals>>, conv: map<int, Entry<ConvState>>)
    requires |base| == |signals| && PrioritiesAgree(s.replicas)
    ensures AfterTurns(s, Turns(base, signals, true), conv) == AfterTurns(s, Turns(base, signals, false), conv)
  {
    hide PrioritiesAgree, Turns, AfterTurns, AfterTurn, WithClamp, WithoutClamp;
    if |base| == 0 {
      NoTurns(base, signals);
    } else {
      var n := |base| - 1;
      ClampNeverShows(s, base[..n], signals[..n], conv);
      TurnsInit(base, signals, true);
      TurnsInit(base, signals, false);
      AfterOneMore(s, Turns(base[..n], signals[..n], true), base[n].(classify := WithClamp(signals[n])), conv);
      AfterOneMore(s, Turns(base[..n], signals[..n], false), base[n].(classify := WithoutClamp(signals[n])), conv);
      SameTurn(s, base[n], signals[n], AfterTurns(s, Turns(base[..n], signals[..n], true), conv));
    }
  }

  lemma NoTurns(base: seq<Turn>, signals: seq<Option<Signals>>)
    requires |base| == |signals| == 0
    ensures Turns(base, signals, true) == Turns(base, signals, false)
  {
  }

  lemma SameTurn(s: Settings, t: Turn, signals: Option<Signals>, conv: map<int, Entry<ConvState>>)
    requires PrioritiesAgree(s.replicas)
    ensures AfterTurn(s, t.(classify := WithClamp(signals)), conv) == AfterTurn(s, t.(classify := WithoutClamp(signals)), conv)
  {
    hide PrioritiesAgree, Routed, WithClamp, WithoutClamp;
    SameRoute(s, t, signals, Live(conv, t.hash, t.readAt));
  }

  lemma SameRoute(s: Settings, t: Turn, signals: Option<Signals>, pin: Option<ConvState>)
    requires PrioritiesAgree(s.replicas)
    ensures Routed(s, t.(classify := WithClamp(signals)), pin) == Routed(s, t.(classify := WithoutClamp(signals)), pin)
  {
    hide PriorityOf, BasePick, ClampUp, ServiceTier, HigherTier, PrioritiesAgree;
    if signals.Some? && pin.Some? {
      AgreementHidesClamp(s.replicas, signals.value, pin.value.tier);
    }
  }
}
