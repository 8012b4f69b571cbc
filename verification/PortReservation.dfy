/**
 The port allocator of the startup sequence.  A first pass over the configuration
 records the configured ports, the first owner of a port winning; a second pass then
 reserves a port for every enabled service, moving the services whose port is taken.
 Traefik gets two consecutive ports.
 */
module PortReservation {
  import opened Wrappers

  const MAX_PORT := 65535
  const WEB_OWNER := "traefik:port"
  const DASHBOARD_OWNER := "traefik:dashboard"

  /** An enabled port field of the configuration.  The port is absent if the field does
      not hold an integer.  `address` is the port of Traefik's web entrypoint address. */
  datatype Slot =
    | Service(owner: string, port: Option<int>)
    | Traefik(port: Option<int>, address: nat)

  /** `SearchNeverEnds`: the search for a free port has passed the last port and goes on for ever. */
  datatype Error = SearchNeverEnds | NoTraefikPair

  type Claims = map<int, string>

  predicate Configured(slot: Slot) { slot.port.Some? && slot.port.value > 0 }

  function Owner(slot: Slot): string {
    if slot.Service? then slot.owner else WEB_OWNER
  }

  /** The labels under which a slot may hold ports. */
  function Owners(slot: Slot): set<string> {
    if slot.Service? then {slot.owner} else {WEB_OWNER, DASHBOARD_OWNER}
  }

  /** Owner labels are not empty, and no two slots share one. */
  ghost predicate WellLabelled(slots: seq<Slot>) {
    && (forall i :: 0 <= i < |slots| ==> "" !in Owners(slots[i]))
    && (forall i, j :: 0 <= i < j < |slots| ==> Owners(slots[i]) !! Owners(slots[j]))
  }

  /** The ports a slot ends up with. */
  function Held(slot: Slot): set<int> {
    if !Configured(slot) then {}
    else if slot.Service? then {slot.port.value}
    else {slot.port.value, slot.port.value + 1}
  }

  /** What the allocator promises: available ports, no port twice, and a Traefik web port
      whose entrypoint address agrees and whose successor belongs to nobody else. */
  ghost predicate Settled(slots: seq<Slot>, available: int -> bool) {
    && (forall i, p :: 0 <= i < |slots| && p in Held(slots[i]) ==> available(p))
    && (forall i, j, p :: 0 <= i < |slots| && 0 <= j < |slots| && p in Held(slots[i]) && p in Held(slots[j]) ==> i == j)
    && (forall i :: 0 <= i < |slots| && slots[i].Traefik? ==>
          Configured(slots[i]) && slots[i].address == slots[i].port.value < MAX_PORT)
  }

  predicate Claimant(slot: Slot, p: int) { Configured(slot) && slot.port.value == p }

  /** Slot `i` is the first of the configuration that names its port. */
  ghost predicate FirstClaimant(slots: seq<Slot>, i: int)
    requires 0 <= i < |slots|
  {
    Configured(slots[i]) && forall j :: 0 <= j < i ==> !Claimant(slots[j], slots[i].port.value)
  }

  /** The claims recorded by the first pass from the first `n` slots. */
  ghost predicate Seeds(used: Claims, slots: seq<Slot>, n: nat)
    requires n <= |slots|
  {
    && (forall i :: 0 <= i < n && FirstClaimant(slots, i) ==>
          slots[i].port.value in used && used[slots[i].port.value] == Owner(slots[i]))
    && (forall p :: p in used ==> Named(slots, n, p))
  }

  ghost predicate Named(slots: seq<Slot>, n: nat, p: int)
    requires n <= |slots|
  {
    exists i :: 0 <= i < n && Claimant(slots[i], p)
  }

  predicate Free(used: Claims, available: int -> bool, p: int) {
    p !in used && available(p)
  }

  ghost predicate Labelled(used: Claims) {
    forall p :: p in used ==> used[p] != ""
  }

  /** The claim on `p`, if there is one, belongs to `owner`. */
  predicate MayClaim(used: Claims, p: int, owner: string) {
    p in used ==> used[p] == owner
  }

  predicate PairFree(used: Claims, available: int -> bool, p: int) {
    MayClaim(used, p, WEB_OWNER) && MayClaim(used, p + 1, DASHBOARD_OWNER) && available(p) && available(p + 1)
  }

  /** The slot has a valid port, and holds the claims that belong to it. */
  predicate Secured(used: Claims, available: int -> bool, slot: Slot) {
    && Configured(slot)
    && var p := slot.port.value;
       && p in used && used[p] == Owner(slot) && available(p)
       && (slot.Traefik? ==>
             p + 1 in used && used[p + 1] == DASHBOARD_OWNER && available(p + 1) && slot.address == p < MAX_PORT)
  }

  /** A reservation for `slot` neither drops nor overwrites a claim of another owner, and adds none for another. */
  ghost predicate OthersKept(used: Claims, used': Claims, slot: Slot) {
    && (forall p :: p in used && used[p] !in Owners(slot) ==> p in used' && used'[p] == used[p])
    && (forall p :: p in used' && used'[p] !in Owners(slot) ==> p in used && used'[p] == used[p])
  }

  /** The slot needs no move. */
  predicate Keeps(used: Claims, available: int -> bool, slot: Slot) {
    && Configured(slot)
    && var p := slot.port.value;
       if slot.Service? then MayClaim(used, p, slot.owner) && available(p)
       else slot.address == p < MAX_PORT && PairFree(used, available, p)
  }

  /** One reservation takes `slot` to `slot'`. */
  ghost predicate Reserved(used: Claims, used': Claims, available: int -> bool, slot: Slot, slot': Slot) {
    && Owner(slot') == Owner(slot) && (slot.Service? <==> slot'.Service?)
    && OthersKept(used, used', slot) && (forall p :: p in used' ==> p in used || p in Held(slot'))
    && (if slot.Service? && !Configured(slot) then slot' == slot && used' == used else Secured(used', available, slot'))
    && (Keeps(used, available, slot) ==> slot' == slot)
    && (Configured(slot) ==> Configured(slot') && slot.port.value <= slot'.port.value)
  }

  // ---- what a run of the second pass keeps ----

  /** `done` are the slots already served; `before` is the configuration of the first pass. */
  ghost predicate Serving(before: seq<Slot>, slots: seq<Slot>, used: Claims, available: int -> bool, done: set<int>) {
    && |slots| == |before|
    && (forall i :: 0 <= i < |slots| ==>
      Owner(slots[i]) == Owner(before[i]) && (slots[i].Service? <==> before[i].Service?))
    && (forall i :: 0 <= i < |slots| && i !in done ==>
          slots[i] == before[i]
          && (FirstClaimant(before, i) ==>
            before[i].port.value in used && used[before[i].port.value] == Owner(before[i])))
    && (forall i :: 0 <= i < |slots| && i in done ==> Served(before, slots, used, available, i))
  }

  ghost predicate Served(before: seq<Slot>, slots: seq<Slot>, used: Claims, available: int -> bool, i: int)
    requires 0 <= i < |slots| == |before|
  {
    && (if slots[i].Service? && !Configured(before[i]) then slots[i] == before[i]
        else Secured(used, available, slots[i]))
    && Moved(before, slots, available, i)
  }

  /** What the two passes may do to slot `i`: a service without a valid port stays as it is, and so
      does the first claimant of an available port; every other service moves up, if at all. */
  ghost predicate Moved(before: seq<Slot>, after: seq<Slot>, available: int -> bool, i: int)
    requires 0 <= i < |before| == |after|
  {
    && Owner(after[i]) == Owner(before[i]) && (after[i].Service? <==> before[i].Service?)
    && (before[i].Service? && !Configured(before[i]) ==> after[i] == before[i])
    && (before[i].Service? && FirstClaimant(before, i) && available(before[i].port.value) ==> after[i] == before[i])
    && (Configured(before[i]) ==> Configured(after[i]) && before[i].port.value <= after[i].port.value)
  }

  lemma ServingStep(before: seq<Slot>, slots: seq<Slot>, used: Claims, available: int -> bool, done: set<int>,
                    i: int, used': Claims, slot': Slot)
    requires WellLabelled(before) && Serving(before, slots, used, available, done)
    requires 0 <= i < |slots| && i !in done && Reserved(used, used', available, slots[i], slot')
    ensures Serving(before, slots[i := slot'], used', available, done + {i})
  {
    var slots' := slots[i := slot'];
    forall j | 0 <= j < |slots| && j != i
      ensures Owners(slots[j]) !! Owners(slots[i])
      ensures j !in done ==> FirstClaimant(before, j) ==>
        before[j].port.value in used' && used'[before[j].port.value] == Owner(before[j])
      ensures j in done ==> Served(before, slots', used', available, j)
    {
      OwnersDisjoint(before, slots, i, j);
    }
    assert Served(before, slots', used', available, i);
  }

  lemma OwnersDisjoint(before: seq<Slot>, slots: seq<Slot>, i: int, j: int)
    requires WellLabelled(before) && |slots| == |before| && 0 <= i < |slots| && 0 <= j < |slots| && i != j
    requires Owner(slots[i]) == Owner(before[i]) && (slots[i].Service? <==> before[i].Service?)
    requires Owner(slots[j]) == Owner(before[j]) && (slots[j].Service? <==> before[j].Service?)
    ensures Owners(slots[i]) !! Owners(slots[j]) && Owner(slots[j]) in Owners(slots[j])
  {
    assert Owners(slots[i]) == Owners(before[i]) && Owners(slots[j]) == Owners(before[j]);
    if i < j { assert Owners(before[i]) !! Owners(before[j]); } else { assert Owners(before[j]) !! Owners(before[i]); }
  }

  /** The owner of the claim on a held port tells the holder. */
  lemma HolderIs(used: Claims, available: int -> bool, slot: Slot, p: int)
    requires p in Held(slot) && Secured(used, available, slot)
    ensures p in used && used[p] in Owners(slot) && available(p)
  {
  }

  lemma ServingSettles(before: seq<Slot>, slots: seq<Slot>, used: Claims, available: int -> bool, done: set<int>)
    requires WellLabelled(before) && Serving(before, slots, used, available, done)
    requires forall i :: 0 <= i < |slots| ==> i in done
    ensures Settled(slots, available)
  {
    forall i, p | 0 <= i < |slots| && p in Held(slots[i])
      ensures p in used && used[p] in Owners(slots[i]) && available(p) {
      assert Served(before, slots, used, available, i);
      HolderIs(used, available, slots[i], p);
    }
    forall i, j, p | 0 <= i < |slots| && 0 <= j < |slots| && p in Held(slots[i]) && p in Held(slots[j]) ensures i == j {
      if i != j {
        OwnersDisjoint(before, slots, i, j);
      }
    }
    forall i | 0 <= i < |slots| && slots[i].Traefik?
      ensures Configured(slots[i]) && slots[i].address == slots[i].port.value < MAX_PORT
    {
      assert Served(before, slots, used, available, i);
    }
  }

  // ---- a settled configuration stays as it is ----

  lemma ClaimantHolds(slot: Slot, p: int)
    ensures Claimant(slot, p) ==> p in Held(slot)
  {
  }

  /** On a settled configuration every slot is the first claimant of its port. */
  lemma SettledAreFirst(slots: seq<Slot>, available: int -> bool, i: int)
    requires Settled(slots, available) && 0 <= i < |slots| && Configured(slots[i])
    ensures FirstClaimant(slots, i)
  {
    var p := slots[i].port.value;
    assert p in Held(slots[i]);
    forall j | 0 <= j < i ensures !Claimant(slots[j], p) {
      ClaimantHolds(slots[j], p);
    }
  }

  /** No configured slot names the dashboard port of a settled Traefik. */
  lemma DashboardUnnamed(slots: seq<Slot>, available: int -> bool, t: int, i: int)
    requires Settled(slots, available) && 0 <= t < |slots| && slots[t].Traefik? && 0 <= i < |slots|
    ensures !Claimant(slots[i], slots[t].port.value + 1)
  {
    var q := slots[t].port.value + 1;
    assert q in Held(slots[t]);
    ClaimantHolds(slots[i], q);
  }

  lemma DashboardUnseeded(slots: seq<Slot>, available: int -> bool, used: Claims, t: int)
    requires Settled(slots, available) && Seeds(used, slots, |slots|) && 0 <= t < |slots| && slots[t].Traefik?
    ensures slots[t].port.value + 1 !in used
  {
    var q := slots[t].port.value + 1;
    forall i | 0 <= i < |slots| ensures !Claimant(slots[i], q) {
      DashboardUnnamed(slots, available, t, i);
    }
    assert !Named(slots, |slots|, q);
  }

  /** While a settled configuration is served, nothing is claimed on the dashboard port. */
  ghost predicate Untouched(before: seq<Slot>, slots: seq<Slot>, used: Claims, available: int -> bool, done: set<int>) {
    Settled(before, available) ==>
      && slots == before
      && forall t :: 0 <= t < |slots| && t !in done && slots[t].Traefik? ==> slots[t].port.value + 1 !in used
  }

  lemma SettledKeeps(before: seq<Slot>, slots: seq<Slot>, used: Claims, available: int -> bool, done: set<int>, i: int)
    requires WellLabelled(before) && Serving(before, slots, used, available, done)
    requires Untouched(before, slots, used, available, done) && 0 <= i < |slots| && i !in done
    requires Settled(before, available) && Configured(before[i])
    ensures Keeps(used, available, slots[i])
  {
    SettledAreFirst(before, available, i);
    assert before[i].port.value in Held(before[i]);
    assert before[i].Traefik? ==> before[i].port.value + 1 in Held(before[i]);
  }

  lemma UntouchedStep(before: seq<Slot>, slots: seq<Slot>, used: Claims, available: int -> bool, done: set<int>,
                      i: int, used': Claims, slot': Slot)
    requires WellLabelled(before) && Serving(before, slots, used, available, done)
    requires Untouched(before, slots, used, available, done)
    requires 0 <= i < |slots| && i !in done && Reserved(used, used', available, slots[i], slot')
    ensures Untouched(before, slots[i := slot'], used', available, done + {i})
  {
    if Settled(before, available) {
      if Configured(before[i]) {
        SettledKeeps(before, slots, used, available, done, i);
      }
      assert slot' == slots[i];
      forall t | 0 <= t < |slots| && t !in done && t != i && slots[t].Traefik?
        ensures slots[t].port.value + 1 !in used'
      {
        OwnersDisjoint(before, slots, i, t);
        var q := slots[t].port.value + 1;
        assert q in Held(slots[t]) && q !in used;
        assert q !in Held(slots[i]);
      }
    }
  }

  /** `synchronize_traefik_web_port`: the port wins over the address if it is valid. */
  function Synchronized(slot: Slot): (r: Slot)
    requires slot.Traefik?
    ensures r.port == if slot.port.Some? && slot.port.value > 0 then slot.port else Some(slot.address)
    ensures r.Traefik? && r.port == Some(r.address)
  {
    var port := if Configured(slot) then slot.port.value else slot.address;
    Traefik(Some(port), port)
  }

  /** The claims without Traefik's own claim on `p`. */
  function WithoutWeb(used: Claims, p: int): Claims {
    if p in used && used[p] == WEB_OWNER then used - {p} else used
  }

  lemma PairUnaffected(used: Claims, available: int -> bool, desired: int, c: int)
    requires desired <= c
    ensures PairFree(WithoutWeb(used, desired), available, c) == PairFree(used, available, c)
  {
  }

  lemma PairReserved(used: Claims, available: int -> bool, slot: Slot, c: nat)
    requires slot.Traefik? && PairFree(used, available, c) && Synchronized(slot).address <= c < MAX_PORT && 0 < c
    requires forall d :: Synchronized(slot).address <= d < c ==> !PairFree(used, available, d)
    ensures Reserved(used, WithoutWeb(used, Synchronized(slot).address)[c := WEB_OWNER][c + 1 := DASHBOARD_OWNER],
                     available, slot, Traefik(Some(c), c))
  {
    var used' := WithoutWeb(used, Synchronized(slot).address)[c := WEB_OWNER][c + 1 := DASHBOARD_OWNER];
    assert OthersKept(used, used', slot);
    assert Secured(used', available, Traefik(Some(c), c));
    if Keeps(used, available, slot) {
      assert Synchronized(slot) == slot;
    }
  }

  // ---- the first pass ----

  lemma SeedStep(slots: seq<Slot>, k: nat, used: Claims)
    requires k < |slots| && Seeds(used, slots, k)
    ensures Seeds(if Configured(slots[k]) && slots[k].port.value !in used
                  then used[slots[k].port.value := Owner(slots[k])] else used, slots, k + 1)
  {
    forall p | p in used ensures Named(slots, k + 1, p) {
      var i :| 0 <= i < k && Claimant(slots[i], p);
    }
    if Configured(slots[k]) {
      var p := slots[k].port.value;
      assert Claimant(slots[k], p) && Named(slots, k + 1, p);
      assert p in used ==> Named(slots, k, p);
    }
  }

  ghost predicate IsOrder(order: seq<nat>, n: nat) {
    && (forall k :: 0 <= k < |order| ==> order[k] < n)
    && (forall k, l :: 0 <= k < l < |order| ==> order[k] != order[l])
    && (forall i :: 0 <= i < n ==> i in order)
  }

  /** The slots that the first `k` turns of the order visit. */
  ghost function Visited(order: seq<nat>, k: nat): set<int>
    requires k <= |order|
  {
    if k == 0 then {} else Visited(order, k - 1) + {order[k - 1]}
  }

  lemma {:induction false} VisitedIs(order: seq<nat>, k: nat, i: nat)
    requires k <= |order|
    ensures i in Visited(order, k) <==> i in order[..k]
  {
    if k == 0 {
    } else {
      VisitedIs(order, k - 1, i);
      assert order[..k] == order[..k - 1] + [order[k - 1]];
    }
  }

  lemma VisitedOnce(order: seq<nat>, n: nat, k: nat)
    requires IsOrder(order, n) && k < |order|
    ensures order[k] !in Visited(order, k)
  {
    VisitedIs(order, k, order[k]);
  }

  lemma VisitedAll(order: seq<nat>, n: nat)
    requires IsOrder(order, n)
    ensures forall i :: 0 <= i < n ==> i in Visited(order, |order|)
  {
    forall i | 0 <= i < n ensures i in Visited(order, |order|) {
      VisitedIs(order, |order|, i);
      assert order[..|order|] == order;
    }
  }

  /** What holds between two turns of the second pass. */
  ghost predicate Between(before: seq<Slot>, slots: seq<Slot>, used: Claims, available: int -> bool, done: set<int>) {
    Serving(before, slots, used, available, done) && Untouched(before, slots, used, available, done)
  }

  lemma BetweenStep(before: seq<Slot>, slots: seq<Slot>, used: Claims, available: int -> bool, done: set<int>,
                    i: int, used': Claims, slots': seq<Slot>)
    requires WellLabelled(before) && Between(before, slots, used, available, done)
    requires 0 <= i < |slots| == |slots'| && i !in done && slots' == slots[i := slots'[i]]
    requires Reserved(used, used', available, slots[i], slots'[i])
    ensures Between(before, slots', used', available, done + {i})
  {
    ServingStep(before, slots, used, available, done, i, used', slots'[i]);
    UntouchedStep(before, slots, used, available, done, i, used', slots'[i]);
  }

  lemma LabelStays(before: seq<Slot>, slots: seq<Slot>, i: nat)
    requires WellLabelled(before) && i < |slots| == |before| && Owner(slots[i]) == Owner(before[i])
    ensures Owner(slots[i]) != ""
  {
    assert Owner(before[i]) in Owners(before[i]);
  }

  lemma ChangedStep(before: seq<Slot>, slots: seq<Slot>, used: Claims, available: int -> bool, done: set<int>,
                    i: nat, slots': seq<Slot>)
    requires Between(before, slots, used, available, done) && i !in done
    requires i < |slots| == |slots'| && slots' == slots[i := slots'[i]]
    ensures slots' != before <==> slots != before || slots' != slots
  {
    assert slots[i] == before[i];
    if slots != before {
      var j :| 0 <= j < |slots| && slots[j] != before[j];
      assert slots'[j] != before[j];
    }
  }

  lemma BetweenStart(slots: seq<Slot>, used: Claims, available: int -> bool)
    requires Seeds(used, slots, |slots|)
    ensures Between(slots, slots, used, available, {})
  {
    forall t | 0 <= t < |slots| && slots[t].Traefik? && Settled(slots, available)
      ensures slots[t].port.value + 1 !in used
    {
      DashboardUnseeded(slots, available, used, t);
    }
  }

  /** What the two passes together make of a configuration. */
  ghost predicate Allocated(before: seq<Slot>, slots: seq<Slot>, available: int -> bool) {
    && Settled(slots, available) && |slots| == |before|
    && (forall i :: 0 <= i < |slots| ==> Moved(before, slots, available, i))
    && (Settled(before, available) ==> slots == before)
  }

  lemma PassEnds(before: seq<Slot>, slots: seq<Slot>, used: Claims, available: int -> bool, order: seq<nat>)
    requires WellLabelled(before) && IsOrder(order, |before|)
    requires Between(before, slots, used, available, Visited(order, |order|))
    ensures Allocated(before, slots, available)
  {
    VisitedAll(order, |slots|);
    ServingSettles(before, slots, used, available, Visited(order, |order|));
    forall i | 0 <= i < |slots| ensures Moved(before, slots, available, i) {
      assert Served(before, slots, used, available, i);
    }
  }

  lemma MovedWellLabelled(before: seq<Slot>, slots: seq<Slot>, available: int -> bool)
    requires WellLabelled(before) && Allocated(before, slots, available)
    ensures WellLabelled(slots)
  {
    forall i | 0 <= i < |slots| ensures Owners(slots[i]) == Owners(before[i]) {
      assert Moved(before, slots, available, i);
    }
  }

  // ---- the passes ----

  class PortAllocator {
    /** `is_port_available`: no port outside the valid range is available. */
    const probe: int -> bool
    var usedPorts: Claims
    var slots: seq<Slot>

    constructor (probe: int -> bool, slots: seq<Slot>)
      ensures this.probe == probe && this.slots == slots && usedPorts == map[]
    {
      this.probe, this.slots, usedPorts := probe, slots, map[];
    }

    predicate Available(p: int) {
      0 < p <= MAX_PORT && probe(p)
    }

    /** The least free port from `start` on; without one the search never ends. */
    method FindFreePort(start: int) returns (r: Result<int, Error>)
      ensures r.Ok? ==> start <= r.value && Free(usedPorts, Available, r.value)
                        && forall p :: start <= p < r.value ==> !Free(usedPorts, Available, p)
      ensures r.Err? ==> r.error.SearchNeverEnds? && forall p :: start <= p ==> !Free(usedPorts, Available, p)
    {
      var port := start;
      while port in usedPorts || !Available(port)
        invariant start <= port && forall p :: start <= p < port ==> !Free(usedPorts, Available, p)
        decreases MAX_PORT - port
      {
        if port > MAX_PORT {
          return Err(SearchNeverEnds);
        }
        port := port + 1;
      }
      return Ok(port);
    }

    /** A valid port stays if nobody else claims it and it is available; otherwise the
        owner gets the least free port above it. */
    method ReservePort(desired: Option<int>, owner: string) returns (r: Result<(Option<int>, bool), Error>)
      requires owner != "" && Labelled(usedPorts)
      modifies `usedPorts
      ensures desired.None? || desired.value <= 0 ==> r == Ok((None, false)) && usedPorts == old(usedPorts)
      ensures r.Ok? && desired.Some? && desired.value > 0 ==>
        && r.value.0.Some? && var port := r.value.0.value;
        && usedPorts == old(usedPorts)[port := owner]
        && (r.value.1 <==> port != desired.value)
        && (if MayClaim(old(usedPorts), desired.value, owner) && Available(desired.value) then port == desired.value
            else desired.value < port && Free(old(usedPorts), Available, port)
                 && forall p :: desired.value < p < port ==> !Free(old(usedPorts), Available, p))
      ensures r.Err? ==>
        && r.error.SearchNeverEnds? && desired.Some? && usedPorts == old(usedPorts)
        && !(MayClaim(usedPorts, desired.value, owner) && Available(desired.value))
        && forall p :: desired.value < p ==> !Free(usedPorts, Available, p)
    {
      if desired.None? || desired.value <= 0 {
        return Ok((None, false));
      }
      if desired.value in usedPorts && usedPorts[desired.value] != "" && usedPorts[desired.value] != owner {
        var found := FindFreePort(desired.value + 1);
        if found.Err? {
          return Err(found.error);
        }
        usedPorts := usedPorts[found.value := owner];
        return Ok((Some(found.value), true));
      }
      if !Available(desired.value) {
        var found := FindFreePort(desired.value + 1);
        if found.Err? {
          return Err(found.error);
        }
        usedPorts := usedPorts[found.value := owner];
        return Ok((Some(found.value), true));
      }
      usedPorts := usedPorts[desired.value := owner];
      return Ok((desired, false));
    }

    /** Reserves the port of the ordinary service `slots[i]`. */
    method ReserveConfigPort(i: nat) returns (r: Result<bool, Error>)
      requires i < |slots| && slots[i].Service? && slots[i].owner != "" && Labelled(usedPorts)
      modifies this
      ensures r.Ok? ==>
        r.value == (slots != old(slots)) && |slots| == |old(slots)| && slots == old(slots)[i := slots[i]]
                        && Reserved(old(usedPorts), usedPorts, Available, old(slots)[i], slots[i])
      ensures r.Ok? && Configured(old(slots)[i]) && !Keeps(old(usedPorts), Available, old(slots)[i]) ==>
        && Free(old(usedPorts), Available, slots[i].port.value)
        && forall p :: old(slots)[i].port.value < p < slots[i].port.value ==> !Free(old(usedPorts), Available, p)
      ensures r.Err? ==>
        r.error.SearchNeverEnds? && Configured(old(slots)[i]) && !Keeps(old(usedPorts), Available, old(slots)[i])
    {
      var slot := slots[i];
      var reserved := ReservePort(slot.port, slot.owner);
      if reserved.Err? {
        return Err(reserved.error);
      }
      var (chosen, changed) := reserved.value;
      if chosen.None? {
        assert slots == slots[i := slots[i]];
        return Ok(false);
      }
      if slot.port != chosen {
        slots := slots[i := Service(slot.owner, chosen)];
        return Ok(true);
      }
      assert slots == slots[i := slots[i]];
      return Ok(changed);
    }

    /** Moves Traefik's web and dashboard ports together to the first free pair. */
    method ReserveTraefikPorts(i: nat) returns (r: Result<bool, Error>)
      requires i < |slots| && slots[i].Traefik?
      modifies this
      ensures r.Ok? ==>
        r.value == (slots != old(slots)) && |slots| == |old(slots)| && slots == old(slots)[i := slots[i]]
                        && Reserved(old(usedPorts), usedPorts, Available, old(slots)[i], slots[i])
      ensures r.Ok? ==>
        && slots[i].Traefik? && slots[i].port == Some(slots[i].address)
        && var web := old(slots)[i];
           var start := if web.port.Some? && web.port.value > 0 then web.port.value else web.address;
           && start <= slots[i].address < MAX_PORT
           && (forall c :: start <= c < slots[i].address ==> !PairFree(old(usedPorts), Available, c))
           // a claim of its own that it does not keep is given up
           && (start < slots[i].address && start in old(usedPorts) && old(usedPorts)[start] == WEB_OWNER ==>
                 start !in usedPorts)
      ensures r.Err? ==> !Keeps(old(usedPorts), Available, old(slots)[i])
      ensures r.Err? ==>
        && r.error.NoTraefikPair?
        && var web := old(slots)[i];
           var start := if web.port.Some? && web.port.value > 0 then web.port.value else web.address;
           forall c :: start <= c < MAX_PORT ==> !PairFree(old(usedPorts), Available, c)
    {
      ghost var original := slots[i];
      var slot := Synchronized(slots[i]);
      var desired := slot.address;
      var changed := slot != slots[i];
      slots := slots[i := slot];
      usedPorts := WithoutWeb(usedPorts, desired);
      var candidate := desired;
      while candidate < MAX_PORT && !PairFree(usedPorts, Available, candidate)
        invariant desired <= candidate
        invariant usedPorts == WithoutWeb(old(usedPorts), desired) && slots == old(slots)[i := slot]
        invariant forall c :: desired <= c < candidate && c < MAX_PORT ==> !PairFree(old(usedPorts), Available, c)
      {
        PairUnaffected(old(usedPorts), Available, desired, candidate);
        candidate := candidate + 1;
      }
      if candidate >= MAX_PORT {
        return Err(NoTraefikPair);
      }
      PairUnaffected(old(usedPorts), Available, desired, candidate);
      PairReserved(old(usedPorts), Available, original, candidate);
      if candidate != desired {
        slots := slots[i := Synchronized(Traefik(Some(candidate), slot.address))];
      }
      usedPorts := usedPorts[candidate := WEB_OWNER][candidate + 1 := DASHBOARD_OWNER];
      assert slots == old(slots)[i := Traefik(Some(candidate), candidate)];
      return Ok(changed || candidate != desired);
    }

    method ReserveSlot(i: nat) returns (r: Result<bool, Error>)
      requires i < |slots| && Owner(slots[i]) != "" && Labelled(usedPorts)
      modifies this
      ensures r.Ok? ==>
        r.value == (slots != old(slots)) && |slots| == |old(slots)| && slots == old(slots)[i := slots[i]]
                        && Reserved(old(usedPorts), usedPorts, Available, old(slots)[i], slots[i])
      ensures r.Err? ==>
        (old(slots)[i].Service? ==> Configured(old(slots)[i])) && !Keeps(old(usedPorts), Available, old(slots)[i])
    {
      if slots[i].Traefik? {
        r := ReserveTraefikPorts(i);
      } else {
        r := ReserveConfigPort(i);
      }
    }

    /** The first pass: a port that is already claimed keeps its first owner. */
    method SeedUsedPorts()
      requires WellLabelled(slots) && usedPorts == map[]
      modifies `usedPorts
      ensures Seeds(usedPorts, slots, |slots|) && Labelled(usedPorts)
    {
      for k := 0 to |slots|
        invariant Seeds(usedPorts, slots, k) && Labelled(usedPorts)
      {
        SeedStep(slots, k, usedPorts);
        if Configured(slots[k]) && slots[k].port.value !in usedPorts {
          usedPorts := usedPorts[slots[k].port.value := Owner(slots[k])];
        }
      }
    }

    /**
     Both passes.  `order` is the order in which the second pass visits the slots: the
     two built-in services come first there, wherever the configuration holds them.
     */
    method ApplyGlobalPortReservations(order: seq<nat>) returns (r: Result<bool, Error>)
      requires WellLabelled(slots) && IsOrder(order, |slots|)
      modifies this
      ensures r.Ok? ==> Allocated(old(slots), slots, Available) && (r.value <==> slots != old(slots))
      ensures Settled(old(slots), Available) ==> r == Ok(false)
    {
      ghost var before := slots;
      usedPorts := map[];
      SeedUsedPorts();
      BetweenStart(slots, usedPorts, Available);
      r := ReservePass(order);
      if r.Ok? {
        PassEnds(before, slots, usedPorts, Available, order);
      }
    }

    /** One turn of the second pass. */
    method ReserveTurn(i: nat, ghost before: seq<Slot>, ghost done: set<int>) returns (r: Result<bool, Error>)
      requires WellLabelled(before) && Between(before, slots, usedPorts, Available, done) && Labelled(usedPorts)
      requires i < |slots| && i !in done
      modifies this
      ensures r.Ok? ==> Between(before, slots, usedPorts, Available, done + {i}) && Labelled(usedPorts)
      ensures r.Ok? ==> (slots != before <==> old(slots) != before || r.value)
      ensures Settled(before, Available) ==> r == Ok(false)
    {
      LabelStays(before, slots, i);
      ghost var used, was := usedPorts, slots;
      if Settled(before, Available) && Configured(before[i]) {
        SettledKeeps(before, slots, usedPorts, Available, done, i);
      }
      r := ReserveSlot(i);
      if r.Ok? {
        BetweenStep(before, was, used, Available, done, i, usedPorts, slots);
        ChangedStep(before, was, used, Available, done, i, slots);
      }
    }

    /** The second pass. */
    method ReservePass(order: seq<nat>) returns (r: Result<bool, Error>)
      requires WellLabelled(slots) && IsOrder(order, |slots|) && Labelled(usedPorts)
      requires Between(slots, slots, usedPorts, Available, {})
      modifies this
      ensures r.Ok? ==> Between(old(slots), slots, usedPorts, Available, Visited(order, |order|))
                        && (r.value <==> slots != old(slots))
      ensures Settled(old(slots), Available) ==> r == Ok(false)
    {
      ghost var before := slots;
      var changed := false;
      for k := 0 to |order|
        invariant Labelled(usedPorts) && |slots| == |before|
        invariant Between(before, slots, usedPorts, Available, Visited(order, k))
        invariant changed == (slots != before)
      {
        VisitedOnce(order, |slots|, k);
        var reserved := ReserveTurn(order[k], before, Visited(order, k));
        if reserved.Err? {
          return Err(reserved.error);
        }
        changed := changed || reserved.value;
      }
      return Ok(changed);
    }

    /** A second start with the same availability finds nothing to change. */
    method StartTwice(order: seq<nat>) returns (first: Result<bool, Error>, second: Result<bool, Error>)
      requires WellLabelled(slots) && IsOrder(order, |slots|)
      modifies this
      ensures first.Ok? ==> second == Ok(false) && Allocated(old(slots), slots, Available)
    {
      first := ApplyGlobalPortReservations(order);
      second := first;
      if first.Ok? {
        MovedWellLabelled(old(slots), slots, Available);
        second := ApplyGlobalPortReservations(order);
      }
    }
  }
}
