/** The engine's registry of discovered peers, its stored trust levels and the events it emits. */
module Engine {
  import opened Types

  datatype TrustLevel = Unknown | Trusted | Favorite | Blocked

  datatype Platform = Android | MacOS | Linux | Windows | UnknownPlatform

  datatype Presence = Idle | Available | Receiving | Busy | Invisible

  datatype Source = Ble | Mdns | Both

  type Address = nat

  datatype Peer = Peer(deviceId: string, name: string, fingerprint: Option<string>, platform: Platform,
                       presence: Presence, trust: TrustLevel, addr: Option<Address>, rssi: Option<int>,
                       battery: Option<nat>, discovery: Source) {
    predicate IsVisible() {
      !trust.Blocked? && !presence.Invisible?
    }
  }

  // ----- Building peers -----

  function HexDigit(d: nat): char
    requires d < 16
  {
    "0123456789abcdef"[d]
  }

  function Hex(bytes: seq<Byte>): (s: string)
    ensures |s| == 2 * |bytes|
  {
    if bytes == [] then "" else [HexDigit(bytes[0] / 16), HexDigit(bytes[0] % 16)] + Hex(bytes[1..])
  }

  const PLACEHOLDER: string := "Device-"

  predicate IsPlaceholder(name: string) {
    PLACEHOLDER <= name
  }

  /** Whatever begins like a made-up name counts as one. */
  lemma PlaceholderIff(name: string)
    ensures IsPlaceholder(name) <==> exists rest: string :: name == "Device-" + rest
  {
    if IsPlaceholder(name) {
      assert name == "Device-" + name[7..];
    }
  }

  const DEVICE_ID_LENGTH: nat := 16

  function DeviceIdOf(fingerprint: string): string {
    if |fingerprint| <= DEVICE_ID_LENGTH then fingerprint else fingerprint[..DEVICE_ID_LENGTH]
  }

  function FromBle(deviceId: seq<Byte>, nameHash: (Byte, Byte), presence: Presence, rssi: int): Peer
    requires |deviceId| == 8
  {
    Peer(Hex(deviceId), PLACEHOLDER + Hex([nameHash.0, nameHash.1]), None, UnknownPlatform, presence, Unknown, None,
         Some(rssi), None, Ble)
  }

  function FromMdns(name: string, addr: Address, fingerprint: string, platform: Platform): Peer {
    Peer(DeviceIdOf(fingerprint), name, Some(fingerprint), platform, Available, Unknown, Some(addr), None, None, Mdns)
  }

  /** What both constructors guarantee: a peer with a fingerprint is filed under its leading characters. */
  predicate WellFiled(p: Peer) {
    p.fingerprint.Some? ==> p.deviceId == DeviceIdOf(p.fingerprint.value)
  }

  lemma ConstructorsFileWell(id: seq<Byte>, hash: (Byte, Byte), presence: Presence, rssi: int,
                             name: string, addr: Address, fingerprint: string, platform: Platform)
    requires |id| == 8
    ensures WellFiled(FromBle(id, hash, presence, rssi)) && IsPlaceholder(FromBle(id, hash, presence, rssi).name)
    ensures WellFiled(FromMdns(name, addr, fingerprint, platform))
  {
  }

  // ----- Operations on values -----

  datatype Event =
    | Started
    | PeerDiscovered(peer: Peer)
    | PeerUpdated(peer: Peer)
    | PeerLost(deviceId: string)

  datatype Registry = Registry(peers: map<string, Peer>, db: map<string, TrustLevel>, events: seq<Event>)

  function GetTrust(db: map<string, TrustLevel>, fingerprint: string): TrustLevel {
    if fingerprint in db then db[fingerprint] else Unknown
  }

  /** A sighting merged into what is known: gaps are filled from the old entry, a placeholder does not
      replace a real name. */
  function Merge(seen: Peer, known: Peer): Peer {
    seen.(fingerprint := if seen.fingerprint.None? then known.fingerprint else seen.fingerprint,
          addr := if seen.addr.None? then known.addr else seen.addr,
          name := if IsPlaceholder(seen.name) && !IsPlaceholder(known.name) then known.name else seen.name)
  }

  function Discover(r: Registry, sighting: Peer): Registry {
    var trust := if sighting.fingerprint.Some? then GetTrust(r.db, sighting.fingerprint.value) else sighting.trust;
    var peer := sighting.(trust := trust);
    if sighting.fingerprint.Some? && trust.Blocked? then r
    else if peer.deviceId in r.peers then
      r.(peers := r.peers[peer.deviceId := Merge(peer, r.peers[peer.deviceId])],
         events := r.events + [PeerUpdated(peer)])
    else
      r.(peers := r.peers[peer.deviceId := peer], events := r.events + [PeerDiscovered(peer)])
  }

  function Lose(r: Registry, deviceId: string): Registry {
    if deviceId in r.peers then r.(peers := r.peers - {deviceId}, events := r.events + [PeerLost(deviceId)]) else r
  }

  predicate Carries(r: Registry, deviceId: string, fingerprint: string) {
    deviceId in r.peers && r.peers[deviceId].fingerprint == Some(fingerprint)
  }

  /** Setting trust stores it; blocking also drops one entry that carries the fingerprint, whichever the
      hash map yields first. */
  ghost predicate SetTrust(r: Registry, fingerprint: string, level: TrustLevel, r2: Registry) {
    var stored := r.(db := r.db[fingerprint := level]);
    if level.Blocked? && exists id :: Carries(r, id, fingerprint) then
      exists id :: Carries(r, id, fingerprint) && r2 == Lose(stored, id)
    else r2 == stored
  }

  // ----- The engine object -----

  class Engine {
    var peers: map<string, Peer>
    var db: map<string, TrustLevel>
    var events: seq<Event>

    ghost function Model(): Registry
      reads this
    {
      Registry(peers, db, events)
    }

    constructor (db: map<string, TrustLevel>)
      ensures Model() == Registry(map[], db, [Started])
    {
      this.db := db;
      peers, events := map[], [Started];
    }

    method OnPeerDiscovered(sighting: Peer)
      modifies this
      ensures Model() == Discover(old(Model()), sighting)
    {
      var peer := sighting;
      if peer.fingerprint.Some? {
        var trust := GetTrust(db, peer.fingerprint.value);
        peer := peer.(trust := trust);
        if trust.Blocked? {
          return;
        }
      }
      var isNew := peer.deviceId !in peers;
      if !isNew {
        var known := peers[peer.deviceId];
        var updated := peer;
        if updated.fingerprint.None? {
          updated := updated.(fingerprint := known.fingerprint);
        }
        if updated.addr.None? {
          updated := updated.(addr := known.addr);
        }
        if IsPlaceholder(updated.name) && !IsPlaceholder(known.name) {
          updated := updated.(name := known.name);
        }
        peers := peers[peer.deviceId := updated];
      } else {
        peers := peers[peer.deviceId := peer];
      }
      events := events + [if isNew then PeerDiscovered(peer) else PeerUpdated(peer)];
    }

    method OnPeerLost(deviceId: string)
      modifies this
      ensures Model() == Lose(old(Model()), deviceId)
    {
      if deviceId in peers {
        peers := peers - {deviceId};
        events := events + [PeerLost(deviceId)];
      }
    }

    method SetPeerTrust(fingerprint: string, level: TrustLevel)
      modifies this
      ensures SetTrust(old(Model()), fingerprint, level, Model())
    {
      db := db[fingerprint := level];
      if level.Blocked? {
        if exists id :: id in peers && peers[id].fingerprint == Some(fingerprint) {
          var id :| id in peers && peers[id].fingerprint == Some(fingerprint);
          assert Carries(old(Model()), id, fingerprint);
          OnPeerLost(id);
        } else {
          assert forall id :: !Carries(old(Model()), id, fingerprint);
        }
      }
    }

    method VisiblePeers() returns (visible: set<Peer>)
      ensures forall p :: p in visible <==> p in peers.Values && p.IsVisible()
    {
      visible := set p | p in peers.Values && p.IsVisible();
    }
  }

  // ----- Runs -----

  datatype Op =
    | DiscoverOp(peer: Peer)
    | LoseOp(deviceId: string)
    | SetTrustOp(fingerprint: string, level: TrustLevel)

  ghost predicate Step(r: Registry, op: Op, r2: Registry) {
    match op
    case DiscoverOp(peer) => r2 == Discover(r, peer)
    case LoseOp(id) => r2 == Lose(r, id)
    case SetTrustOp(fingerprint, level) => SetTrust(r, fingerprint, level, r2)
  }

  ghost predicate StepAt(rs: seq<Registry>, ops: seq<Op>, i: nat)
    requires i < |ops| < |rs|
  {
    Step(rs[i], ops[i], rs[i + 1])
  }

  ghost predicate Run(rs: seq<Registry>, ops: seq<Op>) {
    && |rs| == |ops| + 1
    && rs[0].peers == map[] && rs[0].events == [Started]
    && forall i | 0 <= i < |ops| :: StepAt(rs, ops, i)
  }

  // ----- Events replay to the registry -----

  /** A listener's set of present devices. */
  function Replay(events: seq<Event>): set<string> {
    if events == [] then {} else Heard(Replay(events[..|events| - 1]), events[|events| - 1])
  }

  function Heard(present: set<string>, e: Event): set<string> {
    match e
    case PeerDiscovered(p) => present + {p.deviceId}
    case PeerLost(id) => present - {id}
    case _ => present
  }

  /** An event that makes sense to a listener that knows the present devices. */
  predicate Announces(present: set<string>, e: Event) {
    match e
    case Started => true
    case PeerDiscovered(p) => p.deviceId !in present
    case PeerUpdated(p) => p.deviceId in present
    case PeerLost(id) => id in present
  }

  predicate Consistent(events: seq<Event>) {
    forall i | 0 <= i < |events| :: Announces(Replay(events[..i]), events[i])
  }

  predicate Mirrors(r: Registry) {
    Replay(r.events) == r.peers.Keys && Consistent(r.events)
  }

  lemma ReplayAppend(events: seq<Event>, e: Event)
    requires Consistent(events) && Announces(Replay(events), e)
    ensures Consistent(events + [e])
    ensures Replay(events + [e]) == Heard(Replay(events), e)
  {
    var all := events + [e];
    assert all[..|events|] == events;
    forall i | 0 <= i < |all| ensures Announces(Replay(all[..i]), all[i]) {
      if i < |events| { assert all[..i] == events[..i]; }
    }
  }

  lemma LoseMirrors(r: Registry, id: string)
    requires Mirrors(r)
    ensures Mirrors(Lose(r, id))
  {
    if id in r.peers {
      ReplayAppend(r.events, PeerLost(id));
    }
  }

  lemma DiscoverMirrors(r: Registry, sighting: Peer)
    requires Mirrors(r)
    ensures Mirrors(Discover(r, sighting))
  {
    hide Replay, Consistent, Merge;
    var r2 := Discover(r, sighting);
    if r2 != r {
      var e := r2.events[|r.events|];
      assert r2.events == r.events + [e] && Announces(r.peers.Keys, e);
      ReplayAppend(r.events, e);
      assert r2.peers.Keys == Heard(r.peers.Keys, e);
    }
  }

  /** In every run, whatever peers are reported: a listener that folds Discovered and Lost holds exactly the
      registry's keys, a device is discovered only when absent and updated or lost only when present. */
  lemma {:induction false} EventsReplayToRegistry(rs: seq<Registry>, ops: seq<Op>, i: nat)
    requires Run(rs, ops) && i < |rs|
    ensures Replay(rs[i].events) == rs[i].peers.Keys
    ensures Consistent(rs[i].events)
  {
    if i == 0 {
      assert [Started][..0] == [];
    } else {
      EventsReplayToRegistry(rs, ops, i - 1);
      var r, op := rs[i - 1], ops[i - 1];
      assert StepAt(rs, ops, i - 1);
      match op
      case DiscoverOp(peer) => DiscoverMirrors(r, peer);
      case LoseOp(id) => LoseMirrors(r, id);
      case SetTrustOp(fingerprint, level) =>
        var stored := r.(db := r.db[fingerprint := level]);
        forall id ensures Mirrors(Lose(stored, id)) { LoseMirrors(stored, id); }
    }
  }

  // ----- Blocking -----

  /** Every entry is filed under its own id and its fingerprint's, and none carries a blocked fingerprint. */
  predicate NoneBlocked(r: Registry) {
    forall id | id in r.peers ::
      && r.peers[id].deviceId == id
      && WellFiled(r.peers[id])
      && (r.peers[id].fingerprint.Some? ==> !GetTrust(r.db, r.peers[id].fingerprint.value).Blocked?)
  }

  lemma OneEntryPerFingerprint(r: Registry, fingerprint: string, id: string)
    requires NoneBlocked(r) && Carries(r, id, fingerprint)
    ensures id == DeviceIdOf(fingerprint)
  {
    assert r.peers[id].deviceId == id && WellFiled(r.peers[id]);
  }

  lemma BlockingDropsCarrier(r: Registry, fingerprint: string, r2: Registry, id: string)
    requires NoneBlocked(r) && SetTrust(r, fingerprint, Blocked, r2)
    ensures !Carries(r2, id, fingerprint)
  {
    if Carries(r, id, fingerprint) {
      var gone :| Carries(r, gone, fingerprint) && r2 == Lose(r.(db := r.db[fingerprint := Blocked]), gone);
      OneEntryPerFingerprint(r, fingerprint, gone);
      OneEntryPerFingerprint(r, fingerprint, id);
    }
  }

  lemma SetTrustKeepsNoneBlocked(r: Registry, fingerprint: string, level: TrustLevel, r2: Registry)
    requires NoneBlocked(r) && SetTrust(r, fingerprint, level, r2)
    ensures NoneBlocked(r2)
  {
    forall id | id in r2.peers
      ensures r2.peers[id].deviceId == id && WellFiled(r2.peers[id])
      ensures r2.peers[id].fingerprint.Some? ==> !GetTrust(r2.db, r2.peers[id].fingerprint.value).Blocked?
    {
      assert id in r.peers && r2.peers[id] == r.peers[id];
      if level.Blocked? {
        BlockingDropsCarrier(r, fingerprint, r2, id);
      }
    }
  }

  lemma DiscoverKeepsNoneBlocked(r: Registry, peer: Peer)
    requires NoneBlocked(r) && WellFiled(peer)
    ensures NoneBlocked(Discover(r, peer))
  {
    hide IsPlaceholder;
  }

  lemma LoseKeepsNoneBlocked(r: Registry, id: string)
    requires NoneBlocked(r)
    ensures NoneBlocked(Lose(r, id))
  {
    hide WellFiled;
  }

  /** Blocking is honoured: in every run over peers from the two constructors, with trust changed only
      through the engine, no entry of the registry carries a fingerprint whose stored trust is Blocked. */
  lemma {:induction false} BlockedNeverListed(rs: seq<Registry>, ops: seq<Op>, i: nat)
    requires Run(rs, ops) && i < |rs|
    requires forall op | op in ops && op.DiscoverOp? :: WellFiled(op.peer)
    ensures NoneBlocked(rs[i])
  {
    if i > 0 {
      BlockedNeverListed(rs, ops, i - 1);
      assert StepAt(rs, ops, i - 1) && ops[i - 1] in ops;
      hide Run, NoneBlocked, Discover, WellFiled;
      match ops[i - 1]
      case DiscoverOp(peer) =>
        DiscoverKeepsNoneBlocked(rs[i - 1], peer);
      case LoseOp(id) =>
        LoseKeepsNoneBlocked(rs[i - 1], id);
      case SetTrustOp(fingerprint, level) =>
        SetTrustKeepsNoneBlocked(rs[i - 1], fingerprint, level, rs[i]);
    }
  }

  // ----- What one step does to one entry -----

  /** The `k`-th operation is a sighting of the device that is not ignored. */
  predicate Sighted(rs: seq<Registry>, ops: seq<Op>, k: nat, id: string)
    requires k < |ops| < |rs|
  {
    && ops[k].DiscoverOp? && ops[k].peer.deviceId == id
    && (ops[k].peer.fingerprint.Some? ==> !GetTrust(rs[k].db, ops[k].peer.fingerprint.value).Blocked?)
  }

  /** The trust a sighting brings: the stored one for its fingerprint, its own if it has none. */
  function BroughtTrust(r: Registry, peer: Peer): TrustLevel {
    if peer.fingerprint.Some? then GetTrust(r.db, peer.fingerprint.value) else peer.trust
  }

  /** The `k`-th operation removes the device's entry if there is one. */
  predicate Dropped(rs: seq<Registry>, ops: seq<Op>, k: nat, id: string)
    requires k < |ops| < |rs|
  {
    || ops[k] == LoseOp(id)
    || (ops[k].SetTrustOp? && ops[k].level.Blocked? && Carries(rs[k], id, ops[k].fingerprint))
  }

  lemma SightingEffect(rs: seq<Registry>, ops: seq<Op>, k: nat, id: string)
    requires Run(rs, ops) && k < |ops| && Sighted(rs, ops, k, id)
    ensures id in rs[k + 1].peers
    ensures var entry, peer := rs[k + 1].peers[id], ops[k].peer;
            && entry.presence == peer.presence && entry.trust == BroughtTrust(rs[k], peer)
            && entry.fingerprint == (if peer.fingerprint.Some? then peer.fingerprint
                                     else if id in rs[k].peers then rs[k].peers[id].fingerprint else None)
  {
    hide IsPlaceholder;
    assert StepAt(rs, ops, k);
  }

  /** Without a sighting an entry stays as it is or goes. */
  lemma NoSightingEffect(rs: seq<Registry>, ops: seq<Op>, k: nat, id: string)
    requires Run(rs, ops) && k < |ops| && !Sighted(rs, ops, k, id)
    ensures id in rs[k + 1].peers ==> id in rs[k].peers && rs[k + 1].peers[id] == rs[k].peers[id]
  {
    hide Merge;
    assert StepAt(rs, ops, k);
  }

  /** With one entry per fingerprint, exactly these operations remove it. */
  lemma DropEffect(rs: seq<Registry>, ops: seq<Op>, k: nat, id: string)
    requires Run(rs, ops) && k < |ops| && !Sighted(rs, ops, k, id) && NoneBlocked(rs[k])
    ensures id in rs[k + 1].peers <==> id in rs[k].peers && !Dropped(rs, ops, k, id)
  {
    hide Merge;
    assert StepAt(rs, ops, k);
    if ops[k].SetTrustOp? && ops[k].level.Blocked? {
      var fingerprint := ops[k].fingerprint;
      BlockingDropsCarrier(rs[k], fingerprint, rs[k + 1], id);
      if !Carries(rs[k], id, fingerprint) && exists other :: Carries(rs[k], other, fingerprint) {
        assert id in rs[k].peers ==> id in rs[k + 1].peers;
      }
    }
  }

  // ----- Blocked devices that are listed again -----

  /** The `j`-th operation is a sighting that shows the device, and none that sights or removes it follows
      before the `i`-th registry. */
  predicate ShownBy(rs: seq<Registry>, ops: seq<Op>, j: nat, i: nat, id: string)
    requires j < i <= |ops| < |rs|
  {
    && Sighted(rs, ops, j, id)
    && !ops[j].peer.presence.Invisible? && !BroughtTrust(rs[j], ops[j].peer).Blocked?
    && Unchanged(rs, ops, j, i, id)
  }

  predicate Unchanged(rs: seq<Registry>, ops: seq<Op>, j: nat, i: nat, id: string)
    requires j < i <= |ops| < |rs|
  {
    forall k | j < k < i :: !Sighted(rs, ops, k, id) && !Dropped(rs, ops, k, id)
  }

  predicate VisibleAt(r: Registry, id: string) {
    id in r.peers && r.peers[id].IsVisible()
  }

  predicate AllWellFiled(ops: seq<Op>) {
    forall op | op in ops && op.DiscoverOp? :: WellFiled(op.peer)
  }

  /** What is registered is what the last sighting brought. */
  lemma {:induction false} EntryStays(rs: seq<Registry>, ops: seq<Op>, j: nat, i: nat, id: string)
    requires Run(rs, ops) && AllWellFiled(ops) && j < i <= |ops|
    requires Sighted(rs, ops, j, id) && Unchanged(rs, ops, j, i, id)
    ensures id in rs[i].peers
    ensures var entry, peer := rs[i].peers[id], ops[j].peer;
            && entry.presence == peer.presence && entry.trust == BroughtTrust(rs[j], peer)
            && (peer.fingerprint.Some? ==> entry.fingerprint == peer.fingerprint)
    decreases i
  {
    assert |rs| == |ops| + 1;
    hide Run, NoneBlocked, Carries;
    if i == j + 1 {
      SightingEffect(rs, ops, j, id);
    } else {
      EntryStays(rs, ops, j, i - 1, id);
      BlockedNeverListed(rs, ops, i - 1);
      NoSightingEffect(rs, ops, i - 1, id);
      DropEffect(rs, ops, i - 1, id);
    }
  }

  lemma {:induction false} EntryCameFrom(rs: seq<Registry>, ops: seq<Op>, i: nat, id: string) returns (j: nat)
    requires Run(rs, ops) && AllWellFiled(ops) && i <= |ops| && id in rs[i].peers
    ensures j < i && Sighted(rs, ops, j, id) && Unchanged(rs, ops, j, i, id)
  {
    assert rs[0].peers == map[] && |rs| == |ops| + 1;
    hide Run, NoneBlocked, Carries;
    if Sighted(rs, ops, i - 1, id) {
      j := i - 1;
    } else {
      BlockedNeverListed(rs, ops, i - 1);
      NoSightingEffect(rs, ops, i - 1, id);
      DropEffect(rs, ops, i - 1, id);
      j := EntryCameFrom(rs, ops, i - 1, id);
    }
  }

  /** Exactly when a device is visible, in terms of the operations. */
  lemma VisibleIff(rs: seq<Registry>, ops: seq<Op>, i: nat, id: string)
    requires Run(rs, ops) && AllWellFiled(ops) && i <= |ops|
    ensures VisibleAt(rs[i], id) <==> exists j :: 0 <= j < i && ShownBy(rs, ops, j, i, id)
  {
    assert |rs| == |ops| + 1;
    hide Run, Unchanged, Sighted;
    if id in rs[i].peers {
      var j := EntryCameFrom(rs, ops, i, id);
      EntryStays(rs, ops, j, i, id);
      assert VisibleAt(rs[i], id) ==> ShownBy(rs, ops, j, i, id);
    }
    forall j | 0 <= j < i && ShownBy(rs, ops, j, i, id) ensures VisibleAt(rs[i], id) {
      EntryStays(rs, ops, j, i, id);
    }
  }

  /** Exactly when the device of a blocked fingerprint is listed all the same: when it was last sighted without
      that fingerprint, and the sighting shows it. */
  lemma BlockedDeviceVisibleIff(rs: seq<Registry>, ops: seq<Op>, i: nat, fingerprint: string)
    requires Run(rs, ops) && AllWellFiled(ops) && i <= |ops| && GetTrust(rs[i].db, fingerprint).Blocked?
    ensures VisibleAt(rs[i], DeviceIdOf(fingerprint))
       <==> exists j :: && 0 <= j < i && ShownBy(rs, ops, j, i, DeviceIdOf(fingerprint))
                        && ops[j].peer.fingerprint != Some(fingerprint)
  {
    var id := DeviceIdOf(fingerprint);
    VisibleIff(rs, ops, i, id);
    BlockedNeverListed(rs, ops, i);
    forall j | 0 <= j < i && ShownBy(rs, ops, j, i, id) ensures ops[j].peer.fingerprint != Some(fingerprint) {
      EntryStays(rs, ops, j, i, id);
    }
  }

  /** A blocked device comes back with its next Bluetooth sighting: for every device and every fingerprint that
      is filed under it. */
  lemma BlockedResurfaces(device: seq<Byte>, hash: (Byte, Byte), fingerprint: string)
    returns (rs: seq<Registry>, ops: seq<Op>)
    requires |device| == 8 && DeviceIdOf(fingerprint) == Hex(device)
    ensures ops == [DiscoverOp(FromMdns("Phone", 1, fingerprint, Android)), SetTrustOp(fingerprint, Blocked),
                    DiscoverOp(FromBle(device, hash, Available, -65))]
    ensures Run(rs, ops) && AllWellFiled(ops)
    ensures !VisibleAt(rs[2], DeviceIdOf(fingerprint))
    ensures GetTrust(rs[3].db, fingerprint).Blocked? && VisibleAt(rs[3], DeviceIdOf(fingerprint))
  {
    var first, blocked, again := FromMdns("Phone", 1, fingerprint, Android), Blocked,
                                 FromBle(device, hash, Available, -65);
    ops := [DiscoverOp(first), SetTrustOp(fingerprint, blocked), DiscoverOp(again)];
    var id, r0 := DeviceIdOf(fingerprint), Registry(map[], map[], [Started]);
    var r1 := Discover(r0, first);
    assert Carries(r1, id, fingerprint);
    var r2 := Lose(r1.(db := r1.db[fingerprint := Blocked]), id);
    assert SetTrust(r1, fingerprint, Blocked, r2);
    rs := [r0, r1, r2, Discover(r2, again)];
  }

  // ----- Shown trust -----

  /** The level stored by the last of the operations `j` to `i` that sets it. */
  function SetLevel(ops: seq<Op>, fingerprint: string, j: nat, i: nat, before: TrustLevel): TrustLevel
    requires j <= i <= |ops|
    decreases i
  {
    if i == j then before
    else if ops[i - 1].SetTrustOp? && ops[i - 1].fingerprint == fingerprint then ops[i - 1].level
    else SetLevel(ops, fingerprint, j, i - 1, before)
  }

  /** The level brought by the last of the operations `j` to `i` that sights the device without a fingerprint. */
  function PlainLevel(ops: seq<Op>, id: string, j: nat, i: nat, before: TrustLevel): TrustLevel
    requires j <= i <= |ops|
    decreases i
  {
    if i == j then before
    else if ops[i - 1].DiscoverOp? && ops[i - 1].peer.deviceId == id && ops[i - 1].peer.fingerprint.None? then
      ops[i - 1].peer.trust
    else PlainLevel(ops, id, j, i - 1, before)
  }

  lemma SetLevelOne(ops: seq<Op>, fingerprint: string, j: nat, i: nat, before: TrustLevel)
    requires j < i <= |ops|
    ensures SetLevel(ops, fingerprint, j, i, before)
         == if ops[i - 1].SetTrustOp? && ops[i - 1].fingerprint == fingerprint then ops[i - 1].level
            else SetLevel(ops, fingerprint, j, i - 1, before)
  {
  }

  lemma StoredEffect(rs: seq<Registry>, ops: seq<Op>, k: nat, fingerprint: string)
    requires Run(rs, ops) && k < |ops|
    ensures GetTrust(rs[k + 1].db, fingerprint)
         == if ops[k].SetTrustOp? && ops[k].fingerprint == fingerprint then ops[k].level
            else GetTrust(rs[k].db, fingerprint)
  {
    hide Merge;
    assert StepAt(rs, ops, k);
  }

  lemma {:induction false} StoredIsSetLevel(rs: seq<Registry>, ops: seq<Op>, fingerprint: string, j: nat, i: nat)
    requires Run(rs, ops) && j <= i <= |ops|
    ensures GetTrust(rs[i].db, fingerprint) == SetLevel(ops, fingerprint, j, i, GetTrust(rs[j].db, fingerprint))
    decreases i
  {
    assert |rs| == |ops| + 1;
    if j < i {
      SetLevelOne(ops, fingerprint, j, i, GetTrust(rs[j].db, fingerprint));
      hide Run, GetTrust, SetLevel;
      StoredIsSetLevel(rs, ops, fingerprint, j, i - 1);
      StoredEffect(rs, ops, i - 1, fingerprint);
    }
  }

  /** The `j`-th operation is the last sighting of the device, before the `i`-th registry, that brought a
      fingerprint and was not ignored. */
  predicate LastIdentified(rs: seq<Registry>, ops: seq<Op>, j: nat, i: nat, id: string, fingerprint: string)
    requires i <= |ops| < |rs|
  {
    && j < i && Sighted(rs, ops, j, id) && ops[j].peer.fingerprint == Some(fingerprint)
    && forall k | j < k < i && Sighted(rs, ops, k, id) :: ops[k].peer.fingerprint.None?
  }

  /** The level shown with an entry in terms of the operations: the stored one when its fingerprint was last
      sighted, or whatever the last sighting without fingerprint brought since. */
  lemma {:induction false} ShownIsPlainLevel(rs: seq<Registry>, ops: seq<Op>, i: nat, id: string) returns (j: nat)
    requires Run(rs, ops) && i <= |ops| && id in rs[i].peers && rs[i].peers[id].fingerprint.Some?
    ensures var fingerprint := rs[i].peers[id].fingerprint.value;
            && LastIdentified(rs, ops, j, i, id, fingerprint)
            && rs[i].peers[id].trust == PlainLevel(ops, id, j + 1, i, GetTrust(rs[j].db, fingerprint))
  {
    assert rs[0].peers == map[] && |rs| == |ops| + 1;
    if Sighted(rs, ops, i - 1, id) {
      SightingEffect(rs, ops, i - 1, id);
      hide Run, GetTrust, LastIdentified;
      if ops[i - 1].peer.fingerprint.Some? {
        j := i - 1;
        IdentifiedNow(rs, ops, j, id, ops[j].peer.fingerprint.value);
      } else {
        j := ShownIsPlainLevel(rs, ops, i - 1, id);
        IdentifiedStill(rs, ops, j, i, id, rs[i].peers[id].fingerprint.value);
      }
    } else {
      NoSightingEffect(rs, ops, i - 1, id);
      hide Run, GetTrust, LastIdentified;
      j := ShownIsPlainLevel(rs, ops, i - 1, id);
      IdentifiedStill(rs, ops, j, i, id, rs[i].peers[id].fingerprint.value);
      NotPlain(rs, ops, i - 1, id);
    }
  }

  lemma NotPlain(rs: seq<Registry>, ops: seq<Op>, k: nat, id: string)
    requires k < |ops| < |rs| && !Sighted(rs, ops, k, id)
    ensures !(ops[k].DiscoverOp? && ops[k].peer.deviceId == id && ops[k].peer.fingerprint.None?)
  {
  }

  lemma IdentifiedNow(rs: seq<Registry>, ops: seq<Op>, j: nat, id: string, fingerprint: string)
    requires j < |ops| < |rs| && Sighted(rs, ops, j, id) && ops[j].peer.fingerprint == Some(fingerprint)
    ensures LastIdentified(rs, ops, j, j + 1, id, fingerprint)
  {
  }

  lemma IdentifiedStill(rs: seq<Registry>, ops: seq<Op>, j: nat, i: nat, id: string, fingerprint: string)
    requires 0 < i <= |ops| < |rs| && LastIdentified(rs, ops, j, i - 1, id, fingerprint)
    requires Sighted(rs, ops, i - 1, id) ==> ops[i - 1].peer.fingerprint.None?
    ensures LastIdentified(rs, ops, j, i, id, fingerprint) && j < i - 1
  {
  }

  /** Exactly when an entry with a fingerprint shows the stored level: from its last sighting with a fingerprint
      on, the last level set for the fingerprint and the last level brought by a sighting without one have to
      agree, each standing at the level stored at that sighting as long as there was none. */
  lemma ShownTrustIsStoredIff(rs: seq<Registry>, ops: seq<Op>, i: nat, id: string) returns (j: nat)
    requires Run(rs, ops) && i <= |ops| && id in rs[i].peers && rs[i].peers[id].fingerprint.Some?
    ensures var fingerprint := rs[i].peers[id].fingerprint.value;
            && LastIdentified(rs, ops, j, i, id, fingerprint)
            && (rs[i].peers[id].trust == GetTrust(rs[i].db, fingerprint)
                <==> var level := SetLevel(ops, fingerprint, 0, j, GetTrust(rs[0].db, fingerprint));
                     PlainLevel(ops, id, j + 1, i, level) == SetLevel(ops, fingerprint, j + 1, i, level))
  {
    assert |rs| == |ops| + 1;
    hide Run, GetTrust;
    j := ShownIsPlainLevel(rs, ops, i, id);
    var fingerprint := rs[i].peers[id].fingerprint.value;
    StoredIsSetLevel(rs, ops, fingerprint, 0, j);
    StoredIsSetLevel(rs, ops, fingerprint, j, i);
    StoredSince(ops, fingerprint, j, i, GetTrust(rs[j].db, fingerprint));
  }

  /** A sighting does not set a level. */
  lemma {:induction false} StoredSince(ops: seq<Op>, fingerprint: string, j: nat, i: nat, before: TrustLevel)
    requires j < i <= |ops| && ops[j].DiscoverOp?
    ensures SetLevel(ops, fingerprint, j, i, before) == SetLevel(ops, fingerprint, j + 1, i, before)
    decreases i
  {
    if j + 1 < i {
      StoredSince(ops, fingerprint, j, i - 1, before);
    }
  }

  /** The levels part in two ways. A Bluetooth sighting makes a favorite look unknown, for every device ... */
  lemma BleSightingHidesTrust(device: seq<Byte>, hash: (Byte, Byte), fingerprint: string)
    returns (rs: seq<Registry>, ops: seq<Op>)
    requires |device| == 8 && DeviceIdOf(fingerprint) == Hex(device)
    ensures ops == [SetTrustOp(fingerprint, Favorite), DiscoverOp(FromMdns("Phone", 1, fingerprint, Android)),
                    DiscoverOp(FromBle(device, hash, Available, -65))]
    ensures Run(rs, ops) && AllWellFiled(ops)
    ensures Carries(rs[2], DeviceIdOf(fingerprint), fingerprint) && rs[2].peers[DeviceIdOf(fingerprint)].trust.Favorite?
    ensures Carries(rs[3], DeviceIdOf(fingerprint), fingerprint) && rs[3].peers[DeviceIdOf(fingerprint)].trust.Unknown?
    ensures GetTrust(rs[3].db, fingerprint).Favorite?
  {
    var phone, again := FromMdns("Phone", 1, fingerprint, Android), FromBle(device, hash, Available, -65);
    ops := [SetTrustOp(fingerprint, Favorite), DiscoverOp(phone), DiscoverOp(again)];
    var r0 := Registry(map[], map[], [Started]);
    var r1 := r0.(db := r0.db[fingerprint := Favorite]);
    var r2 := Discover(r1, phone);
    rs := [r0, r1, r2, Discover(r2, again)];
  }

  /** ... and setting a level does not reach the entry that shows it. */
  lemma SettingTrustDoesNotShow(fingerprint: string) returns (rs: seq<Registry>, ops: seq<Op>)
    ensures ops == [DiscoverOp(FromMdns("Phone", 1, fingerprint, Android)), SetTrustOp(fingerprint, Favorite)]
    ensures Run(rs, ops) && AllWellFiled(ops)
    ensures Carries(rs[2], DeviceIdOf(fingerprint), fingerprint)
    ensures GetTrust(rs[2].db, fingerprint).Favorite? && rs[2].peers[DeviceIdOf(fingerprint)].trust.Unknown?
  {
    var phone := FromMdns("Phone", 1, fingerprint, Android);
    ops := [DiscoverOp(phone), SetTrustOp(fingerprint, Favorite)];
    var r0 := Registry(map[], map[], [Started]);
    var r1 := Discover(r0, phone);
    rs := [r0, r1, r1.(db := r1.db[fingerprint := Favorite])];
  }

  // ----- What an entry says -----

  /** The `j`-th operation is the last sighting of the device before the `i`-th registry. */
  predicate LastSighting(rs: seq<Registry>, ops: seq<Op>, j: nat, i: nat, id: string)
    requires i <= |ops| < |rs|
  {
    j < i && Sighted(rs, ops, j, id) && forall k | j < k < i :: !Sighted(rs, ops, k, id)
  }

  /** The address brought by the last sighting, since the device was listed, that brought one. */
  function LastAddr(rs: seq<Registry>, ops: seq<Op>, i: nat, id: string): Option<Address>
    requires i <= |ops| < |rs|
  {
    if i == 0 || id !in rs[i].peers then None
    else if Sighted(rs, ops, i - 1, id) && ops[i - 1].peer.addr.Some? then ops[i - 1].peer.addr
    else LastAddr(rs, ops, i - 1, id)
  }

  /** The fingerprint brought by the last sighting, since the device was listed, that brought one. */
  function LastFingerprint(rs: seq<Registry>, ops: seq<Op>, i: nat, id: string): Option<string>
    requires i <= |ops| < |rs|
  {
    if i == 0 || id !in rs[i].peers then None
    else if Sighted(rs, ops, i - 1, id) && ops[i - 1].peer.fingerprint.Some? then ops[i - 1].peer.fingerprint
    else LastFingerprint(rs, ops, i - 1, id)
  }

  /** The name brought by the last sighting, since the device was listed, that brought a real one. */
  function LastRealName(rs: seq<Registry>, ops: seq<Op>, i: nat, id: string): Option<string>
    requires i <= |ops| < |rs|
  {
    if i == 0 || id !in rs[i].peers then None
    else if Sighted(rs, ops, i - 1, id) && !IsPlaceholder(ops[i - 1].peer.name) then Some(ops[i - 1].peer.name)
    else LastRealName(rs, ops, i - 1, id)
  }

  /** The entry is the last sighting with the trust that one brought, except that what a sighting does not know is
      taken from the last one that did. */
  predicate EntryTells(rs: seq<Registry>, ops: seq<Op>, j: nat, i: nat, id: string)
    requires j < i <= |ops| < |rs| && id in rs[i].peers && ops[j].DiscoverOp?
  {
    var entry, seen, name := rs[i].peers[id], ops[j].peer, LastRealName(rs, ops, i, id);
    && entry.deviceId == id
    && entry.platform == seen.platform && entry.presence == seen.presence && entry.rssi == seen.rssi
    && entry.battery == seen.battery && entry.discovery == seen.discovery
    && entry.trust == BroughtTrust(rs[j], seen)
    && entry.addr == LastAddr(rs, ops, i, id)
    && entry.fingerprint == LastFingerprint(rs, ops, i, id)
    && entry.name == (if name.Some? then name.value else seen.name)
  }

  lemma FirstSightingTells(rs: seq<Registry>, ops: seq<Op>, k: nat, id: string)
    requires Run(rs, ops) && k < |ops| && Sighted(rs, ops, k, id) && id !in rs[k].peers
    ensures id in rs[k + 1].peers && EntryTells(rs, ops, k, k + 1, id)
  {
    assert StepAt(rs, ops, k);
    assert LastAddr(rs, ops, k, id) == None && LastFingerprint(rs, ops, k, id) == None;
    assert LastRealName(rs, ops, k, id) == None;
  }

  lemma NextSightingTells(rs: seq<Registry>, ops: seq<Op>, k: nat, j: nat, id: string)
    requires Run(rs, ops) && j < k < |ops| && Sighted(rs, ops, k, id) && id in rs[k].peers
    requires ops[j].DiscoverOp? && EntryTells(rs, ops, j, k, id)
    requires LastRealName(rs, ops, k, id).None? ==> IsPlaceholder(rs[k].peers[id].name)
    ensures id in rs[k + 1].peers && EntryTells(rs, ops, k, k + 1, id)
  {
    assert StepAt(rs, ops, k);
    RealNamesAreReal(rs, ops, k, id);
    hide IsPlaceholder, Sighted;
    assert rs[k + 1].peers[id] == Merge(ops[k].peer.(trust := BroughtTrust(rs[k], ops[k].peer)), rs[k].peers[id]);
  }

  lemma {:induction false} RealNamesAreReal(rs: seq<Registry>, ops: seq<Op>, i: nat, id: string)
    requires i <= |ops| < |rs|
    ensures LastRealName(rs, ops, i, id).Some? ==> !IsPlaceholder(LastRealName(rs, ops, i, id).value)
  {
    if i > 0 {
      RealNamesAreReal(rs, ops, i - 1, id);
    }
  }

  lemma UnsightedTells(rs: seq<Registry>, ops: seq<Op>, k: nat, j: nat, id: string)
    requires Run(rs, ops) && j < k < |ops| && !Sighted(rs, ops, k, id) && id in rs[k].peers && id in rs[k + 1].peers
    requires ops[j].DiscoverOp? && EntryTells(rs, ops, j, k, id)
    ensures EntryTells(rs, ops, j, k + 1, id)
  {
    NoSightingEffect(rs, ops, k, id);
    hide IsPlaceholder, Sighted, Run;
  }

  /** In every run an entry tells what the sightings of its device brought: the last one's platform, presence, signal,
      battery, source and trust; the last address and fingerprint that any brought since it was listed; and the last
      real name, or the last name if there was no real one. */
  lemma {:induction false} EntryTellsSightings(rs: seq<Registry>, ops: seq<Op>, i: nat, id: string) returns (j: nat)
    requires Run(rs, ops) && i <= |ops| && id in rs[i].peers
    ensures LastSighting(rs, ops, j, i, id) && EntryTells(rs, ops, j, i, id)
    ensures LastRealName(rs, ops, i, id).None? ==> IsPlaceholder(rs[i].peers[id].name)
  {
    assert rs[0].peers == map[] && |rs| == |ops| + 1;
    hide Run, IsPlaceholder, GetTrust;
    if Sighted(rs, ops, i - 1, id) {
      j := i - 1;
      if id in rs[i - 1].peers {
        var before := EntryTellsSightings(rs, ops, i - 1, id);
        NextSightingTells(rs, ops, i - 1, before, id);
      } else {
        FirstSightingTells(rs, ops, i - 1, id);
      }
    } else {
      NoSightingEffect(rs, ops, i - 1, id);
      j := EntryTellsSightings(rs, ops, i - 1, id);
      UnsightedTells(rs, ops, i - 1, j, id);
    }
  }

  /** What a listener hears of each operation: a sighting that is not ignored, with the trust it brought, as news or
      as an update; the removal of an entry; nothing else. */
  lemma EventsTell(rs: seq<Registry>, ops: seq<Op>, k: nat)
    requires Run(rs, ops) && k < |ops|
    ensures ops[k].DiscoverOp? ==>
              var id, peer := ops[k].peer.deviceId, ops[k].peer.(trust := BroughtTrust(rs[k], ops[k].peer));
              rs[k + 1].events
              == rs[k].events + (if !Sighted(rs, ops, k, id) then []
                                 else if id in rs[k].peers then [PeerUpdated(peer)] else [PeerDiscovered(peer)])
    ensures !ops[k].DiscoverOp? ==>
              (forall id | id in rs[k].peers && id !in rs[k + 1].peers ::
                 rs[k + 1].events == rs[k].events + [PeerLost(id)])
              && (rs[k + 1].peers == rs[k].peers ==> rs[k + 1].events == rs[k].events)
  {
    hide Merge;
    assert StepAt(rs, ops, k);
    assert rs[k].events + [] == rs[k].events;
  }

  // ----- One device, two sightings -----

  lemma {:induction false} HexPrefix(bytes: seq<Byte>, n: nat)
    requires n <= |bytes|
    ensures Hex(bytes)[..2 * n] == Hex(bytes[..n])
  {
    if n > 0 {
      HexPrefix(bytes[1..], n - 1);
      assert bytes[..n][1..] == bytes[1..][..n - 1];
      assert Hex(bytes) == [HexDigit(bytes[0] / 16), HexDigit(bytes[0] % 16)] + Hex(bytes[1..]);
    }
  }

  function DigitValue(c: char): int {
    if '0' <= c <= '9' then c as int - '0' as int else if 'a' <= c <= 'f' then c as int - 'a' as int + 10 else -1
  }

  lemma HexDigitReads(d: nat)
    requires d < 16
    ensures DigitValue(HexDigit(d)) == d
  {
  }

  /** Two lowercase digits per byte, the high one first. */
  lemma {:induction false} HexReads(bytes: seq<Byte>, i: nat)
    requires i < |bytes|
    ensures 0 <= DigitValue(Hex(bytes)[2 * i]) < 16 && 0 <= DigitValue(Hex(bytes)[2 * i + 1]) < 16
    ensures 16 * DigitValue(Hex(bytes)[2 * i]) + DigitValue(Hex(bytes)[2 * i + 1]) == bytes[i]
  {
    HexDigitReads(bytes[0] / 16);
    HexDigitReads(bytes[0] % 16);
    assert Hex(bytes) == [HexDigit(bytes[0] / 16), HexDigit(bytes[0] % 16)] + Hex(bytes[1..]);
    hide HexDigit, DigitValue;
    if i > 0 {
      HexReads(bytes[1..], i - 1);
    }
  }

  /** The id of a fingerprint whose bytes start with a device's eight is that device's Bluetooth id, so the two kinds
      of sightings meet in one entry. */
  lemma SightingsMeet(bytes: seq<Byte>, hash: (Byte, Byte), presence: Presence, rssi: int,
                      name: string, addr: Address, platform: Platform)
    requires |bytes| >= 8
    ensures FromMdns(name, addr, Hex(bytes), platform).deviceId == FromBle(bytes[..8], hash, presence, rssi).deviceId
  {
    HexPrefix(bytes, 8);
  }

  /** A peer found by mDNS can be reached and is shown, unless it is blocked: then nothing changes. */
  lemma MdnsIsShown(r: Registry, name: string, addr: Address, fingerprint: string, platform: Platform)
    ensures var r2, id := Discover(r, FromMdns(name, addr, fingerprint, platform)), DeviceIdOf(fingerprint);
            if GetTrust(r.db, fingerprint).Blocked? then r2 == r
            else VisibleAt(r2, id) && Carries(r2, id, fingerprint)
                 && r2.peers[id].addr == Some(addr) && r2.peers[id].platform == platform
                 && r2.peers[id].discovery.Mdns? && r2.peers[id].rssi.None? && r2.peers[id].battery.None?
                 && r2.peers[id].trust == GetTrust(r.db, fingerprint)
                 && (!IsPlaceholder(name) ==> r2.peers[id].name == name)
  {
  }

  /** A peer found by Bluetooth is shown as it announces itself, under a placeholder until a name is known. */
  lemma BleIsShown(r: Registry, device: seq<Byte>, hash: (Byte, Byte), presence: Presence, rssi: int)
    requires |device| == 8
    ensures var r2, id := Discover(r, FromBle(device, hash, presence, rssi)), Hex(device);
            && (VisibleAt(r2, id) <==> !presence.Invisible?)
            && id in r2.peers && r2.peers[id].rssi == Some(rssi) && r2.peers[id].discovery.Ble?
            && r2.peers[id].presence == presence && r2.peers[id].trust.Unknown?
            && r2.peers[id].platform.UnknownPlatform? && r2.peers[id].battery.None?
            && (id !in r.peers ==> r2.peers[id].fingerprint.None? && r2.peers[id].addr.None?)
            && (id !in r.peers ==> r2.peers[id].name == PLACEHOLDER + Hex([hash.0, hash.1]))
  {
    assert PLACEHOLDER <= PLACEHOLDER + Hex([hash.0, hash.1]);
  }

  // ----- Knowledge grows -----

  /** What a later entry for the same device keeps of an earlier one. */
  predicate Keeps(before: Peer, after: Peer) {
    && (before.fingerprint.Some? ==> after.fingerprint.Some?)
    && (before.addr.Some? ==> after.addr.Some?)
    && (!IsPlaceholder(before.name) ==> !IsPlaceholder(after.name))
  }

  /** While a device stays in the registry, whatever the interleaving of sightings, losses of others and
      trust changes: a known fingerprint or address stays known, a real name never turns back into a
      placeholder. */
  lemma {:induction false} KnowledgeGrows(rs: seq<Registry>, ops: seq<Op>, id: string, i: nat, j: nat)
    requires Run(rs, ops) && i <= j < |rs|
    requires forall k | i <= k <= j :: id in rs[k].peers
    ensures Keeps(rs[i].peers[id], rs[j].peers[id])
    decreases j
  {
    if i < j {
      KnowledgeGrows(rs, ops, id, i, j - 1);
      assert StepAt(rs, ops, j - 1);
      assert id in rs[j - 1].peers && id in rs[j].peers;
    }
  }
}
