/** The versioned host-location table of one node, as a value.

    `Host` is the meaning of the C module's global state: a map from MAC address to
    record, the node's identity, and the statistics counters. `HostTable` proves that
    the array-based code computes exactly these functions; every other module uses them
    to say what a node does between two lock regions.
 */
module HostState {
  import opened Basics

  const MAX_HOST_ENTRIES: nat := 4096

  datatype Mac = Mac(b0: byte, b1: byte, b2: byte, b3: byte, b4: byte, b5: byte)

  /** One record, with the fields of the C structure. Counters and timestamps are
      unbounded; the wire format gives them their widths. */
  datatype Location = Location(
    mac: Mac, origin: nat, dpid: nat, port: nat, epoch: nat, sequence: nat,
    isLocal: byte, learnedAt: nat, appliedAt: nat)
  {
    /** What the origin asserted: the record without the two fields each holder sets itself. */
    function ToClaim(): Claim {
      Claim(mac, origin, dpid, port, epoch, sequence, learnedAt)
    }
  }

  datatype Claim = Claim(
    mac: Mac, origin: nat, dpid: nat, port: nat, epoch: nat, sequence: nat, learnedAt: nat)

  /** (epoch, sequence), ordered lexicographically. */
  datatype Version = Version(epoch: nat, sequence: nat) {
    predicate Below(that: Version) {
      epoch < that.epoch || (epoch == that.epoch && sequence < that.sequence)
    }

    predicate AtMost(that: Version) {
      this == that || Below(that)
    }
  }

  function VersionOf(c: Claim): Version {
    Version(c.epoch, c.sequence)
  }

  function VersionAt(r: Location): Version {
    VersionOf(r.ToClaim())
  }

  datatype Verdict = New | Updated | Duplicate | StaleRejected | OwnershipConflict | Invalid

  datatype Host = Host(id: nat, epoch: nat, nextSequence: nat, table: map<Mac, Location>)

  function Init(id: nat, epoch: nat): Host {
    Host(id, epoch, 1, map[])
  }

  function Lookup(h: Host, mac: Mac): Option<Location> {
    if mac in h.table then Some(h.table[mac]) else None
  }

  predicate Full(h: Host) {
    |h.table| >= MAX_HOST_ENTRIES
  }

  function LocalRecord(h: Host, mac: Mac, dpid: nat, port: nat, now: nat): Location {
    Location(mac, h.id, dpid, port, h.epoch, h.nextSequence, 1, now, now)
  }

  /** A sequence number is spent even when the table has no room. */
  function LearnLocal(h: Host, mac: Mac, dpid: nat, port: nat, now: nat): Host {
    if mac !in h.table && Full(h) then h.(nextSequence := h.nextSequence + 1)
    else h.(nextSequence := h.nextSequence + 1, table := h.table[mac := LocalRecord(h, mac, dpid, port, now)])
  }

  /** The sequence number handed to the caller, 0 on failure. */
  function LearnResult(h: Host, mac: Mac): nat {
    if mac !in h.table && Full(h) then 0 else h.nextSequence
  }

  predicate IsNewer(existing: Location, incoming: Location) {
    if incoming.epoch != existing.epoch then incoming.epoch > existing.epoch
    else incoming.sequence > existing.sequence
  }

  function Judge(h: Host, u: Location): Verdict {
    if u.origin == 0 || u.origin == h.id then Invalid
    else if u.mac !in h.table then (if Full(h) then Invalid else New)
    else
      var r := h.table[u.mac];
      if r.origin != u.origin then OwnershipConflict
      else if u.epoch == r.epoch && u.sequence == r.sequence then Duplicate
      else if !IsNewer(r, u) then StaleRejected
      else Updated
  }

  /** What each verdict says about the table and the claim, one by one. */
  ghost predicate Warrants(h: Host, u: Location, v: Verdict) {
    var foreign := u.origin != 0 && u.origin != h.id;
    var ours := u.mac in h.table && h.table[u.mac].origin == u.origin;
    match v
    case Invalid => !foreign || (u.mac !in h.table && |h.table| >= 4096)
    case New => foreign && u.mac !in h.table && |h.table| < 4096
    case OwnershipConflict => foreign && u.mac in h.table && h.table[u.mac].origin != u.origin
    case Duplicate => foreign && ours && VersionAt(u) == VersionAt(h.table[u.mac])
    case StaleRejected => foreign && ours && VersionAt(u).Below(VersionAt(h.table[u.mac]))
    case Updated => foreign && ours && VersionAt(h.table[u.mac]).Below(VersionAt(u))
  }

  lemma {:induction false} JudgedAsWarranted(h: Host, u: Location, v: Verdict)
    ensures Judge(h, u) == v <==> Warrants(h, u, v)
  {
  }

  function ApplyRemote(h: Host, u: Location, now: nat): Host {
    match Judge(h, u)
    case New => h.(table := h.table[u.mac := u.(isLocal := 0, appliedAt := now)])
    case Updated =>
      h.(table := h.table[u.mac := h.table[u.mac].(
        dpid := u.dpid, port := u.port, epoch := u.epoch, sequence := u.sequence,
        learnedAt := u.learnedAt, appliedAt := now)])
    case _ => h
  }

  /** The consistency every reachable table has. */
  ghost predicate Ok(h: Host) {
    && h.id != 0
    && 1 <= h.nextSequence
    && |h.table| <= MAX_HOST_ENTRIES
    && forall m :: m in h.table ==> RecordOk(h, m, h.table[m])
  }

  ghost predicate RecordOk(h: Host, m: Mac, r: Location) {
    && r.mac == m
    && r.origin != 0
    && r.isLocal == (if r.origin == h.id then 1 else 0)
    && (r.origin == h.id ==> r.epoch == h.epoch && 1 <= r.sequence < h.nextSequence)
  }

  lemma {:induction false} LearnKeepsOk(h: Host, mac: Mac, dpid: nat, port: nat, now: nat)
    requires Ok(h)
    ensures Ok(LearnLocal(h, mac, dpid, port, now))
  {
  }

  lemma {:induction false} ApplyKeepsOk(h: Host, u: Location, now: nat)
    requires Ok(h)
    ensures Ok(ApplyRemote(h, u, now))
  {
  }

  /** What receiving `r` leaves behind for good: `h` records that origin at an equal or newer
      version, or another origin for that MAC, or its table is full without that MAC. The
      node's own claims and the reserved origin 0 are never taken from the wire. */
  ghost predicate Settled(h: Host, r: Location) {
    || r.origin == 0
    || r.origin == h.id
    || (r.mac in h.table && (h.table[r.mac].origin != r.origin || VersionAt(r).AtMost(VersionAt(h.table[r.mac]))))
    || (r.mac !in h.table && Full(h))
  }

  lemma {:induction false} ApplySettles(h: Host, u: Location, now: nat)
    requires Ok(h)
    ensures Settled(ApplyRemote(h, u, now), u)
  {
  }

  lemma {:induction false} ApplyKeepsSettled(h: Host, u: Location, now: nat, r: Location)
    requires Ok(h) && Settled(h, r)
    ensures Settled(ApplyRemote(h, u, now), r)
  {
  }

  lemma {:induction false} LearnKeepsSettled(h: Host, mac: Mac, dpid: nat, port: nat, now: nat, r: Location)
    requires Ok(h) && Settled(h, r)
    ensures Settled(LearnLocal(h, mac, dpid, port, now), r)
  {
  }

  /** A newer claim of the same origin for the same MAC settles the older one as well. */
  lemma {:induction false} SettledDownwards(h: Host, newer: Location, older: Location)
    requires Settled(h, newer)
    requires newer.mac == older.mac && newer.origin == older.origin
    requires VersionAt(older).AtMost(VersionAt(newer))
    ensures Settled(h, older)
  {
  }

  lemma {:induction false} SizeAfterInsert<K, V>(m: map<K, V>, k: K, v: V)
    ensures |m[k := v]| == if k in m then |m| else |m| + 1
  {
  }
}
