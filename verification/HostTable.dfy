/** The table module as it is written: a fixed array, a count, a sequence counter and the
    statistics, all updated in place. Each method is proved to do to the abstract table what
    the corresponding function of `HostState` does.
 */
module HostTable {
  import opened Basics
  import opened HostRuns
  import opened HostState

  const NO_RECORD: Location := Location(Mac(0, 0, 0, 0, 0, 0), 0, 0, 0, 0, 0, 0, 0, 0)

  // ---------- Arrays of records as maps ----------

  predicate Distinct(s: seq<Location>) {
    forall i, j :: 0 <= i < j < |s| ==> s[i].mac != s[j].mac
  }

  /** The records of `s` by MAC. */
  function TableOf(s: seq<Location>): map<Mac, Location>
    decreases |s|
  {
    if s == [] then map[] else TableOf(s[..|s| - 1])[s[|s| - 1].mac := s[|s| - 1]]
  }

  ghost predicate Lists(s: seq<Location>, t: map<Mac, Location>) {
    && |t| == |s|
    && (forall i {:trigger s[i]} :: 0 <= i < |s| ==> s[i].mac in t && t[s[i].mac] == s[i])
    && (forall m {:trigger m in t} :: m in t ==> t[m] in s && t[m].mac == m)
  }

  lemma {:induction false} NotYetListed(s: seq<Location>, t: map<Mac, Location>)
    requires s != [] && Distinct(s) && Lists(s[..|s| - 1], t)
    ensures s[|s| - 1].mac !in t
  {
  }

  lemma {:induction false} TableMeaning(s: seq<Location>)
    requires Distinct(s)
    ensures Lists(s, TableOf(s))
    decreases |s|
  {
    if s != [] {
      var init, last := s[..|s| - 1], s[|s| - 1];
      TableMeaning(init);
      var t := TableOf(init);
      NotYetListed(s, t);
      SizeAfterInsert(t, last.mac, last);
      forall k | 0 <= k < |s| ensures s[k].mac in TableOf(s) && TableOf(s)[s[k].mac] == s[k] {
        if k < |init| {
          assert init[k] == s[k];
        }
      }
    }
  }

  lemma {:induction false} TableIsUnique(s: seq<Location>, t: map<Mac, Location>, t2: map<Mac, Location>)
    requires Lists(s, t) && Lists(s, t2)
    ensures t == t2
  {
  }

  lemma {:induction false} TableSnoc(s: seq<Location>, r: Location)
    requires Distinct(s) && r.mac !in TableOf(s)
    ensures Distinct(s + [r]) && TableOf(s + [r]) == TableOf(s)[r.mac := r]
  {
    var u := s + [r];
    assert u[..|s|] == s && u[|s|] == r;
    forall i, j | 0 <= i < j < |u| ensures u[i].mac != u[j].mac {
      if j == |s| {
        TableMeaning(s);
        assert s[i].mac in TableOf(s);
      }
    }
  }

  lemma {:induction false} TableReplace(s: seq<Location>, i: nat, r: Location)
    requires Distinct(s) && i < |s| && r.mac == s[i].mac
    ensures Distinct(s[i := r]) && TableOf(s[i := r]) == TableOf(s)[r.mac := r]
  {
    var u, t := s[i := r], TableOf(s);
    TableMeaning(s);
    TableMeaning(u);
    SizeAfterInsert(t, r.mac, r);
    var t2 := t[r.mac := r];
    forall m | m in t2 ensures t2[m] in u {
      if m == r.mac {
        assert u[i] == r;
      } else {
        var k :| 0 <= k < |s| && s[k] == t[m];
        assert u[k] == t[m];
      }
    }
    TableIsUnique(u, TableOf(u), t2);
  }

  // ---------- The history of lock regions ----------

  /** The six verdict counters. */
  datatype Tally = Tally(brandNew: nat, updated: nat, duplicate: nat, staleRejected: nat, conflict: nat, invalid: nat) {
    function Count(v: Verdict): nat {
      match v
      case New => brandNew
      case Updated => updated
      case Duplicate => duplicate
      case StaleRejected => staleRejected
      case OwnershipConflict => conflict
      case Invalid => invalid
    }

    function Bump(v: Verdict): Tally {
      match v
      case New => this.(brandNew := brandNew + 1)
      case Updated => this.(updated := updated + 1)
      case Duplicate => this.(duplicate := duplicate + 1)
      case StaleRejected => this.(staleRejected := staleRejected + 1)
      case OwnershipConflict => this.(conflict := conflict + 1)
      case Invalid => this.(invalid := invalid + 1)
    }
  }

  /** `h` and `tally` are exactly what `history` makes of an empty table. */
  ghost predicate Recorded(h: Host, tally: Tally, history: seq<Op>) {
    && h.id != 0 && Ok(h)
    && h == Run(Init(h.id, h.epoch), history)
    && forall v :: tally.Count(v) == Verdicts(Init(h.id, h.epoch), history, v)
  }

  lemma {:induction false} RecordLearn(h: Host, tally: Tally, history: seq<Op>, mac: Mac, dpid: nat, port: nat, now: nat)
    requires Recorded(h, tally, history)
    ensures Recorded(HostState.LearnLocal(h, mac, dpid, port, now), tally, history + [Learn(mac, dpid, port, now)])
  {
  }

  lemma {:induction false} RecordApply(h: Host, tally: Tally, history: seq<Op>, u: Location, now: nat)
    requires Recorded(h, tally, history)
    ensures Recorded(ApplyRemote(h, u, now), tally.Bump(Judge(h, u)), history + [Remote(u, now)])
    ensures Ok(h)
  {
    var op := Remote(u, now);
    ApplyKeepsOk(h, u, now);
    assert (history + [op])[..|history|] == history;
    forall v ensures tally.Bump(Judge(h, u)).Count(v) == Verdicts(Init(h.id, h.epoch), history + [op], v) {
    }
  }

  /** What each verdict does to the table. */
  ghost predicate Carried(h: Host, u: Location, now: nat, v: Verdict, h2: Host) {
    match v
    case New => h2 == h.(table := h.table[u.mac := u.(isLocal := 0, appliedAt := now)])
    case Updated =>
      && u.mac in h.table
      && var r := h.table[u.mac];
         h2 == h.(table := h.table[u.mac :=
           Location(u.mac, r.origin, u.dpid, u.port, u.epoch, u.sequence, r.isLocal, u.learnedAt, now)])
    case _ => h2 == h
  }

  /** One counter goes up by one, the one of the verdict. */
  ghost predicate Counted(t: Tally, v: Verdict, t2: Tally) {
    && t2.brandNew == t.brandNew + (if v == New then 1 else 0)
    && t2.updated == t.updated + (if v == Updated then 1 else 0)
    && t2.duplicate == t.duplicate + (if v == Duplicate then 1 else 0)
    && t2.staleRejected == t.staleRejected + (if v == StaleRejected then 1 else 0)
    && t2.conflict == t.conflict + (if v == OwnershipConflict then 1 else 0)
    && t2.invalid == t.invalid + (if v == Invalid then 1 else 0)
  }

  lemma {:induction false} BumpCounts(t: Tally, v: Verdict)
    ensures Counted(t, v, t.Bump(v))
  {
  }

  /** Verdict and effect of an apply, each from the table before it. */
  lemma {:induction false} ApplyIs(h: Host, u: Location, now: nat)
    requires Ok(h)
    ensures forall v :: Judge(h, u) == v <==> Warrants(h, u, v)
    ensures Carried(h, u, now, Judge(h, u), ApplyRemote(h, u, now))
  {
    forall v ensures Judge(h, u) == v <==> Warrants(h, u, v) {
      JudgedAsWarranted(h, u, v);
    }
  }

  // ---------- The module ----------

  class HostTable {
    var nodeId: nat
    var ownerEpoch: nat
    var nextLocalSequence: nat
    var table: array<Location>
    var count: nat
    var stats: Tally
    /** Every lock region since the last init, in order. */
    ghost var history: seq<Op>

    ghost predicate Shape()
      reads this, table
    {
      table.Length == MAX_HOST_ENTRIES && count <= MAX_HOST_ENTRIES && Distinct(table[..count])
    }

    /** The abstract table. */
    ghost function View(): Host
      reads this, table
      requires Shape()
    {
      Host(nodeId, ownerEpoch, nextLocalSequence, TableOf(table[..count]))
    }

    ghost predicate Valid()
      reads this, table
    {
      Shape() && Recorded(View(), stats, history)
    }

    constructor (id: nat, epoch: nat)
      requires id != 0
      ensures Valid() && fresh(table)
      ensures View() == Init(id, epoch) && history == []
    {
      nodeId, ownerEpoch, nextLocalSequence, count := id, epoch, 1, 0;
      stats := Tally(0, 0, 0, 0, 0, 0);
      table := new Location[MAX_HOST_ENTRIES](_ => NO_RECORD);
      history := [];
    }

    /** daim_host_state_init on a running process. */
    method Reinit(id: nat, epoch: nat)
      requires Valid() && id != 0
      modifies this
      ensures Valid() && table == old(table)
      ensures View() == Init(id, epoch) && history == []
    {
      nodeId, ownerEpoch, nextLocalSequence, count := id, epoch, 1, 0;
      stats := Tally(0, 0, 0, 0, 0, 0);
      history := [];
    }

    method FindIndex(mac: Mac) returns (index: int)
      requires Shape()
      ensures mac in View().table ==> 0 <= index < count && table[index].mac == mac && View().table[mac] == table[index]
      ensures mac !in View().table ==> index == -1
      ensures |View().table| == count
    {
      TableMeaning(table[..count]);
      index := 0;
      while index < count
        invariant 0 <= index <= count
        invariant forall k :: 0 <= k < index ==> table[k].mac != mac
      {
        if table[index].mac == mac {
          assert table[..count][index] == table[index];
          return;
        }
        index := index + 1;
      }
      index := -1;
    }

    method LearnLocal(mac: Mac, dpid: nat, port: nat, now: nat) returns (sequence: nat)
      requires Valid()
      modifies this, table
      ensures Valid() && table == old(table)
      ensures history == old(history) + [Learn(mac, dpid, port, now)]
      ensures View() == HostState.LearnLocal(old(View()), mac, dpid, port, now)
      ensures sequence == LearnResult(old(View()), mac)
      ensures var h := old(View());
        if mac !in h.table && |h.table| >= 4096 then sequence == 0 && View() == h.(nextSequence := h.nextSequence + 1)
        else
          && sequence == h.nextSequence
          && View() == h.(nextSequence := h.nextSequence + 1,
               table := h.table[mac := Location(mac, h.id, dpid, port, h.epoch, h.nextSequence, 1, now, now)])
      ensures stats == old(stats)
    {
      hide Recorded, TableOf, Lists, Distinct;
      RecordLearn(View(), stats, history, mac, dpid, port, now);
      var idx := FindIndex(mac);
      sequence := nextLocalSequence;
      nextLocalSequence := nextLocalSequence + 1;
      history := history + [Learn(mac, dpid, port, now)];
      if idx < 0 && count >= MAX_HOST_ENTRIES {
        return 0;
      }
      var r := Location(mac, nodeId, dpid, port, ownerEpoch, sequence, 1, now, now);
      if idx < 0 {
        Append(r);
      } else {
        Overwrite(idx, r);
      }
    }

    /** A record into the first unused slot. */
    method Append(r: Location)
      requires Shape() && count < MAX_HOST_ENTRIES && r.mac !in View().table
      modifies this`count, table
      ensures Shape() && View() == old(View()).(table := old(View()).table[r.mac := r])
    {
      ghost var records := table[..count];
      table[count] := r;
      count := count + 1;
      assert table[..count] == records + [r];
      TableSnoc(records, r);
    }

    /** A record over the one its MAC has. */
    method Overwrite(i: nat, r: Location)
      requires Shape() && i < count && table[i].mac == r.mac
      modifies table
      ensures Shape() && View() == old(View()).(table := old(View()).table[r.mac := r])
    {
      ghost var records := table[..count];
      table[i] := r;
      assert table[..count] == records[i := r];
      TableReplace(records, i, r);
    }

    /** apply_locked, behind daim_host_apply_remote and daim_host_import_snapshot_entry alike. */
    method Apply(u: Location, now: nat) returns (verdict: Verdict)
      requires Valid()
      modifies this, table
      ensures Valid() && table == old(table)
      ensures history == old(history) + [Remote(u, now)]
      ensures View() == ApplyRemote(old(View()), u, now)
      ensures verdict == Judge(old(View()), u)
      ensures forall v :: verdict == v <==> Warrants(old(View()), u, v)
      ensures Carried(old(View()), u, now, verdict, View()) && Counted(old(stats), verdict, stats)
    {
      hide Recorded, TableOf, Lists, Distinct;
      RecordApply(View(), stats, history, u, now);
      ApplyIs(View(), u, now);
      BumpCounts(stats, Judge(View(), u));
      hide Warrants, Ok, Carried, Counted;
      history := history + [Remote(u, now)];
      if u.origin == 0 {
        stats := stats.(invalid := stats.invalid + 1);
        return Invalid;
      }
      if u.origin == nodeId {
        stats := stats.(invalid := stats.invalid + 1);
        return Invalid;
      }
      var idx := FindIndex(u.mac);
      if idx < 0 {
        if count >= MAX_HOST_ENTRIES {
          stats := stats.(invalid := stats.invalid + 1);
          return Invalid;
        }
        Append(u.(isLocal := 0, appliedAt := now));
        stats := stats.(brandNew := stats.brandNew + 1);
        return New;
      }
      if table[idx].origin != u.origin {
        stats := stats.(conflict := stats.conflict + 1);
        return OwnershipConflict;
      }
      if u.epoch == table[idx].epoch && u.sequence == table[idx].sequence {
        stats := stats.(duplicate := stats.duplicate + 1);
        return Duplicate;
      }
      if !IsNewer(table[idx], u) {
        stats := stats.(staleRejected := stats.staleRejected + 1);
        return StaleRejected;
      }
      var r := table[idx].(dpid := u.dpid, port := u.port, epoch := u.epoch, sequence := u.sequence,
        learnedAt := u.learnedAt, appliedAt := now);
      Overwrite(idx, r);
      stats := stats.(updated := stats.updated + 1);
      return Updated;
    }

    method Find(mac: Mac) returns (found: Option<Location>)
      requires Valid()
      ensures found == Lookup(View(), mac)
      ensures found.Some? <==> mac in View().table
      ensures found.Some? ==> found.value == View().table[mac]
    {
      var idx := FindIndex(mac);
      if idx < 0 {
        return None;
      }
      return Some(table[idx]);
    }

    /** The copy made under the lock: every record once, in table order. */
    method ExportSnapshot() returns (entries: seq<Location>)
      requires Valid()
      ensures Distinct(entries) && Lists(entries, View().table)
    {
      TableMeaning(table[..count]);
      entries := table[..count];
    }

    /** daim_host_state_stats: the tallies and a fresh count of local and remote records, which
        between them account for the whole history. */
    method ReadStats() returns (tally: Tally, localCount: nat, remoteCount: nat)
      requires Valid()
      ensures tally == stats
      ensures tally.brandNew + tally.updated + tally.duplicate + tally.staleRejected + tally.conflict + tally.invalid
        == Applies(history)
      ensures remoteCount == |RemoteMacs(View())| && localCount + remoteCount == |View().table|
      ensures remoteCount == tally.brandNew - Takeovers(Init(nodeId, ownerEpoch), history)
      ensures |View().table| == tally.brandNew + FreshLearns(Init(nodeId, ownerEpoch), history)
    {
      localCount, remoteCount := 0, 0;
      var i := 0;
      while i < count
        invariant 0 <= i <= count && localCount + remoteCount == i
        invariant remoteCount == RemotesIn(table[..i])
      {
        assert table[..i + 1] == table[..i] + [table[i]];
        if table[i].isLocal != 0 {
          localCount := localCount + 1;
        } else {
          remoteCount := remoteCount + 1;
        }
        i := i + 1;
      }
      TableMeaning(table[..count]);
      RemotesCounted(table[..count], View());
      CountersAddUp(Init(nodeId, ownerEpoch), history);
      CountersMeasureTheTable(nodeId, ownerEpoch, history);
      tally := stats;
      TallyReads(View(), tally, history);
    }
  }

  lemma {:induction false} TallyReads(h: Host, tally: Tally, history: seq<Op>)
    requires Recorded(h, tally, history)
    ensures tally.brandNew == Verdicts(Init(h.id, h.epoch), history, New)
    ensures tally.updated == Verdicts(Init(h.id, h.epoch), history, Updated)
    ensures tally.duplicate == Verdicts(Init(h.id, h.epoch), history, Duplicate)
    ensures tally.staleRejected == Verdicts(Init(h.id, h.epoch), history, StaleRejected)
    ensures tally.conflict == Verdicts(Init(h.id, h.epoch), history, OwnershipConflict)
    ensures tally.invalid == Verdicts(Init(h.id, h.epoch), history, Invalid)
    ensures h == Run(Init(h.id, h.epoch), history)
  {
  }

  function RemotesIn(s: seq<Location>): nat {
    if s == [] then 0 else RemotesIn(s[..|s| - 1]) + if s[|s| - 1].isLocal == 0 then 1 else 0
  }

  lemma {:induction false} RemoteMacsInsert(h: Host, r: Location)
    requires r.mac !in h.table
    ensures RemoteMacs(h.(table := h.table[r.mac := r])) == RemoteMacs(h) + (if r.isLocal == 0 then {r.mac} else {})
    ensures r.mac !in RemoteMacs(h)
  {
  }

  lemma {:induction false} RemotesCounted(s: seq<Location>, h: Host)
    requires Distinct(s) && h.table == TableOf(s)
    ensures RemotesIn(s) == |RemoteMacs(h)|
    decreases |s|
  {
    if s == [] {
      assert RemoteMacs(h) == {};
    } else {
      var init, last := s[..|s| - 1], s[|s| - 1];
      var before := h.(table := TableOf(init));
      RemotesCounted(init, before);
      TableMeaning(init);
      NotYetListed(s, before.table);
      RemoteMacsInsert(before, last);
    }
  }
}
