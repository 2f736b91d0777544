/** The Core's growable tables: items in insertion order, deleted by value, read through one
    shared cursor. What a scan returns when others add and delete while it runs.
 */
module CoreTable {
  import opened Basics

  const ADD: nat := 0xa
  const DEL: nat := 0xb

  /** An item; `id` is its place in the order of insertion, which no operation looks at. */
  datatype Entry = Entry(id: nat, data: seq<byte>)

  datatype Store = Store(items: seq<Entry>, cursor: nat, nextId: nat)

  predicate Ordered(s: Store) {
    && s.cursor <= |s.items|
    && (forall i, j :: 0 <= i < j < |s.items| ==> s.items[i].id < s.items[j].id)
    && (forall i :: 0 <= i < |s.items| ==> s.items[i].id < s.nextId)
  }

  function Added(s: Store, data: seq<byte>): Store {
    s.(items := s.items + [Entry(s.nextId, data)], nextId := s.nextId + 1)
  }

  function FirstEqual(items: seq<Entry>, data: seq<byte>, i: nat): (k: nat)
    requires i <= |items|
    ensures i <= k <= |items| && (k < |items| ==> items[k].data == data)
    ensures forall j :: i <= j < k ==> items[j].data != data
    decreases |items| - i
  {
    if i == |items| || items[i].data == data then i else FirstEqual(items, data, i + 1)
  }

  /** `t` is `s` without its first item equal to `data`, the cursor still within the table. */
  ghost predicate Removed(s: Store, data: seq<byte>, t: Store) {
    exists i: nat ::
      && i < |s.items| && s.items[i].data == data && (forall j :: 0 <= j < i ==> s.items[j].data != data)
      && t.items == s.items[..i] + s.items[i + 1..] && t.nextId == s.nextId
      && t.cursor == if s.cursor < |s.items| then s.cursor else |s.items| - 1
  }

  lemma {:induction false} DeletedIsRemoved(s: Store, data: seq<byte>)
    requires Ordered(s) && FirstEqual(s.items, data, 0) < |s.items|
    ensures Removed(s, data, Deleted(s, FirstEqual(s.items, data, 0)))
  {
  }

  function Without(items: seq<Entry>, i: nat): seq<Entry>
    requires i < |items|
  {
    items[..i] + items[i + 1..]
  }

  /** The cursor is pulled back only when it would point past the end. */
  function Deleted(s: Store, i: nat): Store
    requires i < |s.items|
  {
    s.(items := Without(s.items, i), cursor := if s.cursor > |s.items| - 1 then |s.items| - 1 else s.cursor)
  }

  /** A filter is a prefix; no filter matches everything. */
  predicate Matches(e: Entry, filter: Option<seq<byte>>) {
    filter.None? || filter.value <= e.data
  }

  function NextMatch(items: seq<Entry>, filter: Option<seq<byte>>, i: nat): (k: nat)
    requires i <= |items|
    ensures i <= k <= |items| && (k < |items| ==> Matches(items[k], filter))
    ensures forall j :: i <= j < k ==> !Matches(items[j], filter)
    decreases |items| - i
  {
    if i == |items| || Matches(items[i], filter) then i else NextMatch(items, filter, i + 1)
  }

  function Entries(ids: seq<nat>, data: seq<seq<byte>>): (items: seq<Entry>)
    requires |ids| == |data|
    ensures |items| == |ids| && forall i :: 0 <= i < |ids| ==> items[i] == Entry(ids[i], data[i])
  {
    seq(|ids|, i requires 0 <= i < |ids| => Entry(ids[i], data[i]))
  }

  lemma {:induction false} EntriesWithout(ids: seq<nat>, data: seq<seq<byte>>, i: nat)
    requires |ids| == |data| && i < |ids|
    ensures Entries(ids[..i] + ids[i + 1..], data[..i] + data[i + 1..]) == Without(Entries(ids, data), i)
    ensures |Without(Entries(ids, data), i)| == |ids| - 1
  {
  }

  /** The memmove of a delete. */
  method CloseGap(items: array<seq<byte>>, i: nat, count: nat)
    requires i < count <= items.Length
    modifies items
    ensures items[..count - 1] == old(items[..i]) + old(items[i + 1..count])
  {
    var k := i;
    while k + 1 < count
      invariant i <= k < count
      invariant forall j :: 0 <= j < count ==> items[j] == if i <= j < k then old(items[j + 1]) else old(items[j])
    {
      items[k] := items[k + 1];
      k := k + 1;
    }
  }

  /** What a read returns and where it leaves the cursor: the first item at or after the cursor that
      begins with the filter, if there is one, any item when there is no filter. */
  ghost predicate NextAfter(s: Store, filter: Option<seq<byte>>, copy: Option<seq<byte>>, t: Store) {
    match copy
    case None =>
      && t == s
      && forall j :: s.cursor <= j < |s.items| ==> filter.Some? && !(filter.value <= s.items[j].data)
    case Some(data) =>
      && s.cursor < t.cursor <= |s.items| && t == s.(cursor := t.cursor)
      && data == s.items[t.cursor - 1].data && (filter.Some? ==> filter.value <= data)
      && forall j :: s.cursor <= j < t.cursor - 1 ==> filter.Some? && !(filter.value <= s.items[j].data)
  }

  /** The store after an answered read. */
  function AfterRead(s: Store, filter: Option<seq<byte>>): (Option<seq<byte>>, Store)
    requires Ordered(s)
  {
    var k := NextMatch(s.items, filter, s.cursor);
    if k == |s.items| then (None, s) else (Some(s.items[k].data), s.(cursor := k + 1))
  }

  lemma {:induction false} ReadIsNext(s: Store, filter: Option<seq<byte>>)
    requires Ordered(s)
    ensures NextAfter(s, filter, AfterRead(s, filter).0, AfterRead(s, filter).1)
    ensures filter.None? ==> AfterRead(s, filter).1 == Step(Scan(s, [], {}, 0), Op.Read).store
  {
  }

  // ---------- The table in place ----------

  /** What all tables share. */
  class Core {
    var initialised: bool
    var generation: nat

    constructor ()
      ensures initialised && generation == 0
    {
      initialised, generation := true, 0;
    }
  }

  class Table {
    const core: Core
    const writable: bool
    var items: array<seq<byte>>
    var count: nat
    var cursor: nat
    ghost var ids: seq<nat>
    ghost var nextId: nat

    ghost predicate Valid()
      reads this, items
    {
      && cursor <= count <= items.Length && |ids| == count
      && Ordered(View())
    }

    ghost function View(): Store
      reads this, items
      requires count <= items.Length && |ids| == count
    {
      Store(Entries(ids, items[..count]), cursor, nextId)
    }

    constructor (core: Core, writable: bool)
      ensures Valid() && fresh(items) && this.core == core && this.writable == writable
      ensures View() == Store([], 0, 0) && items.Length == 0
    {
      this.core, this.writable := core, writable;
      items := new seq<byte>[0];
      count, cursor := 0, 0;
      ids, nextId := [], 0;
    }

    /** Capacity 8 first, then doubling. */
    method EnsureCapacity()
      requires Valid()
      modifies this`items
      ensures Valid() && View() == old(View())
      ensures count < items.Length && (items == old(items) || fresh(items))
      ensures items.Length == if old(items.Length) > count then old(items.Length) else if old(items.Length) == 0 then 8 else 2 * old(items.Length)
    {
      if count < items.Length {
        return;
      }
      var next := if items.Length != 0 then items.Length * 2 else 8;
      var bigger := new seq<byte>[next](i requires 0 <= i reads this, items => if i < items.Length then items[i] else []);
      ghost var before := View();
      items := bigger;
      assert View() == before;
    }

    /** daim_table_write. */
    method Write(entry: seq<byte>, op: nat) returns (ok: bool)
      requires Valid()
      modifies this, items, core`generation
      ensures Valid() && (items == old(items) || fresh(items))
      ensures core.generation == old(core.generation) + if ok then 1 else 0
      ensures ok <==>
        && core.initialised && writable && entry != []
        && (op == ADD || (op == DEL && FirstEqual(old(View()).items, entry, 0) < |old(View()).items|))
      ensures !ok ==> View() == old(View())
      ensures ok && op == ADD ==> View() == Added(old(View()), entry)
      ensures ok && op == DEL ==> View() == Deleted(old(View()), FirstEqual(old(View()).items, entry, 0))
      ensures ok ==> op == 0xa || op == 0xb
      ensures ok && op == 0xa ==> View() == old(View()).(
        items := old(View()).items + [Entry(old(View()).nextId, entry)], nextId := old(View()).nextId + 1)
      ensures ok && op == 0xb ==> Removed(old(View()), entry, View())
      ensures op == 0xb && core.initialised && writable && entry != [] && !ok ==>
        forall i :: 0 <= i < |old(View()).items| ==> old(View()).items[i].data != entry
    {
      if !core.initialised || !writable || entry == [] {
        return false;
      }
      if op != ADD && op != DEL {
        return false;
      }
      ghost var before := View();
      if op == ADD {
        EnsureCapacity();
        Append(entry);
      } else {
        var i := 0;
        while i < count
          invariant 0 <= i <= count && View() == before && Valid()
          invariant FirstEqual(before.items, entry, 0) == FirstEqual(before.items, entry, i)
        {
          assert before.items[i].data == items[i];
          if items[i] == entry {
            DeletedIsRemoved(before, entry);
            RemoveAt(i);
            core.generation := core.generation + 1;
            return true;
          }
          i := i + 1;
        }
        return false;
      }
      core.generation := core.generation + 1;
      ok := true;
    }

    method Append(entry: seq<byte>)
      requires Valid() && count < items.Length
      modifies this, items
      ensures Valid() && items == old(items)
      ensures View() == Added(old(View()), entry)
    {
      ghost var before := View();
      items[count] := entry;
      count := count + 1;
      ids, nextId := ids + [nextId], nextId + 1;
      assert View().items == before.items + [Entry(before.nextId, entry)];
    }

    /** Close the gap, then pull the cursor back if it points past the end. */
    method RemoveAt(i: nat)
      requires Valid() && i < count
      modifies this, items
      ensures Valid() && items == old(items)
      ensures View() == Deleted(old(View()), i)
    {
      ghost var before, data := View(), items[..count];
      DeletedIsOk(before, i);
      EntriesWithout(ids, data, i);
      hide Ordered, Entries, Without;
      CloseGap(items, i, count);
      ids := ids[..i] + ids[i + 1..];
      count := count - 1;
      if cursor > count {
        cursor := count;
      }
      assert items[..count] == data[..i] + data[i + 1..];
    }

    /** daim_table_read: a copy of the next match, and the cursor behind it. */
    method Read(filter: Option<seq<byte>>) returns (copy: Option<seq<byte>>)
      requires Valid()
      modifies this`cursor
      ensures Valid()
      ensures (copy, View()) == if core.initialised then AfterRead(old(View()), filter) else (None, old(View()))
      ensures core.initialised ==> NextAfter(old(View()), filter, copy, View())
      ensures core.initialised && filter.None? ==> View() == Step(Scan(old(View()), [], {}, 0), Op.Read).store
    {
      if !core.initialised {
        return None;
      }
      ghost var before := View();
      ReadIsNext(before, filter);
      hide NextAfter, Step;
      var i := cursor;
      while i < count
        invariant cursor <= i <= count && View() == before && Valid()
        invariant NextMatch(before.items, filter, before.cursor) == NextMatch(before.items, filter, i)
      {
        assert before.items[i].data == items[i];
        if filter.None? || filter.value <= items[i] {
          copy := Some(items[i]);
          cursor := i + 1;
          assert View().items == before.items;
          return;
        }
        i := i + 1;
      }
      copy := None;
    }

    method Rewind()
      requires Valid()
      modifies this`cursor
      ensures Valid()
      ensures View() == if core.initialised then old(View()).(cursor := 0) else old(View())
    {
      ghost var before := View();
      if core.initialised {
        cursor := 0;
      }
      assert View().items == before.items;
    }
  }

  lemma {:induction false} DeletedIsOk(s: Store, i: nat)
    requires Ordered(s) && i < |s.items|
    ensures Ordered(Deleted(s, i))
  {
  }

  // ---------- A scan among other operations ----------

  datatype Op = Add(data: seq<byte>) | Delete(data: seq<byte>) | Read

  /** A store being scanned: the items the scan has returned, in order, and those it passed over. */
  datatype Scan = Scan(store: Store, returned: seq<nat>, missed: set<nat>, skips: nat)

  /** A delete below a cursor that is below the end moves the next item under the cursor. */
  predicate Skips(s: Store, i: nat) {
    i < s.cursor < |s.items|
  }

  function Step(sc: Scan, op: Op): Scan
    requires Ordered(sc.store)
  {
    var s := sc.store;
    match op
    case Add(data) => sc.(store := Added(s, data))
    case Delete(data) =>
      var i := FirstEqual(s.items, data, 0);
      if i == |s.items| then sc
      else if Skips(s, i) then sc.(store := Deleted(s, i), missed := sc.missed + {s.items[s.cursor].id}, skips := sc.skips + 1)
      else sc.(store := Deleted(s, i))
    case Read =>
      if s.cursor == |s.items| then sc
      else sc.(store := s.(cursor := s.cursor + 1), returned := sc.returned + [s.items[s.cursor].id])
  }

  lemma {:induction false} StepKeepsOk(sc: Scan, op: Op)
    requires Ordered(sc.store)
    ensures Ordered(Step(sc, op).store)
  {
    if op.Delete? {
      var i := FirstEqual(sc.store.items, op.data, 0);
      if i < |sc.store.items| {
        DeletedIsOk(sc.store, i);
      }
      hide Ordered, Deleted, FirstEqual;
    }
  }

  function RunScan(sc: Scan, ops: seq<Op>): (t: Scan)
    requires Ordered(sc.store)
    ensures Ordered(t.store)
    decreases |ops|
  {
    if ops == [] then sc
    else
      var before := RunScan(sc, ops[..|ops| - 1]);
      StepKeepsOk(before, ops[|ops| - 1]);
      Step(before, ops[|ops| - 1])
  }

  /** Below the cursor everything was returned or missed, never both; at and above it neither. */
  ghost predicate Split(sc: Scan) {
    var s := sc.store;
    && s.cursor <= |s.items|
    && (forall i :: 0 <= i < s.cursor ==> (s.items[i].id in sc.returned <==> s.items[i].id !in sc.missed))
    && (forall i, x :: s.cursor <= i < |s.items| && (x in sc.returned || x in sc.missed) ==> x < s.items[i].id)
  }

  ghost predicate Rising(xs: seq<nat>) {
    forall i, j :: 0 <= i < j < |xs| ==> xs[i] < xs[j]
  }

  ghost predicate ScanOk(sc: Scan) {
    && Ordered(sc.store) && Split(sc) && Rising(sc.returned) && |sc.missed| == sc.skips
    && (forall x :: x in sc.returned || x in sc.missed ==> x < sc.store.nextId)
    && (forall x :: x in sc.returned ==> x !in sc.missed)
  }

  lemma {:induction false} DeleteKeepsScan(sc: Scan, i: nat)
    requires ScanOk(sc) && i < |sc.store.items|
    ensures ScanOk(if Skips(sc.store, i)
      then sc.(store := Deleted(sc.store, i), missed := sc.missed + {sc.store.items[sc.store.cursor].id}, skips := sc.skips + 1)
      else sc.(store := Deleted(sc.store, i)))
  {
    DeletedIsOk(sc.store, i);
    DeleteKeepsSplit(sc, i);
    hide Split, Ordered;
  }

  lemma {:induction false} DeleteKeepsSplit(sc: Scan, i: nat)
    requires Ordered(sc.store) && Split(sc) && i < |sc.store.items|
    ensures Split(if Skips(sc.store, i)
      then sc.(store := Deleted(sc.store, i), missed := sc.missed + {sc.store.items[sc.store.cursor].id}, skips := sc.skips + 1)
      else sc.(store := Deleted(sc.store, i)))
    ensures Skips(sc.store, i) ==> sc.store.items[sc.store.cursor].id < sc.store.nextId
    ensures Skips(sc.store, i) ==> var id := sc.store.items[sc.store.cursor].id; id !in sc.returned && id !in sc.missed
  {
  }

  lemma {:induction false} StepKeepsScan(sc: Scan, op: Op)
    requires ScanOk(sc)
    ensures ScanOk(Step(sc, op))
  {
    match op
    case Add(_) =>
    case Delete(data) =>
      hide ScanOk, Deleted, FirstEqual, Skips;
      assert Ordered(sc.store) by {
        ScanIsOrdered(sc);
      }
      var i := FirstEqual(sc.store.items, data, 0);
      if i < |sc.store.items| {
        DeleteKeepsScan(sc, i);
      }
    case Read =>
      hide ScanOk;
      ReadKeepsScan(sc);
  }

  lemma {:induction false} ScanIsOrdered(sc: Scan)
    requires ScanOk(sc)
    ensures Ordered(sc.store)
  {
  }

  lemma {:induction false} ReadKeepsScan(sc: Scan)
    requires ScanOk(sc)
    ensures ScanOk(Step(sc, Read))
  {
    var s := sc.store;
    if s.cursor < |s.items| {
      var id, t := s.items[s.cursor].id, Step(sc, Read);
      assert t.returned[|sc.returned|] == id;
      forall x | x in t.returned ensures x in sc.returned || x == id {
      }
      forall i | 0 <= i < |sc.returned| ensures sc.returned[i] < id {
        assert sc.returned[i] in sc.returned;
      }
    }
  }

  lemma {:induction false} RunKeepsScan(sc: Scan, ops: seq<Op>)
    requires ScanOk(sc)
    ensures ScanOk(RunScan(sc, ops))
    decreases |ops|
  {
    if ops != [] {
      RunKeepsScan(sc, ops[..|ops| - 1]);
      StepKeepsScan(RunScan(sc, ops[..|ops| - 1]), ops[|ops| - 1]);
    }
  }

  function Rewound(s: Store): Scan {
    Scan(s.(cursor := 0), [], {}, 0)
  }

  /** Over any adds, deletes and reads after a rewind: nothing is returned twice, and it comes in
      insertion order. Once the scan has reached the end, every item still there has been
      returned, except exactly those missed, one per skipping delete. */
  lemma {:induction false} ScanCoverage(s: Store, ops: seq<Op>)
    requires Ordered(s)
    ensures var t := RunScan(Rewound(s), ops);
      && Rising(t.returned)
      && |t.missed| == t.skips
      && (t.store.cursor == |t.store.items| ==>
           forall i :: 0 <= i < |t.store.items| ==> (t.store.items[i].id in t.returned <==> t.store.items[i].id !in t.missed))
  {
    RunKeepsScan(Rewound(s), ops);
  }

  /** Without a skipping delete the scan misses nothing. */
  lemma {:induction false} QuietScanIsComplete(s: Store, ops: seq<Op>)
    requires Ordered(s)
    ensures var t := RunScan(Rewound(s), ops);
      t.skips == 0 && t.store.cursor == |t.store.items| ==> forall i :: 0 <= i < |t.store.items| ==> t.store.items[i].id in t.returned
  {
    ScanCoverage(s, ops);
  }

  // ---------- The generation counter over all tables ----------

  datatype Bank = Bank(stores: seq<Store>, generation: nat)

  ghost predicate AllOrdered(b: Bank) {
    forall k :: 0 <= k < |b.stores| ==> Ordered(b.stores[k])
  }

  function StoreAfter(s: Store, op: Op): (t: Store)
    requires Ordered(s)
    ensures Ordered(t)
  {
    var sc := Scan(s, [], {}, 0);
    StepKeepsOk(sc, op);
    Step(sc, op).store
  }

  predicate Succeeds(s: Store, op: Op) {
    op.Add? || (op.Delete? && FirstEqual(s.items, op.data, 0) < |s.items|)
  }

  /** One call on table `k`; a number that is no table's is refused. */
  function BankAfter(b: Bank, k: nat, op: Op): (t: Bank)
    requires AllOrdered(b)
    ensures AllOrdered(t)
  {
    if k >= |b.stores| then b
    else Bank(b.stores[k := StoreAfter(b.stores[k], op)], b.generation + if Succeeds(b.stores[k], op) then 1 else 0)
  }

  function RunBank(b: Bank, ops: seq<(nat, Op)>): (t: Bank)
    requires AllOrdered(b)
    ensures AllOrdered(t)
    decreases |ops|
  {
    if ops == [] then b
    else
      var last := ops[|ops| - 1];
      BankAfter(RunBank(b, ops[..|ops| - 1]), last.0, last.1)
  }

  /** The adds and the deletes that succeeded. */
  function Tally(b: Bank, ops: seq<(nat, Op)>): (nat, nat)
    requires AllOrdered(b)
    decreases |ops|
  {
    if ops == [] then (0, 0)
    else
      var (adds, dels) := Tally(b, ops[..|ops| - 1]);
      var (before, (k, op)) := (RunBank(b, ops[..|ops| - 1]), ops[|ops| - 1]);
      if k >= |before.stores| || !Succeeds(before.stores[k], op) then (adds, dels)
      else if op.Add? then (adds + 1, dels) else (adds, dels + 1)
  }

  function TotalItems(stores: seq<Store>): nat {
    if stores == [] then 0 else |stores[0].items| + TotalItems(stores[1..])
  }

  lemma {:induction false} TotalAfterUpdate(stores: seq<Store>, k: nat, s: Store)
    requires k < |stores|
    ensures TotalItems(stores[k := s]) == TotalItems(stores) - |stores[k].items| + |s.items|
    decreases k
  {
    var updated := stores[k := s];
    if k == 0 {
      assert updated[1..] == stores[1..];
    } else {
      assert updated[1..] == stores[1..][k - 1 := s] && updated[0] == stores[0];
      TotalAfterUpdate(stores[1..], k - 1, s);
    }
  }

  lemma {:induction false} ItemsAfter(s: Store, op: Op)
    requires Ordered(s)
    ensures |StoreAfter(s, op).items| == |s.items| + if !Succeeds(s, op) then 0 else if op.Add? then 1 else -1
    ensures !Succeeds(s, op) ==> StoreAfter(s, op).items == s.items
  {
  }

  /** Over any calls on any tables, the generation grows by the adds and deletes that succeeded,
      and the number of items by their difference. */
  lemma {:induction false} GenerationCountsWrites(b: Bank, ops: seq<(nat, Op)>)
    requires AllOrdered(b)
    ensures var (t, (adds, dels)) := (RunBank(b, ops), Tally(b, ops));
      t.generation == b.generation + adds + dels && TotalItems(t.stores) == TotalItems(b.stores) + adds - dels
    decreases |ops|
  {
    if ops != [] {
      GenerationCountsWrites(b, ops[..|ops| - 1]);
      var (before, (k, op)) := (RunBank(b, ops[..|ops| - 1]), ops[|ops| - 1]);
      if k < |before.stores| {
        TotalAfterUpdate(before.stores, k, StoreAfter(before.stores[k], op));
        ItemsAfter(before.stores[k], op);
      }
    }
  }

  /** An unchanged generation means that no table's contents have changed. */
  lemma {:induction false} SameGenerationSameItems(b: Bank, ops: seq<(nat, Op)>)
    requires AllOrdered(b)
    ensures var t := RunBank(b, ops);
      && |t.stores| == |b.stores| && t.generation >= b.generation
      && (t.generation == b.generation ==> forall k :: 0 <= k < |b.stores| ==> t.stores[k].items == b.stores[k].items)
    decreases |ops|
  {
    if ops != [] {
      SameGenerationSameItems(b, ops[..|ops| - 1]);
      var (before, (k, op)) := (RunBank(b, ops[..|ops| - 1]), ops[|ops| - 1]);
      if k < |before.stores| {
        ItemsAfter(before.stores[k], op);
      }
    }
  }
}
