/** The two-lock discipline of send_framed, slot acquisition and teardown inside one process,
    one step per lock-protected region, system call or partial write.

    The transport lock guards `active`, `ready`, slot assignment and message ids, so each of
    those is one step. A slot's send lock spans several steps, so its holder is part of the
    state. A socket is named by the connection thread that runs it; a descriptor number may be
    given out again as soon as it is closed. A connection thread's own sends are treated like
    any other sender's, which only allows more interleavings than the code has.
 */
module SendSafety {
  import opened Basics

  const MAX_CONNECTIONS: nat := 32

  type Tid = nat
  type Fd = nat

  /** `owner` is history: the connection thread that last acquired the slot. */
  datatype Slot = Slot(fd: Fd, active: bool, ready: bool, owner: Tid)

  datatype Pc =
    // a connection thread, in run_connection
    | Opened(fd: Fd)
    | Serving(fd: Fd, slot: nat)
    | TearLocked(fd: Fd, slot: nat)   // holds the send lock, descriptor still open
    | TearShut(fd: Fd, slot: nat)     // descriptor closed, flags still set
    | TearCleared(slot: nat)          // flags cleared, lock still held
    // a thread in send_framed
    | Calling(slot: nat)
    | Locked(slot: nat)
    | Checked(slot: nat, id: nat, owner: Tid)             // saw `active`, drew a message id
    | Writing(slot: nat, id: nat, owner: Tid, fd: Fd)     // in send_all(conn->fd, ...)
    | Finishing(slot: nat)                                // about to release the send lock
    | Gone
  {
    /** In charge of a slot whose flags are set. */
    predicate Owns() { Serving? || TearLocked? || TearShut? }
    predicate HasOpenFd() { Opened? || Serving? || TearLocked? }
    predicate HoldsLock() {
      TearLocked? || TearShut? || TearCleared? || Locked? || Checked? || Writing? || Finishing?
    }
    predicate Sending() { Checked? || Writing? }
  }

  /** A piece of frame `id`, written by the call `sender` after `owner`'s active flag had been checked. */
  datatype Chunk = Chunk(id: nat, owner: Tid, sender: Tid)

  datatype State = State(
    threads: map<Tid, Pc>,
    slots: seq<Slot>,
    holder: seq<Option<Tid>>,      // of each slot's send lock
    fds: map<Fd, Tid>,             // open descriptors and the socket behind each
    lastId: nat,
    wires: map<Tid, seq<Chunk>>)   // what each socket has carried

  function Start(): State {
    State(map[], seq(MAX_CONNECTIONS, i => Slot(0, false, false, 0)), seq(MAX_CONNECTIONS, i => None), map[], 0, map[])
  }

  datatype Step =
    | OpenSocket(t: Tid, fd: Fd)
    | Acquire(t: Tid, k: nat)
    | GiveUp(t: Tid)               // no free slot: close the socket
    | MarkReady(t: Tid)
    | TakeTearLock(t: Tid)
    | CloseFd(t: Tid)
    | ClearFlags(t: Tid)
    | ReleaseTearLock(t: Tid)
    | Call(t: Tid, k: nat)
    | TakeSendLock(t: Tid)
    | CheckActive(t: Tid)
    | ReadFd(t: Tid)
    | WriteSome(t: Tid, last: bool)
    | WriteFails(t: Tid)
    | ReleaseSendLock(t: Tid)

  ghost predicate Enabled(s: State, step: Step) {
    match step
    case OpenSocket(t, fd) => t !in s.threads && fd !in s.fds
    case Call(t, k) => t !in s.threads && k < |s.slots|
    case _ => step.t in s.threads && ThreadEnabled(s, s.threads[step.t], step)
  }

  ghost predicate ThreadEnabled(s: State, pc: Pc, step: Step) {
    match step
    case Acquire(_, k) => pc.Opened? && k < |s.slots| && !s.slots[k].active
    case GiveUp(_) => pc.Opened? && forall k :: 0 <= k < |s.slots| ==> s.slots[k].active
    case MarkReady(_) => pc.Serving? && pc.slot < |s.slots|
    case TakeTearLock(_) => pc.Serving? && pc.slot < |s.holder| && s.holder[pc.slot].None?
    case CloseFd(_) => pc.TearLocked?
    case ClearFlags(_) => pc.TearShut? && pc.slot < |s.slots|
    case ReleaseTearLock(_) => pc.TearCleared? && pc.slot < |s.holder|
    case TakeSendLock(_) => pc.Calling? && pc.slot < |s.holder| && s.holder[pc.slot].None?
    case CheckActive(_) => pc.Locked? && pc.slot < |s.slots|
    case ReadFd(_) => pc.Checked? && pc.slot < |s.slots|
    case WriteSome(_, _) => pc.Writing?
    case WriteFails(_) => pc.Writing?
    case ReleaseSendLock(_) => pc.Finishing? && pc.slot < |s.holder|
    case _ => false
  }

  function WireOf(s: State, sock: Tid): seq<Chunk> {
    if sock in s.wires then s.wires[sock] else []
  }

  function Do(s: State, step: Step): State
    requires Enabled(s, step)
  {
    match step
    case OpenSocket(t, fd) => s.(threads := s.threads[t := Opened(fd)], fds := s.fds[fd := t])
    case Call(t, k) => s.(threads := s.threads[t := Calling(k)])
    case _ => ThreadStep(s, step.t, s.threads[step.t], step)
  }

  function ThreadStep(s: State, t: Tid, pc: Pc, step: Step): State
    requires ThreadEnabled(s, pc, step)
  {
    match step
    case Acquire(_, k) =>
      s.(threads := s.threads[t := Serving(pc.fd, k)], slots := s.slots[k := Slot(pc.fd, true, false, t)])
    case GiveUp(_) => s.(threads := s.threads[t := Gone], fds := s.fds - {pc.fd})
    case MarkReady(_) => s.(slots := s.slots[pc.slot := s.slots[pc.slot].(ready := true)])
    case TakeTearLock(_) =>
      s.(threads := s.threads[t := TearLocked(pc.fd, pc.slot)], holder := s.holder[pc.slot := Some(t)])
    case CloseFd(_) => s.(threads := s.threads[t := TearShut(pc.fd, pc.slot)], fds := s.fds - {pc.fd})
    case ClearFlags(_) =>
      s.(threads := s.threads[t := TearCleared(pc.slot)],
         slots := s.slots[pc.slot := s.slots[pc.slot].(active := false, ready := false)])
    case ReleaseTearLock(_) => s.(threads := s.threads[t := Gone], holder := s.holder[pc.slot := None])
    case TakeSendLock(_) => s.(threads := s.threads[t := Locked(pc.slot)], holder := s.holder[pc.slot := Some(t)])
    case CheckActive(_) =>
      if s.slots[pc.slot].active then
        s.(threads := s.threads[t := Checked(pc.slot, s.lastId + 1, s.slots[pc.slot].owner)], lastId := s.lastId + 1)
      else s.(threads := s.threads[t := Finishing(pc.slot)])
    case ReadFd(_) => s.(threads := s.threads[t := Writing(pc.slot, pc.id, pc.owner, s.slots[pc.slot].fd)])
    case WriteSome(_, last) =>
      // whatever socket the number denotes now gets the bytes; a closed number gets none
      var after := if last then Finishing(pc.slot) else pc;
      if pc.fd in s.fds then
        var sock := s.fds[pc.fd];
        s.(threads := s.threads[t := after], wires := s.wires[sock := WireOf(s, sock) + [Chunk(pc.id, pc.owner, t)]])
      else s.(threads := s.threads[t := Finishing(pc.slot)])
    case WriteFails(_) => s.(threads := s.threads[t := Finishing(pc.slot)])
    case ReleaseSendLock(_) => s.(threads := s.threads[t := Gone], holder := s.holder[pc.slot := None])
  }

  ghost predicate Run(s: State, steps: seq<Step>, t: State)
    decreases |steps|
  {
    if steps == [] then s == t else Enabled(s, steps[0]) && Run(Do(s, steps[0]), steps[1..], t)
  }

  ghost predicate Reachable(s: State) {
    exists steps :: Run(Start(), steps, s)
  }

  // ---------- The invariant ----------

  ghost predicate ThreadOk(s: State, t: Tid)
    requires t in s.threads
  {
    var pc := s.threads[t];
    && (pc.Owns() ==> pc.slot < |s.slots| && s.slots[pc.slot].active && s.slots[pc.slot].owner == t && s.slots[pc.slot].fd == pc.fd)
    && (pc.HasOpenFd() ==> pc.fd in s.fds && s.fds[pc.fd] == t)
    && (pc.HoldsLock() ==> pc.slot < |s.holder| && s.holder[pc.slot] == Some(t))
    && (pc.Sending() ==>
          && pc.slot < |s.slots| && s.slots[pc.slot].active && s.slots[pc.slot].owner == pc.owner
          && pc.owner in s.threads && s.threads[pc.owner] == Serving(s.slots[pc.slot].fd, pc.slot)
          && pc.id <= s.lastId
          && forall c :: c in WireOf(s, pc.owner) ==> c.id < pc.id || (c.id == pc.id && c.sender == t))
    && (pc.Writing? ==> pc.fd == s.slots[pc.slot].fd)
  }

  ghost predicate SlotOk(s: State, k: nat)
    requires k < |s.slots|
  {
    var slot := s.slots[k];
    && (slot.active ==> slot.owner in s.threads && s.threads[slot.owner].Owns() && s.threads[slot.owner].slot == k)
    && (slot.ready ==> slot.active)
  }

  ghost predicate FdOk(s: State, fd: Fd)
    requires fd in s.fds
  {
    s.fds[fd] in s.threads && s.threads[s.fds[fd]].HasOpenFd() && s.threads[s.fds[fd]].fd == fd
  }

  /** Every piece went to the socket it was meant for, in the order of the message ids. */
  ghost predicate WireOk(w: seq<Chunk>, sock: Tid, lastId: nat) {
    && (forall i :: 0 <= i < |w| ==> w[i].owner == sock && w[i].id <= lastId)
    && (forall i, j :: 0 <= i < j < |w| ==> w[i].id < w[j].id || (w[i].id == w[j].id && w[i].sender == w[j].sender))
  }

  ghost predicate Inv(s: State) {
    && |s.slots| == MAX_CONNECTIONS && |s.holder| == MAX_CONNECTIONS
    && (forall t {:trigger ThreadOk(s, t)} :: t in s.threads ==> ThreadOk(s, t))
    && (forall k: nat {:trigger SlotOk(s, k)} :: k < |s.slots| ==> SlotOk(s, k))
    && (forall fd {:trigger FdOk(s, fd)} :: fd in s.fds ==> FdOk(s, fd))
    && (forall sock {:trigger s.wires[sock]} :: sock in s.wires ==> WireOk(s.wires[sock], sock, s.lastId))
  }

  /** What a step may rely on about thread `t`. */
  ghost predicate Settled(s: State, t: Tid) {
    && t in s.threads && ThreadOk(s, t)
    && (s.threads[t].Sending() ==> ThreadOk(s, s.threads[t].owner))
  }

  lemma {:induction false} SettledBy(s: State, t: Tid)
    requires Inv(s) && t in s.threads
    ensures Settled(s, t)
  {
  }

  lemma {:induction false} SpawnKeepsThread(s: State, step: Step, t: Tid)
    requires Enabled(s, step) && (step.OpenSocket? || step.Call?) && Settled(s, t)
    ensures ThreadOk(Do(s, step), t)
  {
  }

  lemma {:induction false} WriteKeepsOther(s: State, step: Step, t: Tid)
    requires Enabled(s, step) && step.WriteSome? && t != step.t && Settled(s, t) && Settled(s, step.t)
    ensures ThreadOk(Do(s, step), t)
  {
  }

  lemma {:induction false} StepKeepsOther(s: State, step: Step, t: Tid)
    requires Enabled(s, step) && !step.OpenSocket? && !step.Call? && !step.WriteSome?
    requires t != step.t && Settled(s, t) && Settled(s, step.t)
    ensures ThreadOk(Do(s, step), t)
  {
  }

  lemma {:induction false} CheckKeepsMover(s: State, step: Step)
    requires Enabled(s, step) && step.CheckActive? && Settled(s, step.t)
    requires SlotOk(s, s.threads[step.t].slot)
    requires var slot := s.slots[s.threads[step.t].slot];
      slot.active ==> slot.owner in s.threads && ThreadOk(s, slot.owner)
    requires forall sock :: sock in s.wires ==> WireOk(s.wires[sock], sock, s.lastId)
    ensures ThreadOk(Do(s, step), step.t)
  {
  }

  lemma {:induction false} WriteKeepsMover(s: State, step: Step)
    requires Enabled(s, step) && step.WriteSome? && Settled(s, step.t)
    ensures ThreadOk(Do(s, step), step.t)
  {
  }

  lemma {:induction false} StepKeepsMover(s: State, step: Step)
    requires Enabled(s, step) && !step.OpenSocket? && !step.Call? && !step.WriteSome? && !step.CheckActive?
    requires Settled(s, step.t) && |s.slots| == |s.holder|
    ensures ThreadOk(Do(s, step), step.t)
  {
  }

  lemma {:induction false} StepKeepsThread(s: State, step: Step, t: Tid)
    requires Inv(s) && Enabled(s, step) && t in Do(s, step).threads
    ensures ThreadOk(Do(s, step), t)
  {
    hide ThreadOk, SlotOk, FdOk, WireOk, Settled;
    if step.OpenSocket? || step.Call? {
      if t in s.threads {
        SettledBy(s, t);
        SpawnKeepsThread(s, step, t);
      } else {
        SpawnedOk(s, step);
      }
    } else {
      SettledBy(s, t);
      SettledBy(s, step.t);
      if t != step.t {
        if step.WriteSome? { WriteKeepsOther(s, step, t); } else { StepKeepsOther(s, step, t); }
      } else if step.WriteSome? {
        WriteKeepsMover(s, step);
      } else if step.CheckActive? {
        CheckedSlotOwner(s, s.threads[t].slot);
        CheckKeepsMover(s, step);
      } else {
        StepKeepsMover(s, step);
      }
    }
  }

  lemma {:induction false} SpawnedOk(s: State, step: Step)
    requires Enabled(s, step) && (step.OpenSocket? || step.Call?)
    ensures ThreadOk(Do(s, step), step.t)
  {
  }

  lemma {:induction false} CheckedSlotOwner(s: State, k: nat)
    requires Inv(s) && k < |s.slots|
    ensures SlotOk(s, k)
    ensures s.slots[k].active ==> s.slots[k].owner in s.threads && ThreadOk(s, s.slots[k].owner)
  {
  }

  lemma {:induction false} StepKeepsSlot(s: State, step: Step, k: nat)
    requires Enabled(s, step) && k < |s.slots| && |s.slots| == |s.holder| && SlotOk(s, k)
    requires !step.OpenSocket? && !step.Call? ==> Settled(s, step.t)
    ensures |Do(s, step).slots| == |s.slots| && SlotOk(Do(s, step), k)
  {
  }

  lemma {:induction false} StepKeepsFd(s: State, step: Step, fd: Fd)
    requires Enabled(s, step) && |s.slots| == |s.holder| && fd in Do(s, step).fds
    requires fd in s.fds ==> FdOk(s, fd)
    requires !step.OpenSocket? && !step.Call? ==> Settled(s, step.t)
    ensures FdOk(Do(s, step), fd)
  {
  }

  lemma {:induction false} StepKeepsWire(s: State, step: Step, sock: Tid)
    requires Enabled(s, step) && sock in Do(s, step).wires
    requires sock in s.wires ==> WireOk(s.wires[sock], sock, s.lastId)
    requires !step.OpenSocket? && !step.Call? ==> Settled(s, step.t)
    ensures WireOk(Do(s, step).wires[sock], sock, Do(s, step).lastId)
  {
    if step.WriteSome? {
      var pc := s.threads[step.t];
      assert s.fds[pc.fd] == pc.owner;
    } else {
      hide Settled, WireOk;
      OtherStepsKeepWire(s, step, sock);
      LaterIdsFit(if sock in s.wires then s.wires[sock] else [], sock, s.lastId, Do(s, step).lastId);
    }
  }

  lemma {:induction false} OtherStepsKeepWire(s: State, step: Step, sock: Tid)
    requires Enabled(s, step) && !step.WriteSome? && sock in Do(s, step).wires
    ensures Do(s, step).lastId >= s.lastId
    ensures Do(s, step).wires[sock] == if sock in s.wires then s.wires[sock] else []
  {
  }

  lemma {:induction false} LaterIdsFit(w: seq<Chunk>, sock: Tid, lastId: nat, later: nat)
    requires w == [] || WireOk(w, sock, lastId)
    requires lastId <= later
    ensures WireOk(w, sock, later)
  {
  }

  lemma {:induction false} StepKeepsInv(s: State, step: Step)
    requires Inv(s) && Enabled(s, step)
    ensures Inv(Do(s, step))
  {
    hide ThreadOk, SlotOk, FdOk, WireOk, Settled;
    var s2 := Do(s, step);
    if !step.OpenSocket? && !step.Call? {
      SettledBy(s, step.t);
    }
    forall t | t in s2.threads ensures ThreadOk(s2, t) {
      StepKeepsThread(s, step, t);
    }
    forall k: nat | k < |s2.slots| ensures SlotOk(s2, k) {
      assert SlotOk(s, k);
      StepKeepsSlot(s, step, k);
    }
    forall fd | fd in s2.fds ensures FdOk(s2, fd) {
      if fd in s.fds {
        assert FdOk(s, fd);
      }
      StepKeepsFd(s, step, fd);
    }
    forall sock | sock in s2.wires ensures WireOk(s2.wires[sock], sock, s2.lastId) {
      if sock in s.wires {
        assert WireOk(s.wires[sock], sock, s.lastId);
      }
      StepKeepsWire(s, step, sock);
    }
  }

  lemma {:induction false} RunKeepsInv(s: State, steps: seq<Step>, t: State)
    requires Inv(s) && Run(s, steps, t)
    ensures Inv(t)
    decreases |steps|
  {
    hide Inv, Enabled, Do;
    if steps != [] {
      StepKeepsInv(s, steps[0]);
      RunKeepsInv(Do(s, steps[0]), steps[1..], t);
    }
  }

  lemma {:induction false} ReachableInv(s: State)
    requires Reachable(s)
    ensures Inv(s)
  {
    var steps :| Run(Start(), steps, s);
    RunKeepsInv(Start(), steps, s);
  }

  // ---------- What the discipline guarantees ----------

  /** Every write goes through an open descriptor to the very socket whose active flag was
      checked: never through a closed number, never to a socket that reused it. */
  lemma {:induction false} WritesReachTheCheckedSocket(s: State, t: Tid)
    requires Reachable(s) && t in s.threads && s.threads[t].Writing?
    ensures s.threads[t].fd in s.fds && s.fds[s.threads[t].fd] == s.threads[t].owner
  {
    ReachableInv(s);
    SettledBy(s, t);
  }

  /** And a socket never carries anything checked for another. */
  lemma {:induction false} WiresCarryOnlyTheirOwn(s: State, sock: Tid, i: nat)
    requires Reachable(s) && sock in s.wires && i < |s.wires[sock]|
    ensures s.wires[sock][i].owner == sock
  {
    ReachableInv(s);
    assert WireOk(s.wires[sock], sock, s.lastId);
  }

  /** Along a wire the message id rises strictly from one send_framed call to the next, so
      frames are never interleaved. */
  lemma {:induction false} IdsRiseInWireOrder(s: State, sock: Tid, i: nat, j: nat)
    requires Reachable(s) && sock in s.wires && i < j < |s.wires[sock]|
    ensures var a, b := s.wires[sock][i], s.wires[sock][j];
      if a.sender == b.sender then a.id <= b.id else a.id < b.id
  {
    ReachableInv(s);
    assert WireOk(s.wires[sock], sock, s.lastId);
  }

  /** At most one sender is between check and last write on a slot. */
  lemma {:induction false} OneWriterPerSlot(s: State, t: Tid, u: Tid)
    requires Reachable(s) && t in s.threads && u in s.threads
    requires s.threads[t].Sending() && s.threads[u].Sending() && s.threads[t].slot == s.threads[u].slot
    ensures t == u
  {
    ReachableInv(s);
    SettledBy(s, t);
    SettledBy(s, u);
  }

  /** No two connections own one slot; `ready` implies `active`; an active slot has an owner. */
  lemma {:induction false} SlotsHaveOneOwner(s: State, k: nat, t: Tid, u: Tid)
    requires Reachable(s) && k < |s.slots| && t in s.threads && u in s.threads
    ensures |s.slots| == 32 && (s.slots[k].ready ==> s.slots[k].active)
    ensures s.slots[k].active ==> s.slots[k].owner in s.threads && s.threads[s.slots[k].owner].Owns()
    ensures s.threads[t].Owns() && s.threads[u].Owns() && s.threads[t].slot == k && s.threads[u].slot == k ==> t == u
  {
    ReachableInv(s);
    assert SlotOk(s, k);
    assert ThreadOk(s, t) && ThreadOk(s, u);
  }

  /** Teardown cannot begin, and so the descriptor cannot be reused, while a send is between
      its check and its last write. */
  lemma {:induction false} TeardownWaitsForSender(s: State, t: Tid)
    requires Reachable(s) && t in s.threads && s.threads[t].Sending()
    ensures s.threads[t].owner in s.threads && s.threads[s.threads[t].owner].Serving?
    ensures !Enabled(s, TakeTearLock(s.threads[t].owner))
  {
    ReachableInv(s);
    SettledBy(s, t);
  }
}
