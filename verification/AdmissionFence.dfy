/** The admission fence: a serial queue that an owner can drain, hold and reopen
    (packages/cli/src/namedSessionAdmission.ts:20-106).

    Every method is one turn of the event loop; a call that awaits is split where it awaits, so any
    interleaving of calls is a sequence of these methods. */
module AdmissionFence {
  import opened Outcomes

  const CAPACITY := 8

  /** An operation settles after it ran: its place in the count is free, its place in the queue is not. */
  datatype Operation = Queued | Running | Settling | Done

  datatype Transition = Quiescing | Resuming | Stopping

  datatype Waiter = Waiter(fenceId: string, generation: string, tail: nat)

  datatype Event = Started(op: nat) | Quiesced(fenceId: string) | Resumed(fenceId: string)

  predicate IsOpen(op: Operation) {
    op == Queued || op == Running
  }

  function Open(ops: seq<Operation>): nat {
    if ops == [] then 0 else Open(ops[..|ops| - 1]) + if IsOpen(ops[|ops| - 1]) then 1 else 0
  }

  /** First in, first out, one at a time: nothing has begun before everything ahead of it is done. */
  ghost predicate InTurn(ops: seq<Operation>) {
    forall i, j :: 0 <= i < j < |ops| && ops[j] != Queued ==> ops[i] == Done
  }

  /** Since entry i the fence was not lifted. */
  ghost predicate HeldSince(log: seq<Event>, i: nat) {
    forall m :: i < m < |log| ==> !log[m].Resumed?
  }

  /** The quiesce at i was lifted before j, under its own fence. */
  ghost predicate Lifted(log: seq<Event>, i: nat, j: nat)
    requires i < |log| && j <= |log| && log[i].Quiesced?
  {
    exists m :: i < m < j && log[m] == Resumed(log[i].fenceId)
  }

  /** After a quiesce nothing starts before its own fence was lifted. */
  ghost predicate Fenced(log: seq<Event>) {
    forall i, j :: 0 <= i < j < |log| && log[i].Quiesced? && log[j].Started? ==> Lifted(log, i, j)
  }

  /** An unlifted quiesce still holds its fence. */
  ghost predicate StillHeld(log: seq<Event>, fenceId: Option<string>, drained: bool) {
    forall i :: 0 <= i < |log| && log[i].Quiesced? && HeldSince(log, i) ==> fenceId == Some(log[i].fenceId) && drained
  }

  ghost predicate LiftedByOwner(log: seq<Event>) {
    forall i :: 0 <= i < |log| && log[i].Quiesced? && !HeldSince(log, i) ==> Lifted(log, i, |log|)
  }

  // ---------------------------------------------------------------- the queue

  lemma {:induction false} Replaced(ops: seq<Operation>, i: nat, op: Operation)
    requires i < |ops|
    ensures Open(ops[i := op]) == Open(ops) - (if IsOpen(ops[i]) then 1 else 0) + if IsOpen(op) then 1 else 0
  {
    var last := |ops| - 1;
    if i < last {
      Replaced(ops[..last], i, op);
      assert ops[i := op][..last] == ops[..last][i := op];
    } else {
      assert ops[i := op][..last] == ops[..last];
    }
  }

  lemma {:induction false} OpenIsCounted(ops: seq<Operation>, i: nat)
    requires i < |ops| && IsOpen(ops[i])
    ensures Open(ops) >= 1
  {
    if i < |ops| - 1 {
      OpenIsCounted(ops[..|ops| - 1], i);
    }
  }

  lemma Enqueues(ops: seq<Operation>)
    requires InTurn(ops)
    ensures InTurn(ops + [Queued]) && Open(ops + [Queued]) == Open(ops) + 1
  {
    assert (ops + [Queued])[..|ops|] == ops;
  }

  // ---------------------------------------------------------------- the log

  lemma LiftedStays(log: seq<Event>, e: Event, i: nat, j: nat)
    requires i < |log| && j <= |log| && log[i].Quiesced? && Lifted(log, i, j)
    ensures Lifted(log + [e], i, j) && Lifted(log + [e], i, |log| + 1)
  {
    var m :| i < m < j && log[m] == Resumed(log[i].fenceId);
    assert (log + [e])[m] == log[m];
  }

  lemma HeldLater(log: seq<Event>, e: Event, i: nat)
    requires i < |log|
    ensures HeldSince(log + [e], i) <==> HeldSince(log, i) && !e.Resumed?
  {
    assert forall m :: 0 <= m < |log| ==> (log + [e])[m] == log[m];
    assert (log + [e])[|log|] == e;
  }

  /** A new entry keeps the log fenced if, when it starts something, every quiesce has been lifted. */
  lemma AppendKeeps(log: seq<Event>, e: Event)
    requires Fenced(log) && LiftedByOwner(log)
    requires e.Started? ==> forall i :: 0 <= i < |log| && log[i].Quiesced? ==> !HeldSince(log, i)
    requires e.Resumed? ==>
      forall i :: 0 <= i < |log| && log[i].Quiesced? && HeldSince(log, i) ==> log[i].fenceId == e.fenceId
    ensures Fenced(log + [e]) && LiftedByOwner(log + [e])
  {
    var more := log + [e];
    forall i, j | 0 <= i < j < |more| && more[i].Quiesced? && more[j].Started? ensures Lifted(more, i, j) {
      if j < |log| {
        LiftedStays(log, e, i, j);
      } else {
        LiftedStays(log, e, i, |log|);
      }
    }
    forall i | 0 <= i < |more| && more[i].Quiesced? && !HeldSince(more, i) ensures Lifted(more, i, |more|) {
      if i < |log| {
        HeldLater(log, e, i);
        if HeldSince(log, i) {
          assert more[|log|] == Resumed(more[i].fenceId);
        } else {
          LiftedStays(log, e, i, |log|);
        }
      }
    }
  }

  lemma StartKeeps(log: seq<Event>, op: nat, fenceId: Option<string>)
    requires Fenced(log) && StillHeld(log, fenceId, false) && LiftedByOwner(log)
    ensures Fenced(log + [Started(op)]) && StillHeld(log + [Started(op)], fenceId, false)
            && LiftedByOwner(log + [Started(op)])
  {
    AppendKeeps(log, Started(op));
    forall i | 0 <= i < |log| ensures HeldSince(log + [Started(op)], i) <==> HeldSince(log, i) {
      HeldLater(log, Started(op), i);
    }
  }

  lemma QuiesceKeeps(log: seq<Event>, fenceId: string)
    requires Fenced(log) && StillHeld(log, Some(fenceId), true) && LiftedByOwner(log)
    ensures Fenced(log + [Quiesced(fenceId)]) && StillHeld(log + [Quiesced(fenceId)], Some(fenceId), true)
    ensures LiftedByOwner(log + [Quiesced(fenceId)])
  {
    AppendKeeps(log, Quiesced(fenceId));
    forall i | 0 <= i < |log| ensures HeldSince(log + [Quiesced(fenceId)], i) <==> HeldSince(log, i) {
      HeldLater(log, Quiesced(fenceId), i);
    }
  }

  lemma ResumeKeeps(log: seq<Event>, fenceId: string)
    requires Fenced(log) && StillHeld(log, Some(fenceId), true) && LiftedByOwner(log)
    ensures Fenced(log + [Resumed(fenceId)]) && StillHeld(log + [Resumed(fenceId)], None, false)
    ensures LiftedByOwner(log + [Resumed(fenceId)])
  {
    AppendKeeps(log, Resumed(fenceId));
    forall i | 0 <= i < |log| ensures !HeldSince(log + [Resumed(fenceId)], i) {
      HeldLater(log, Resumed(fenceId), i);
    }
  }

  // ---------------------------------------------------------------- the object

  ghost predicate Counted(ops: seq<Operation>, pending: nat) {
    InTurn(ops) && pending == Open(ops) && pending <= CAPACITY
  }

  ghost predicate Logged(log: seq<Event>, fenceId: Option<string>, drained: bool) {
    Fenced(log) && LiftedByOwner(log) && StillHeld(log, fenceId, drained)
  }

  lemma NothingOpen(ops: seq<Operation>)
    requires Open(ops) == 0
    ensures forall i :: 0 <= i < |ops| ==> !IsOpen(ops[i])
  {
    forall i | 0 <= i < |ops| ensures !IsOpen(ops[i]) {
      if IsOpen(ops[i]) {
        OpenIsCounted(ops, i);
      }
    }
  }

  class Admission {
    const generation: string
    const isFence: string -> bool
    var fenceId: Option<string>
    var drained: bool
    var stopped: bool
    var transition: Option<Transition>
    var pending: nat
    var ops: seq<Operation>
    var waiting: set<Waiter>
    ghost var persisting: nat
    ghost var log: seq<Event>

    constructor (generation: string, isFence: string -> bool)
      ensures Valid() && this.generation == generation && fenceId.None? && ops == [] && log == []
      ensures this.isFence == isFence && !drained && !stopped && transition.None? && waiting == {}
    {
      this.generation, this.isFence := generation, isFence;
      fenceId, drained, stopped, transition, pending := None, false, false, None, 0;
      ops, waiting, persisting, log := [], {}, 0, [];
    }

    /** Drained means fenced with nothing queued and nothing running; a transition is of a drained service, and
        is the only one whose persistence is under way. */
    ghost predicate Valid()
      reads this
    {
      && Counted(ops, pending) && Logged(log, fenceId, drained)
      && (drained ==> fenceId.Some? && pending == 0)
      && (transition.Some? ==> drained)
      && persisting == (if transition.Some? then 1 else 0)
      && (stopped ==> transition.None?)
      && forall w :: w in waiting ==> w.tail <= |ops|
    }

    // -------------------------------------------------------------- operations

    method Enqueue() returns (r: Result<nat>)
      requires Valid()
      modifies this
      ensures Valid() && log == old(log) && fenceId == old(fenceId)
      ensures r.Success? <==> !old(stopped) && old(fenceId).None? && old(pending) < CAPACITY
      ensures r.Success? ==> ops == old(ops) + [Queued] && r.value == |old(ops)|
      ensures r.Failure? ==> ops == old(ops)
      ensures unchanged(`drained, `stopped, `transition, `waiting)
    {
      hide Logged;
      if stopped {
        return Failure("named_session_stopped");
      }
      if fenceId.Some? {
        return Failure("named_session_quiesced");
      }
      if pending >= CAPACITY {
        return Failure("named_session_busy");
      }
      Enqueues(ops);
      r := Success(|ops|);
      pending, ops := pending + 1, ops + [Queued];
    }

    /** The queue reaches operation i once everything ahead of it is done; a stopped service does not run it. */
    method Reach(i: nat)
      requires Valid() && i < |ops| && ops[i] == Queued && forall j :: 0 <= j < i ==> ops[j] == Done
      modifies this
      ensures Valid() && fenceId == old(fenceId)
      ensures ops == old(ops)[i := if old(stopped) then Settling else Running]
      ensures log == if old(stopped) then old(log) else old(log) + [Started(i)]
      ensures unchanged(`drained, `stopped, `transition, `waiting)
    {
      OpenIsCounted(ops, i);
      Replaced(ops, i, if stopped then Settling else Running);
      StayInTurn(ops, i, if stopped then Settling else Running);
      if stopped {
        hide Logged, InTurn, Open;
        pending, ops := pending - 1, ops[i := Settling];
      } else {
        StartKeeps(log, i, fenceId);
        hide Fenced, LiftedByOwner, StillHeld, InTurn, Open;
        ops, log := ops[i := Running], log + [Started(i)];
      }
    }

    /** The operation returned or threw: it no longer counts, and its settling begins. */
    method Finish(i: nat)
      requires Valid() && i < |ops| && ops[i] == Running
      modifies this
      ensures Valid() && fenceId == old(fenceId) && log == old(log)
      ensures ops == old(ops)[i := Settling] && pending == old(pending) - 1
      ensures unchanged(`drained, `stopped, `transition, `waiting)
    {
      hide Logged;
      OpenIsCounted(ops, i);
      Replaced(ops, i, Settling);
      pending, ops := pending - 1, ops[i := Settling];
    }

    method Settle(i: nat)
      requires Valid() && i < |ops| && ops[i] == Settling
      modifies this
      ensures Valid() && fenceId == old(fenceId) && log == old(log)
      ensures ops == old(ops)[i := Done] && pending == old(pending)
      ensures unchanged(`drained, `stopped, `transition, `waiting)
    {
      hide Logged;
      Replaced(ops, i, Done);
      ops := ops[i := Done];
    }

    // -------------------------------------------------------------- maintenance

    /** A maintenance call by its fence and generation, on a service that is neither stopped nor in transition. */
    predicate MayMaintain(fence: string, gen: string)
      reads this
    {
      isFence(fence) && gen == generation && !stopped && transition.None?
    }

    method Check(fence: string, gen: string) returns (r: Result<()>)
      ensures r.Success? <==> MayMaintain(fence, gen)
    {
      if !isFence(fence) {
        return Failure("named_session_fence_invalid");
      }
      if gen != generation {
        return Failure("named_session_generation_changed");
      }
      if stopped {
        return Failure("named_session_stopped");
      }
      if transition.Some? {
        return Failure("named_session_maintenance_busy");
      }
      return Success(());
    }

    /** Closes the door at once, then waits for the queue as it stands. */
    method QuiesceBegin(fence: string, gen: string) returns (r: Result<Waiter>)
      requires Valid()
      modifies this
      ensures Valid() && ops == old(ops) && log == old(log) && drained == old(drained) && stopped == old(stopped)
      ensures r.Success? <==> old(MayMaintain(fence, gen)) && old(fenceId) in {None, Some(fence)}
      ensures r.Success? ==>
        fenceId == Some(fence) && r.value == Waiter(fence, gen, |ops|) && waiting == old(waiting) + {r.value}
      ensures r.Failure? ==> fenceId == old(fenceId) && waiting == old(waiting)
      ensures unchanged(`transition)
    {
      hide Counted;
      var _ :- Check(fence, gen);
      if fenceId.Some? && fenceId != Some(fence) {
        return Failure("named_session_fence_conflict");
      }
      fenceId := Some(fence);
      var w := Waiter(fence, gen, |ops|);
      waiting := waiting + {w};
      return Success(w);
    }

    /** The queue as it stood is done; what has happened meanwhile is checked again. */
    method QuiesceContinue(w: Waiter) returns (r: Result<()>)
      requires Valid() && w in waiting && forall j :: 0 <= j < w.tail ==> ops[j] == Done
      modifies this
      ensures Valid() && ops == old(ops) && log == old(log) && fenceId == old(fenceId)
      ensures r.Success? <==>
        old(MayMaintain(w.fenceId, w.generation)) && fenceId == Some(w.fenceId) && old(pending) == 0
      ensures r.Success? ==> drained && transition == Some(Quiescing)
      ensures r.Failure? ==> drained == old(drained) && transition == old(transition)
      ensures waiting == old(waiting) - {w} && stopped == old(stopped)
      ensures r.Success? ==> forall i :: 0 <= i < |ops| ==> !IsOpen(ops[i])
    {
      waiting := waiting - {w};
      var _ :- Check(w.fenceId, w.generation);
      if fenceId != Some(w.fenceId) {
        return Failure("named_session_fence_conflict");
      }
      if pending != 0 {
        return Failure("named_session_not_drained");
      }
      NothingOpen(ops);
      drained, transition, persisting := true, Some(Quiescing), persisting + 1;
      return Success(());
    }

    method QuiescePersisted(ok: bool) returns (r: Result<()>)
      requires Valid() && transition == Some(Quiescing)
      modifies this
      ensures Valid() && ops == old(ops) && fenceId == old(fenceId) && drained && transition.None?
      ensures log == if ok then old(log) + [Quiesced(fenceId.value)] else old(log)
      ensures r.Success? <==> ok
      ensures unchanged(`stopped, `waiting)
    {
      hide Counted;
      transition, persisting := None, persisting - 1;
      if ok {
        QuiesceKeeps(log, fenceId.value);
        log := log + [Quiesced(fenceId.value)];
      }
      return if ok then Success(()) else Failure("persist_failed");
    }

    method CheckDrained(fence: string, gen: string) returns (r: Result<()>)
      requires Valid()
      ensures r.Success? <==> MayMaintain(fence, gen) && fenceId == Some(fence) && drained
    {
      var _ :- Check(fence, gen);
      if fenceId != Some(fence) {
        return Failure("named_session_fence_conflict");
      }
      if !drained || pending != 0 {
        return Failure("named_session_not_drained");
      }
      return Success(());
    }

    method ResumeBegin(fence: string, gen: string) returns (r: Result<()>)
      requires Valid()
      modifies this
      ensures Valid() && ops == old(ops) && log == old(log) && fenceId == old(fenceId)
      ensures r.Success? <==> old(MayMaintain(fence, gen)) && fenceId == Some(fence) && old(drained)
      ensures r.Success? ==> transition == Some(Resuming)
      ensures r.Failure? ==> transition == old(transition)
      ensures unchanged(`drained, `stopped, `waiting)
    {
      var _ :- CheckDrained(fence, gen);
      transition, persisting := Some(Resuming), persisting + 1;
      return Success(());
    }

    method ResumePersisted(ok: bool)
      requires Valid() && transition == Some(Resuming)
      modifies this
      ensures Valid() && ops == old(ops) && transition.None?
      ensures fenceId == if ok then None else old(fenceId)
      ensures log == if ok then old(log) + [Resumed(old(fenceId).value)] else old(log)
      ensures drained <==> !ok
      ensures unchanged(`stopped, `waiting)
    {
      hide Counted;
      if ok {
        ResumeKeeps(log, fenceId.value);
        log := log + [Resumed(fenceId.value)];
        fenceId, drained := None, false;
      }
      transition, persisting := None, persisting - 1;
    }

    method StopDrainedBegin(fence: string, gen: string) returns (r: Result<()>)
      requires Valid()
      modifies this
      ensures Valid() && ops == old(ops) && log == old(log) && fenceId == old(fenceId)
      ensures r.Success? <==> old(MayMaintain(fence, gen)) && fenceId == Some(fence) && old(drained)
      ensures r.Success? ==> transition == Some(Stopping)
      ensures r.Failure? ==> transition == old(transition)
      ensures unchanged(`drained, `stopped, `waiting)
    {
      var _ :- CheckDrained(fence, gen);
      transition, persisting := Some(Stopping), persisting + 1;
      return Success(());
    }

    method StopVerified(ok: bool)
      requires Valid() && transition == Some(Stopping)
      modifies this
      ensures Valid() && ops == old(ops) && log == old(log) && fenceId == old(fenceId) && transition.None?
      ensures stopped <==> ok || old(stopped)
      ensures unchanged(`drained, `waiting)
    {
      if ok {
        stopped := true;
      }
      transition, persisting := None, persisting - 1;
    }

    /** Only an open service can be stopped outright. */
    method Stop() returns (r: Result<()>)
      requires Valid()
      modifies this
      ensures Valid() && ops == old(ops) && log == old(log) && fenceId == old(fenceId)
      ensures r.Success? <==> old(fenceId).None?
      ensures stopped <==> old(stopped) || r.Success?
      ensures unchanged(`drained, `transition, `waiting)
    {
      if fenceId.Some? {
        return Failure("named_session_fence_required");
      }
      stopped := true;
      return Success(());
    }
  }

  lemma StayInTurn(ops: seq<Operation>, i: nat, op: Operation)
    requires InTurn(ops) && i < |ops| && ops[i] == Queued && forall j :: 0 <= j < i ==> ops[j] == Done
    ensures InTurn(ops[i := op])
  {
  }
}
