/** The step machine's locker does what the reference does. */
module KeyRefinement {
  import opened Sequences
  import opened Protocol
  import opened Invariant
  import opened KeyInvariant
  import opened GateInvariant
  import opened Safety
  import opened Fairness
  import K = Keys

  /** The locker as the reference sees it. */
  function View(l: Locker): K.Table {
    map k | k in l.m && l.m[k] in l.cells :: K.Entry(l.cells[l.m[k]].owner, l.cells[l.m[k]].queue)
  }

  datatype KeyOp = Skip | Acquire(id: int, key: string) | Release(key: string) | Cancel(id: int, key: string) | Close

  predicate CanApplyKey(t: K.Table, op: KeyOp) {
    match op
    case Release(key) => key in t
    case Cancel(_, key) => key in t
    case _ => true
  }

  function ApplyKey(t: K.Table, op: KeyOp): K.Table
    requires CanApplyKey(t, op)
  {
    match op
    case Skip => t
    case Acquire(id, key) => K.Acquire(t, id, key).0
    case Release(key) => K.Release(t, key).0
    case Cancel(id, key) => K.Cancel(t, id, key)
    case Close => map k | k in t :: t[k].(queue := [])
  }

  /** An ended, Reject or shut-out caller leaves a held key alone. */
  predicate TurnsBack(s: State, x: Call) {
    x.key in s.locker.m && (x.mode == Reject || s.locker.closed || x.ended)
  }

  function KeyOpOf(s: State, step: Step): KeyOp
    requires Can(s, step)
  {
    match step
    case Lock(c, _) => if TurnsBack(s, s.calls[c]) then Skip else KeyOp.Acquire(c, s.calls[c].key)
    case LeaveKey(c) =>
      if s.calls[c].state == Waiting then Cancel(c, s.calls[c].key)
      else if s.calls[c].state == Granted then KeyOp.Release(s.calls[c].key)
      else Skip
    case Unlock(c) => if s.calls[c].key != "" then KeyOp.Release(s.calls[c].key) else Skip
    case CloseKeys(_) => Close
    case _ => Skip
  }

  /** The step does to the keys what its reference operation does. */
  predicate Mirrors(s: State, step: Step, t: State)
    requires Can(s, step)
  {
    var op := KeyOpOf(s, step);
    CanApplyKey(View(s.locker), op) && View(t.locker) == ApplyKey(View(s.locker), op)
  }

  lemma LockRefines(s: State, c: nat, e: nat)
    requires Keyed(s, -1) && Can(s, Lock(c, e)) && CallOk(s.calls[c])
    ensures Mirrors(s, Lock(c, e), LockMove(s, c, e))
    ensures LockMove(s, c, e).calls[c].pc == Claiming(0) <==> K.Acquire(View(s.locker), c, s.calls[c].key).1
  {
    if s.calls[c].key in s.locker.m {
      HeldKeyRefines(s, c, e);
    } else {
      FreeKeyRefines(s, c, e);
    }
  }

  lemma HeldKeyRefines(s: State, c: nat, e: nat)
    requires MapOk(s.locker) && Can(s, Lock(c, e)) && s.calls[c].key in s.locker.m
    ensures Mirrors(s, Lock(c, e), LockMove(s, c, e))
    ensures LockMove(s, c, e).calls[c].pc != Claiming(0)
  {
    var l, x := s.locker, s.calls[c];
    assert forall k :: k in l.m && k != x.key ==> l.m[k] != l.m[x.key];
  }

  lemma FreeKeyRefines(s: State, c: nat, e: nat)
    requires MapOk(s.locker) && Can(s, Lock(c, e)) && s.calls[c].key !in s.locker.m
    ensures Mirrors(s, Lock(c, e), LockMove(s, c, e))
    ensures LockMove(s, c, e).calls[c].pc == Claiming(0)
  {
    assert e in s.locker.cells ==> CellOk(s.locker, e);
  }

  lemma HandOffRefines(s: State, e: nat)
    requires MapOk(s.locker) && e in s.locker.cells && e !in s.locker.pool
    ensures var key := s.locker.cells[e].key; var (v, next) := K.Release(View(s.locker), key);
            && key in View(s.locker)
            && View(HandOff(s, e).locker) == v
            && (0 <= next < |s.calls| ==> HandOff(s, e).calls[next].state == Granted)
  {
    assert CellOk(s.locker, e);
    assert forall k :: k in s.locker.m && k != s.locker.cells[e].key ==> s.locker.m[k] != e;
  }

  lemma DequeueRefines(s: State, c: nat)
    requires Keyed(s, -1) && c < |s.calls| && AwaitsKey(s.calls[c])
    ensures var (t, rest) := LeaveKeyMove(s, c); var key := s.calls[c].key;
            rest == Nothing && key in View(s.locker) && View(t.locker) == K.Cancel(View(s.locker), c, key)
  {
    var l, x := s.locker, s.calls[c];
    FindsItselfByKey(s, c, -1);
    assert QueuerOk(s, c) && CellOk(l, x.entry);
    assert forall k :: k in l.m && k != x.key ==> l.m[k] != x.entry;
  }

  lemma LeaveKeyRefines(s: State, c: nat)
    requires Keyed(s, -1) && Can(s, LeaveKey(c)) && CallOk(s.calls[c])
    ensures var (t, rest) := LeaveKeyMove(s, c); Applies(t, rest) && Mirrors(s, LeaveKey(c), Complete(t, rest))
  {
    var x := s.calls[c];
    if x.state == Waiting {
      DequeueRefines(s, c);
    } else if x.state == Granted {
      LeaveKeyKeepsKeyed(s, c);
      assert HolderOk(s, c, -1);
      HandOffRefines(LeaveKeyMove(s, c).0, x.entry);
    }
  }

  lemma UnlockRefines(s: State, c: nat)
    requires Keyed(s, -1) && Can(s, Unlock(c))
    ensures var (t, rest) := UnlockMove(s, c); Applies(t, rest) && Mirrors(s, Unlock(c), Complete(t, rest))
  {
    var x := s.calls[c];
    if x.key != "" {
      UnlockKeepsKeyed(s, c);
      assert HolderOk(s, c, -1);
      HandOffRefines(UnlockMove(s, c).0, x.entry);
    }
  }

  lemma CloseRefines(s: State)
    requires MapOk(s.locker)
    ensures View(WithdrawAllKeys(s).locker) == ApplyKey(View(s.locker), Close)
  {
  }

  lemma KeyStepMirrors(s: State, step: Step)
    requires Keyed(s, -1) && CallsOk(s) && Can(s, step) && IsKeyStep(step)
    ensures Mirrors(s, step, Do(s, step))
  {
    assert CallOk(s.calls[step.c]);
    KeyStepIsItsMove(s, step);
    match step
    case Lock(c, e) => LockRefines(s, c, e);
    case LeaveKey(c) => LeaveKeyRefines(s, c);
    case Unlock(c) => UnlockRefines(s, c);
  }

  lemma CloseStepMirrors(s: State, step: Step)
    requires MapOk(s.locker) && Can(s, step) && step.CloseKeys?
    ensures Mirrors(s, step, Do(s, step))
  {
    DownStepIsItsMove(s, step);
    CloseRefines(MoveDown(s, step).0);
  }

  /** Refinement: each step works the keys by exactly one reference operation. */
  lemma StepRefinesKeys(s: State, step: Step)
    requires Inv(s) && Can(s, step)
    ensures Mirrors(s, step, Do(s, step))
  {
    if IsKeyStep(step) {
      KeyStepMirrors(s, step);
    } else if step.CloseKeys? {
      CloseStepMirrors(s, step);
    } else {
      OtherStepsSpareKeys(s, step);
    }
  }

  /** A caller gets its key at once exactly when the reference grants it. */
  lemma LockDecidesLikeKeys(s: State, c: nat, e: nat)
    requires Inv(s) && Can(s, Lock(c, e))
    ensures Do(s, Lock(c, e)).calls[c].pc == Claiming(0) <==> K.Acquire(View(s.locker), c, s.calls[c].key).1
  {
    assert CallOk(s.calls[c]);
    LockRefines(s, c, e);
  }
}
