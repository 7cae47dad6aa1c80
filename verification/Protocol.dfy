/** Runtime, Operation.Do, Resource and KeyLocker as one step machine: any
    number of calls and Shutdown threads, each critical section and each
    atomic instruction one step, interleaved in any order. */
module Protocol {
  import opened Sequences
  import opened Totals
  import opened Claims
  import B = Budgets

  // ---------- the gate word ----------

  const STOPPING: int := 0x8000_0000_0000_0000
  const DRAINED: int := 0x4000_0000_0000_0000
  const WORD: int := 0x1_0000_0000_0000_0000

  /** w & stopping != 0 */
  predicate Stopped(w: int) {
    w / STOPPING % 2 == 1
  }

  /** w & drained != 0 */
  predicate HasDrained(w: int) {
    w / DRAINED % 2 == 1
  }

  /** The in-flight count below the two flags. */
  function InFlightBits(w: int): int {
    w % DRAINED
  }

  /** gate.Add(1) */
  function Up(w: int): int {
    (w + 1) % WORD
  }

  /** gate.Add(^uint64(0)) */
  function Down1(w: int): int {
    (w + WORD - 1) % WORD
  }

  /** gate.Or(stopping) */
  function OrStopping(w: int): int {
    if Stopped(w) then w else w + STOPPING
  }

  // ---------- calls ----------

  datatype Mode = Wait | Reject
  datatype WaitState = Waiting | Granted | Withdrawn
  datatype Result = Pending | Succeeded | Failed | Panicked | Overloaded | ContextEnded | Stopping

  /** What a call has been charged and has paid back, claim by claim in order,
      and how often it was handed a key and gave one up. A history: the
      source keeps no such record, and no step looks at it. */
  datatype Book = Book(took: seq<Claim>, gave: seq<Claim>, locks: nat, unlocks: nat)

  const BLANK := Book([], [], 0, 0)

  function Owing(b: Book, cl: Claim): Book { b.(took := b.took + [cl]) }
  function Repaid(b: Book, cl: Claim): Book { b.(gave := b.gave + [cl]) }
  function WithKey(b: Book): Book { b.(locks := b.locks + 1) }
  function WithoutKey(b: Book): Book { b.(unlocks := b.unlocks + 1) }

  /** Where a call of Do is. Each value names the step still to be taken. */
  datatype Pc =
    | Idle
    | Turned                        // the gate was stopping: leave() pending
    | Entered                       // admitted.Add pending
    | Admitting                     // ctx.Err() pending
    | Locking                       // keys.lock pending
    | KeyParked | KeyWoken | KeyLeaving(woken: bool)
    | Claiming(i: nat)              // claim i pending, claims below i held
    | Trying(i: nat)                // Reject: full was false, locked test pending
    | Parked(i: nat) | Woken(i: nat) | Leaving(i: nat, woken: bool)
    | Releasing(i: nat, failed: bool)  // claims below i, then the key, to go back
    | Refusing                      // rt.refused pending
    | Looping(n: nat)               // ctx.Err() before attempt n pending
    | Counting(n: nat)              // started or retried.Add pending
    | Handling(n: nat)              // the handler runs
    | Exiting                       // finished.Add pending
    | Departing                     // gate.Add(-1) pending
    | Marking(admitted: bool)       // CAS to drained pending
    | Closing(admitted: bool)       // close(done) pending
    | Tallying                      // rejected.Add of a turned-away call pending
    | Returned(admitted: bool)

  datatype Call = Call(
    mode: Mode, key: string, claims: seq<Claim>, attempts: nat,
    pc: Pc, ended: bool, state: WaitState, token: bool, entry: nat,
    tries: nat, result: Result, book: Book)

  /** A pooled key entry; owner is a history variable naming who holds the key. */
  datatype Cell = Cell(key: string, queue: seq<int>, owner: int)
  datatype Locker = Locker(m: map<string, nat>, cells: map<nat, Cell>, pool: set<nat>, closed: bool)

  datatype Tally = Tally(admitted: int, rejected: int, started: int, finished: int, retried: int)

  /** A Shutdown thread. */
  datatype Down = Fresh | Sweeping(todo: set<string>) | Ending | DownMarking | DownClosing
                | Probing | Selecting | ReturnedNil | ReturnedErr

  datatype State = State(
    calls: seq<Call>, budgets: map<string, B.Budget<int>>, locker: Locker,
    word: int, done: int, tally: Tally, downs: seq<Down>)

  // ---------- what a program point means ----------

  /** Between the gate and the end of exit. */
  predicate InFlight(pc: Pc) {
    !pc.Idle? && !pc.Turned? && !pc.Marking? && !pc.Closing? && !pc.Tallying? && !pc.Returned?
  }

  predicate InGate(pc: Pc) {
    pc.Turned? || InFlight(pc)
  }

  /** How many of its claims the call has been charged for. */
  function Held(c: Call): int {
    match c.pc
    case Claiming(i) => i
    case Trying(i) => i
    case Parked(i) => if c.state == Granted then i + 1 else i
    case Woken(i) => if c.state == Granted then i + 1 else i
    case Leaving(i, _) => if c.state == Granted then i + 1 else i
    case Releasing(i, _) => i
    case Looping(_) => |c.claims|
    case Counting(_) => |c.claims|
    case Handling(_) => |c.claims|
    case _ => 0
  }

  function UnitsOf(r: string): Call -> int {
    (c: Call) => Units(c.claims, Held(c), r)
  }

  function ClaimIndex(c: Call): nat {
    match c.pc
    case Parked(i) => i
    case Leaving(i, _) => i
    case _ => 0
  }

  /** In some budget's queue. */
  predicate Queued(c: Call) {
    (c.pc.Parked? || c.pc.Leaving?) && c.state == Waiting && ClaimIndex(c) < |c.claims|
  }

  /** Queued on budget r. */
  predicate Awaits(c: Call, r: string) {
    Queued(c) && c.claims[ClaimIndex(c)].r == r
  }

  /** Past the key step and not yet past unlock. */
  predicate PastKey(pc: Pc) {
    pc.Claiming? || pc.Trying? || pc.Parked? || pc.Woken? || pc.Leaving? || pc.Releasing?
    || pc.Looping? || pc.Counting? || pc.Handling?
  }

  predicate AtKey(pc: Pc) {
    pc.KeyParked? || pc.KeyWoken? || pc.KeyLeaving?
  }

  predicate OwnsKey(c: Call) {
    c.key != "" && (PastKey(c.pc) || (AtKey(c.pc) && c.state == Granted))
  }

  predicate AwaitsKey(c: Call) {
    c.key != "" && AtKey(c.pc) && c.state == Waiting
  }

  // ---------- steps ----------

  datatype Outcome = Ok | Final | Again | Panic

  datatype Step =
    | Enter(c: nat) | TurnAway(c: nat) | CountTurned(c: nat) | CountAdmitted(c: nat) | Check(c: nat)
    | Lock(c: nat, e: nat) | TakeKey(c: nat) | QuitKey(c: nat) | SettleKey(c: nat) | LeaveKey(c: nat)
    | Load(c: nat) | Try(c: nat) | Acquire(c: nat) | Take(c: nat) | Quit(c: nat) | SettleClaim(c: nat) | Leave(c: nat)
    | Start(c: nat) | Release(c: nat) | Unlock(c: nat) | Refuse(c: nat)
    | Loop(c: nat) | CountAttempt(c: nat) | Handler(c: nat, out: Outcome)
    | Finish(c: nat) | Depart(c: nat) | Mark(c: nat) | CloseDone(c: nat)
    | EndContext(c: nat)
    | Stop(d: nat) | CloseBudget(d: nat, r: string) | CloseKeys(d: nat) | DownMark(d: nat) | DownCloseDone(d: nat)
    | Probe(d: nat) | SelectDone(d: nat) | SelectCtx(d: nat)

  /** What the rest of a critical section does to other calls. */
  datatype Rest = Nothing | Refresh(r: string) | Serve(r: string) | HandKey(e: nat) | Withdraw(r: string) | WithdrawKeys

  predicate IsCallStep(step: Step) {
    !step.Stop? && !step.CloseBudget? && !step.CloseKeys? && !step.DownMark? && !step.DownCloseDone?
    && !step.Probe? && !step.SelectDone? && !step.SelectCtx?
  }

  predicate Can(s: State, step: Step) {
    if IsCallStep(step) then step.c < |s.calls| && CallCan(s, s.calls[step.c], step)
    else step.d < |s.downs| && DownCan(s, s.downs[step.d], step)
  }

  predicate CallCan(s: State, c: Call, step: Step) {
    match step
    case Enter(_) => c.pc.Idle? && InFlightBits(s.word) + 1 < DRAINED
    case TurnAway(_) => c.pc.Turned?
    case CountTurned(_) => c.pc.Tallying?
    case CountAdmitted(_) => c.pc.Entered?
    case Check(_) => c.pc.Admitting?
    case Lock(_, e) => c.pc.Locking? && (e in s.locker.pool || e !in s.locker.cells)
    case TakeKey(_) => c.pc.KeyParked? && c.token
    case QuitKey(_) => c.pc.KeyParked? && c.ended
    case SettleKey(_) => c.pc.KeyWoken?
    case LeaveKey(_) => c.pc.KeyLeaving? && (c.state == Waiting || c.pc.woken || c.token)
    case Load(_) => c.pc.Claiming? && c.mode == Reject && c.pc.i < |c.claims|
    case Try(_) => c.pc.Trying?
    case Acquire(_) => c.pc.Claiming? && c.mode == Wait && c.pc.i < |c.claims|
    case Take(_) => c.pc.Parked? && c.token
    case Quit(_) => c.pc.Parked? && c.ended
    case SettleClaim(_) => c.pc.Woken?
    case Leave(_) => c.pc.Leaving? && (c.state == Waiting || c.pc.woken || c.token)
    case Start(_) => c.pc.Claiming? && c.pc.i == |c.claims|
    case Release(_) => c.pc.Releasing? && c.pc.i > 0
    case Unlock(_) => c.pc.Releasing? && c.pc.i == 0
    case Refuse(_) => c.pc.Refusing?
    case Loop(_) => c.pc.Looping?
    case CountAttempt(_) => c.pc.Counting?
    case Handler(_, out) => c.pc.Handling? && (out == Again ==> c.pc.n < c.attempts)
    case Finish(_) => c.pc.Exiting?
    case Depart(_) => c.pc.Departing?
    case Mark(_) => c.pc.Marking?
    case CloseDone(_) => c.pc.Closing?
    case EndContext(_) => !c.ended
    case _ => false
  }

  predicate DownCan(s: State, d: Down, step: Step) {
    match step
    case Stop(_) => d.Fresh?
    case CloseBudget(_, r) => d.Sweeping? && r in d.todo && r in s.budgets
    case CloseKeys(_) => d.Sweeping? && d.todo == {}
    case DownMark(_) => d.DownMarking?
    case DownCloseDone(_) => d.DownClosing?
    case Probe(_) => d.Probing?
    case SelectDone(_) => d.Selecting? && s.done > 0
    case SelectCtx(_) => d.Selecting?
    case _ => false
  }

  // ---------- the acting thread's own move ----------

  function WithCall(s: State, c: nat, x: Call): State
    requires c < |s.calls|
  {
    s.(calls := s.calls[c := x])
  }

  function GoTo(s: State, c: nat, pc: Pc): State
    requires c < |s.calls|
  {
    WithCall(s, c, s.calls[c].(pc := pc))
  }

  function WithBudget(s: State, r: string, b: B.Budget<int>): State {
    s.(budgets := s.budgets[r := b])
  }

  /** r.cur += n, on behalf of call c. */
  function Charge(s: State, c: nat, r: string, n: int): State
    requires c < |s.calls| && r in s.budgets
  {
    WithBudget(WithCall(s, c, s.calls[c].(book := Owing(s.calls[c].book, Claim(r, n)))),
               r, s.budgets[r].(cur := s.budgets[r].cur + n))
  }

  /** r.cur -= n, on behalf of call c. */
  function Repay(s: State, c: nat, r: string, n: int): State
    requires c < |s.calls| && r in s.budgets
  {
    WithBudget(WithCall(s, c, s.calls[c].(book := Repaid(s.calls[c].book, Claim(r, n)))),
               r, s.budgets[r].(cur := s.budgets[r].cur - n))
  }

  function AfterMark(admitted: bool): Pc {
    if admitted then Returned(true) else Tallying
  }

  /** The steps that touch only the call itself, the gate word, the counters
      and the done channel. */
  predicate IsGateStep(step: Step) {
    IsCallStep(step) && !IsClaimStep(step) && !IsKeyStep(step)
  }

  function NextWord(w: int, step: Step): int {
    match step
    case Enter(_) => Up(w)
    case TurnAway(_) => Down1(w)
    case Depart(_) => Down1(w)
    case Mark(_) => if w == STOPPING then STOPPING + DRAINED else w
    case _ => w
  }

  /** After rt.leave(): mark drained on reaching `stopping`. */
  function AfterLeave(w: int, admitted: bool): Pc {
    if Down1(w) == STOPPING then Marking(admitted) else AfterMark(admitted)
  }

  function NextTally(t: Tally, step: Step, x: Call): Tally {
    match step
    case CountTurned(_) => t.(rejected := t.rejected + 1)
    case CountAdmitted(_) => t.(admitted := t.admitted + 1)
    case Refuse(_) => if x.mode == Reject then t.(rejected := t.rejected + 1) else t
    case CountAttempt(_) => if x.pc == Counting(1) then t.(started := t.started + 1) else t.(retried := t.retried + 1)
    case Finish(_) => t.(finished := t.finished + 1)
    case _ => t
  }

  function NextCall(x: Call, step: Step, w: int): Call {
    match step
    case Enter(_) => x.(pc := if Stopped(Up(w)) then Turned else Entered)
    case TurnAway(_) => x.(pc := AfterLeave(w, false))
    case CountTurned(_) => x.(pc := Returned(false), result := Stopping)
    case CountAdmitted(_) => x.(pc := Admitting)
    case Check(_) =>
      if (x.key != "" || x.mode == Wait) && x.ended then x.(pc := Exiting, result := ContextEnded)
      else x.(pc := if x.key != "" then Locking else Claiming(0))
    case Refuse(_) =>
      x.(pc := Exiting, result := if x.mode == Reject then Overloaded else if x.ended then ContextEnded else Stopping)
    case Start(_) => x.(pc := Looping(1))
    case Loop(_) =>
      if !x.pc.Looping? then x
      else if x.ended then x.(pc := Releasing(|x.claims|, false), result := ContextEnded)
      else x.(pc := Counting(x.pc.n))
    case CountAttempt(_) => if !x.pc.Counting? then x else x.(pc := Handling(x.pc.n), tries := x.tries + 1)
    case Handler(_, out) =>
      if !x.pc.Handling? then x
      else if out == Again then x.(pc := Looping(x.pc.n + 1))
      else x.(pc := Releasing(|x.claims|, false),
              result := if out == Ok then Succeeded else if out == Final then Failed else Panicked)
    case Finish(_) => x.(pc := Departing)
    case Depart(_) => x.(pc := AfterLeave(w, true))
    case Mark(_) =>
      if !x.pc.Marking? then x
      else x.(pc := if w == STOPPING then Closing(x.pc.admitted) else AfterMark(x.pc.admitted))
    case CloseDone(_) => if !x.pc.Closing? then x else x.(pc := AfterMark(x.pc.admitted))
    case EndContext(_) => x.(ended := true)
    case TakeKey(_) => x.(pc := KeyWoken, token := false)
    case QuitKey(_) => x.(pc := KeyLeaving(false))
    case SettleKey(_) => x.(pc := if x.state == Granted && !x.ended then Claiming(0) else KeyLeaving(true))
    case Take(_) => if !x.pc.Parked? then x else x.(pc := Woken(x.pc.i), token := false)
    case Quit(_) => if !x.pc.Parked? then x else x.(pc := Leaving(x.pc.i, false))
    case SettleClaim(_) =>
      if !x.pc.Woken? then x
      else x.(pc := if x.state == Granted && !x.ended then Claiming(x.pc.i + 1) else Leaving(x.pc.i, true))
    case _ => x
  }

  function MoveGate(s: State, step: Step): State
    requires IsGateStep(step) && Can(s, step)
  {
    var x := s.calls[step.c];
    s.(calls := s.calls[step.c := NextCall(x, step, s.word)],
       word := NextWord(s.word, step),
       tally := NextTally(s.tally, step, x),
       done := if step.CloseDone? then s.done + 1 else s.done)
  }

  predicate IsClaimStep(step: Step) {
    step.Load? || step.Try? || step.Acquire? || step.Leave? || step.Release?
  }

  predicate IsKeyStep(step: Step) {
    step.Lock? || step.LeaveKey? || step.Unlock?
  }

  function ClaimOf(c: Call, i: int): Claim {
    if 0 <= i < |c.claims| then c.claims[i] else Claim("", 0)
  }

  /** The lock-free half of tryAcquire. */
  function LoadMove(s: State, c: nat, r: string): State
    requires c < |s.calls| && s.calls[c].pc.Claiming? && r in s.budgets
  {
    var i := s.calls[c].pc.i;
    GoTo(s, c, if s.budgets[r].full then Releasing(i, true) else Trying(i))
  }

  /** The locked half of tryAcquire. */
  function TryMove(s: State, c: nat, r: string, n: int): (State, Rest)
    requires c < |s.calls| && s.calls[c].pc.Trying? && r in s.budgets
  {
    var i := s.calls[c].pc.i;
    if B.Fits(s.budgets[r], n) then (Charge(GoTo(s, c, Claiming(i + 1)), c, r, n), Refresh(r))
    else (GoTo(s, c, Releasing(i, true)), Nothing)
  }

  /** The first critical section of acquire. */
  function AcquireMove(s: State, c: nat, r: string, n: int): (State, Rest)
    requires c < |s.calls| && s.calls[c].pc.Claiming? && r in s.budgets
  {
    var x, b := s.calls[c], s.budgets[r];
    var i := x.pc.i;
    if B.Fits(b, n) then (Charge(GoTo(s, c, Claiming(i + 1)), c, r, n), Refresh(r))
    else if b.closed || x.ended then (GoTo(s, c, Releasing(i, true)), Nothing)
    else (QueueMove(s, c, r, n), Refresh(r))
  }

  function QueueMove(s: State, c: nat, r: string, n: int): State
    requires c < |s.calls| && s.calls[c].pc.Claiming? && r in s.budgets
  {
    var x, b := s.calls[c], s.budgets[r];
    WithBudget(WithCall(s, c, x.(pc := Parked(x.pc.i), state := Waiting, token := false)),
               r, b.(queue := b.queue + [B.Ticket(c, n)]))
  }

  /** The call's ticket, at position k, goes. */
  function DequeueMove(s: State, c: nat, r: string, k: nat): State
    requires c < |s.calls| && s.calls[c].pc.Leaving? && r in s.budgets && k < |s.budgets[r].queue|
  {
    var x, b := s.calls[c], s.budgets[r];
    WithBudget(WithCall(s, c, x.(pc := Releasing(x.pc.i, true), token := false)),
               r, b.(queue := Without(b.queue, k)))
  }

  /** leave: a queued waiter is removed, a granted one returns its units. */
  function LeaveMove(s: State, c: nat, r: string, n: int): (State, Rest)
    requires c < |s.calls| && s.calls[c].pc.Leaving? && r in s.budgets
  {
    var x, b := s.calls[c], s.budgets[r];
    var t := WithCall(s, c, x.(pc := Releasing(x.pc.i, true), token := false));
    if x.state == Waiting then
      var k := B.Find(b.queue, c);
      if k == |b.queue| then (t, Nothing)
      else (DequeueMove(s, c, r, k), if k == 0 then Serve(r) else Refresh(r))
    else if x.state == Granted then (Repay(t, c, r, n), Serve(r))
    else (t, Refresh(r))
  }

  function ReleaseMove(s: State, c: nat, r: string, n: int): (State, Rest)
    requires c < |s.calls| && s.calls[c].pc.Releasing? && s.calls[c].pc.i > 0 && r in s.budgets
  {
    var x := s.calls[c];
    (Repay(GoTo(s, c, Releasing(x.pc.i - 1, x.pc.failed)), c, r, n), Serve(r))
  }

  /** The claim a step is about. */
  function StepClaim(s: State, step: Step): Claim
    requires IsClaimStep(step) && Can(s, step)
  {
    var x := s.calls[step.c];
    ClaimOf(x, if step.Release? then x.pc.i - 1 else x.pc.i)
  }

  /** A step on the budget of one claim. */
  function MoveClaim(s: State, step: Step): (State, Rest)
    requires IsClaimStep(step) && Can(s, step)
  {
    var Claim(r, n) := StepClaim(s, step);
    if r !in s.budgets then (s, Nothing)
    else
      match step
      case Load(c) => (LoadMove(s, c, r), Nothing)
      case Try(c) => TryMove(s, c, r, n)
      case Acquire(c) => AcquireMove(s, c, r, n)
      case Leave(c) => LeaveMove(s, c, r, n)
      case Release(c) => ReleaseMove(s, c, r, n)
  }

  function NewCell(l: Locker, e: nat, key: string, owner: int): Cell {
    if e in l.cells then l.cells[e].(key := key, owner := owner) else Cell(key, [], owner)
  }

  /** A free key is taken with entry e, from the pool or new. */
  function TakeKeyMove(s: State, c: nat, e: nat): State
    requires c < |s.calls|
  {
    var x, l := s.calls[c], s.locker;
    WithCall(s, c, x.(pc := Claiming(0), entry := e, book := WithKey(x.book))).(locker :=
      l.(m := l.m[x.key := e], cells := l.cells[e := NewCell(l, e, x.key, c)], pool := l.pool - {e}))
  }

  /** The call queues behind the holder of entry e. */
  function QueueKeyMove(s: State, c: nat, e: nat): State
    requires c < |s.calls| && e in s.locker.cells
  {
    var x, l := s.calls[c], s.locker;
    WithCall(s, c, x.(pc := KeyParked, state := Waiting, token := false, entry := e)).(locker :=
      l.(cells := l.cells[e := l.cells[e].(queue := l.cells[e].queue + [c])]))
  }

  function LockMove(s: State, c: nat, e: nat): State
    requires c < |s.calls|
  {
    var x, l := s.calls[c], s.locker;
    if x.key !in l.m then TakeKeyMove(s, c, e)
    else if x.mode == Reject || l.closed || x.ended then GoTo(s, c, Refusing)
    else if l.m[x.key] !in l.cells then s
    else QueueKeyMove(s, c, l.m[x.key])
  }

  /** The call's position in its entry's queue goes. */
  function DequeueKeyMove(s: State, c: nat, k: nat): State
    requires c < |s.calls| && s.calls[c].entry in s.locker.cells
    requires k < |s.locker.cells[s.calls[c].entry].queue|
  {
    var x, l := s.calls[c], s.locker;
    var cell := l.cells[x.entry];
    WithCall(s, c, x.(pc := Refusing, token := false)).(locker :=
      l.(cells := l.cells[x.entry := cell.(queue := Without(cell.queue, k))]))
  }

  function LeaveKeyMove(s: State, c: nat): (State, Rest)
    requires c < |s.calls|
  {
    var x, l := s.calls[c], s.locker;
    var t := WithCall(s, c, x.(pc := Refusing, token := false));
    if x.state == Waiting then
      if x.entry !in l.cells then (t, Nothing)
      else
        var k := IndexOf(l.cells[x.entry].queue, c);
        if k == |l.cells[x.entry].queue| then (t, Nothing) else (DequeueKeyMove(s, c, k), Nothing)
    else if x.state == Granted then
      (WithCall(s, c, x.(pc := Refusing, token := false, book := WithoutKey(x.book))), HandKey(x.entry))
    else (t, Nothing)
  }

  function UnlockMove(s: State, c: nat): (State, Rest)
    requires c < |s.calls| && s.calls[c].pc.Releasing?
  {
    var x := s.calls[c];
    var pc := if x.pc.failed then Refusing else Exiting;
    if x.key != "" then (WithCall(s, c, x.(pc := pc, book := WithoutKey(x.book))), HandKey(x.entry))
    else (GoTo(s, c, pc), Nothing)
  }

  /** A step on the key locker. */
  function MoveKey(s: State, step: Step): (State, Rest)
    requires IsKeyStep(step) && Can(s, step)
  {
    match step
    case Lock(c, e) => (LockMove(s, c, e), Nothing)
    case LeaveKey(c) => LeaveKeyMove(s, c)
    case Unlock(c) => UnlockMove(s, c)
  }

  function WithDown(s: State, d: nat, x: Down): State
    requires d < |s.downs|
  {
    s.(downs := s.downs[d := x])
  }

  function MoveDown(s: State, step: Step): (State, Rest)
    requires !IsCallStep(step) && Can(s, step)
  {
    var d := step.d;
    match step
    case Stop(_) =>
      var next := if Stopped(s.word) then Probing else Sweeping(s.budgets.Keys);
      (WithDown(s, d, next).(word := OrStopping(s.word)), Nothing)
    case CloseBudget(_, r) => (WithDown(s, d, Sweeping(s.downs[d].todo - {r})), Withdraw(r))
    case CloseKeys(_) => (WithDown(s, d, DownMarking), WithdrawKeys)
    case DownMark(_) =>
      if s.word == STOPPING then (WithDown(s, d, DownClosing).(word := STOPPING + DRAINED), Nothing)
      else (WithDown(s, d, Probing), Nothing)
    case DownCloseDone(_) => (WithDown(s, d, Probing).(done := s.done + 1), Nothing)
    case Probe(_) => (WithDown(s, d, if s.done > 0 then ReturnedNil else Selecting), Nothing)
    case SelectDone(_) => (WithDown(s, d, ReturnedNil), Nothing)
    case SelectCtx(_) => (WithDown(s, d, ReturnedErr), Nothing)
  }

  function Move(s: State, step: Step): (State, Rest)
    requires Can(s, step)
  {
    if !IsCallStep(step) then MoveDown(s, step)
    else if IsClaimStep(step) then MoveClaim(s, step)
    else if IsKeyStep(step) then MoveKey(s, step)
    else (MoveGate(s, step), Nothing)
  }

  // ---------- the rest of the critical section ----------

  /** Waiter c is woken with the given verdict, and booked for what it was given. */
  function Wake(calls: seq<Call>, c: int, verdict: WaitState, book: Book -> Book): seq<Call> {
    if 0 <= c < |calls| then calls[c := calls[c].(state := verdict, token := true, book := book(calls[c].book))]
    else calls
  }

  function GrantHead(s: State, r: string): State
    requires r in s.budgets && s.budgets[r].queue != []
  {
    var b := s.budgets[r];
    var head := b.queue[0];
    WithBudget(s, r, B.GrantHead(b)).(calls := Wake(s.calls, head.id, Granted, k => Owing(k, Claim(r, head.n))))
  }

  function GrantLoop(s: State, r: string): State
    requires r in s.budgets
    decreases |s.budgets[r].queue|
  {
    if B.HeadFits(s.budgets[r]) then GrantLoop(GrantHead(s, r), r) else s
  }

  function WithdrawHead(s: State, r: string): State
    requires r in s.budgets && s.budgets[r].queue != []
  {
    var b := s.budgets[r];
    WithBudget(s, r, b.(queue := b.queue[1..])).(calls := Wake(s.calls, b.queue[0].id, Withdrawn, k => k))
  }

  function WithdrawLoop(s: State, r: string): State
    requires r in s.budgets
    decreases |s.budgets[r].queue|
  {
    if s.budgets[r].queue != [] then WithdrawLoop(WithdrawHead(s, r), r) else s
  }

  function Publish(s: State, r: string): State
    requires r in s.budgets
  {
    WithBudget(s, r, B.Sync(s.budgets[r]))
  }

  /** handOff: the head waiter gets the key, or the entry is retired. */
  function HandOff(s: State, e: nat): State {
    var l := s.locker;
    if e !in l.cells then s
    else
      var cell := l.cells[e];
      if cell.queue != [] then
        s.(locker := l.(cells := l.cells[e := cell.(queue := cell.queue[1..], owner := cell.queue[0])]),
           calls := Wake(s.calls, cell.queue[0], Granted, WithKey))
      else
        s.(locker := l.(m := l.m - {cell.key}, cells := l.cells[e := cell.(key := "")], pool := l.pool + {e}))
  }

  /** Every call queued for some held key. */
  function KeyWaiters(l: Locker): set<int> {
    set k, c | k in l.m && l.m[k] in l.cells && c in l.cells[l.m[k]].queue :: c
  }

  function WithdrawAllKeys(s: State): State {
    var l := s.locker;
    s.(locker := l.(closed := true,
                    cells := map e | e in l.cells :: if e in l.m.Values then l.cells[e].(queue := []) else l.cells[e]),
       calls := seq(|s.calls|, i requires 0 <= i < |s.calls| =>
                      if i in KeyWaiters(l) then s.calls[i].(state := Withdrawn, token := true) else s.calls[i]))
  }

  predicate Applies(s: State, rest: Rest) {
    match rest
    case Refresh(r) => r in s.budgets
    case Serve(r) => r in s.budgets
    case Withdraw(r) => r in s.budgets
    case _ => true
  }

  function Complete(s: State, rest: Rest): State
    requires Applies(s, rest)
  {
    match rest
    case Nothing => s
    case Refresh(r) => Publish(s, r)
    case Serve(r) =>
      var t := GrantLoop(s, r);
      if r in t.budgets then Publish(t, r) else t
    case HandKey(e) => HandOff(s, e)
    case Withdraw(r) =>
      var t := WithdrawLoop(s, r);
      if r in t.budgets then WithBudget(t, r, B.Sync(t.budgets[r].(closed := true))) else t
    case WithdrawKeys => WithdrawAllKeys(s)
  }

  function Do(s: State, step: Step): State
    requires Can(s, step)
  {
    var (t, rest) := Move(s, step);
    if Applies(t, rest) then Complete(t, rest) else t
  }
}
