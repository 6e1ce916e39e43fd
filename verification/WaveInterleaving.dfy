/** Concurrent execution of a wave: steps interleave at their suspension points over one
    blackboard, one mission budget and the one spend guard the router holds. */
module WaveInterleaving {
  import opened Common
  import E = MissionEngine
  import G = SpendGuard

  type Key = string
  type Value = string
  type Board = map<Key, Value>

  /** How a step ends, and what it stores. */
  datatype Outcome = Outcome(status: E.StepStatus, stored: Option<Value>)

  /** The guard in the router's slot. */
  datatype Guard = Guard(limit: real, orgRemaining: real, spent: real)
  {
    predicate Passes(projected: real) {
      G.Passes(spent, limit, orgRemaining, projected)
    }

    function Charged(usd: real): Guard {
      Guard(limit, orgRemaining - usd, spent + usd)
    }
  }

  /** One stretch of a step between two suspension points. It may look whether any of the
      mission's budget is left, book a cost on that budget, put a starting agent's guard
      into the router's slot, have the guard that is there check a model call, or charge
      that guard. Only finishing writes the blackboard, and only with a result. */
  datatype Op<L> =
    | Suspend(next: L)
    | Finish(outcome: Outcome)
    | Look(rich: Op<L>, broke: Op<L>)
    | Spend(usd: real, rest: Op<L>)
    | Install(ceiling: real, rest: Op<L>)
    | Check(projected: real, passed: Op<L>, refused: Op<L>)
    | Record(usd: real, rest: Op<L>)

  /** A step of a wave, as the coroutine the engine gathers. */
  datatype Task<!L> = Task(output: Key, start: L, move: (L, Board) -> Op<L>)

  datatype TaskState<L> = Running(local: L) | Over(outcome: Outcome)

  /** The mission's budget, and the router's slot. */
  datatype Money = Money(spent: real, orgRemaining: real, slot: Option<Guard>)

  datatype Config<L> = Config(states: seq<TaskState<L>>, board: Board, money: Money)

  // ---------- one scheduling step ----------

  predicate Rich(limit: real, money: Money) {
    limit - money.spent > 0.0
  }

  /** Runs a stretch. A new guard starts with the mission's remainder of the
      organisation's budget. */
  function Exec<L>(op: Op<L>, limit: real, m: Money): (TaskState<L>, Money) {
    match op
    case Suspend(next) => (Running(next), m)
    case Finish(outcome) => (Over(outcome), m)
    case Look(rich, broke) => Exec(if Rich(limit, m) then rich else broke, limit, m)
    case Spend(usd, rest) => Exec(rest, limit, m.(spent := m.spent + usd, orgRemaining := m.orgRemaining - usd))
    case Install(ceiling, rest) => Exec(rest, limit, m.(slot := Some(Guard(ceiling, m.orgRemaining, 0.0))))
    case Check(projected, passed, refused) =>
      Exec(if m.slot.None? || m.slot.value.Passes(projected) then passed else refused, limit, m)
    case Record(usd, rest) =>
      Exec(rest, limit, if m.slot.Some? then m.(slot := Some(m.slot.value.Charged(usd))) else m)
  }

  function Resume<L>(tasks: seq<Task<L>>, limit: real, c: Config<L>, i: nat): Config<L>
    requires i < |tasks| == |c.states|
  {
    match c.states[i]
    case Over(_) => c
    case Running(local) =>
      var (state, money) := Exec(tasks[i].move(local, c.board), limit, c.money);
      Config(c.states[i := state], BoardAfter(tasks[i], c.board, c.states[i], state), money)
  }

  /** A task's move from `before` to `after` writes only when it finishes with a result. */
  function BoardAfter<L>(task: Task<L>, board: Board, before: TaskState<L>, after: TaskState<L>): Board {
    if !before.Over? && HasWritten(after) then board[task.output := after.outcome.stored.value] else board
  }

  /** A schedule: the order in which the event loop resumes the tasks of a wave. */
  datatype Schedule = Start | Then(before: Schedule, task: nat)

  predicate ScheduleFor(schedule: Schedule, n: nat) {
    schedule.Then? ==> schedule.task < n && ScheduleFor(schedule.before, n)
  }

  /** Runs a wave under a schedule. */
  function Run<L>(tasks: seq<Task<L>>, limit: real, c: Config<L>, schedule: Schedule): (r: Config<L>)
    requires |tasks| == |c.states| && ScheduleFor(schedule, |tasks|)
    ensures |r.states| == |tasks|
  {
    match schedule
    case Start => c
    case Then(before, i) => Resume(tasks, limit, Run(tasks, limit, c, before), i)
  }

  function Initial<L>(tasks: seq<Task<L>>, board: Board, money: Money): Config<L> {
    Config(seq(|tasks|, i requires 0 <= i < |tasks| => Running(tasks[i].start)), board, money)
  }

  ghost predicate AllOver<L>(c: Config<L>) {
    forall i :: 0 <= i < |c.states| ==> c.states[i].Over?
  }

  // ---------- a task on its own ----------

  /** What a task has booked: on the mission's budget, on guards, and how much of the
      organisation's remainder a guard may miss because of it. */
  datatype Ledger = Ledger(spent: real, charged: real, drawn: real)
  {
    function Plus(other: Ledger): Ledger {
      Ledger(spent + other.spent, charged + other.charged, drawn + other.drawn)
    }

    function Minus(other: Ledger): Ledger {
      Ledger(spent - other.spent, charged - other.charged, drawn - other.drawn)
    }

    predicate Within(cap: Ledger) {
      spent <= cap.spent && charged <= cap.charged && drawn <= cap.drawn
    }

    predicate Sound() {
      0.0 <= charged && 0.0 <= spent <= drawn
    }
  }

  const NOTHING := Ledger(0.0, 0.0, 0.0)

  /** Where a stretch leads when every test passes, and what it books on the way. */
  function Follow<L>(op: Op<L>): TaskState<L> {
    match op
    case Suspend(next) => Running(next)
    case Finish(outcome) => Over(outcome)
    case Look(rich, _) => Follow(rich)
    case Spend(_, rest) => Follow(rest)
    case Install(_, rest) => Follow(rest)
    case Check(_, passed, _) => Follow(passed)
    case Record(_, rest) => Follow(rest)
  }

  function Booked<L>(op: Op<L>, l: Ledger): Ledger {
    match op
    case Suspend(_) => l
    case Finish(_) => l
    case Look(rich, _) => Booked(rich, l)
    case Spend(usd, rest) => Booked(rest, Ledger(l.spent + usd, l.charged, MaxReal(l.drawn, l.spent + usd)))
    case Install(_, rest) => Booked(rest, l)
    case Check(_, passed, _) => Booked(passed, l)
    case Record(usd, rest) => Booked(rest, Ledger(l.spent, l.charged + usd, l.drawn + usd))
  }

  datatype Trail<L> = Trail(state: TaskState<L>, ledger: Ledger)

  /** The task resumed `n` times on the starting board with every test passing. */
  function Calm<L>(task: Task<L>, board: Board, n: nat): Trail<L> {
    if n == 0 then Trail(Running(task.start), NOTHING)
    else
      var before := Calm(task, board, n - 1);
      match before.state
      case Over(_) => before
      case Running(local) =>
        Trail(Follow(task.move(local, board)), Booked(task.move(local, board), before.ledger))
  }

  /** The task resumed `n` times with the budget and the router to itself. */
  function Alone<L>(task: Task<L>, limit: real, board: Board, m: Money, n: nat): (TaskState<L>, Money) {
    if n == 0 then (Running(task.start), m)
    else
      var before := Alone(task, limit, board, m, n - 1);
      match before.0
      case Over(_) => before
      case Running(local) => Exec(task.move(local, board), limit, before.1)
  }

  /** Whether its agent has started in the first `n` of these resumptions. */
  function HasOpened<L>(task: Task<L>, board: Board, n: nat): bool {
    n > 0 && (HasOpened(task, board, n - 1) || OpensNow(task, Calm(task, board, n - 1).state, board))
  }

  predicate OpensNow<L>(task: Task<L>, state: TaskState<L>, board: Board) {
    state.Running? && Opens(task.move(state.local, board))
  }

  predicate Opens<L>(op: Op<L>) {
    match op
    case Suspend(_) => false
    case Finish(_) => false
    case Look(rich, _) => Opens(rich)
    case Spend(_, rest) => Opens(rest)
    case Install(_, _) => true
    case Check(_, passed, _) => Opens(passed)
    case Record(_, rest) => Opens(rest)
  }

  lemma {:induction false} CalmStaysOver<L>(task: Task<L>, board: Board, m: nat, n: nat)
    requires m <= n && Calm(task, board, m).state.Over?
    ensures Calm(task, board, n) == Calm(task, board, m)
    decreases n
  {
    if m < n {
      CalmStaysOver(task, board, m, n - 1);
    }
  }

  lemma {:induction false} AloneStaysOver<L>(task: Task<L>, limit: real, board: Board, money: Money, m: nat, n: nat)
    requires m <= n && Alone(task, limit, board, money, m).0.Over?
    ensures Alone(task, limit, board, money, n) == Alone(task, limit, board, money, m)
    decreases n
  {
    if m < n {
      AloneStaysOver(task, limit, board, money, m, n - 1);
    }
  }

  // ---------- independence ----------

  ghost predicate Agree(a: Board, b: Board, keys: set<Key>) {
    forall k :: k in keys ==> (k in a <==> k in b) && (k in a ==> a[k] == b[k])
  }

  ghost predicate ReadsOnly<L(!new)>(task: Task<L>, keys: set<Key>) {
    forall local, a, b :: Agree(a, b, keys) ==> task.move(local, a) == task.move(local, b)
  }

  /** Distinct output keys, and no task reads what another writes. */
  ghost predicate Independent<L(!new)>(tasks: seq<Task<L>>, inputs: seq<set<Key>>) {
    && |inputs| == |tasks|
    && (forall i, j :: 0 <= i < j < |tasks| ==> tasks[i].output != tasks[j].output)
    && (forall i :: 0 <= i < |tasks| ==> ReadsOnly(tasks[i], inputs[i]))
    && (forall i, j :: 0 <= i < |tasks| && 0 <= j < |tasks| && i != j ==> tasks[j].output !in inputs[i])
  }

  // ---------- money that no schedule can turn ----------

  /** A stretch that neither touches a guard nor books anything. */
  predicate Guardless<L>(op: Op<L>) {
    match op
    case Suspend(_) => true
    case Finish(_) => true
    case Look(rich, broke) => Guardless(rich) && Guardless(broke)
    case _ => false
  }

  /** A stretch that starts an agent, or finishes, before it asks the router anything. */
  predicate OpensGuard<L>(op: Op<L>) {
    match op
    case Suspend(_) => false
    case Finish(_) => true
    case Look(rich, broke) => OpensGuard(rich) && OpensGuard(broke)
    case Spend(_, rest) => OpensGuard(rest)
    case Install(_, _) => true
    case Check(_, _, _) => false
    case Record(_, _) => false
  }

  ghost predicate NeverUsesModel<L(!new)>(task: Task<L>) {
    forall local, board :: Guardless(task.move(local, board))
  }

  /** A guardless stretch after which it is still early. */
  predicate StaysEarly<L>(op: Op<L>, early: L -> bool) {
    match op
    case Suspend(next) => early(next)
    case Finish(_) => true
    case Look(rich, broke) => StaysEarly(rich, early) && StaysEarly(broke, early)
    case _ => false
  }

  /** While it is early the step has not used the router; the stretch that ends this
      starts its agent, or finishes. */
  ghost predicate OpensInTime<L(!new)>(task: Task<L>, early: L -> bool) {
    && early(task.start)
    && forall local, board :: early(local) ==> OpensGuard(task.move(local, board)) || StaysEarly(task.move(local, board), early)
  }

  /** A step that uses no model, or starts its agent before it asks the router anything. */
  ghost predicate BringsGuard<L(!new)>(task: Task<L>) {
    exists early: L -> bool :: OpensInTime(task, early)
  }

  /** What the others leave a task: the least room a fresh guard has, the run limit, a
      guard's limit and the organisation's remainder, each less all the others may take. */
  datatype Room = Room(floor: real, spent: real, charged: real, drawn: real)

  /** Every test on the way passes even when the others have taken all they may, and
      every ceiling is at least the floor. `held` is what is left under the ceiling of a
      guard this very stretch has put into the slot: nobody else has charged that one. */
  predicate Unbound<L>(op: Op<L>, l: Ledger, held: Option<real>, room: Room) {
    match op
    case Suspend(_) => true
    case Finish(_) => true
    case Look(rich, _) => l.spent < room.spent && Unbound(rich, l, held, room)
    case Spend(usd, rest) =>
      usd >= 0.0 && Unbound(rest, Ledger(l.spent + usd, l.charged, MaxReal(l.drawn, l.spent + usd)), held, room)
    case Install(ceiling, rest) => ceiling >= room.floor && Unbound(rest, l, Some(ceiling), room)
    case Check(projected, passed, _) =>
      && (if held.Some? then projected <= held.value else l.charged + projected <= room.charged)
      && l.drawn + projected <= room.drawn && Unbound(passed, l, held, room)
    case Record(usd, rest) =>
      && usd >= 0.0
      && Unbound(rest, Ledger(l.spent, l.charged + usd, l.drawn + usd), if held.Some? then Some(held.value - usd) else None, room)
  }

  /** How a wave's money is harmless: one task at most uses the model and spends at most
      `cap`, or several do and nothing can bind, task `i` booking at most `caps[i]` and no
      agent starting with a ceiling below `floor`. */
  datatype Plan = Sole(user: nat, cap: real) | Crowd(caps: seq<Ledger>, floor: real)

  function Total(ls: seq<Ledger>): Ledger {
    if ls == [] then NOTHING else Total(ls[..|ls| - 1]).Plus(ls[|ls| - 1])
  }

  /** What the rest of a crowd leaves task `i`. */
  function RoomFor(limit: real, money: Money, caps: seq<Ledger>, floor: real, i: nat): Room
    requires i < |caps|
  {
    var others := Total(caps).Minus(caps[i]);
    Room(floor, limit - money.spent - others.spent, floor - others.charged, money.orgRemaining - others.drawn)
  }

  ghost predicate CalmlyUnbound<L>(task: Task<L>, board: Board, room: Room) {
    forall n: nat :: Calm(task, board, n).state.Running? ==>
      Unbound(task.move(Calm(task, board, n).state.local, board), Calm(task, board, n).ledger, None, room)
  }

  ghost predicate Harmless<L(!new)>(tasks: seq<Task<L>>, plan: Plan, limit: real, board: Board, money: Money) {
    && (forall i :: 0 <= i < |tasks| ==> BringsGuard(tasks[i]))
    && match plan
       case Sole(u, cap) =>
         && u < |tasks|
         && (forall n: nat :: Alone(tasks[u], limit, board, money, n).1.spent <= money.spent + cap)
         && (forall i :: 0 <= i < |tasks| && i != u ==>
               NeverUsesModel(tasks[i]) && CalmlyUnbound(tasks[i], board, Room(0.0, limit - money.spent - cap, 0.0, 0.0)))
       case Crowd(caps, floor) =>
         && |caps| == |tasks|
         && (forall i: nat, n: nat :: i < |tasks| ==> Calm(tasks[i], board, n).ledger.Within(caps[i]))
         && (forall i :: 0 <= i < |tasks| ==> CalmlyUnbound(tasks[i], board, RoomFor(limit, money, caps, floor, i)))
  }

  lemma {:induction false} TotalUpdate(ls: seq<Ledger>, i: nat, l: Ledger)
    requires i < |ls|
    ensures Total(ls[i := l]) == Total(ls).Minus(ls[i]).Plus(l)
  {
    var last := |ls| - 1;
    if i == last {
      assert ls[i := l][..last] == ls[..last];
    } else {
      assert ls[i := l][..last] == ls[..last][i := l];
      TotalUpdate(ls[..last], i, l);
    }
  }

  lemma {:induction false} TotalWithin(ls: seq<Ledger>, caps: seq<Ledger>)
    requires |ls| == |caps| && forall i :: 0 <= i < |ls| ==> ls[i].Within(caps[i])
    ensures Total(ls).Within(Total(caps))
  {
    if ls != [] {
      TotalWithin(ls[..|ls| - 1], caps[..|caps| - 1]);
    }
  }

  lemma {:induction false} TotalSound(ls: seq<Ledger>)
    requires forall i :: 0 <= i < |ls| ==> ls[i].Sound()
    ensures Total(ls).Sound()
  {
    if ls != [] {
      TotalSound(ls[..|ls| - 1]);
    }
  }

  lemma {:induction false} TotalOfNothing(ls: seq<Ledger>)
    requires forall i :: 0 <= i < |ls| ==> ls[i] == NOTHING
    ensures Total(ls) == NOTHING
  {
    if ls != [] {
      TotalOfNothing(ls[..|ls| - 1]);
    }
  }

  /** Whatever the others have booked is within what they may. */
  lemma OthersWithin(ls: seq<Ledger>, caps: seq<Ledger>, i: nat)
    requires |ls| == |caps| && i < |ls| && forall j :: 0 <= j < |ls| ==> ls[j].Within(caps[j])
    ensures Total(ls).Minus(ls[i]).Within(Total(caps).Minus(caps[i]))
  {
    TotalUpdate(ls, i, caps[i]);
    TotalWithin(ls[i := caps[i]], caps);
  }

  lemma OthersSound(ls: seq<Ledger>, i: nat)
    requires i < |ls| && forall j :: 0 <= j < |ls| ==> ls[j].Sound()
    ensures Total(ls).Minus(ls[i]).Sound()
  {
    TotalUpdate(ls, i, NOTHING);
    TotalSound(ls[i := NOTHING]);
  }

  // ---------- a stretch in the crowd ----------

  /** The money when the task has booked `own` and the others `others`; `open` says that
      some agent of the wave has started, so that the slot holds a guard of the wave. */
  ghost predicate Booking(start: Money, floor: real, own: Ledger, others: Ledger, open: bool, m: Money) {
    && m.spent == start.spent + own.spent + others.spent
    && m.orgRemaining == start.orgRemaining - own.spent - others.spent
    && (open ==>
          && m.slot.Some?
          && m.slot.value.limit - m.slot.value.spent >= floor - own.charged - others.charged
          && m.slot.value.orgRemaining >= start.orgRemaining - own.drawn - others.drawn)
  }

  ghost predicate Holds(held: Option<real>, m: Money) {
    held.Some? ==> m.slot.Some? && m.slot.value.limit - m.slot.value.spent == held.value
  }

  lemma SpendingIsBooked(start: Money, floor: real, own: Ledger, others: Ledger, open: bool, m: Money, usd: real)
    requires Booking(start, floor, own, others, open, m) && own.Sound() && usd >= 0.0
    ensures var booked := Ledger(own.spent + usd, own.charged, MaxReal(own.drawn, own.spent + usd));
            && booked.Sound()
            && Booking(start, floor, booked, others, open, m.(spent := m.spent + usd, orgRemaining := m.orgRemaining - usd))
  {
  }

  lemma ChargingIsBooked(start: Money, floor: real, own: Ledger, others: Ledger, m: Money, usd: real)
    requires Booking(start, floor, own, others, true, m) && own.Sound() && usd >= 0.0
    ensures var booked := Ledger(own.spent, own.charged + usd, own.drawn + usd);
            booked.Sound() && Booking(start, floor, booked, others, true, m.(slot := Some(m.slot.value.Charged(usd))))
  {
  }

  lemma NewGuardIsBooked(start: Money, floor: real, own: Ledger, others: Ledger, open: bool, m: Money, ceiling: real)
    requires Booking(start, floor, own, others, open, m) && own.Sound() && others.Sound() && ceiling >= floor
    ensures Booking(start, floor, own, others, true, m.(slot := Some(Guard(ceiling, m.orgRemaining, 0.0))))
  {
  }

  lemma UnboundCallPasses(start: Money, floor: real, own: Ledger, others: Ledger, cap: Ledger, held: Option<real>, m: Money,
                          projected: real)
    requires Booking(start, floor, own, others, true, m) && others.Within(cap) && Holds(held, m)
    requires if held.Some? then projected <= held.value else own.charged + projected <= floor - cap.charged
    requires own.drawn + projected <= start.orgRemaining - cap.drawn
    ensures m.slot.value.Passes(projected)
  {
  }

  /** An unbound stretch does in the crowd what it does when every test passes. */
  lemma {:induction false} FollowInCrowd<L>(op: Op<L>, limit: real, start: Money, floor: real, own: Ledger, others: Ledger,
                                            cap: Ledger, held: Option<real>, open: bool, m: Money)
    requires Booking(start, floor, own, others, open, m) && own.Sound() && others.Sound() && others.Within(cap)
    requires Unbound(op, own, held, Room(floor, limit - start.spent - cap.spent, floor - cap.charged, start.orgRemaining - cap.drawn))
    requires Holds(held, m) && (held.Some? ==> open)
    requires open || OpensGuard(op) || Guardless(op)
    ensures Exec(op, limit, m).0 == Follow(op) && Booked(op, own).Sound()
    ensures Booking(start, floor, Booked(op, own), others, open || Opens(op), Exec(op, limit, m).1)
    ensures Guardless(op) ==> Exec(op, limit, m).1 == m && Booked(op, own) == own
    decreases op
  {
    match op {
      case Suspend(_) =>
      case Finish(_) =>
      case Look(rich, _) =>
        assert Rich(limit, m);
        hide Booking;
        FollowInCrowd(rich, limit, start, floor, own, others, cap, held, open, m);
      case Spend(usd, rest) =>
        hide Booking;
        SpendingIsBooked(start, floor, own, others, open, m, usd);
        var booked := Ledger(own.spent + usd, own.charged, MaxReal(own.drawn, own.spent + usd));
        FollowInCrowd(rest, limit, start, floor, booked, others, cap, held, open,
                      m.(spent := m.spent + usd, orgRemaining := m.orgRemaining - usd));
      case Install(ceiling, rest) =>
        hide Booking;
        NewGuardIsBooked(start, floor, own, others, open, m, ceiling);
        FollowInCrowd(rest, limit, start, floor, own, others, cap, Some(ceiling), true,
                      m.(slot := Some(Guard(ceiling, m.orgRemaining, 0.0))));
      case Check(projected, passed, _) =>
        UnboundCallPasses(start, floor, own, others, cap, held, m, projected);
        hide Booking;
        FollowInCrowd(passed, limit, start, floor, own, others, cap, held, open, m);
      case Record(usd, rest) =>
        ChargingIsBooked(start, floor, own, others, m, usd);
        assert m.slot.Some?;
        hide Booking;
        FollowInCrowd(rest, limit, start, floor, Ledger(own.spent, own.charged + usd, own.drawn + usd), others, cap,
                      if held.Some? then Some(held.value - usd) else None, open,
                      m.(slot := Some(m.slot.value.Charged(usd))));
    }
  }

  predicate HasWritten<L>(state: TaskState<L>) {
    state.Over? && state.outcome.stored.Some?
  }

  ghost predicate Untouched<L>(tasks: seq<Task<L>>, states: seq<TaskState<L>>, k: Key)
    requires |tasks| == |states|
  {
    forall i :: 0 <= i < |tasks| && tasks[i].output == k ==> !HasWritten(states[i])
  }

  /** The board is the starting board overwritten by exactly the results of finished tasks. */
  ghost predicate Overlaid<L>(tasks: seq<Task<L>>, start: Board, states: seq<TaskState<L>>, board: Board)
    requires |tasks| == |states|
  {
    && (forall i :: 0 <= i < |tasks| && HasWritten(states[i]) ==>
          tasks[i].output in board && board[tasks[i].output] == states[i].outcome.stored.value)
    && (forall k :: Untouched(tasks, states, k) ==>
          (k in board <==> k in start) && (k in board ==> board[k] == start[k]))
  }

  lemma StillUntouched<L>(tasks: seq<Task<L>>, states: seq<TaskState<L>>, i: nat, next: TaskState<L>, k: Key)
    requires i < |tasks| == |states| && (states[i].Over? ==> next == states[i])
    requires Untouched(tasks, states[i := next], k)
    ensures Untouched(tasks, states, k)
    ensures k == tasks[i].output ==> !HasWritten(next)
  {
    var after := states[i := next];
    assert k == tasks[i].output ==> !HasWritten(after[i]);
    forall j | 0 <= j < |tasks| && tasks[j].output == k
      ensures !HasWritten(states[j])
    {
      assert !HasWritten(after[j]);
    }
  }

  lemma DistinctOutputs<L(!new)>(tasks: seq<Task<L>>, inputs: seq<set<Key>>, i: nat, j: nat)
    requires Independent(tasks, inputs) && i < |tasks| && j < |tasks| && i != j
    ensures tasks[i].output != tasks[j].output
  {
  }

  lemma OverlayKeeps<L(!new)>(tasks: seq<Task<L>>, inputs: seq<set<Key>>, start: Board,
                              states: seq<TaskState<L>>, board: Board, i: nat, next: TaskState<L>)
    requires Independent(tasks, inputs) && i < |tasks| == |states|
    requires Overlaid(tasks, start, states, board) && (states[i].Over? ==> next == states[i])
    ensures Overlaid(tasks, start, states[i := next], BoardAfter(tasks[i], board, states[i], next))
  {
    var after, written := states[i := next], BoardAfter(tasks[i], board, states[i], next);
    forall k | Untouched(tasks, after, k)
      ensures Untouched(tasks, states, k) && (k == tasks[i].output ==> written == board)
    {
      StillUntouched(tasks, states, i, next, k);
    }
    hide Untouched, Independent;
    forall j | 0 <= j < |tasks| && HasWritten(after[j])
      ensures tasks[j].output in written && written[tasks[j].output] == after[j].outcome.stored.value
    {
      if j != i {
        DistinctOutputs(tasks, inputs, i, j);
        assert HasWritten(states[j]);
      }
    }
  }

  lemma {:induction false} GuardlessFollows<L>(op: Op<L>, limit: real, m: Money, room: Room)
    requires Guardless(op) && Unbound(op, NOTHING, None, room) && room.spent <= limit - m.spent
    ensures Exec(op, limit, m) == (Follow(op), m) && Booked(op, NOTHING) == NOTHING
    decreases op
  {
    if op.Look? {
      GuardlessFollows(op.rich, limit, m, room);
    }
  }

  lemma {:induction false} OpenedBeforePausing<L>(op: Op<L>)
    requires OpensGuard(op) && Follow(op).Running?
    ensures Opens(op)
    decreases op
  {
    match op {
      case Look(rich, _) => OpenedBeforePausing(rich);
      case Spend(_, rest) => OpenedBeforePausing(rest);
      case _ =>
    }
  }

  lemma {:induction false} GuardlessNeverOpens<L>(op: Op<L>)
    requires Guardless(op)
    ensures !Opens(op)
    decreases op
  {
    if op.Look? {
      GuardlessNeverOpens(op.rich);
    }
  }

  // ---------- what any schedule leads to ----------

  /** How often each task was resumed. */
  function Counts(schedule: Schedule, n: nat): (c: seq<nat>)
    requires ScheduleFor(schedule, n)
    ensures |c| == n
  {
    match schedule
    case Start => seq(n, i => 0)
    case Then(before, i) => Counts(before, n)[i := Counts(before, n)[i] + 1]
  }

  /** A wave about to run, with the plan that makes its money harmless. */
  datatype Setup<!L> = Setup(tasks: seq<Task<L>>, inputs: seq<set<Key>>, plan: Plan, limit: real, board: Board, money: Money)
  {
    ghost predicate IsSole(i: nat) {
      plan.Sole? && plan.user == i
    }

    /** Where task `i` stands after `n` resumptions, whatever the others did. */
    ghost function StateOf(i: nat, n: nat): TaskState<L>
      requires i < |tasks|
    {
      if IsSole(i) then Alone(tasks[i], limit, board, money, n).0 else Calm(tasks[i], board, n).state
    }

    ghost function Ledgers(counts: seq<nat>): (ls: seq<Ledger>)
      requires |counts| == |tasks|
      ensures |ls| == |tasks|
      ensures forall i :: 0 <= i < |ls| ==> ls[i] == Calm(tasks[i], board, counts[i]).ledger
    {
      seq(|tasks|, i requires 0 <= i < |tasks| => Calm(tasks[i], board, counts[i]).ledger)
    }

    /** Some agent of the wave has started. */
    ghost predicate Started(counts: seq<nat>)
      requires |counts| == |tasks|
    {
      exists i :: 0 <= i < |tasks| && HasOpened(tasks[i], board, counts[i])
    }

    /** The money is what the resumptions so far make of it, in any order. */
    ghost predicate MoneyFits(c: Config<L>, counts: seq<nat>)
      requires |counts| == |tasks| && (plan.Sole? ==> plan.user < |tasks|)
    {
      match plan
      case Sole(u, _) => c.money == Alone(tasks[u], limit, board, money, counts[u]).1
      case Crowd(_, floor) =>
        && (forall i :: 0 <= i < |tasks| ==> Ledgers(counts)[i].Sound())
        && Booking(money, floor, NOTHING, Total(Ledgers(counts)), Started(counts), c.money)
    }

    ghost predicate StatesFit(c: Config<L>, counts: seq<nat>)
      requires |counts| == |tasks| == |c.states|
    {
      && (forall i :: 0 <= i < |tasks| ==> c.states[i] == StateOf(i, counts[i]))
      && Overlaid(tasks, board, c.states, c.board)
    }

    function Begin(): Config<L> {
      Initial(tasks, board, money)
    }
  }

  ghost predicate Ready<L(!new)>(s: Setup<L>) {
    Independent(s.tasks, s.inputs) && Harmless(s.tasks, s.plan, s.limit, s.board, s.money)
  }

  /** After any schedule every task is exactly where its own resumptions took it. */
  ghost predicate AsIfAlone<L(!new)>(s: Setup<L>, c: Config<L>, counts: seq<nat>)
    requires Ready(s) && |s.tasks| == |c.states| == |counts|
  {
    s.StatesFit(c, counts) && s.MoneyFits(c, counts)
  }

  lemma UnfinishedSeesTheStart<L(!new)>(tasks: seq<Task<L>>, inputs: seq<set<Key>>, start: Board, c: Config<L>, i: nat)
    requires Independent(tasks, inputs) && i < |tasks| == |c.states|
    requires Overlaid(tasks, start, c.states, c.board) && !c.states[i].Over?
    ensures Agree(c.board, start, inputs[i]) && ReadsOnly(tasks[i], inputs[i])
  {
  }

  /** The stretch of the one task that uses the model, or of one beside it that does not. */
  lemma SoleStretch<L(!new)>(s: Setup<L>, c: Config<L>, counts: seq<nat>, i: nat)
    requires Ready(s) && s.plan.Sole? && i < |s.tasks| == |c.states| == |counts| && AsIfAlone(s, c, counts)
    requires c.states[i].Running?
    ensures var (state, money) := Exec(s.tasks[i].move(c.states[i].local, s.board), s.limit, c.money);
            && state == s.StateOf(i, counts[i] + 1)
            && money == if i == s.plan.user then Alone(s.tasks[i], s.limit, s.board, s.money, counts[i] + 1).1 else c.money
  {
    if i != s.plan.user {
      var room := Room(0.0, s.limit - s.money.spent - s.plan.cap, 0.0, 0.0);
      CalmWithoutModel(s.tasks[i], s.board, counts[i]);
      assert CalmlyUnbound(s.tasks[i], s.board, room);
      GuardlessFollows(s.tasks[i].move(c.states[i].local, s.board), s.limit, c.money, room);
    }
  }

  lemma {:induction false} CalmWithoutModel<L(!new)>(task: Task<L>, board: Board, n: nat)
    requires NeverUsesModel(task)
    ensures Calm(task, board, n).ledger == NOTHING
  {
    if n > 0 {
      CalmWithoutModel(task, board, n - 1);
      var before := Calm(task, board, n - 1);
      if before.state.Running? {
        assert Guardless(task.move(before.state.local, board));
        GuardlessBooksNothing(task.move(before.state.local, board), NOTHING);
      }
    }
  }

  lemma {:induction false} GuardlessBooksNothing<L>(op: Op<L>, l: Ledger)
    requires Guardless(op)
    ensures Booked(op, l) == l
    decreases op
  {
    if op.Look? {
      GuardlessBooksNothing(op.rich, l);
    }
  }

  /** Resuming changes at most who has started. */
  lemma StartedGrows<L(!new)>(s: Setup<L>, counts: seq<nat>, i: nat)
    requires i < |s.tasks| == |counts|
    ensures s.Started(counts[i := counts[i] + 1]) <==>
            s.Started(counts) || OpensNow(s.tasks[i], Calm(s.tasks[i], s.board, counts[i]).state, s.board)
  {
    hide OpensNow, Calm;
    var more := counts[i := counts[i] + 1];
    if s.Started(counts) {
      var j :| 0 <= j < |s.tasks| && HasOpened(s.tasks[j], s.board, counts[j]);
      assert HasOpened(s.tasks[j], s.board, more[j]);
    }
    if OpensNow(s.tasks[i], Calm(s.tasks[i], s.board, counts[i]).state, s.board) {
      assert HasOpened(s.tasks[i], s.board, more[i]);
    }
    if s.Started(more) {
      var j :| 0 <= j < |s.tasks| && HasOpened(s.tasks[j], s.board, more[j]);
      assert j != i ==> HasOpened(s.tasks[j], s.board, counts[j]);
    }
  }

  lemma {:induction false} StillEarly<L>(op: Op<L>, early: L -> bool, limit: real, m: Money)
    requires StaysEarly(op, early)
    ensures Guardless(op) && (Follow(op).Running? ==> early(Follow(op).local))
    ensures Exec(op, limit, m).0.Running? ==> early(Exec(op, limit, m).0.local)
    decreases op
  {
    if op.Look? {
      StillEarly(op.rich, early, limit, m);
      StillEarly(op.broke, early, limit, m);
    }
  }

  lemma {:induction false} EarlyUntilOpened<L(!new)>(task: Task<L>, early: L -> bool, board: Board, n: nat)
    requires OpensInTime(task, early) && Calm(task, board, n).state.Running?
    ensures early(Calm(task, board, n).state.local) || HasOpened(task, board, n)
  {
    if n > 0 {
      EarlyUntilOpened(task, early, board, n - 1);
      var local := Calm(task, board, n - 1).state.local;
      var op := task.move(local, board);
      if early(local) {
        assert OpensGuard(op) || StaysEarly(op, early);
        if OpensGuard(op) {
          OpenedBeforePausing(op);
        } else {
          StillEarly(op, early, 0.0, Money(0.0, 0.0, None));
        }
      }
    }
  }

  /** A task that is running and uses the model has started its agent, or is about to. */
  lemma RunningHasOpened<L(!new)>(s: Setup<L>, counts: seq<nat>, i: nat)
    requires i < |s.tasks| == |counts| && BringsGuard(s.tasks[i])
    requires Calm(s.tasks[i], s.board, counts[i]).state.Running?
    ensures var op := s.tasks[i].move(Calm(s.tasks[i], s.board, counts[i]).state.local, s.board);
            Guardless(op) || OpensGuard(op) || s.Started(counts)
  {
    var early :| OpensInTime(s.tasks[i], early);
    EarlyUntilOpened(s.tasks[i], early, s.board, counts[i]);
    hide HasOpened, Calm, OpensGuard;
    var local := Calm(s.tasks[i], s.board, counts[i]).state.local;
    if early(local) && !OpensGuard(s.tasks[i].move(local, s.board)) {
      StillEarly(s.tasks[i].move(local, s.board), early, 0.0, Money(0.0, 0.0, None));
    }
  }

  /** The stretch of one task in a crowd that nothing binds. */
  lemma CrowdStretch<L(!new)>(s: Setup<L>, c: Config<L>, counts: seq<nat>, i: nat)
    requires Ready(s) && s.plan.Crowd? && i < |s.tasks| == |c.states| == |counts| && AsIfAlone(s, c, counts)
    requires c.states[i].Running?
    ensures var (state, money) := Exec(s.tasks[i].move(c.states[i].local, s.board), s.limit, c.money);
            var more := counts[i := counts[i] + 1];
            && state == s.StateOf(i, counts[i] + 1)
            && Calm(s.tasks[i], s.board, counts[i] + 1).ledger.Sound()
            && Booking(s.money, s.plan.floor, NOTHING, Total(s.Ledgers(more)), s.Started(more), money)
  {
    hide Exec, Follow, Booked, Unbound, Guardless, OpensGuard, Opens, Independent, Overlaid, s.Started, BringsGuard, Total;
    var op := s.tasks[i].move(c.states[i].local, s.board);
    var ls, caps := s.Ledgers(counts), s.plan.caps;
    var own, others := ls[i], Total(ls).Minus(ls[i]);
    OthersWithin(ls, caps, i);
    OthersSound(ls, i);
    assert CalmlyUnbound(s.tasks[i], s.board, RoomFor(s.limit, s.money, caps, s.plan.floor, i));
    RunningHasOpened(s, counts, i);
    StartedGrows(s, counts, i);
    FollowInCrowd(op, s.limit, s.money, s.plan.floor, own, others, Total(caps).Minus(caps[i]), None, s.Started(counts), c.money);
    var booked := Booked(op, own);
    assert s.Ledgers(counts[i := counts[i] + 1]) == ls[i := booked];
    TotalUpdate(ls, i, booked);
  }

  lemma {:induction false} ResumeKeeps<L(!new)>(s: Setup<L>, c: Config<L>, counts: seq<nat>, i: nat)
    requires Ready(s) && |s.tasks| == |c.states| == |counts| && i < |s.tasks| && AsIfAlone(s, c, counts)
    ensures |Resume(s.tasks, s.limit, c, i).states| == |s.tasks|
    ensures AsIfAlone(s, Resume(s.tasks, s.limit, c, i), counts[i := counts[i] + 1])
  {
    var d, more := Resume(s.tasks, s.limit, c, i), counts[i := counts[i] + 1];
    if c.states[i].Over? {
      StaysOver(s, counts, i);
      FinishedChangesNothing(s, c, counts, i);
    } else {
      UnfinishedSeesTheStart(s.tasks, s.inputs, s.board, c, i);
      assert s.tasks[i].move(c.states[i].local, c.board) == s.tasks[i].move(c.states[i].local, s.board);
      OverlayKeeps(s.tasks, s.inputs, s.board, c.states, c.board, i, d.states[i]);
      if s.plan.Sole? {
        SoleStretch(s, c, counts, i);
      } else {
        CrowdStretch(s, c, counts, i);
      }
    }
  }

  lemma StaysOver<L(!new)>(s: Setup<L>, counts: seq<nat>, i: nat)
    requires i < |s.tasks| == |counts| && s.StateOf(i, counts[i]).Over?
    ensures s.StateOf(i, counts[i] + 1) == s.StateOf(i, counts[i])
  {
  }

  lemma FinishedChangesNothing<L(!new)>(s: Setup<L>, c: Config<L>, counts: seq<nat>, i: nat)
    requires Ready(s) && i < |s.tasks| == |c.states| == |counts| && AsIfAlone(s, c, counts) && c.states[i].Over?
    ensures s.MoneyFits(c, counts[i := counts[i] + 1])
  {
    var more := counts[i := counts[i] + 1];
    if s.plan.Crowd? {
      assert s.Ledgers(more) == s.Ledgers(counts);
      StartedGrows(s, counts, i);
    }
  }

  lemma NothingWritten<L(!new)>(s: Setup<L>)
    requires s.plan.Sole? ==> s.plan.user < |s.tasks|
    ensures s.StatesFit(s.Begin(), Counts(Start, |s.tasks|))
  {
    hide Follow, Booked, Exec;
    forall i | 0 <= i < |s.tasks|
      ensures s.Begin().states[i] == s.StateOf(i, 0)
    {
      assert Calm(s.tasks[i], s.board, 0).state == Running(s.tasks[i].start);
    }
  }

  lemma NothingBooked<L(!new)>(s: Setup<L>)
    requires s.plan.Sole? ==> s.plan.user < |s.tasks|
    ensures s.MoneyFits(s.Begin(), Counts(Start, |s.tasks|))
  {
    hide Follow, Booked, Exec, OpensNow, Calm, Alone, Total;
    var counts := Counts(Start, |s.tasks|);
    if s.plan.Sole? {
      NotBegun(s.tasks[s.plan.user], s.limit, s.board, s.money);
    } else {
      forall i | 0 <= i < |s.tasks|
        ensures s.Ledgers(counts)[i] == NOTHING
      {
        NotBegun(s.tasks[i], s.limit, s.board, s.money);
      }
      TotalOfNothing(s.Ledgers(counts));
    }
  }

  lemma NotBegun<L>(task: Task<L>, limit: real, board: Board, m: Money)
    ensures Calm(task, board, 0).ledger == NOTHING && Alone(task, limit, board, m, 0).1 == m
  {
  }

  lemma NothingResumed<L(!new)>(s: Setup<L>)
    requires Ready(s)
    ensures AsIfAlone(s, s.Begin(), Counts(Start, |s.tasks|))
  {
    NothingWritten(s);
    NothingBooked(s);
  }

  /** Under every schedule of an independent wave whose money is harmless, each task is
      where it would be alone, and board and budget are the sum of their parts. */
  lemma {:induction false} AnySchedule<L(!new)>(s: Setup<L>, schedule: Schedule)
    requires Ready(s) && ScheduleFor(schedule, |s.tasks|)
    ensures AsIfAlone(s, Run(s.tasks, s.limit, s.Begin(), schedule), Counts(schedule, |s.tasks|))
  {
    hide AsIfAlone, Ready, Resume;
    match schedule {
      case Start => NothingResumed(s);
      case Then(before, i) =>
        AnySchedule(s, before);
        ResumeKeeps(s, Run(s.tasks, s.limit, s.Begin(), before), Counts(before, |s.tasks|), i);
    }
  }

  // ---------- confluence ----------

  /** Same results, same blackboard, same budget; the slot may hold another guard. */
  ghost predicate SameOutcome<L>(c: Config<L>, d: Config<L>) {
    && c.states == d.states && c.board == d.board
    && c.money.spent == d.money.spent && c.money.orgRemaining == d.money.orgRemaining
  }

  lemma SameOverlay<L>(tasks: seq<Task<L>>, start: Board, states: seq<TaskState<L>>, a: Board, b: Board)
    requires |tasks| == |states| && Overlaid(tasks, start, states, a) && Overlaid(tasks, start, states, b)
    ensures a == b
  {
    forall k
      ensures (k in a <==> k in b) && (k in a ==> a[k] == b[k])
    {
      if !Untouched(tasks, states, k) {
        var i :| 0 <= i < |tasks| && tasks[i].output == k && HasWritten(states[i]);
      }
    }
  }

  lemma {:induction false} AloneInTime<L(!new)>(task: Task<L>, early: L -> bool, limit: real, board: Board, m: Money,
                                                slot: Option<Guard>, n: nat)
    requires OpensInTime(task, early)
    ensures var (a, b) := (Alone(task, limit, board, m, n), Alone(task, limit, board, m.(slot := slot), n));
            && a.0 == b.0 && a.1.spent == b.1.spent && a.1.orgRemaining == b.1.orgRemaining
            && (a.0.Running? ==> early(a.0.local) || a == b)
  {
    if n > 0 {
      AloneInTime(task, early, limit, board, m, slot, n - 1);
      var a, b := Alone(task, limit, board, m, n - 1), Alone(task, limit, board, m.(slot := slot), n - 1);
      if a.0.Running? && early(a.0.local) {
        var op := task.move(a.0.local, board);
        assert OpensGuard(op) || StaysEarly(op, early);
        if StaysEarly(op, early) {
          StillEarly(op, early, limit, a.1);
        }
        SlotBlind(op, limit, a.1, b.1);
      }
    }
  }

  /** Where a step that brings its guard stands, and what it spent, does not depend on the
      guard it found in the slot. */
  lemma AloneFromAnySlot<L(!new)>(task: Task<L>, limit: real, board: Board, m: Money, slot: Option<Guard>, n: nat)
    requires BringsGuard(task)
    ensures var (a, b) := (Alone(task, limit, board, m, n), Alone(task, limit, board, m.(slot := slot), n));
            a.0 == b.0 && a.1.spent == b.1.spent && a.1.orgRemaining == b.1.orgRemaining
  {
    var early :| OpensInTime(task, early);
    AloneInTime(task, early, limit, board, m, slot, n);
  }

  /** A stretch that uses no model, or starts its agent first, does not see the old slot. */
  lemma {:induction false} SlotBlind<L>(op: Op<L>, limit: real, m: Money, n: Money)
    requires m.spent == n.spent && m.orgRemaining == n.orgRemaining && (Guardless(op) || OpensGuard(op))
    ensures var (a, b) := (Exec(op, limit, m), Exec(op, limit, n));
            && a.0 == b.0 && a.1.spent == b.1.spent && a.1.orgRemaining == b.1.orgRemaining
            && (OpensGuard(op) && a.0.Running? ==> a.1 == b.1)
    decreases op
  {
    match op {
      case Look(rich, broke) => SlotBlind(if Rich(limit, m) then rich else broke, limit, m, n);
      case Spend(usd, rest) =>
        SlotBlind(rest, limit, m.(spent := m.spent + usd, orgRemaining := m.orgRemaining - usd),
                  n.(spent := n.spent + usd, orgRemaining := n.orgRemaining - usd));
      case _ =>
    }
  }

  /** Where a finished task of the wave ends does not depend on the slot it found. */
  lemma SameEnd<L(!new)>(s: Setup<L>, slot: Option<Guard>, i: nat, m: nat, n: nat)
    requires Ready(s) && i < |s.tasks|
    requires var t := s.(money := s.money.(slot := slot)); s.StateOf(i, m).Over? && t.StateOf(i, n).Over?
    ensures var t := s.(money := s.money.(slot := slot));
            && s.StateOf(i, m) == t.StateOf(i, n)
            && (s.IsSole(i) ==>
                  && Alone(s.tasks[i], s.limit, s.board, s.money, m).1.spent == Alone(s.tasks[i], s.limit, s.board, t.money, n).1.spent
                  && Alone(s.tasks[i], s.limit, s.board, s.money, m).1.orgRemaining
                     == Alone(s.tasks[i], s.limit, s.board, t.money, n).1.orgRemaining)
            && (!s.IsSole(i) ==> Calm(s.tasks[i], s.board, m) == Calm(s.tasks[i], s.board, n))
  {
    var most := if m <= n then n else m;
    if s.IsSole(i) {
      AloneFromAnySlot(s.tasks[i], s.limit, s.board, s.money, slot, most);
      AloneStaysOver(s.tasks[i], s.limit, s.board, s.money, m, most);
      AloneStaysOver(s.tasks[i], s.limit, s.board, s.money.(slot := slot), n, most);
    } else {
      CalmStaysOver(s.tasks[i], s.board, m, most);
      CalmStaysOver(s.tasks[i], s.board, n, most);
    }
  }

  /** What is on the board after any schedule: under each task's key its result, once it is
      over with one, and everything else as it was. */
  lemma BoardExactly<L(!new)>(s: Setup<L>, schedule: Schedule, k: Key)
    requires Ready(s) && ScheduleFor(schedule, |s.tasks|)
    ensures var c := Run(s.tasks, s.limit, s.Begin(), schedule);
            && (forall i, status, v :: 0 <= i < |s.tasks| && s.tasks[i].output == k && c.states[i] == Over(Outcome(status, Some(v))) ==>
                  k in c.board && c.board[k] == v)
            && ((forall i, status, v :: 0 <= i < |s.tasks| && s.tasks[i].output == k ==> c.states[i] != Over(Outcome(status, Some(v)))) ==>
                  (k in c.board <==> k in s.board) && (k in c.board ==> c.board[k] == s.board[k]))
  {
    AnySchedule(s, schedule);
    var c := Run(s.tasks, s.limit, s.Begin(), schedule);
    hide Run, Ready, Counts;
    assert Overlaid(s.tasks, s.board, c.states, c.board);
    forall i | 0 <= i < |s.tasks| && HasWritten(c.states[i])
      ensures exists status, v :: c.states[i] == Over(Outcome(status, Some(v)))
    {
      assert c.states[i] == Over(Outcome(c.states[i].outcome.status, Some(c.states[i].outcome.stored.value)));
    }
  }

  /** Money harmless with one guard in the slot is harmless with any other. */
  lemma HarmlessWithAnySlot<L(!new)>(s: Setup<L>, slot: Option<Guard>)
    requires Ready(s)
    ensures Ready(s.(money := s.money.(slot := slot)))
  {
    var t := s.(money := s.money.(slot := slot));
    match s.plan {
      case Sole(u, cap) =>
        forall n: nat
          ensures Alone(t.tasks[u], t.limit, t.board, t.money, n).1.spent <= t.money.spent + cap
        {
          AloneFromAnySlot(s.tasks[u], s.limit, s.board, s.money, slot, n);
        }
      case Crowd(caps, floor) =>
        forall i | 0 <= i < |t.tasks|
          ensures CalmlyUnbound(t.tasks[i], t.board, RoomFor(t.limit, t.money, caps, floor, i))
        {
          assert RoomFor(t.limit, t.money, caps, floor, i) == RoomFor(s.limit, s.money, caps, floor, i);
        }
    }
  }

  /** Two complete schedules of an independent wave whose money is harmless end alike,
      whatever guard an earlier wave left in the slot. */
  lemma WaveIsConfluent<L(!new)>(s: Setup<L>, slot: Option<Guard>, one: Schedule, other: Schedule)
    requires Ready(s) && ScheduleFor(one, |s.tasks|) && ScheduleFor(other, |s.tasks|)
    requires var t := s.(money := s.money.(slot := slot));
             AllOver(Run(s.tasks, s.limit, s.Begin(), one)) && AllOver(Run(s.tasks, s.limit, t.Begin(), other))
    ensures var t := s.(money := s.money.(slot := slot));
            SameOutcome(Run(s.tasks, s.limit, s.Begin(), one), Run(s.tasks, s.limit, t.Begin(), other))
  {
    var t := s.(money := s.money.(slot := slot));
    HarmlessWithAnySlot(s, slot);
    AnySchedule(s, one);
    AnySchedule(t, other);
    EndsAlike(s, slot, Run(s.tasks, s.limit, s.Begin(), one), Run(s.tasks, s.limit, t.Begin(), other),
              Counts(one, |s.tasks|), Counts(other, |s.tasks|));
  }

  lemma EndsAlike<L(!new)>(s: Setup<L>, slot: Option<Guard>, c: Config<L>, d: Config<L>, m: seq<nat>, n: seq<nat>)
    requires var t := s.(money := s.money.(slot := slot));
             && Ready(s) && Ready(t) && |s.tasks| == |c.states| == |d.states| == |m| == |n|
             && AsIfAlone(s, c, m) && AsIfAlone(t, d, n) && AllOver(c) && AllOver(d)
    ensures SameOutcome(c, d)
  {
    var t := s.(money := s.money.(slot := slot));
    forall i | 0 <= i < |s.tasks|
      ensures c.states[i] == d.states[i] && (!s.IsSole(i) ==> Calm(s.tasks[i], s.board, m[i]) == Calm(s.tasks[i], s.board, n[i]))
    {
      SameEnd(s, slot, i, m[i], n[i]);
    }
    SameOverlay(s.tasks, s.board, c.states, c.board, d.board);
    if s.plan.Sole? {
      SameEnd(s, slot, s.plan.user, m[s.plan.user], n[s.plan.user]);
    } else {
      assert s.Ledgers(m) == t.Ledgers(n);
    }
  }

  // ---------- the whole mission ----------

  datatype Wave<!L> = Wave(tasks: seq<Task<L>>, inputs: seq<set<Key>>, plan: Plan)
  {
    function At(limit: real, board: Board, money: Money): Setup<L> {
      Setup(tasks, inputs, plan, limit, board, money)
    }
  }

  ghost predicate Schedules<L>(waves: seq<Wave<L>>, schedules: seq<Schedule>) {
    |schedules| == |waves| && forall w :: 0 <= w < |waves| ==> ScheduleFor(schedules[w], |waves[w].tasks|)
  }

  /** Board and money after running the waves in order, each under its schedule. */
  ghost function RunMission<L>(waves: seq<Wave<L>>, limit: real, board: Board, money: Money, schedules: seq<Schedule>): (Board, Money)
    requires Schedules(waves, schedules)
  {
    if waves == [] then (board, money)
    else
      var c := Run(waves[0].tasks, limit, Initial(waves[0].tasks, board, money), schedules[0]);
      RunMission(waves[1..], limit, c.board, c.money, schedules[1..])
  }

  /** Every wave of the run is finished by its schedule. */
  ghost predicate Finishes<L>(waves: seq<Wave<L>>, limit: real, board: Board, money: Money, schedules: seq<Schedule>)
    requires Schedules(waves, schedules)
    decreases |waves|
  {
    waves != [] ==>
      var c := Run(waves[0].tasks, limit, Initial(waves[0].tasks, board, money), schedules[0]);
      AllOver(c) && Finishes(waves[1..], limit, c.board, c.money, schedules[1..])
  }

  /** Along the given run every wave is independent and its money harmless. */
  ghost predicate WellBehaved<L(!new)>(waves: seq<Wave<L>>, limit: real, board: Board, money: Money, schedules: seq<Schedule>)
    requires Schedules(waves, schedules)
    decreases |waves|
  {
    waves != [] ==>
      var c := Run(waves[0].tasks, limit, Initial(waves[0].tasks, board, money), schedules[0]);
      && Ready(waves[0].At(limit, board, money))
      && WellBehaved(waves[1..], limit, c.board, c.money, schedules[1..])
  }

  /** If the mission is well behaved under one schedule, say the one that runs its steps
      one at a time in wave order, then every concurrent execution leaves the same
      blackboard and the same spend, whatever guard the router held at the start. */
  lemma {:induction false} ConcurrencyIsInvisible<L(!new)>(waves: seq<Wave<L>>, limit: real, board: Board, money: Money,
                                                           slot: Option<Guard>, sequential: seq<Schedule>, concurrent: seq<Schedule>)
    requires Schedules(waves, sequential) && Schedules(waves, concurrent)
    requires Finishes(waves, limit, board, money, sequential) && WellBehaved(waves, limit, board, money, sequential)
    requires Finishes(waves, limit, board, money.(slot := slot), concurrent)
    ensures var (a, b) := (RunMission(waves, limit, board, money, sequential),
                           RunMission(waves, limit, board, money.(slot := slot), concurrent));
            a.0 == b.0 && a.1.spent == b.1.spent && a.1.orgRemaining == b.1.orgRemaining
    decreases |waves|
  {
    if waves != [] {
      hide Ready, AllOver, Run, Initial;
      var s := waves[0].At(limit, board, money);
      var t := s.(money := money.(slot := slot));
      var c, d := Run(s.tasks, limit, s.Begin(), sequential[0]), Run(s.tasks, limit, t.Begin(), concurrent[0]);
      WaveIsConfluent(s, slot, sequential[0], concurrent[0]);
      assert d.money == c.money.(slot := d.money.slot);
      ConcurrencyIsInvisible(waves[1..], limit, c.board, c.money, d.money.slot, sequential[1..], concurrent[1..]);
    }
  }
}
