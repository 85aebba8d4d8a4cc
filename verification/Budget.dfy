/** Non-refundable execution envelopes of one operation. */
module Budget {
  import opened Octets
  import opened Collections
  import opened Broker

  const Nanoseconds: int := 1_000_000_000
  const MaxSafeInteger: int := 9007199254740991

  datatype Limits = Limits(
    wall: int, grace: int, cpu: int, memory: int, processes: int, temporary: int, nas: int, log: int, reservation: int)

  /** The fields that the phases share. */
  datatype Shared = Wall | Cpu | Log

  datatype Clock = Clock(boot: string, now: int)

  /** `budget` stands for the digest of the admitted limits. */
  datatype Grant = Grant(
    key: Key, operation: string, phase: Phase, budget: Limits, boot: string,
    started: int, reserved: int, deadline: int, limits: Limits)

  datatype Account = Account(
    key: Key, operation: string, budget: Limits, boot: string,
    started: int, last: int, deadline: int, grants: map<Phase, Grant>)

  /** The durable row: what was admitted and which phases have an execution intent.  `untouched`
      means that the record shows no trace of any execution. */
  datatype Row = Row(key: Key, operation: string, budget: Limits, handles: set<Phase>, at: Place, untouched: bool)

  datatype Outcome<T> = Ok(value: T) | Invalid | Exhausted | Conflict

  // ---- shares -----------------------------------------------------------------------------------

  function PhasesOf(k: Key): seq<Phase> {
    if k.Job? then [Preflight, Business, Evidence] else [Reconcile, Evidence]
  }

  predicate Sane(least: int, x: int) {
    least <= x <= MaxSafeInteger
  }

  predicate LimitsOk(l: Limits) {
    && Sane(1, l.wall) && Sane(1, l.grace) && Sane(1, l.cpu) && Sane(1, l.memory) && Sane(1, l.processes)
    && Sane(1, l.temporary) && Sane(0, l.nas) && Sane(1, l.log) && Sane(1, l.reservation)
  }

  function Get(l: Limits, f: Shared): int {
    match f
    case Wall => l.wall
    case Cpu => l.cpu
    case Log => l.log
  }

  function Set(l: Limits, f: Shared, x: int): Limits {
    match f
    case Wall => l.(wall := x)
    case Cpu => l.(cpu := x)
    case Log => l.(log := x)
  }

  /** Every shared field is worth something and the wall share outlasts the stop grace. */
  predicate Fundable(share: Limits) {
    share.wall >= 1 && share.cpu >= 1 && share.log >= 1 && share.wall > share.grace
  }

  /** Shared fields are divided among the phases, the others are granted in full. */
  function Divided(l: Limits, parts: nat): Limits
    requires parts > 0
  {
    l.(wall := l.wall / parts, cpu := l.cpu / parts, log := l.log / parts)
  }

  function Allocated(l: Limits, k: Key): Outcome<Limits> {
    if !LimitsOk(l) then Invalid
    else if Fundable(Divided(l, |PhasesOf(k)|)) then Ok(Divided(l, |PhasesOf(k)|))
    else Exhausted
  }

  /** The loop over the shared fields, in any order. */
  method DivideShared(l: Limits, parts: nat) returns (share: Limits)
    requires parts > 0
    ensures share == Divided(l, parts)
  {
    share := l;
    var fields := Listing({Wall, Cpu, Log});
    for i := 0 to |fields|
      invariant share == l.(wall := share.wall, cpu := share.cpu, log := share.log)
      invariant forall f :: Get(share, f) == if f in fields[..i] then Get(l, f) / parts else Get(l, f)
    {
      share := Set(share, fields[i], Get(share, fields[i]) / parts);
    }
    assert Wall in fields && Cpu in fields && Log in fields;
    assert share.wall == Get(share, Wall) && share.cpu == Get(share, Cpu) && share.log == Get(share, Log);
  }

  /** Each phase gets an equal part of what is shared, and the parts of all phases fit. */
  method AllocatedLimits(l: Limits, k: Key) returns (r: Outcome<Limits>)
    ensures r == Allocated(l, k)
    ensures r.Ok? ==> LimitsOk(r.value) && forall f :: |PhasesOf(k)| * Get(r.value, f) <= Get(l, f)
  {
    if !LimitsOk(l) {
      return Invalid;
    }
    var share := DivideShared(l, |PhasesOf(k)|);
    Quotient(l.wall, |PhasesOf(k)|);
    Quotient(l.cpu, |PhasesOf(k)|);
    Quotient(l.log, |PhasesOf(k)|);
    r := if Fundable(share) then Ok(share) else Exhausted;
  }

  lemma Quotient(x: int, parts: nat)
    requires x >= 0 && (parts == 2 || parts == 3)
    ensures 0 <= x / parts <= x && parts * (x / parts) <= x
  {
  }

  // ---- grants and accounts ------------------------------------------------------------------------

  /** `validate_grant` against the admitted limits. */
  predicate GrantOk(g: Grant, budget: Limits) {
    && g.phase in PhasesOf(g.key) && (g.key.Job? ==> g.key.id == g.operation)
    && 0 <= g.started <= g.reserved < g.deadline
    && LimitsOk(g.limits) && g.limits.wall > g.limits.grace
    && LimitsOk(budget) && g.budget == budget && Allocated(budget, g.key) == Ok(g.limits)
    && g.deadline == g.started + budget.wall * Nanoseconds
  }

  function Part(grants: map<Phase, Grant>, p: Phase, f: Shared): int {
    if p in grants then Get(grants[p].limits, f) else 0
  }

  function Total(grants: map<Phase, Grant>, f: Shared): int {
    Part(grants, Preflight, f) + Part(grants, Business, f) + Part(grants, Reconcile, f) + Part(grants, Evidence, f)
  }

  /** `_validate_state` */
  predicate AccountOk(row: Row, a: Account) {
    && LimitsOk(row.budget)
    && a.key == row.key && a.operation == row.operation && a.budget == row.budget
    && (forall p :: p in a.grants ==> p in PhasesOf(row.key))
    && 0 <= a.started <= a.last < a.deadline && a.deadline == a.started + row.budget.wall * Nanoseconds
    && a.grants.Keys == row.handles
    && (forall p :: p in a.grants ==>
          && a.grants[p].key == row.key && a.grants[p].operation == row.operation && a.grants[p].phase == p
          && GrantOk(a.grants[p], row.budget)
          && a.grants[p].boot == a.boot && a.grants[p].started == a.started && a.grants[p].deadline == a.deadline
          && a.grants[p].reserved <= a.last)
    && (forall f :: Total(a.grants, f) <= Get(row.budget, f))
  }

  function Opened(row: Row, now: Clock): Account
    requires LimitsOk(row.budget)
  {
    Account(row.key, row.operation, row.budget, now.boot, now.now, now.now, now.now + row.budget.wall * Nanoseconds, map[])
  }

  function ExpectedPlace(p: Phase): Place {
    match p
    case Business => PreflightComplete
    case Evidence => AwaitingSeal
    case _ => Queued
  }

  /** `reserve`: the new account and the grant, which the caller commits together with the
      execution intent. */
  function Reserve(row: Row, account: Option<Account>, p: Phase, now: Clock): Outcome<(Account, Grant)> {
    if p !in PhasesOf(row.key) then Invalid
    else match Allocated(row.budget, row.key)
      case Invalid => Invalid
      case Exhausted => Exhausted
      case Conflict => Conflict
      case Ok(limits) =>
        if now.now < 0 || (account == None && !(row.handles == {} && row.untouched && p == PhasesOf(row.key)[0])) then Invalid
        else
          var a := if account.Some? then account.value else Opened(row, now);
          if !AccountOk(row, a) || a.boot != now.boot || now.now < a.last then Invalid
          else if row.at != ExpectedPlace(p) || (p == Business && Preflight !in a.grants) || (p == Evidence && a.grants == map[])
          then Invalid
          else if p in a.grants then Conflict
          else if a.deadline - now.now <= limits.grace * Nanoseconds then Exhausted
          else
            var g := Grant(a.key, a.operation, p, a.budget, a.boot, a.started, now.now, a.deadline, limits);
            var grants := a.grants[p := g];
            if !GrantOk(g, row.budget) || exists f :: Total(grants, f) > Get(row.budget, f)
            then Invalid
            else Ok((a.(grants := grants, last := now.now), g))
  }

  /** The row after the caller's commit. */
  function Committed(row: Row, p: Phase): Row {
    row.(handles := row.handles + {p}, at := In(p), untouched := false)
  }

  /** Reserving and committing re-establishes the account's validity, and leaves every earlier
      grant, the boot identity, the start and the deadline as they were. */
  lemma ReserveKeepsAccount(row: Row, account: Option<Account>, p: Phase, now: Clock)
    requires Reserve(row, account, p, now).Ok?
    ensures var (a2, g) := Reserve(row, account, p, now).value;
            && AccountOk(Committed(row, p), a2)
            && p in a2.grants && a2.grants[p] == g && g.reserved == now.now
            && Allocated(row.budget, row.key) == Ok(g.limits)
            && (account.Some? ==>
                  && a2 == account.value.(grants := account.value.grants[p := g], last := now.now)
                  && p !in account.value.grants)
  {
    var (a2, g) := Reserve(row, account, p, now).value;
    assert a2.grants.Keys == row.handles + {p};
  }

  /** The shares of all phases never exceed what was admitted, so the final sum check of
      `reserve` refuses nothing. */
  lemma SharesFit(k: Key, budget: Limits, grants: map<Phase, Grant>, f: Shared)
    requires forall p :: p in grants ==> p in PhasesOf(k) && Allocated(budget, k) == Ok(grants[p].limits)
    requires LimitsOk(budget)
    ensures Total(grants, f) <= Get(budget, f)
  {
    Quotient(Get(budget, f), |PhasesOf(k)|);
  }

  /** The phase is due, was not granted before, and the clock leaves more than the stop grace. */
  predicate Due(row: Row, a: Account, p: Phase, now: Clock) {
    && p in PhasesOf(row.key) && row.at == ExpectedPlace(p) && p !in a.grants
    && (p == Business ==> Preflight in a.grants) && (p == Evidence ==> a.grants != map[])
    && now.boot == a.boot && a.last <= now.now && row.budget.grace * Nanoseconds < a.deadline - now.now
  }

  /** On a valid account the closing checks of `reserve` never fail: a due phase of a fundable
      budget always gets its grant, and nothing else does. */
  lemma GrantedExactlyWhenDue(row: Row, a: Account, p: Phase, now: Clock)
    requires AccountOk(row, a) && (row.key.Job? ==> row.key.id == row.operation)
    ensures Reserve(row, Some(a), p, now).Ok? <==> Allocated(row.budget, row.key).Ok? && Due(row, a, p, now)
  {
    if Allocated(row.budget, row.key).Ok? && Due(row, a, p, now) {
      var limits := Allocated(row.budget, row.key).value;
      var g := Grant(a.key, a.operation, p, a.budget, a.boot, a.started, now.now, a.deadline, limits);
      assert GrantOk(g, row.budget) by {
        Quotient(row.budget.wall, |PhasesOf(row.key)|);
        Quotient(row.budget.cpu, |PhasesOf(row.key)|);
        Quotient(row.budget.log, |PhasesOf(row.key)|);
      }
      forall f ensures Total(a.grants[p := g], f) <= Get(row.budget, f) {
        SharesFit(row.key, row.budget, a.grants[p := g], f);
      }
    }
  }

  // ---- every sequence of reservations -----------------------------------------------------------

  /** One call of `reserve` by the broker: the row is at some place, the clock shows some time,
      and on success account and intent are committed together. */
  datatype Attempt = Attempt(phase: Phase, at: Place, now: Clock)

  datatype Books = Books(row: Row, account: Option<Account>)

  function Tried(b: Books, t: Attempt): Books {
    var row := b.row.(at := t.at);
    match Reserve(row, b.account, t.phase, t.now)
    case Ok((a, _)) => Books(Committed(row, t.phase), Some(a))
    case _ => b
  }

  function AfterAll(b: Books, attempts: seq<Attempt>): Books
    decreases |attempts|
  {
    if attempts == [] then b else AfterAll(Tried(b, attempts[0]), attempts[1..])
  }

  /** Either nothing was reserved yet, or the account validates. */
  predicate BooksOk(b: Books) {
    if b.account.Some? then AccountOk(b.row, b.account.value) else b.row.handles == {}
  }

  /** `b` has everything that `a` had granted, unchanged and under the same clock. */
  predicate Extends(a: Books, b: Books) {
    && b.row.key == a.row.key && b.row.operation == a.row.operation && b.row.budget == a.row.budget
    && (a.account.Some? ==>
          && b.account.Some?
          && b.account.value.boot == a.account.value.boot && b.account.value.started == a.account.value.started
          && b.account.value.deadline == a.account.value.deadline && b.account.value.last >= a.account.value.last
          && forall p :: p in a.account.value.grants ==>
               p in b.account.value.grants && b.account.value.grants[p] == a.account.value.grants[p])
  }

  lemma TriedOk(b: Books, t: Attempt)
    requires BooksOk(b)
    ensures BooksOk(Tried(b, t)) && Extends(b, Tried(b, t))
  {
    var row := b.row.(at := t.at);
    if Reserve(row, b.account, t.phase, t.now).Ok? {
      ReserveKeepsAccount(row, b.account, t.phase, t.now);
      if b.account.Some? {
        ReserveMovesOn(row, b.account, t.phase, t.now);
      }
    }
  }

  lemma ReserveMovesOn(row: Row, account: Option<Account>, p: Phase, now: Clock)
    requires Reserve(row, account, p, now).Ok? && account.Some?
    ensures now.now >= account.value.last
  {
  }

  /** Whatever is attempted, at whatever times: the account stays valid, so all grants share
      boot identity, start and deadline and their shares fit the admitted budget; and no phase
      is granted twice, since a grant once made never changes. */
  lemma {:induction false} AccountsStayValid(b: Books, attempts: seq<Attempt>)
    requires BooksOk(b)
    ensures BooksOk(AfterAll(b, attempts)) && Extends(b, AfterAll(b, attempts))
    decreases |attempts|
  {
    hide BooksOk;
    hide Tried;
    if attempts != [] {
      TriedOk(b, attempts[0]);
      AccountsStayValid(Tried(b, attempts[0]), attempts[1..]);
    }
  }

  /** A phase that has its grant is refused for good. */
  lemma GrantedOnce(b: Books, t: Attempt)
    requires BooksOk(b) && b.account.Some? && t.phase in b.account.value.grants
    ensures !Reserve(b.row.(at := t.at), b.account, t.phase, t.now).Ok? && Tried(b, t) == b
  {
  }

  // ---- deadlines and substages -------------------------------------------------------------------

  function PhaseDeadline(g: Grant): int {
    var end := g.reserved + g.limits.wall * Nanoseconds;
    if g.deadline < end then g.deadline else end
  }

  function PhaseRemaining(g: Grant, now: Clock): Outcome<int> {
    if now.boot != g.boot || now.now < g.reserved then Invalid
    else if g.deadline - now.now <= 0 then Exhausted
    else if PhaseDeadline(g) - now.now <= 0 then Exhausted
    else Ok(PhaseDeadline(g) - now.now)
  }

  /** No phase outlasts the operation or its own wall share, and time left is time within both. */
  lemma PhaseWithinOperation(g: Grant, budget: Limits, now: Clock)
    requires GrantOk(g, budget)
    ensures g.reserved < PhaseDeadline(g) <= g.deadline && PhaseDeadline(g) - g.reserved <= g.limits.wall * Nanoseconds
    ensures PhaseRemaining(g, now).Ok? <==> now.boot == g.boot && g.reserved <= now.now < PhaseDeadline(g)
    ensures PhaseRemaining(g, now).Ok? ==> PhaseRemaining(g, now).value <= g.deadline - now.now
  {
  }

  /** A new grant always leaves its helper more time than the stop grace takes. */
  lemma GrantOutlastsGrace(row: Row, account: Option<Account>, p: Phase, now: Clock)
    requires Reserve(row, account, p, now).Ok?
    ensures var g := Reserve(row, account, p, now).value.1;
            PhaseRemaining(g, now).Ok? && PhaseRemaining(g, now).value > g.limits.grace * Nanoseconds
  {
    var g := Reserve(row, account, p, now).value.1;
    assert GrantOk(g, row.budget);
    assert g.limits.wall * Nanoseconds > g.limits.grace * Nanoseconds;
  }

  function StagesOf(version: nat): seq<Stage> {
    if version == 2 then [Bootstrap, Helper] else [Bootstrap, Helper, Reader]
  }

  /** `substage_limits` */
  function SubstageLimits(g: Grant, stage: Stage, version: nat): Outcome<Limits> {
    if !(version == 2 || version == 3) || stage !in StagesOf(version) then Invalid
    else
      var n := |StagesOf(version)|;
      var preparation := g.limits.cpu / n;
      if preparation < 1 then Exhausted
      else Ok(g.limits.(cpu := if stage == Helper then g.limits.cpu - preparation * (n - 1) else preparation))
  }

  function CpuOf(r: Outcome<Limits>): int {
    if r.Ok? then r.value.cpu else 0
  }

  /** If one substage can be funded all can; their CPU shares are positive and add up to exactly
      the phase's CPU; nothing else is divided or enlarged; and the helper gets no less than any
      other. */
  lemma SubstagesExact(g: Grant, version: nat, stage: Stage)
    requires SubstageLimits(g, stage, version).Ok?
    ensures forall s :: s in StagesOf(version) ==>
              && SubstageLimits(g, s, version).Ok? && CpuOf(SubstageLimits(g, s, version)) >= 1
              && SubstageLimits(g, s, version).value == g.limits.(cpu := CpuOf(SubstageLimits(g, s, version)))
              && CpuOf(SubstageLimits(g, s, version)) <= CpuOf(SubstageLimits(g, Helper, version))
    ensures CpuOf(SubstageLimits(g, Bootstrap, version)) + CpuOf(SubstageLimits(g, Helper, version))
              + (if version == 3 then CpuOf(SubstageLimits(g, Reader, version)) else 0) == g.limits.cpu
  {
  }
}
