/**
 The monthly ledger: a worst-case reservation before every attempt, the actual cost after it.

 The ledger's promise is `NeverReachesLock`: over every run of operations, as long as usage stays within
 the tokens reserved for it, no month's confirmed cost and open reservations together reach the lock.
 Money is `real`; the month of a moment is a parameter.
 */
module Budget {
  import opened Wrappers

  datatype Model = Terra | Luna | LocalQwen

  datatype Price = Price(input: real, cachedInput: real, cacheWriteInput: real, output: real)

  /** US dollars per million tokens. */
  function PriceOf(model: Model): Price {
    match model
    case Terra => Price(2.00, 0.20, 2.50, 12.00)
    case Luna => Price(0.20, 0.02, 0.25, 1.20)
    case LocalQwen => Price(0.0, 0.0, 0.0, 0.0)
  }

  const MILLION: real := 1_000_000.0

  datatype Config = Config(fx: real, fallback: real, lock: real) {
    /** What the configuration model accepts. */
    predicate Valid() {
      fx > 0.0 && 0.0 <= fallback < lock
    }
  }

  type Period = string

  datatype Reservation = Reservation(id: nat, period: Period, model: Model, reserved: real, fx: real)

  /** Usage as reported for one attempt. */
  datatype Usage = Usage(attempt: nat, input: nat, cachedInput: nat, cacheWriteInput: nat, output: nat) {
    predicate Valid() {
      cachedInput + cacheWriteInput <= input
    }
  }

  datatype Settled = Settled(reservation: Reservation, charged: real, estimated: bool, usage: Option<Usage>)

  function WorstInputRate(p: Price): real {
    if p.cacheWriteInput > p.input then p.cacheWriteInput else p.input
  }

  function ReservationUsd(model: Model, maxInput: nat, maxOutput: nat): real {
    var p := PriceOf(model);
    (maxInput as real * WorstInputRate(p) + maxOutput as real * p.output) / MILLION
  }

  function ReservationCost(model: Model, maxInput: nat, maxOutput: nat, fx: real): real {
    ReservationUsd(model, maxInput, maxOutput) * fx
  }

  function ActualUsd(model: Model, u: Usage): real
    requires u.Valid()
  {
    var p := PriceOf(model);
    var uncached := u.input - u.cachedInput - u.cacheWriteInput;
    (uncached as real * p.input + u.cachedInput as real * p.cachedInput
     + u.cacheWriteInput as real * p.cacheWriteInput + u.output as real * p.output) / MILLION
  }

  function ActualCost(r: Reservation, u: Usage): real
    requires u.Valid()
  {
    ActualUsd(r.model, u) * r.fx
  }

  /** Usage within the tokens reserved costs at most what was reserved, however the input was cached. */
  lemma ActualWithinReserved(model: Model, u: Usage, maxInput: nat, maxOutput: nat, fx: real)
    requires u.Valid() && u.input <= maxInput && u.output <= maxOutput && fx > 0.0
    ensures 0.0 <= ActualUsd(model, u) * fx <= ReservationCost(model, maxInput, maxOutput, fx)
  {
    hide ActualUsd, ReservationUsd;
    DollarsWithinReserved(model, u, maxInput, maxOutput);
    Scale(ActualUsd(model, u), ReservationUsd(model, maxInput, maxOutput), fx);
  }

  lemma DollarsWithinReserved(model: Model, u: Usage, maxInput: nat, maxOutput: nat)
    requires u.Valid() && u.input <= maxInput && u.output <= maxOutput
    ensures 0.0 <= ActualUsd(model, u) <= ReservationUsd(model, maxInput, maxOutput)
  {
    var uncached := u.input - u.cachedInput - u.cacheWriteInput;
    assert uncached as real + u.cachedInput as real + u.cacheWriteInput as real == u.input as real;
    WithinReserved(model, uncached as real, u.cachedInput as real, u.cacheWriteInput as real, u.output as real,
                   maxInput as real, maxOutput as real);
  }

  /** However the input divides into the three kinds, tokens cost at most their bounds at the worst rates. */
  lemma WithinReserved(model: Model, uncached: real, cached: real, written: real, output: real,
                       maxInput: real, maxOutput: real)
    requires uncached >= 0.0 && cached >= 0.0 && written >= 0.0 && uncached + cached + written <= maxInput
    requires 0.0 <= output <= maxOutput
    ensures var p := PriceOf(model);
            0.0 <= uncached * p.input + cached * p.cachedInput + written * p.cacheWriteInput + output * p.output
            <= maxInput * WorstInputRate(p) + maxOutput * p.output
  {
    match model
    case Terra =>
    case Luna =>
    case LocalQwen =>
  }

  lemma Scale(a: real, b: real, times: real)
    requires 0.0 <= a <= b && times >= 0.0
    ensures 0.0 <= a * times <= b * times
  {
  }

  /** The price of a million tokens of each kind, in dollars: uncached, cached, written to the cache, and output. */
  lemma UnitPrices(attempt: nat)
    ensures var one := 1_000_000;
            && ActualUsd(Terra, Usage(attempt, one, 0, 0, 0)) == 2.00
            && ActualUsd(Terra, Usage(attempt, one, one, 0, 0)) == 0.20
            && ActualUsd(Terra, Usage(attempt, one, 0, one, 0)) == 2.50
            && ActualUsd(Terra, Usage(attempt, 0, 0, 0, one)) == 12.00
            && ActualUsd(Luna, Usage(attempt, one, 0, 0, 0)) == 0.20
            && ActualUsd(Luna, Usage(attempt, one, one, 0, 0)) == 0.02
            && ActualUsd(Luna, Usage(attempt, one, 0, one, 0)) == 0.25
            && ActualUsd(Luna, Usage(attempt, 0, 0, 0, one)) == 1.20
            && ActualUsd(LocalQwen, Usage(attempt, one, 0, 0, one)) == 0.00
  {
  }

  /** Usage taken together costs what its parts cost: with the prices of the units this is all of it. */
  lemma UsageAdds(model: Model, u: Usage, v: Usage)
    requires u.Valid() && v.Valid()
    ensures ActualUsd(model, Usage(u.attempt, u.input + v.input, u.cachedInput + v.cachedInput,
                                   u.cacheWriteInput + v.cacheWriteInput, u.output + v.output))
            == ActualUsd(model, u) + ActualUsd(model, v)
  {
    var uncached := (a: Usage) => a.input - a.cachedInput - a.cacheWriteInput;
    var both := Usage(u.attempt, u.input + v.input, u.cachedInput + v.cachedInput,
                      u.cacheWriteInput + v.cacheWriteInput, u.output + v.output);
    assert uncached(both) as real == uncached(u) as real + uncached(v) as real;
    match model
    case Terra =>
    case Luna =>
    case LocalQwen =>
  }

  /** A reservation is the dearest usage within its bounds, and no more. */
  lemma ReservationIsWorst(model: Model, attempt: nat, maxInput: nat, maxOutput: nat)
    ensures exists u: Usage :: u.Valid() && u.attempt == attempt && u.input <= maxInput && u.output <= maxOutput
                               && ActualUsd(model, u) == ReservationUsd(model, maxInput, maxOutput)
    ensures forall u: Usage | u.Valid() && u.input <= maxInput && u.output <= maxOutput ::
              ActualUsd(model, u) <= ReservationUsd(model, maxInput, maxOutput)
  {
    var dearest := Usage(attempt, maxInput, 0, maxInput, maxOutput);
    assert dearest.Valid() && ActualUsd(model, dearest) == ReservationUsd(model, maxInput, maxOutput) by {
      match model
      case Terra =>
      case Luna =>
      case LocalQwen =>
    }
    forall u: Usage | u.Valid() && u.input <= maxInput && u.output <= maxOutput
      ensures ActualUsd(model, u) <= ReservationUsd(model, maxInput, maxOutput)
    {
      DollarsWithinReserved(model, u, maxInput, maxOutput);
    }
  }

  lemma CostNonNegative(model: Model, maxInput: nat, maxOutput: nat, fx: real)
    requires fx > 0.0
    ensures ReservationCost(model, maxInput, maxOutput, fx) >= 0.0
  {
    ActualWithinReserved(model, Usage(0, 0, 0, 0, 0), maxInput, maxOutput, fx);
  }

  // ---------------------------------------------------------------------------------------------
  // The ledger, as functions on its fields

  /** Open reservations in the order in which they were made; `issued` stands for the supply of fresh identifiers. */
  datatype Ledger = Ledger(confirmed: map<Period, real>, active: seq<Reservation>, settled: seq<Settled>, issued: nat)

  function Confirmed(l: Ledger, period: Period): real {
    if period in l.confirmed then l.confirmed[period] else 0.0
  }

  function Reserved(active: seq<Reservation>, period: Period): real {
    if active == [] then 0.0
    else
      var last := active[|active| - 1];
      Reserved(active[..|active| - 1], period) + if last.period == period then last.reserved else 0.0
  }

  function Total(l: Ledger, period: Period): real {
    Confirmed(l, period) + Reserved(l.active, period)
  }

  datatype Error = BudgetLocked | InvalidBounds | UnknownAttempt | ForeignUsage

  datatype Outcome<+T> = Done(ledger: Ledger, value: T) | Refused(ledger: Ledger, error: Error)

  function ReserveModel(l: Ledger, c: Config, period: Period, model: Model, maxInput: int,
                        maxOutput: int): Outcome<Reservation>
  {
    if maxInput < 0 || maxOutput <= 0 then Refused(l, InvalidBounds)
    else
      var cost := ReservationCost(model, maxInput, maxOutput, c.fx);
      if cost > 0.0 && Total(l, period) + cost >= c.lock then Refused(l, BudgetLocked)
      else
        var r := Reservation(l.issued, period, model, cost, c.fx);
        Done(l.(active := l.active + [r], issued := l.issued + 1), r)
  }

  function ChosenModel(l: Ledger, c: Config, period: Period, maxInput: nat, maxOutput: nat): Model {
    if Total(l, period) + ReservationCost(Terra, maxInput, maxOutput, c.fx) >= c.fallback then Luna else Terra
  }

  function ReserveConversation(l: Ledger, c: Config, period: Period, maxInput: int,
                               maxOutput: int): Outcome<Reservation>
  {
    if maxInput < 0 || maxOutput <= 0 then Refused(l, InvalidBounds)
    else ReserveModel(l, c, period, ChosenModel(l, c, period, maxInput, maxOutput), maxInput, maxOutput)
  }

  function IndexOf(active: seq<Reservation>, id: nat): (i: Option<nat>)
    ensures i.Some? ==> i.value < |active| && active[i.value].id == id
    ensures i.None? ==> forall k | 0 <= k < |active| :: active[k].id != id
  {
    if active == [] then None
    else if active[|active| - 1].id == id then Some(|active| - 1)
    else IndexOf(active[..|active| - 1], id)
  }

  function Without(active: seq<Reservation>, i: nat): seq<Reservation>
    requires i < |active|
  {
    active[..i] + active[i + 1..]
  }

  /** Usage of another attempt is refused; the reservation is put back, behind the others. */
  function Settle(l: Ledger, id: nat, usage: Option<Usage>): Outcome<Settled>
    requires usage.Some? ==> usage.value.Valid()
  {
    var i := IndexOf(l.active, id);
    if i.None? then Refused(l, UnknownAttempt)
    else
      var r := l.active[i.value];
      var rest := Without(l.active, i.value);
      if usage.Some? && usage.value.attempt != id then Refused(l.(active := rest + [r]), ForeignUsage)
      else
        var charge := if usage.None? then r.reserved else ActualCost(r, usage.value);
        var s := Settled(r, charge, usage.None?, usage);
        Done(Ledger(l.confirmed[r.period := Confirmed(l, r.period) + charge], rest, l.settled + [s], l.issued), s)
  }

  // ---------------------------------------------------------------------------------------------
  // Sums

  lemma {:induction false} ReservedAppend(a: seq<Reservation>, b: seq<Reservation>, period: Period)
    ensures Reserved(a + b, period) == Reserved(a, period) + Reserved(b, period)
  {
    if b == [] {
      assert a + b == a;
    } else {
      var init, last := b[..|b| - 1], b[|b| - 1];
      ReservedAppend(a, init, period);
      assert a + b == (a + init) + [last];
      assert ((a + init) + [last])[..|a + init|] == a + init;
    }
  }

  lemma {:induction false} ReservedOne(r: Reservation, period: Period)
    ensures Reserved([r], period) == if r.period == period then r.reserved else 0.0
  {
    assert [r][..0] == [];
  }

  /** Taking a reservation out lowers its own month by what was reserved and no other month. */
  lemma {:induction false} ReservedWithout(active: seq<Reservation>, i: nat, period: Period)
    requires i < |active|
    ensures Reserved(active, period)
            == Reserved(Without(active, i), period) + if active[i].period == period then active[i].reserved else 0.0
  {
    var r := active[i];
    assert active == (active[..i] + [r]) + active[i + 1..];
    ReservedAppend(active[..i] + [r], active[i + 1..], period);
    ReservedAppend(active[..i], [r], period);
    ReservedOne(r, period);
    ReservedAppend(active[..i], active[i + 1..], period);
  }

  // ---------------------------------------------------------------------------------------------
  // What one operation does to the months

  /** A reservation adds its cost to its own month, and only below the lock. */
  lemma ReserveTotals(l: Ledger, c: Config, period: Period, model: Model, maxInput: int, maxOutput: int, any: Period)
    ensures var o := ReserveModel(l, c, period, model, maxInput, maxOutput);
            match o
            case Refused(after, e) =>
              after == l
              && (e == BudgetLocked ==> Total(l, period) + ReservationCost(model, maxInput, maxOutput, c.fx) >= c.lock)
            case Done(after, r) =>
              && Total(after, any) == Total(l, any) + (if any == period then r.reserved else 0.0)
              && (r.reserved > 0.0 ==> Total(after, period) < c.lock)
  {
    var o := ReserveModel(l, c, period, model, maxInput, maxOutput);
    if o.Done? {
      ReservedAppend(l.active, [o.value], any);
      ReservedOne(o.value, any);
      ReservedAppend(l.active, [o.value], period);
      ReservedOne(o.value, period);
    }
  }

  /** A reservation is made exactly if its bounds make sense and it costs nothing or keeps the month below the lock. */
  lemma {:induction false} ReserveExactly(l: Ledger, c: Config, period: Period, model: Model, maxInput: int,
                                          maxOutput: int)
    ensures var o := ReserveModel(l, c, period, model, maxInput, maxOutput);
            && (o.Refused? && o.error == InvalidBounds <==> maxInput < 0 || maxOutput <= 0)
            && (maxInput >= 0 && maxOutput > 0 ==>
                  var cost := ReservationCost(model, maxInput, maxOutput, c.fx);
                  && (o.Done? <==> cost <= 0.0 || Confirmed(l, period) + Reserved(l.active, period) + cost < c.lock)
                  && (o.Refused? ==> o.error == BudgetLocked)
                  && (o.Done? ==>
                        && o.value == Reservation(l.issued, period, model, cost, c.fx)
                        && o.ledger == Ledger(l.confirmed, l.active + [o.value], l.settled, l.issued + 1)))
  {
    hide ReservationCost;
  }

  /**
   Terra exactly while it keeps the month below the fallback line, otherwise Luna while it keeps it below the
   lock.
   */
  lemma {:induction false} ConversationExactly(l: Ledger, c: Config, period: Period, maxInput: nat, maxOutput: nat)
    requires c.Valid() && maxOutput > 0
    ensures var o := ReserveConversation(l, c, period, maxInput, maxOutput);
            var month := Confirmed(l, period) + Reserved(l.active, period);
            var luna := ReservationCost(Luna, maxInput, maxOutput, c.fx);
            var affordable := month + ReservationCost(Terra, maxInput, maxOutput, c.fx) < c.fallback;
            && (affordable ==> o.Done? && o.value.model == Terra)
            && (!affordable ==> if luna <= 0.0 || month + luna < c.lock then o.Done? && o.value.model == Luna
                                else o.Refused? && o.error == BudgetLocked)
  {
    hide ReservationCost, Confirmed, Reserved;
  }

  /** Settling replaces the reservation by the charge: the month moves by their difference, no other month moves. */
  lemma SettleTotals(l: Ledger, id: nat, usage: Option<Usage>, any: Period)
    requires usage.Some? ==> usage.value.Valid()
    ensures match Settle(l, id, usage)
            case Refused(after, _) => Total(after, any) == Total(l, any) && after.settled == l.settled
            case Done(after, s) =>
              && Total(after, any)
                 == Total(l, any) + (if any == s.reservation.period then s.charged - s.reservation.reserved else 0.0)
              && (usage.None? ==> Total(after, any) == Total(l, any))
  {
    hide ActualCost;
    var i := IndexOf(l.active, id);
    if i.Some? {
      var r, rest := l.active[i.value], Without(l.active, i.value);
      ReservedWithout(l.active, i.value, any);
      ReservedAppend(rest, [r], any);
      ReservedOne(r, any);
    }
  }

  lemma WithoutOne(active: seq<Reservation>, i: nat)
    requires i < |active|
    ensures multiset(Without(active, i)) + multiset{active[i]} == multiset(active)
    ensures multiset(Without(active, i) + [active[i]]) == multiset(active)
  {
    assert active == active[..i] + [active[i]] + active[i + 1..];
  }

  /**
   An open reservation is settled exactly once, with its own usage or for all that was reserved; what is unknown, or
   comes with the usage of another attempt, leaves the same reservations open.
   */
  lemma SettleExactly(l: Ledger, id: nat, usage: Option<Usage>)
    requires usage.Some? ==> usage.value.Valid()
    ensures match Settle(l, id, usage)
            case Refused(after, e) =>
              && multiset(after.active) == multiset(l.active)
              && after == l.(active := after.active)
              && (if forall r | r in l.active :: r.id != id then e == UnknownAttempt
                  else e == ForeignUsage && usage.Some? && usage.value.attempt != id)
            case Done(after, s) =>
              && s.reservation.id == id && s.usage == usage && (s.estimated <==> usage.None?)
              && (usage.Some? ==> usage.value.attempt == id)
              && s.charged == (if usage.None? then s.reservation.reserved
                               else ActualUsd(s.reservation.model, usage.value) * s.reservation.fx)
              && multiset(after.active) + multiset{s.reservation} == multiset(l.active)
              && after.settled == l.settled + [s] && after.issued == l.issued
  {
    hide ActualUsd, Without, Confirmed;
    var i := IndexOf(l.active, id);
    if i.Some? {
      WithoutOne(l.active, i.value);
      assert l.active[i.value] in l.active;
    }
  }

  /** Terra is chosen only where it keeps the month below the fallback line, so choosing it cannot lock. */
  lemma TerraNeverLocks(l: Ledger, c: Config, period: Period, maxInput: nat, maxOutput: nat)
    requires c.Valid() && maxOutput > 0
    ensures var chosen := ChosenModel(l, c, period, maxInput, maxOutput);
            var o := ReserveConversation(l, c, period, maxInput, maxOutput);
            && chosen != LocalQwen
            && (chosen == Terra ==> o.Done? && o.value.model == Terra && Total(o.ledger, period) < c.fallback)
            && (o.Refused? ==> chosen == Luna && o.error == BudgetLocked)
  {
    hide ReservationCost;
    ReserveTotals(l, c, period, ChosenModel(l, c, period, maxInput, maxOutput), maxInput, maxOutput, period);
  }

  // ---------------------------------------------------------------------------------------------
  // Every run

  datatype Op =
    | OpReserveModel(period: Period, model: Model, maxInput: int, maxOutput: int)
    | OpReserveConversation(period: Period, maxInput: int, maxOutput: int)
    | OpSettle(id: nat, usage: Option<Usage>)

  function Apply(l: Ledger, c: Config, op: Op): Ledger
    requires op.OpSettle? && op.usage.Some? ==> op.usage.value.Valid()
  {
    match op
    case OpReserveModel(period, model, maxInput, maxOutput) =>
      ReserveModel(l, c, period, model, maxInput, maxOutput).ledger
    case OpReserveConversation(period, maxInput, maxOutput) =>
      ReserveConversation(l, c, period, maxInput, maxOutput).ledger
    case OpSettle(id, usage) => Settle(l, id, usage).ledger
  }

  /** The usage stays within some bounds for which the reservation was made. */
  ghost predicate Within(r: Reservation, u: Usage) {
    exists maxInput: nat, maxOutput: nat :: Bounded(r, u, maxInput, maxOutput)
  }

  predicate Bounded(r: Reservation, u: Usage, maxInput: nat, maxOutput: nat) {
    r.reserved == ReservationCost(r.model, maxInput, maxOutput, r.fx) && u.input <= maxInput && u.output <= maxOutput
  }

  /** Usage is well formed, and usage reported for an open reservation stays within its bounds. */
  ghost predicate Honest(l: Ledger, op: Op) {
    op.OpSettle? && op.usage.Some? ==>
      && op.usage.value.Valid()
      && forall r | r in l.active && r.id == op.id :: Within(r, op.usage.value)
  }

  ghost predicate HonestRun(l: Ledger, c: Config, ops: seq<Op>)
    decreases |ops|
  {
    ops == [] || (Honest(l, ops[0]) && HonestRun(Apply(l, c, ops[0]), c, ops[1..]))
  }

  function Run(l: Ledger, c: Config, ops: seq<Op>): Ledger
    requires HonestRun(l, c, ops)
    decreases |ops|
  {
    if ops == [] then l else Run(Apply(l, c, ops[0]), c, ops[1..])
  }

  ghost predicate Sane(l: Ledger, c: Config) {
    && c.Valid()
    && (forall r | r in l.active :: r.fx == c.fx && r.reserved >= 0.0 && r.id < l.issued)
    && (forall i, j | 0 <= i < j < |l.active| :: l.active[i].id != l.active[j].id)
  }

  ghost predicate BelowLock(l: Ledger, c: Config) {
    forall p: Period :: Total(l, p) < c.lock
  }

  lemma ApplyKeepsSane(l: Ledger, c: Config, op: Op)
    requires Sane(l, c) && Honest(l, op)
    ensures Sane(Apply(l, c, op), c)
  {
    hide Total, Settle, ReserveModel, Sane;
    match op
    case OpReserveModel(period, model, maxInput, maxOutput) =>
      ReserveKeepsSane(l, c, period, model, maxInput, maxOutput);
    case OpReserveConversation(period, maxInput, maxOutput) =>
      if maxInput >= 0 && maxOutput > 0 {
        ReserveKeepsSane(l, c, period, ChosenModel(l, c, period, maxInput, maxOutput), maxInput, maxOutput);
      }
    case OpSettle(id, usage) =>
      SettleKeepsSane(l, c, id, usage);
  }

  lemma ReserveKeepsSane(l: Ledger, c: Config, period: Period, model: Model, maxInput: int, maxOutput: int)
    requires Sane(l, c)
    ensures Sane(ReserveModel(l, c, period, model, maxInput, maxOutput).ledger, c)
  {
    hide Total, ReservationCost;
    if maxInput >= 0 && maxOutput > 0 {
      CostNonNegative(model, maxInput, maxOutput, c.fx);
    }
  }

  lemma SettleKeepsSane(l: Ledger, c: Config, id: nat, usage: Option<Usage>)
    requires Sane(l, c) && (usage.Some? ==> usage.value.Valid())
    ensures Sane(Settle(l, id, usage).ledger, c)
  {
    hide ActualCost, Confirmed;
    var i := IndexOf(l.active, id);
    if i.Some? {
      var rest := Without(l.active, i.value);
      assert forall k | 0 <= k < |rest| :: rest[k] == l.active[if k < i.value then k else k + 1];
      assert forall r | r in rest + [l.active[i.value]] :: r in l.active;
    }
  }

  /** An honest settlement never charges more than was reserved. */
  lemma SettleNeverRaises(l: Ledger, c: Config, id: nat, usage: Option<Usage>, any: Period)
    requires Sane(l, c) && Honest(l, OpSettle(id, usage))
    ensures Total(Settle(l, id, usage).ledger, any) <= Total(l, any)
    ensures usage.None? ==> Total(Settle(l, id, usage).ledger, any) == Total(l, any)
  {
    hide Total;
    SettleTotals(l, id, usage, any);
    var i := IndexOf(l.active, id);
    if i.Some? && usage.Some? {
      var r := l.active[i.value];
      assert r in l.active && r.id == id;
      var maxInput: nat, maxOutput: nat :| Bounded(r, usage.value, maxInput, maxOutput);
      ActualWithinReserved(r.model, usage.value, maxInput, maxOutput, r.fx);
    }
  }

  lemma ApplyKeepsBelowLock(l: Ledger, c: Config, op: Op)
    requires Sane(l, c) && Honest(l, op) && BelowLock(l, c)
    ensures BelowLock(Apply(l, c, op), c)
  {
    hide Total, ReservationCost;
    forall p: Period
      ensures Total(Apply(l, c, op), p) < c.lock
    {
      assert Total(l, p) < c.lock;
      match op
      case OpReserveModel(period, model, maxInput, maxOutput) =>
        ReserveTotals(l, c, period, model, maxInput, maxOutput, p);
      case OpReserveConversation(period, maxInput, maxOutput) =>
        if maxInput >= 0 && maxOutput > 0 {
          ReserveTotals(l, c, period, ChosenModel(l, c, period, maxInput, maxOutput), maxInput, maxOutput, p);
        }
      case OpSettle(id, usage) =>
        SettleNeverRaises(l, c, id, usage, p);
    }
  }

  /** Over every honest run that starts below the lock, every month stays below the lock. */
  lemma {:induction false} NeverReachesLock(l: Ledger, c: Config, ops: seq<Op>)
    requires Sane(l, c) && BelowLock(l, c) && HonestRun(l, c, ops)
    ensures BelowLock(Run(l, c, ops), c) && Sane(Run(l, c, ops), c)
    decreases |ops|
  {
    if ops != [] {
      hide BelowLock, Sane, Apply, Honest;
      ApplyKeepsBelowLock(l, c, ops[0]);
      ApplyKeepsSane(l, c, ops[0]);
      NeverReachesLock(Apply(l, c, ops[0]), c, ops[1..]);
    }
  }

  function Charged(settled: seq<Settled>, period: Period): real {
    if settled == [] then 0.0
    else
      var last := settled[|settled| - 1];
      Charged(settled[..|settled| - 1], period) + if last.reservation.period == period then last.charged else 0.0
  }

  /** Confirmed cost is accounted for: what a month has gained over a run is what was charged to it. */
  lemma {:induction false} ConfirmedIsCharged(l: Ledger, c: Config, ops: seq<Op>, period: Period)
    requires HonestRun(l, c, ops)
    ensures var after := Run(l, c, ops);
            Confirmed(after, period) - Confirmed(l, period)
            == Charged(after.settled, period) - Charged(l.settled, period)
    decreases |ops|
  {
    if ops != [] {
      hide Apply, Confirmed, Charged, Honest;
      ApplyConfirms(l, c, ops[0], period);
      ConfirmedIsCharged(Apply(l, c, ops[0]), c, ops[1..], period);
    }
  }

  lemma {:induction false} ApplyConfirms(l: Ledger, c: Config, op: Op, period: Period)
    requires Honest(l, op)
    ensures var after := Apply(l, c, op);
            Confirmed(after, period) - Confirmed(l, period)
            == Charged(after.settled, period) - Charged(l.settled, period)
  {
    hide ReserveModel, ReserveConversation, Settle, Charged;
    match op
    case OpReserveModel(p, model, maxInput, maxOutput) =>
      ReserveLeavesConfirmed(l, c, p, model, maxInput, maxOutput);
    case OpReserveConversation(p, maxInput, maxOutput) =>
      ConverseLeavesConfirmed(l, c, p, maxInput, maxOutput);
    case OpSettle(id, usage) =>
      SettleConfirms(l, id, usage, period);
  }

  lemma {:induction false} SettleConfirms(l: Ledger, id: nat, usage: Option<Usage>, period: Period)
    requires usage.Some? ==> usage.value.Valid()
    ensures var after := Settle(l, id, usage).ledger;
            Confirmed(after, period) - Confirmed(l, period)
            == Charged(after.settled, period) - Charged(l.settled, period)
  {
    hide ActualCost, Reserved, IndexOf, Without;
    var after := Settle(l, id, usage).ledger;
    if |after.settled| > |l.settled| {
      assert after.settled[..|l.settled|] == l.settled;
    }
  }

  lemma ReserveLeavesConfirmed(l: Ledger, c: Config, p: Period, model: Model, maxInput: int, maxOutput: int)
    ensures var after := ReserveModel(l, c, p, model, maxInput, maxOutput).ledger;
            after.confirmed == l.confirmed && after.settled == l.settled
  {
  }

  lemma ConverseLeavesConfirmed(l: Ledger, c: Config, p: Period, maxInput: int, maxOutput: int)
    ensures var after := ReserveConversation(l, c, p, maxInput, maxOutput).ledger;
            after.confirmed == l.confirmed && after.settled == l.settled
  {
  }

  // ---------------------------------------------------------------------------------------------
  // The class

  class BudgetLedger {
    const config: Config
    var confirmed: map<Period, real>
    var active: seq<Reservation>
    var settled: seq<Settled>
    var issued: nat

    function View(): Ledger
      reads this
    {
      Ledger(confirmed, active, settled, issued)
    }

    constructor (config: Config, confirmed: map<Period, real>)
      ensures this.config == config && View() == Ledger(confirmed, [], [], 0)
    {
      this.config, this.confirmed := config, confirmed;
      active, settled, issued := [], [], 0;
    }

    method TotalWithReservations(period: Period) returns (total: real)
      ensures total == Total(View(), period)
    {
      total := if period in confirmed then confirmed[period] else 0.0;
      ghost var base := total;
      for i := 0 to |active|
        invariant total == base + Reserved(active[..i], period)
      {
        assert active[..i + 1][..i] == active[..i];
        if active[i].period == period {
          total := total + active[i].reserved;
        }
      }
      assert active[..|active|] == active;
    }

    /** Select Terra or Luna, then reserve the selected attempt. */
    method Converse(period: Period, maxInput: int, maxOutput: int) returns (outcome: Option<Reservation>)
      modifies this
      ensures var o := ReserveConversation(old(View()), config, period, maxInput, maxOutput);
              View() == o.ledger && outcome == if o.Done? then Some(o.value) else None
    {
      var baseline := TotalWithReservations(period);
      if maxInput < 0 || maxOutput <= 0 {
        return None;
      }
      var terraCost := ReservationCost(Terra, maxInput, maxOutput, config.fx);
      var model := if baseline + terraCost >= config.fallback then Luna else Terra;
      outcome := Reserve(period, model, maxInput, maxOutput);
    }

    method Reserve(period: Period, model: Model, maxInput: int, maxOutput: int) returns (outcome: Option<Reservation>)
      modifies this
      ensures var o := ReserveModel(old(View()), config, period, model, maxInput, maxOutput);
              View() == o.ledger && outcome == if o.Done? then Some(o.value) else None
    {
      if maxInput < 0 || maxOutput <= 0 {
        return None;
      }
      var cost := ReservationCost(model, maxInput, maxOutput, config.fx);
      var total := TotalWithReservations(period);
      if cost > 0.0 && total + cost >= config.lock {
        return None;
      }
      var r := Reservation(issued, period, model, cost, config.fx);
      issued := issued + 1;
      active := active + [r];
      outcome := Some(r);
    }

    method SettleAttempt(id: nat, usage: Option<Usage>) returns (outcome: Option<Settled>)
      requires usage.Some? ==> usage.value.Valid()
      modifies this
      ensures var o := Settle(old(View()), id, usage);
              View() == o.ledger && outcome == if o.Done? then Some(o.value) else None
    {
      var i := IndexOf(active, id);
      if i.None? {
        return None;
      }
      var r := active[i.value];
      active := Without(active, i.value);
      if usage.Some? && usage.value.attempt != id {
        active := active + [r];
        return None;
      }
      var charge := if usage.None? then r.reserved else ActualCost(r, usage.value);
      var s := Settled(r, charge, usage.None?, usage);
      confirmed := confirmed[r.period := (if r.period in confirmed then confirmed[r.period] else 0.0) + charge];
      settled := settled + [s];
      outcome := Some(s);
    }
  }
}
