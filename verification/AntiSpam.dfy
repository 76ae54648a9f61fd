/** The decaying spam score of a subject and the restriction it earns. Times are microseconds. */
module AntiSpam {
  import opened Common

  const RESTRICT_THRESHOLD: nat := 100
  const HOUR: nat := 3_600_000_000
  const DAY: nat := 86_400_000_000
  const RESTRICT_FOR: nat := DAY

  /** One row of spam_scores. */
  datatype Row = Row(score: nat, restrictedUntil: Option<int>, updatedAt: int)

  // ------------------------------------------------------------- statements

  function Later(a: int, b: int): int {
    if a >= b then a else b
  }

  function Recorded(row: Option<Row>, now: int, weight: nat): Row {
    match row
    case None =>
      Row(weight, if weight >= RESTRICT_THRESHOLD then Some(now + RESTRICT_FOR) else None, now)
    case Some(r) =>
      Row(r.score + weight,
          if r.score + weight >= RESTRICT_THRESHOLD
          then Some(Later(if r.restrictedUntil.None? then now else r.restrictedUntil.value, now + RESTRICT_FOR))
          else r.restrictedUntil,
          now)
  }

  predicate Due(row: Row, now: int) {
    row.score > 0 && row.updatedAt < now - HOUR
  }

  function Shed(elapsed: nat, perDay: nat): nat {
    RoundedQuotient(elapsed * perDay, DAY)
  }

  /** The UPDATE of a sweep. */
  function Decayed(row: Row, now: int, perDay: nat): Row {
    if Due(row, now) then
      var shed := Shed(now - row.updatedAt, perDay);
      row.(score := if shed >= row.score then 0 else row.score - shed, updatedAt := now)
    else row
  }

  /** The DELETE of a sweep. */
  predicate Spent(row: Row, now: int) {
    row.score == 0 && (row.restrictedUntil.None? || row.restrictedUntil.value < now)
  }

  function Swept(row: Option<Row>, now: int, perDay: nat): Option<Row> {
    if row.None? || Spent(Decayed(row.value, now, perDay), now) then None
    else Some(Decayed(row.value, now, perDay))
  }

  predicate Restricted(row: Option<Row>, t: int) {
    row.Some? && row.value.restrictedUntil.Some? && row.value.restrictedUntil.value > t
  }

  // -------------------------------------------------- the row and its history

  datatype Event =
    | Signal(at: int, weight: nat)
    | Sweep(at: int, perDay: nat)
    | Clear(at: int)

  /** A signal as history remembers it: when it came, and the score it left. */
  datatype Evidence = Evidence(at: int, score: nat)

  /** The lossless record: nothing is ever dropped except by a moderator's Clear. */
  datatype History = History(score: nat, touchedAt: int, signals: seq<Evidence>)

  const NoHistory: History := History(0, 0, [])

  function RowStep(row: Option<Row>, e: Event): Option<Row> {
    match e
    case Signal(at, weight) => Some(Recorded(row, at, weight))
    case Sweep(at, perDay) => Swept(row, at, perDay)
    case Clear(_) => None
  }

  function HistoryStep(h: History, e: Event): History {
    match e
    case Signal(at, weight) => History(h.score + weight, at, h.signals + [Evidence(at, h.score + weight)])
    case Sweep(at, perDay) =>
      if h.score > 0 && h.touchedAt < at - HOUR then
        var shed := Shed(at - h.touchedAt, perDay);
        h.(score := if shed >= h.score then 0 else h.score - shed, touchedAt := at)
      else h
    case Clear(_) => NoHistory
  }

  function RowAfter(events: seq<Event>): Option<Row> {
    if events == [] then None
    else RowStep(RowAfter(events[..|events| - 1]), events[|events| - 1])
  }

  function HistoryAfter(events: seq<Event>): History {
    if events == [] then NoHistory
    else HistoryStep(HistoryAfter(events[..|events| - 1]), events[|events| - 1])
  }

  predicate Monotone(events: seq<Event>, now: int) {
    && (forall i, j :: 0 <= i < j < |events| ==> events[i].at <= events[j].at)
    && (forall i :: 0 <= i < |events| ==> events[i].at <= now)
  }

  predicate Damning(e: Evidence) {
    e.score >= RESTRICT_THRESHOLD
  }

  /** Some signal since the last Clear left a score over the threshold less than a day before t. */
  predicate RestrictedByHistory(h: History, t: int) {
    exists i :: 0 <= i < |h.signals| && Damning(h.signals[i]) && t < h.signals[i].at + RESTRICT_FOR
  }

  predicate Expired(signals: seq<Evidence>, t: int) {
    forall i :: 0 <= i < |signals| && Damning(signals[i]) ==> signals[i].at + RESTRICT_FOR <= t
  }

  predicate Until(signals: seq<Evidence>, until: int) {
    && Expired(signals, until)
    && exists i :: 0 <= i < |signals| && Damning(signals[i]) && signals[i].at + RESTRICT_FOR == until
  }

  predicate Agrees(row: Option<Row>, h: History, now: int) {
    && Expired(h.signals, now + RESTRICT_FOR)
    && match row
       case None => h.score == 0 && Expired(h.signals, now)
       case Some(r) =>
         && r.score == h.score && r.updatedAt == h.touchedAt
         && match r.restrictedUntil
            case None => Expired(h.signals, now)
            case Some(until) => Until(h.signals, until) && until <= now + RESTRICT_FOR
  }

  lemma StepAgrees(row: Option<Row>, h: History, e: Event, before: int)
    requires Agrees(row, h, before) && before <= e.at
    ensures Agrees(RowStep(row, e), HistoryStep(h, e), e.at)
  {
    if e.Signal? {
      var signals, last := HistoryStep(h, e).signals, |h.signals|;
      assert signals[last] == Evidence(e.at, h.score + e.weight);
      assert forall i :: 0 <= i < last ==> signals[i] == h.signals[i];
    }
  }

  lemma {:induction false} RunAgrees(events: seq<Event>, now: int)
    requires Monotone(events, now)
    ensures Agrees(RowAfter(events), HistoryAfter(events), now)
  {
    if events != [] {
      var before, last := events[..|events| - 1], events[|events| - 1];
      RunAgrees(before, last.at);
      StepAgrees(RowAfter(before), HistoryAfter(before), last, last.at);
    }
  }

  /**
   * The stored row, deleted and recreated as it is, answers as the full history would: the
   * score is the history's score, and at any later time the subject is restricted exactly when
   * a signal since the last Clear left the score over the threshold less than a day ago.
   */
  lemma RowAgreesWithHistory(events: seq<Event>, t: int)
    requires Monotone(events, t)
    ensures var row := RowAfter(events);
            && (if row.None? then 0 else row.value.score) == HistoryAfter(events).score
            && (Restricted(row, t) <==> RestrictedByHistory(HistoryAfter(events), t))
  {
    RunAgrees(events, t);
  }

  /** A sweep ends no restriction early and starts none: it changes no answer from then on. */
  lemma SweepKeepsRestrictions(row: Option<Row>, now: int, perDay: nat, t: int)
    requires t >= now
    ensures Restricted(Swept(row, now, perDay), t) <==> Restricted(row, t)
  {
  }

  /** A further signal never brings a release forward. */
  lemma SignalNeverShortens(row: Option<Row>, now: int, weight: nat, t: int)
    requires Restricted(row, t)
    ensures Restricted(Some(Recorded(row, now, weight)), t)
  {
  }

  // -------------------------------------------------------- sweep frequency

  function SweptAt(row: Row, times: seq<int>, perDay: nat): Row {
    if times == [] then row
    else Decayed(SweptAt(row, times[..|times| - 1], perDay), times[|times| - 1], perDay)
  }

  /** How many of the sweeps touched the row. */
  function Touches(row: Row, times: seq<int>, perDay: nat): nat {
    if times == [] then 0
    else
      var earlier := times[..|times| - 1];
      Touches(row, earlier, perDay) + if Due(SweptAt(row, earlier, perDay), times[|times| - 1]) then 1 else 0
  }

  lemma Distribute(a: int, b: int, factor: int)
    ensures (a + b) * factor == a * factor + b * factor
  {
  }

  /**
   * The sense in which a score does not depend on how often the worker runs. While no sweep
   * has clamped it to zero, k sweeps that touched the row shed perDay for each elapsed day
   * with an error of at most k / 2, and they took more than k hours.
   */
  lemma {:induction false} SweepsShedTheRate(row: Row, times: seq<int>, perDay: nat)
    requires SweptAt(row, times, perDay).score > 0
    ensures var after, k := SweptAt(row, times, perDay), Touches(row, times, perDay);
            var elapsed := after.updatedAt - row.updatedAt;
            && -(k * DAY) <= 2 * DAY * (row.score - after.score) - 2 * (elapsed * perDay) <= k * DAY
            && k * HOUR <= elapsed && (k == 0 <==> elapsed == 0)
  {
    if times != [] {
      var earlier, now := times[..|times| - 1], times[|times| - 1];
      var before := SweptAt(row, earlier, perDay);
      SweepsShedTheRate(row, earlier, perDay);
      if Due(before, now) {
        Distribute(before.updatedAt - row.updatedAt, now - before.updatedAt, perDay);
      }
    }
  }

  /** Two schedules that last touched a row at the same moment leave scores within half their sweeps of each other. */
  lemma SchedulesDiffer(row: Row, times: seq<int>, times': seq<int>, perDay: nat)
    requires SweptAt(row, times, perDay).score > 0 && SweptAt(row, times', perDay).score > 0
    requires SweptAt(row, times, perDay).updatedAt == SweptAt(row, times', perDay).updatedAt
    ensures var a, b := SweptAt(row, times, perDay).score, SweptAt(row, times', perDay).score;
            var k := Touches(row, times, perDay) + Touches(row, times', perDay);
            -k <= 2 * (a - b) <= k
  {
    var elapsed := SweptAt(row, times, perDay).updatedAt - row.updatedAt;
    var shed, shed' := row.score - SweptAt(row, times, perDay).score, row.score - SweptAt(row, times', perDay).score;
    var k, k' := Touches(row, times, perDay), Touches(row, times', perDay);
    RateAfter(row, times, perDay, elapsed);
    RateAfter(row, times', perDay, elapsed);
    assert -(k + k') <= 2 * (shed - shed') <= k + k' by {
      WithinHalves(shed, shed', elapsed * perDay, k, k');
    }
  }

  predicate NoLater(times: seq<int>, now: int) {
    forall i :: 0 <= i < |times| ==> times[i] <= now
  }

  /** A sweep leaves no unspent row untouched for more than an hour. */
  lemma {:induction false} TouchedWithinTheHour(row: Row, times: seq<int>, perDay: nat)
    requires times != [] && NoLater(times, times[|times| - 1]) && row.updatedAt <= times[|times| - 1]
    requires SweptAt(row, times, perDay).score > 0
    ensures var now := times[|times| - 1]; now - HOUR <= SweptAt(row, times, perDay).updatedAt <= now
  {
    TouchedBefore(row, times[..|times| - 1], perDay, times[|times| - 1]);
  }

  lemma {:induction false} TouchedBefore(row: Row, times: seq<int>, perDay: nat, now: int)
    requires NoLater(times, now) && row.updatedAt <= now
    ensures SweptAt(row, times, perDay).updatedAt <= now
  {
    if times != [] {
      TouchedBefore(row, times[..|times| - 1], perDay, now);
    }
  }

  /**
   * How far any two schedules can drift apart. If their last sweeps are at the same moment, the
   * scores differ by at most half the sweeps that touched the row, and what an hour is worth.
   */
  lemma SchedulesDrift(row: Row, times: seq<int>, times': seq<int>, perDay: nat)
    requires times != [] && times' != [] && times[|times| - 1] == times'[|times'| - 1]
    requires row.updatedAt <= times[|times| - 1]
    requires NoLater(times, times[|times| - 1]) && NoLater(times', times[|times| - 1])
    requires SweptAt(row, times, perDay).score > 0 && SweptAt(row, times', perDay).score > 0
    ensures var a, b := SweptAt(row, times, perDay).score, SweptAt(row, times', perDay).score;
            var k := Touches(row, times, perDay) + Touches(row, times', perDay);
            -(k * DAY + 2 * (HOUR * perDay)) <= 2 * DAY * (a - b) <= k * DAY + 2 * (HOUR * perDay)
  {
    TouchedWithinTheHour(row, times, perDay);
    TouchedWithinTheHour(row, times', perDay);
    var e := SweptAt(row, times, perDay).updatedAt - row.updatedAt;
    var e' := SweptAt(row, times', perDay).updatedAt - row.updatedAt;
    RateAfter(row, times, perDay, e);
    RateAfter(row, times', perDay, e');
    WithinAnHour(e, e', perDay);
    Distribute(Touches(row, times, perDay), Touches(row, times', perDay), DAY);
  }

  lemma WithinAnHour(e: int, e': int, perDay: nat)
    requires e' - HOUR <= e <= e' + HOUR
    ensures -(HOUR * perDay) <= e * perDay - e' * perDay <= HOUR * perDay
  {
    Scaled(e, e' + HOUR, perDay);
    Scaled(e', e + HOUR, perDay);
    Distribute(e, HOUR, perDay);
    Distribute(e', HOUR, perDay);
  }

  lemma RateAfter(row: Row, times: seq<int>, perDay: nat, elapsed: int)
    requires SweptAt(row, times, perDay).score > 0 && elapsed == SweptAt(row, times, perDay).updatedAt - row.updatedAt
    ensures var k, shed := Touches(row, times, perDay), row.score - SweptAt(row, times, perDay).score;
            -(k * DAY) <= 2 * DAY * shed - 2 * (elapsed * perDay) <= k * DAY
  {
    SweepsShedTheRate(row, times, perDay);
  }

  lemma WithinHalves(a: int, b: int, shed: int, k: nat, k': nat)
    requires -(k * DAY) <= 2 * DAY * a - 2 * shed <= k * DAY
    requires -(k' * DAY) <= 2 * DAY * b - 2 * shed <= k' * DAY
    ensures -(k + k') <= 2 * (a - b) <= k + k'
  {
  }

  /** What rounding ignores: the part of a point, in 1 / DAY, left over after the whole points. */
  function Fraction(elapsed: nat, perDay: nat): (f: nat)
    ensures f < DAY
  {
    (elapsed * perDay) % DAY
  }

  /**
   * Rounding two stretches of time apart gives the same as rounding them together, unless two
   * fractions that each round down make a half between them, or two that each round up do not
   * make one and a half.
   */
  predicate RoundsAlike(a: nat, b: nat, perDay: nat) {
    var f, g := Fraction(a, perDay), Fraction(b, perDay);
    && !(2 * f < DAY && 2 * g < DAY && 2 * (f + g) >= DAY)
    && !(2 * f >= DAY && 2 * g >= DAY && 2 * (f + g) < 3 * DAY)
  }

  lemma ShedRounds(elapsed: nat, perDay: nat)
    ensures Shed(elapsed, perDay) == elapsed * perDay / DAY + if 2 * Fraction(elapsed, perDay) >= DAY then 1 else 0
  {
    var n := elapsed * perDay;
    RoundingUnique(n, n / DAY, n % DAY);
  }

  lemma RoundingUnique(n: nat, whole: nat, fraction: nat)
    requires n == whole * DAY + fraction && fraction < DAY
    ensures RoundedQuotient(n, DAY) == whole + if 2 * fraction >= DAY then 1 else 0
  {
  }

  lemma SplitShed(a: nat, b: nat, perDay: nat)
    ensures Shed(a, perDay) + Shed(b, perDay) == Shed(a + b, perDay) <==> RoundsAlike(a, b, perDay)
  {
    var m, n := a * perDay, b * perDay;
    Distribute(a, b, perDay);
    ShedRounds(a, perDay);
    ShedRounds(b, perDay);
    var f, carry := m % DAY + n % DAY, if m % DAY + n % DAY >= DAY then 1 else 0;
    RoundingUnique(m + n, m / DAY + n / DAY + carry, f - carry * DAY);
  }

  lemma ShedGrows(a: nat, b: nat, perDay: nat)
    ensures Shed(a, perDay) <= Shed(a + b, perDay)
  {
    var m, n := a * perDay, b * perDay;
    Distribute(a, b, perDay);
    ShedRounds(a, perDay);
    var f, carry := m % DAY + n % DAY, if m % DAY + n % DAY >= DAY then 1 else 0;
    RoundingUnique(m + n, m / DAY + n / DAY + carry, f - carry * DAY);
  }

  /**
   * When a sweep at t1 makes no difference after the one at t2. More than an hour apart, both
   * touch the row: then the two stretches of time must round alike. Within the hour the later
   * one finds the row not yet due: then the stretch it passes over must be worth nothing. Or the
   * score is spent either way.
   */
  predicate Harmless(row: Row, t1: int, t2: int, perDay: nat)
    requires Due(row, t1) && t1 <= t2
  {
    var a, b := t1 - row.updatedAt, t2 - t1;
    if t1 < t2 - HOUR
    then
      RoundsAlike(a, b, perDay) || (row.score <= Shed(a, perDay) + Shed(b, perDay) && row.score <= Shed(a + b, perDay))
    else Shed(a, perDay) == Shed(a + b, perDay) || row.score <= Shed(a, perDay)
  }

  /** The independence a sweep is written for, exactly: of any row and any two sweeps, the earlier can be left out. */
  lemma ExtraSweepIsHarmless(row: Row, t1: int, t2: int, perDay: nat)
    requires t1 <= t2
    ensures Decayed(Decayed(row, t1, perDay), t2, perDay).score == Decayed(row, t2, perDay).score <==>
            !Due(row, t1) || Harmless(row, t1, t2, perDay)
  {
    if Due(row, t1) {
      SplitShed(t1 - row.updatedAt, t2 - t1, perDay);
      ShedGrows(t1 - row.updatedAt, t2 - t1, perDay);
    }
  }

  /** Two sweeps within the hour: the second finds nothing due, and a point is kept that one sweep would shed. */
  lemma SweepTooSoon()
    ensures var row, t1, t2 := Row(100, None, 0), HOUR + HOUR / 4, 2 * HOUR;
            && RoundsAlike(t1, t2 - t1, 20) && Due(row, t1) && !Harmless(row, t1, t2, 20)
            && SweptAt(row, [t1, t2], 20).score == 99 && SweptAt(row, [t2], 20).score == 98
  {
    var row, t1, t2 := Row(100, None, 0), HOUR + HOUR / 4, 2 * HOUR;
    assert Shed(t1, 20) == 1 && Shed(t2, 20) == 2;
    assert [t1, t2][..1] == [t1] && [t1][..0] == [] && [t2][..0] == [];
    assert SweptAt(row, [t1], 20) == Row(99, None, t1);
    assert SweptAt(row, [t2], 20) == Row(98, None, t2);
  }

  /** The result does depend on the schedule: four sweeps an hour apart shed more than one after four hours. */
  lemma ScheduleMatters()
    ensures var row, hour := Row(100, None, 0), HOUR + 1;
            && SweptAt(row, [4 * hour], 20).score == 97
            && SweptAt(row, [hour, 2 * hour, 3 * hour, 4 * hour], 20).score == 96
  {
    var row, hour := Row(100, None, 0), HOUR + 1;
    assert Shed(hour, 20) == 1 && Shed(4 * hour, 20) == 3;
    assert SweptAt(row, [], 20) == row;
    assert [4 * hour][..0] == [];
    assert SweptAt(row, [4 * hour], 20) == Row(97, None, 4 * hour);
    assert [hour][..0] == [];
    assert SweptAt(row, [hour], 20) == Row(99, None, hour);
    assert [hour, 2 * hour][..1] == [hour];
    assert SweptAt(row, [hour, 2 * hour], 20) == Row(98, None, 2 * hour);
    assert [hour, 2 * hour, 3 * hour][..2] == [hour, 2 * hour];
    assert SweptAt(row, [hour, 2 * hour, 3 * hour], 20) == Row(97, None, 3 * hour);
    assert [hour, 2 * hour, 3 * hour, 4 * hour][..3] == [hour, 2 * hour, 3 * hour];
  }

  // -------------------------------------------------------------- the table

  class Scores {
    var rows: map<string, Row>

    function Get(subject: string): Option<Row>
      reads this
    {
      if subject in rows then Some(rows[subject]) else None
    }

    constructor ()
      ensures rows == map[]
    {
      rows := map[];
    }

    method Record(subject: string, now: int, weight: nat) returns (row: Row)
      modifies this
      ensures row == Recorded(old(Get(subject)), now, weight)
      ensures rows == old(rows)[subject := row]
      ensures row.score == (if subject in old(rows) then old(rows)[subject].score else 0) + weight
      ensures row.updatedAt == now
      ensures row.score >= RESTRICT_THRESHOLD ==> forall t :: t < now + RESTRICT_FOR ==> Restricted(Some(row), t)
    {
      if subject !in rows {
        var until := None;
        if weight >= RESTRICT_THRESHOLD {
          until := Some(now + RESTRICT_FOR);
        }
        row := Row(weight, until, now);
      } else {
        row := rows[subject];
        var score, until := row.score + weight, row.restrictedUntil;
        if score >= RESTRICT_THRESHOLD {
          var floor := if until.None? then now else until.value;
          until := Some(Later(floor, now + RESTRICT_FOR));
        }
        row := Row(score, until, now);
      }
      rows := rows[subject := row];
    }

    method ClearScore(subject: string)
      modifies this
      ensures forall other ::
                Get(other) == if other == subject then RowStep(old(Get(other)), Clear(0)) else old(Get(other))
      ensures forall t :: !Restricted(Get(subject), t)
    {
      rows := rows - {subject};
    }

    /** Two statements, so that the second sees what the first zeroed. */
    method Decay(now: int, perDay: nat) returns (dropped: nat)
      modifies this
      ensures forall subject :: Get(subject) == Swept(old(Get(subject)), now, perDay)
      ensures |rows| == |old(rows)| - dropped
      ensures rows.Keys <= old(rows).Keys
      ensures forall subject :: subject in rows ==>
                rows[subject].score > 0
                || (rows[subject].restrictedUntil.Some? && rows[subject].restrictedUntil.value >= now)
      ensures forall subject :: subject in old(rows) && subject !in rows ==> !Restricted(old(Get(subject)), now)
    {
      rows := map subject | subject in rows :: Decayed(rows[subject], now, perDay);
      assert rows.Keys == old(rows).Keys;
      var spent := set subject | subject in rows && Spent(rows[subject], now);
      assert spent <= rows.Keys;
      dropped := |spent|;
      ghost var keys := rows.Keys;
      rows := rows - spent;
      assert rows.Keys == keys - spent;
      assert |keys| == |old(rows).Keys| == |old(rows)| && |rows.Keys| == |rows|;
    }
  }
}
