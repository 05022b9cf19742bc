/** What each request of the inventory service answers and leaves, said of seats, rows and legs one
    by one, without the functions that compute it. */
module Requests {
  import opened Ledger
  import opened LedgerRuns

  // ----- vocabulary -----

  /** Every seat of the list exists, and none is named twice. */
  predicate AllThere(db: Db, sc: ScheduleId, ids: seq<SeatId>) {
    && (forall s | s in ids :: SeatKey(sc, s) in db.seats)
    && (forall i, j | 0 <= i < j < |ids| :: ids[i] != ids[j])
  }

  /** A LOCKED or BOOKED row of this seat covers the leg from stop `leg` to the next. */
  predicate LegTaken(db: Db, sc: ScheduleId, seat: SeatId, leg: int) {
    exists k :: k in db.rows && k.seat == seat && db.rows[k].sched == sc
      && (db.rows[k].status == Locked || db.rows[k].status == Booked)
      && db.rows[k].from <= leg < db.rows[k].to
  }

  predicate LegsFree(db: Db, sc: ScheduleId, seat: SeatId, from: int, to: int) {
    forall leg | from <= leg < to :: !LegTaken(db, sc, seat, leg)
  }

  /** Rows have a first and a later last stop. */
  predicate ProperRows(db: Db) {
    forall k | k in db.rows :: db.rows[k].from < db.rows[k].to
  }

  /** A LOCKED row of this user for exactly this segment, on one of the seats. */
  predicate IsHeld(db: Db, k: RowId, sc: ScheduleId, ids: seq<SeatId>, user: UserId, from: int, to: int) {
    && k in db.rows && k.seat in ids && db.rows[k].sched == sc && db.rows[k].status == Locked
    && db.rows[k].user == user && db.rows[k].from == from && db.rows[k].to == to
  }

  predicate HasRow(db: Db, sc: ScheduleId, seat: SeatId, status: Status) {
    exists k :: k in db.rows && k.seat == seat && db.rows[k].sched == sc && db.rows[k].status == status
  }

  /** A seat shows LOCKED when it has a LOCKED row, BOOKED when it has BOOKED rows only, and AVAILABLE,
      with nothing else in its columns, when it has none. */
  predicate ShowsItsRows(db: Db, before: Seat, sc: ScheduleId, seat: SeatId)
    requires SeatKey(sc, seat) in db.seats
  {
    var after := db.seats[SeatKey(sc, seat)];
    if HasRow(db, sc, seat, Locked) then after == before.(status := Locked)
    else if HasRow(db, sc, seat, Booked) then after == before.(status := Booked)
    else after == (if before.status == Available then before else Seat(Available, None, None, None))
  }

  /** Seats outside the list, other schedules, handled events: as they were. */
  predicate RestKept(db: Db, db': Db, sc: ScheduleId, ids: seq<SeatId>) {
    && db'.seats.Keys == db.seats.Keys && db'.events == db.events
    && (forall k | k in db.seats && !(k.sched == sc && k.seat in ids) :: db'.seats[k] == db.seats[k])
    && db'.schedules.Keys == db.schedules.Keys
    && (forall x | x in db.schedules && x != sc :: db'.schedules[x] == db.schedules[x])
    && (sc in db.schedules ==>
          db'.schedules[sc].active == db.schedules[sc].active && db'.schedules[sc].total == db.schedules[sc].total)
  }

  /** How many seats of the schedule show this status. */
  function HowMany(db: Db, sc: ScheduleId, status: Status): nat {
    |set k | k in db.seats && k.sched == sc && db.seats[k].status == status|
  }

  /** The counters number the seats, as the reply does. */
  predicate Recounted(db: Db, sc: ScheduleId, reply: Reply) {
    && sc in db.schedules && reply.Done? && reply.counts == db.schedules[sc].counts
    && reply.counts.available == HowMany(db, sc, Available) && reply.counts.locked == HowMany(db, sc, Locked)
    && reply.counts.booked == HowMany(db, sc, Booked)
  }

  /** `n` seats have moved from one counter to another. */
  predicate MovedBy(c: Counts, c': Counts, available: int, locked: int, booked: int) {
    c' == Counts(c.available + available, c.locked + locked, c.booked + booked)
  }

  // ----- lists -----

  lemma {:induction false} MembersOfDistinct(ids: seq<SeatId>)
    ensures |Members(ids)| <= |ids|
    ensures |Members(ids)| == |ids| <==> forall i, j | 0 <= i < j < |ids| :: ids[i] != ids[j]
  {
    if ids != [] {
      var rest, last := ids[..|ids| - 1], ids[|ids| - 1];
      MembersOfDistinct(rest);
      assert Members(ids) == Members(rest) + {last};
      if last in rest {
        var i :| 0 <= i < |rest| && rest[i] == last;
        assert ids[i] == ids[|ids| - 1] && Members(ids) == Members(rest);
      } else {
        assert forall i | 0 <= i < |rest| :: ids[i] == rest[i] && rest[i] in rest;
      }
    }
  }

  lemma {:induction false} FoundIff(db: Db, sc: ScheduleId, ids: seq<SeatId>)
    ensures |Found(db.seats, sc, ids)| == |ids| <==> AllThere(db, sc, ids)
    ensures AllThere(db, sc, ids) ==> Found(db.seats, sc, ids) == Members(ids)
  {
    var found, members := Found(db.seats, sc, ids), Members(ids);
    MembersOfDistinct(ids);
    assert found <= members;
    assert members == found + (members - found) && |members| == |found| + |members - found|;
    if forall s | s in ids :: SeatKey(sc, s) in db.seats {
      assert found == members;
    } else {
      var s :| s in ids && SeatKey(sc, s) !in db.seats;
      assert s in members - found;
    }
  }

  // ----- lockSeats -----

  /** What lockSeats answers when the seats themselves are not in the way. */
  predicate MayLock(db: Db, sc: ScheduleId, ids: seq<SeatId>) {
    ids != [] && sc in db.schedules && db.schedules[sc].active && AllThere(db, sc, ids)
  }

  /** The refusals of lockSeats that do not look at the state of the seats. */
  lemma {:induction false} LockNeeds(db: Db, sc: ScheduleId, ids: seq<SeatId>, user: UserId, expires: int, from: int,
      to: int)
    requires !MayLock(db, sc, ids)
    ensures LockSeats(db, sc, ids, user, expires, from, to) ==
      (db, Refused(if ids == [] then BadRequest else if sc !in db.schedules then NotFound
                   else if !db.schedules[sc].active then BadRequest else NotFound))
  {
    FoundIff(db, sc, ids);
  }

  lemma {:induction false} BlockedIff(db: Db, sc: ScheduleId, ids: seq<SeatId>, from: int, to: int)
    requires ProperRows(db) && from < to
    ensures Blocked(db.rows, sc, Members(ids), from, to) <==> exists s :: s in ids && !LegsFree(db, sc, s, from, to)
  {
    if Blocked(db.rows, sc, Members(ids), from, to) {
      var k :| k in db.rows && k.seat in Members(ids) && IsFor(db.rows, k, sc, k.seat)
        && Overlap(db.rows[k].from, db.rows[k].to, from, to);
      var r := db.rows[k];
      var leg := if r.from < from then from else r.from;
      assert LegTaken(db, sc, k.seat, leg);
      assert k.seat in ids && !LegsFree(db, sc, k.seat, from, to);
    }
    if s :| s in ids && !LegsFree(db, sc, s, from, to) {
      var leg :| from <= leg < to && LegTaken(db, sc, s, leg);
      var k :| k in db.rows && k.seat == s && db.rows[k].sched == sc
        && (db.rows[k].status == Locked || db.rows[k].status == Booked)
        && db.rows[k].from <= leg < db.rows[k].to;
      assert IsFor(db.rows, k, sc, k.seat) && Overlap(db.rows[k].from, db.rows[k].to, from, to);
    }
  }

  /** A segment is granted exactly when every leg of it is free on every seat. */
  lemma {:induction false} LockIsGrantedIff(db: Db, sc: ScheduleId, ids: seq<SeatId>, user: UserId, expires: int,
      from: int, to: int)
    requires ProperRows(db) && from != 0 && to != 0 && from < to && MayLock(db, sc, ids)
    ensures var reply := LockSeats(db, sc, ids, user, expires, from, to).1;
            if forall s | s in ids :: LegsFree(db, sc, s, from, to) then reply.Done?
            else reply == Refused(Conflict)
  {
    FoundIff(db, sc, ids);
    BlockedIff(db, sc, ids, from, to);
  }

  /** The whole journey is granted exactly when every seat shows AVAILABLE. */
  lemma {:induction false} WholeLockIsGrantedIff(db: Db, sc: ScheduleId, ids: seq<SeatId>, user: UserId, expires: int,
      from: int, to: int)
    requires (from == 0 || to == 0) && MayLock(db, sc, ids)
    ensures var reply := LockSeats(db, sc, ids, user, expires, from, to).1;
            if forall s | s in ids :: db.seats[SeatKey(sc, s)].status == Available then reply.Done?
            else reply == Refused(Conflict)
  {
    FoundIff(db, sc, ids);
  }

  // ----- what every transaction ends with -----

  lemma {:induction false} SummaryIs(db: Db, sc: ScheduleId, seat: SeatId)
    ensures Summary(db.rows, sc, seat) == (if HasRow(db, sc, seat, Locked) then Locked
                                           else if HasRow(db, sc, seat, Booked) then Booked else Available)
  {
    if k :| k in db.rows && IsFor(db.rows, k, sc, seat) {
      assert db.rows[k].status == Locked ==> HasRow(db, sc, seat, Locked);
      assert db.rows[k].status == Booked ==> HasRow(db, sc, seat, Booked);
    }
    if k :| k in db.rows && k.seat == seat && db.rows[k].sched == sc && Active(db.rows[k]) {
      assert IsFor(db.rows, k, sc, seat);
    }
  }

  /** The seats `ids` show their rows, the schedule is recounted, and nothing else changes. */
  lemma {:induction false} SettleDoes(db: Db, sc: ScheduleId, ids: seq<SeatId>, S: set<SeatId>)
    requires sc in db.schedules && S == Members(ids) && forall s | s in ids :: SeatKey(sc, s) in db.seats
    ensures var (db', reply) := Settle(db, sc, S);
            && RestKept(db, db', sc, ids) && Recounted(db', sc, reply)
            && db'.rows == db.rows && db'.nextHold == db.nextHold && reply.seats == S
            && (forall s | s in ids ::
                  SeatKey(sc, s) in db'.seats && ShowsItsRows(db', db.seats[SeatKey(sc, s)], sc, s))
  {
    var (db', reply) := Settle(db, sc, S);
    assert Recompute(db, sc, S).seats.Keys == db.seats.Keys;
    forall s | s in ids ensures ShowsItsRows(db', db.seats[SeatKey(sc, s)], sc, s) {
      SummaryIs(db, sc, s);
      SummaryIs(db', sc, s);
    }
    CountsAre(db', sc);
  }

  lemma {:induction false} CountsAre(db: Db, sc: ScheduleId)
    ensures CountSeats(db.seats, sc)
         == Counts(HowMany(db, sc, Available), HowMany(db, sc, Locked), HowMany(db, sc, Booked))
  {
  }

  /** The whole-journey transactions: each seat of the list becomes `f` of it, the counters move, and
      nothing else changes. */
  lemma {:induction false} ShiftDoes(db: Db, sc: ScheduleId, ids: seq<SeatId>, S: set<SeatId>, e: Edit,
      a: Status, b: Status)
    requires sc in db.schedules && S == Members(ids) && forall s | s in ids :: SeatKey(sc, s) in db.seats
    ensures var (db', reply) := Shift(db, sc, S, e, a, b);
            && RestKept(db, db', sc, ids) && db'.rows == db.rows && db'.nextHold == db.nextHold
            && reply.Done? && reply.seats == S && reply.counts == db'.schedules[sc].counts
            && reply.counts == Moved(db.schedules[sc].counts, |S|, a, b)
            && (forall s | s in ids :: SeatKey(sc, s) in db'.seats
                  && db'.seats[SeatKey(sc, s)] == Edited(e, db.seats[SeatKey(sc, s)]))
  {
    assert EditSeats(db.seats, sc, S, e).Keys == db.seats.Keys;
  }

  // ----- lockSeats, when granted -----

  lemma {:induction false} InsertedDoes(db: Db, sc: ScheduleId, ids: seq<SeatId>, row: SegRow, expires: int)
    requires RowsOwned(db) && row.sched == sc && forall s | s in ids :: SeatKey(sc, s) in db.seats
    ensures var mid := Inserted(db, sc, Members(ids), row, expires);
            && RestKept(db, mid, sc, ids) && mid.nextHold == db.nextHold + 1
            && (forall k :: k in mid.rows <==> k in db.rows || (k.hold == db.nextHold && k.seat in ids))
            && (forall k | k in db.rows :: mid.rows[k] == db.rows[k])
            && (forall k | k in mid.rows && k !in db.rows :: mid.rows[k] == row)
            && (forall s | s in ids :: SeatKey(sc, s) in mid.seats &&
                  var seat := db.seats[SeatKey(sc, s)];
                  mid.seats[SeatKey(sc, s)] ==
                    Seat(seat.status, if seat.user.Some? then seat.user else Some(row.user), Some(expires),
                         seat.booking))
  {
    assert Inserted(db, sc, Members(ids), row, expires).seats.Keys == db.seats.Keys;
  }

  /** A granted segment adds one LOCKED row per seat, and no other row changes; the seats show LOCKED,
      keep their first holder and take the new expiry; the counters are counted anew. */
  lemma {:induction false} LockDoes(db: Db, sc: ScheduleId, ids: seq<SeatId>, user: UserId, expires: int, from: int,
      to: int)
    requires RowsOwned(db) && from != 0 && to != 0 && LockSeats(db, sc, ids, user, expires, from, to).1.Done?
    ensures var (db', reply) := LockSeats(db, sc, ids, user, expires, from, to);
            && RestKept(db, db', sc, ids) && Recounted(db', sc, reply) && db'.nextHold == db.nextHold + 1
            && (forall k :: k in db'.rows <==> k in db.rows || (k.hold == db.nextHold && k.seat in ids))
            && (forall k | k in db.rows :: db'.rows[k] == db.rows[k])
            && (forall k | k in db'.rows && k !in db.rows ::
                  db'.rows[k] == SegRow(sc, from, to, Locked, user, Some(expires), None))
            && (forall s | s in ids :: SeatKey(sc, s) in db.seats && SeatKey(sc, s) in db'.seats &&
                  var seat := db.seats[SeatKey(sc, s)];
                  db'.seats[SeatKey(sc, s)]
                    == Seat(Locked, if seat.user.Some? then seat.user else Some(user), Some(expires), seat.booking))
            && reply.seats == Members(ids)
  {
    FoundIff(db, sc, ids);
    var row := SegRow(sc, from, to, Locked, user, Some(expires), None);
    var mid := Inserted(db, sc, Members(ids), row, expires);
    InsertedDoes(db, sc, ids, row, expires);
    SettleDoes(mid, sc, ids, Members(ids));
    forall s | s in ids ensures HasRow(mid, sc, s, Locked) {
      var k := RowId(db.nextHold, s);
      assert k in mid.rows && mid.rows[k] == row;
    }
  }

  /** A granted whole journey makes the seats LOCKED by the user, moves the counters, and touches no row. */
  lemma {:induction false} WholeLockDoes(db: Db, sc: ScheduleId, ids: seq<SeatId>, user: UserId, expires: int,
      from: int, to: int)
    requires (from == 0 || to == 0) && LockSeats(db, sc, ids, user, expires, from, to).1.Done?
    ensures var (db', reply) := LockSeats(db, sc, ids, user, expires, from, to);
            && sc in db.schedules && sc in db'.schedules && RestKept(db, db', sc, ids)
            && db'.rows == db.rows && db'.nextHold == db.nextHold
            && MovedBy(db.schedules[sc].counts, db'.schedules[sc].counts, -|ids|, |ids|, 0)
            && reply == Done(Members(ids), db'.schedules[sc].counts)
            && (forall s | s in ids :: SeatKey(sc, s) in db.seats && SeatKey(sc, s) in db'.seats
                  && db'.seats[SeatKey(sc, s)]
                     == Seat(Locked, Some(user), Some(expires), db.seats[SeatKey(sc, s)].booking))
  {
    FoundIff(db, sc, ids);
    MembersOfDistinct(ids);
    ShiftDoes(db, sc, ids, Members(ids), TakeWhole(user, expires), Available, Locked);
  }

  // ----- unlockSeats and confirmSeats, by segment -----

  lemma {:induction false} NamedIsHeld(db: Db, sc: ScheduleId, ids: seq<SeatId>, user: UserId, from: int, to: int)
    ensures forall k ::
      k in Named(db.rows, sc, Members(ids), user, from, to) <==> IsHeld(db, k, sc, ids, user, from, to)
  {
  }

  /** The refusals that do not look at the state of rows or seats. */
  lemma {:induction false} SeatsAreNeeded(db: Db, sc: ScheduleId, ids: seq<SeatId>, user: UserId, booking: BookingId,
      from: int, to: int)
    requires ids == [] || !AllThere(db, sc, ids)
    ensures UnlockSeats(db, sc, ids, user, from, to) == (db, Refused(if ids == [] then BadRequest else NotFound))
    ensures ConfirmSeats(db, sc, ids, user, booking, from, to)
         == (db, Refused(if ids == [] then BadRequest else NotFound))
  {
    FoundIff(db, sc, ids);
  }

  lemma {:induction false} ThereIsASchedule(db: Db, sc: ScheduleId, ids: seq<SeatId>)
    requires SeatsOwned(db) && ids != [] && AllThere(db, sc, ids)
    ensures sc in db.schedules
  {
    assert ids[0] in ids && SeatKey(sc, ids[0]) in db.seats;
  }

  /** A release by segment is always granted. It deletes the user's LOCKED rows for exactly this segment
      of these seats, and no other row: none of another user, of another segment, or BOOKED. */
  lemma {:induction false} UnlockDoes(db: Db, sc: ScheduleId, ids: seq<SeatId>, user: UserId, from: int, to: int)
    requires SeatsOwned(db) && from != 0 && to != 0 && ids != [] && AllThere(db, sc, ids)
    ensures var (db', reply) := UnlockSeats(db, sc, ids, user, from, to);
            && RestKept(db, db', sc, ids) && Recounted(db', sc, reply) && db'.nextHold == db.nextHold
            && (forall k :: k in db'.rows <==> k in db.rows && !IsHeld(db, k, sc, ids, user, from, to))
            && (forall k | k in db'.rows :: db'.rows[k] == db.rows[k])
            && (forall s | s in ids ::
                  SeatKey(sc, s) in db'.seats && ShowsItsRows(db', db.seats[SeatKey(sc, s)], sc, s))
            && reply.seats == Members(ids)
  {
    FoundIff(db, sc, ids);
    ThereIsASchedule(db, sc, ids);
    NamedIsHeld(db, sc, ids, user, from, to);
    SettleDoes(db.(rows := db.rows - Named(db.rows, sc, Members(ids), user, from, to)), sc, ids, Members(ids));
  }

  /** A confirmation by segment is granted exactly when the user has a LOCKED row for exactly this
      segment on one of the seats. */
  lemma {:induction false} ConfirmIsGrantedIff(db: Db, sc: ScheduleId, ids: seq<SeatId>, user: UserId,
      booking: BookingId, from: int, to: int)
    requires SeatsOwned(db) && from != 0 && to != 0 && ids != [] && AllThere(db, sc, ids)
    ensures var (db', reply) := ConfirmSeats(db, sc, ids, user, booking, from, to);
            if exists k :: IsHeld(db, k, sc, ids, user, from, to) then reply.Done?
            else db' == db && reply == Refused(Conflict)
  {
    FoundIff(db, sc, ids);
    ThereIsASchedule(db, sc, ids);
    NamedIsHeld(db, sc, ids, user, from, to);
    if k :| IsHeld(db, k, sc, ids, user, from, to) {
      assert k in Named(db.rows, sc, Members(ids), user, from, to);
      SettleDoes(db.(rows := BookRows(db.rows, Named(db.rows, sc, Members(ids), user, from, to), booking)), sc, ids,
                 Members(ids));
    }
  }

  /** It makes exactly those rows BOOKED for the booking, without expiry. */
  lemma {:induction false} ConfirmDoes(db: Db, sc: ScheduleId, ids: seq<SeatId>, user: UserId, booking: BookingId,
      from: int, to: int)
    requires SeatsOwned(db) && from != 0 && to != 0
    requires ConfirmSeats(db, sc, ids, user, booking, from, to).1.Done?
    ensures var (db', reply) := ConfirmSeats(db, sc, ids, user, booking, from, to);
            && ids != [] && AllThere(db, sc, ids)
            && RestKept(db, db', sc, ids) && Recounted(db', sc, reply) && db'.nextHold == db.nextHold
            && db'.rows.Keys == db.rows.Keys
            && (forall k | k in db.rows && IsHeld(db, k, sc, ids, user, from, to) ::
                  db'.rows[k] == SegRow(sc, from, to, Booked, user, None, Some(booking)))
            && (forall k | k in db.rows && !IsHeld(db, k, sc, ids, user, from, to) :: db'.rows[k] == db.rows[k])
            && (forall s | s in ids ::
                  SeatKey(sc, s) in db'.seats && ShowsItsRows(db', db.seats[SeatKey(sc, s)], sc, s))
            && reply.seats == Members(ids)
  {
    FoundIff(db, sc, ids);
    ThereIsASchedule(db, sc, ids);
    NamedIsHeld(db, sc, ids, user, from, to);
    var mid := db.(rows := BookRows(db.rows, Named(db.rows, sc, Members(ids), user, from, to), booking));
    SettleDoes(mid, sc, ids, Members(ids));
  }

  // ----- unlockSeats and confirmSeats, for the whole journey -----

  predicate EachIsLocked(db: Db, sc: ScheduleId, ids: seq<SeatId>) {
    forall s | s in ids :: SeatKey(sc, s) in db.seats && db.seats[SeatKey(sc, s)].status == Locked
  }

  predicate EachIsBy(db: Db, sc: ScheduleId, ids: seq<SeatId>, user: UserId) {
    forall s | s in ids :: SeatKey(sc, s) in db.seats && db.seats[SeatKey(sc, s)].user == Some(user)
  }

  /** Both are granted exactly when every seat is LOCKED, by this user. */
  lemma {:induction false} WholeIsGrantedIff(db: Db, sc: ScheduleId, ids: seq<SeatId>, user: UserId,
      booking: BookingId, from: int, to: int)
    requires SeatsOwned(db) && (from == 0 || to == 0) && ids != [] && AllThere(db, sc, ids)
    ensures var locked, own := EachIsLocked(db, sc, ids), EachIsBy(db, sc, ids, user);
            var (unlocked, released) := UnlockSeats(db, sc, ids, user, from, to);
            var (confirmed, booked) := ConfirmSeats(db, sc, ids, user, booking, from, to);
            if locked && own then released.Done? && booked.Done?
            else unlocked == db && confirmed == db && released == booked
                 && released == Refused(if locked then Forbidden else Conflict)
  {
    FoundIff(db, sc, ids);
    ThereIsASchedule(db, sc, ids);
  }

  lemma {:induction false} WholeUnlockDoes(db: Db, sc: ScheduleId, ids: seq<SeatId>, user: UserId, from: int, to: int)
    requires (from == 0 || to == 0) && UnlockSeats(db, sc, ids, user, from, to).1.Done?
    ensures var (db', reply) := UnlockSeats(db, sc, ids, user, from, to);
            && sc in db.schedules && sc in db'.schedules && RestKept(db, db', sc, ids)
            && db'.rows == db.rows && db'.nextHold == db.nextHold
            && MovedBy(db.schedules[sc].counts, db'.schedules[sc].counts, |ids|, -|ids|, 0)
            && reply == Done(Members(ids), db'.schedules[sc].counts)
            && (forall s | s in ids :: SeatKey(sc, s) in db.seats && SeatKey(sc, s) in db'.seats
                  && db'.seats[SeatKey(sc, s)] == Seat(Available, None, None, db.seats[SeatKey(sc, s)].booking))
  {
    FoundIff(db, sc, ids);
    MembersOfDistinct(ids);
    ShiftDoes(db, sc, ids, Members(ids), ReleaseWhole, Locked, Available);
  }

  lemma {:induction false} WholeConfirmDoes(db: Db, sc: ScheduleId, ids: seq<SeatId>, user: UserId,
      booking: BookingId, from: int, to: int)
    requires (from == 0 || to == 0) && ConfirmSeats(db, sc, ids, user, booking, from, to).1.Done?
    ensures var (db', reply) := ConfirmSeats(db, sc, ids, user, booking, from, to);
            && sc in db.schedules && sc in db'.schedules && RestKept(db, db', sc, ids)
            && db'.rows == db.rows && db'.nextHold == db.nextHold
            && MovedBy(db.schedules[sc].counts, db'.schedules[sc].counts, 0, -|ids|, |ids|)
            && reply == Done(Members(ids), db'.schedules[sc].counts)
            && (forall s | s in ids :: SeatKey(sc, s) in db.seats && SeatKey(sc, s) in db'.seats
                  && db'.seats[SeatKey(sc, s)] == Seat(Booked, db.seats[SeatKey(sc, s)].user, None, Some(booking)))
  {
    FoundIff(db, sc, ids);
    MembersOfDistinct(ids);
    ShiftDoes(db, sc, ids, Members(ids), BookWhole(booking), Locked, Booked);
  }

  /** Whatever a release or a confirmation of user `user` is asked, it leaves every row of another user
      as it was, and for the whole journey every seat that is not this user's. */
  lemma {:induction false} OtherUsersAreSpared(db: Db, sc: ScheduleId, ids: seq<SeatId>, user: UserId,
      booking: BookingId, from: int, to: int, k: RowId)
    requires SeatsOwned(db) && k in db.rows && db.rows[k].user != user
    ensures var unlocked := UnlockSeats(db, sc, ids, user, from, to).0;
            var confirmed := ConfirmSeats(db, sc, ids, user, booking, from, to).0;
            && k in unlocked.rows && unlocked.rows[k] == db.rows[k]
            && k in confirmed.rows && confirmed.rows[k] == db.rows[k]
            && (from == 0 || to == 0 ==> forall x | x in db.seats && db.seats[x].user != Some(user) ::
                  x in unlocked.seats && unlocked.seats[x] == db.seats[x]
                  && x in confirmed.seats && confirmed.seats[x] == db.seats[x])
  {
    if ids == [] || !AllThere(db, sc, ids) {
      SeatsAreNeeded(db, sc, ids, user, booking, from, to);
    } else if from != 0 && to != 0 {
      UnlockDoes(db, sc, ids, user, from, to);
      if ConfirmSeats(db, sc, ids, user, booking, from, to).1.Done? {
        ConfirmDoes(db, sc, ids, user, booking, from, to);
      } else {
        ConfirmIsGrantedIff(db, sc, ids, user, booking, from, to);
      }
    } else {
      WholeIsGrantedIff(db, sc, ids, user, booking, from, to);
      if UnlockSeats(db, sc, ids, user, from, to).1.Done? {
        WholeUnlockDoes(db, sc, ids, user, from, to);
        WholeConfirmDoes(db, sc, ids, user, booking, from, to);
        forall x | x in db.seats && db.seats[x].user != Some(user) ensures !(x.sched == sc && x.seat in ids) {
          assert x == SeatKey(x.sched, x.seat);
        }
      }
    }
  }

  // ----- cancelBooking -----

  /** A BOOKED row of the booking, in this schedule. */
  predicate IsSold(db: Db, k: RowId, sc: ScheduleId, booking: BookingId) {
    k in db.rows && db.rows[k].sched == sc && db.rows[k].booking == Some(booking) && db.rows[k].status == Booked
  }

  predicate IsSoldWhole(db: Db, k: SeatKey, sc: ScheduleId, booking: BookingId) {
    k in db.seats && k.sched == sc && db.seats[k].booking == Some(booking) && db.seats[k].status == Booked
  }

  /** With a BOOKED row of the booking, its rows go and their seats show what is left. */
  lemma {:induction false} CancelDoes(db: Db, sc: ScheduleId, booking: BookingId)
    requires SeatsOwned(db) && RowsOwned(db) && exists k :: IsSold(db, k, sc, booking)
    ensures var (db', reply) := CancelBooking(db, sc, booking);
            && Recounted(db', sc, reply) && db'.nextHold == db.nextHold && db'.events == db.events
            && db'.seats.Keys == db.seats.Keys && db'.schedules.Keys == db.schedules.Keys
            && (forall x | x in db.schedules && x != sc :: db'.schedules[x] == db.schedules[x])
            && (forall k :: k in db'.rows <==>
                  k in db.rows && !(db.rows[k].sched == sc && db.rows[k].booking == Some(booking)))
            && (forall k | k in db'.rows :: db'.rows[k] == db.rows[k])
            && (forall s :: s in reply.seats <==> exists k :: IsSold(db, k, sc, booking) && k.seat == s)
            && (forall k | k in db.seats && !(k.sched == sc && k.seat in reply.seats) :: db'.seats[k] == db.seats[k])
            && (forall s | s in reply.seats :: SeatKey(sc, s) in db.seats && SeatKey(sc, s) in db'.seats
                  && ShowsItsRows(db', db.seats[SeatKey(sc, s)], sc, s))
  {
    var S := BookedSeatsOf(db.rows, sc, booking);
    var k :| IsSold(db, k, sc, booking);
    assert k.seat in S && SeatKey(sc, k.seat) in db.seats;
    forall s ensures s in S <==> exists k :: IsSold(db, k, sc, booking) && k.seat == s {
      if s in S {
        var l :| l in db.rows && db.rows[l].sched == sc && db.rows[l].booking == Some(booking)
          && db.rows[l].status == Booked && l.seat == s;
        assert IsSold(db, l, sc, booking);
      }
    }
    var mid := db.(rows := db.rows - Carrying(db.rows, sc, booking));
    var (db', reply) := Settle(mid, sc, S);
    assert Recompute(mid, sc, S).seats.Keys == db.seats.Keys;
    CountsAre(db', sc);
    forall s | s in S ensures SeatKey(sc, s) in db.seats && ShowsItsRows(db', db.seats[SeatKey(sc, s)], sc, s) {
      SummaryIs(mid, sc, s);
      SummaryIs(db', sc, s);
    }
  }

  /** Without one, the seats that are sold to it for the whole journey become free; when there is none
      either, nothing is found. */
  lemma {:induction false} WholeCancelDoes(db: Db, sc: ScheduleId, booking: BookingId)
    requires SeatsOwned(db) && forall k :: !IsSold(db, k, sc, booking)
    ensures var (db', reply) := CancelBooking(db, sc, booking);
            if exists k :: IsSoldWhole(db, k, sc, booking) then
              && sc in db.schedules && sc in db'.schedules && db'.seats.Keys == db.seats.Keys
              && db'.rows == db.rows && db'.nextHold == db.nextHold && db'.events == db.events
              && (forall k | k in db.seats ::
                    db'.seats[k] == if IsSoldWhole(db, k, sc, booking) then Seat(Available, None, None, None)
                                    else db.seats[k])
              && reply.Done? && reply.counts == db'.schedules[sc].counts
              && (forall s :: s in reply.seats <==> IsSoldWhole(db, SeatKey(sc, s), sc, booking))
              && MovedBy(db.schedules[sc].counts, db'.schedules[sc].counts, |reply.seats|, 0, -|reply.seats|)
              && db'.schedules == db.schedules[sc := db.schedules[sc].(counts := reply.counts)]
            else db' == db && reply == Refused(NotFound)
  {
    var S := BookedWhole(db.seats, sc, booking);
    forall k | k in db.rows ensures !IsSold(db, k, sc, booking) {}
    assert BookedSeatsOf(db.rows, sc, booking) == {};
    forall k ensures IsSoldWhole(db, k, sc, booking) <==> k.sched == sc && k.seat in S {
      if k.sched == sc && k.seat in S {
        var l :| l in db.seats && l.sched == sc && db.seats[l].booking == Some(booking)
          && db.seats[l].status == Booked && l.seat == k.seat;
        assert l == k;
      }
    }
    forall s ensures s in S <==> IsSoldWhole(db, SeatKey(sc, s), sc, booking) {}
    assert EditSeats(db.seats, sc, S, Clear).Keys == db.seats.Keys;
  }

  // ----- schedule events -----

  /** SCHEDULE_CREATED does something exactly the first time, for a schedule that is not there and a
      list of seats that names none twice. */
  lemma {:induction false} CreateDoes(db: Db, sc: ScheduleId, ids: seq<SeatId>)
    requires SeatsOwned(db)
    ensures var db' := InitializeInventory(db, sc, ids);
            if ids != [] && ScheduleCreated(sc) !in db.events && sc !in db.schedules
               && forall i, j | 0 <= i < j < |ids| :: ids[i] != ids[j]
            then
              && db'.rows == db.rows && db'.nextHold == db.nextHold && db'.events == db.events + {ScheduleCreated(sc)}
              && db'.schedules == db.schedules[sc := Schedule(true, |ids|, Counts(|ids|, 0, 0))]
              && (forall k :: k in db'.seats <==> k in db.seats || (k.sched == sc && k.seat in ids))
              && (forall k | k in db.seats :: db'.seats[k] == db.seats[k])
              && (forall s | s in ids :: SeatKey(sc, s) in db'.seats
                    && db'.seats[SeatKey(sc, s)] == Seat(Available, None, None, None))
            else db' == db
  {
    MembersOfDistinct(ids);
    forall k ensures k in FreshSeats(sc, ids) <==> k.sched == sc && k.seat in ids {
      if k.sched == sc && k.seat in ids { assert k == SeatKey(sc, k.seat); }
    }
  }

  /** SCHEDULE_CANCELLED does something exactly the first time, for a schedule that is there. */
  lemma {:induction false} CloseDoes(db: Db, sc: ScheduleId)
    ensures var db' := CancelSchedule(db, sc);
            if ScheduleCancelled(sc) !in db.events && sc in db.schedules then
              && db'.rows == db.rows && db'.nextHold == db.nextHold && db'.events == db.events + {ScheduleCancelled(sc)}
              && db'.schedules == db.schedules[sc := Schedule(false, db.schedules[sc].total, Counts(0, 0, 0))]
              && db'.seats.Keys == db.seats.Keys
              && (forall k | k in db.seats ::
                    db'.seats[k] == if k.sched == sc then db.seats[k].(status := Cancelled) else db.seats[k])
            else db' == db
  {
  }

  // ----- getSeats -----

  /** Every leg is free, and the seat is not LOCKED or BOOKED without any row. */
  predicate OpenForSegment(db: Db, sc: ScheduleId, seat: SeatId, from: int, to: int)
    requires SeatKey(sc, seat) in db.seats
  {
    var status := db.seats[SeatKey(sc, seat)].status;
    && LegsFree(db, sc, seat, from, to)
    && (status == Locked || status == Booked ==> HasRow(db, sc, seat, Locked) || HasRow(db, sc, seat, Booked))
  }

  /** The marks of getSeats, by legs. */
  lemma {:induction false} MarkedIff(db: Db, sc: ScheduleId, seat: SeatId, from: int, to: int)
    requires ProperRows(db) && from < to && SeatKey(sc, seat) in db.seats
    ensures MarkedAvailable(db, sc, seat, from, to) <==> OpenForSegment(db, sc, seat, from, to)
  {
    BlockedIff(db, sc, [seat], from, to);
    assert Members([seat]) == {seat} && seat in [seat];
    SummaryIs(db, sc, seat);
  }
}
