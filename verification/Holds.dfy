/** What one booking's calls do to the ledger, whatever other calls come between them: a
    release, a confirmation and a cancellation reach the rows of their own hold and no other,
    and undo what the lock did. */
module Holds {
  import opened Ledger
  import opened LedgerRuns
  import opened LedgerAgreement

  /** The keys of the rows that lock call number `hold` inserted for the seats `S`. */
  function KeysOf(hold: nat, S: set<SeatId>): set<RowId> {
    set s | s in S :: RowId(hold, s)
  }

  /** Every row of the hold is there, as the lock call left it. */
  predicate Live(rows: Rows, hold: nat, S: set<SeatId>, row: SegRow) {
    && row.status == Locked && row.from < row.to
    && forall s | s in S :: RowId(hold, s) in rows && rows[RowId(hold, s)] == row
  }

  /** While a hold is live, its user and segment name its rows on those seats and no others. */
  lemma {:induction false} NamedIsTheHold(rows: Rows, hold: nat, S: set<SeatId>, row: SegRow)
    requires NonOverlapping(rows) && Live(rows, hold, S, row)
    ensures Named(rows, row.sched, S, row.user, row.from, row.to) == KeysOf(hold, S)
  {
    forall k | k in Named(rows, row.sched, S, row.user, row.from, row.to) ensures k in KeysOf(hold, S) {
      assert Apart(rows, k, RowId(hold, k.seat));
    }
  }

  /** What `S` and `ids` have in common in every call below. */
  predicate AllFound(db: Db, sc: ScheduleId, ids: seq<SeatId>) {
    ids != [] && |Found(db.seats, sc, ids)| == |ids|
  }

  // The counters of the schedules `dirty` may be false: the calls do not look at them.

  /** Release, at any later time: the rows of a live hold go, every other row stays. */
  lemma {:induction false} UnlockReleasesTheHold(db: Db, ids: seq<SeatId>, hold: nat, row: SegRow,
      dirty: set<ScheduleId>)
    requires Safe(db, dirty) && AllFound(db, row.sched, ids) && IsSegment(row.from, row.to)
    requires Live(db.rows, hold, Found(db.seats, row.sched, ids), row)
    ensures var (db', reply) := UnlockSeats(db, row.sched, ids, row.user, row.from, row.to);
            reply.Done? && db'.rows == db.rows - KeysOf(hold, Found(db.seats, row.sched, ids))
  {
    FoundHasSchedule(db, row.sched, ids);
    NamedIsTheHold(db.rows, hold, Found(db.seats, row.sched, ids), row);
  }

  /** Confirmation, at any later time: the rows of a live hold turn BOOKED, all of them and
      nothing else, although the call only checks that some row did. */
  lemma {:induction false} ConfirmBooksTheHold(db: Db, ids: seq<SeatId>, hold: nat, row: SegRow, booking: BookingId,
      dirty: set<ScheduleId>)
    requires Safe(db, dirty) && AllFound(db, row.sched, ids) && IsSegment(row.from, row.to)
    requires Live(db.rows, hold, Found(db.seats, row.sched, ids), row)
    ensures var (db', reply) := ConfirmSeats(db, row.sched, ids, row.user, booking, row.from, row.to);
            reply.Done? && db'.rows == BookRows(db.rows, KeysOf(hold, Found(db.seats, row.sched, ids)), booking)
  {
    FoundHasSchedule(db, row.sched, ids);
    var S := Found(db.seats, row.sched, ids);
    NamedIsTheHold(db.rows, hold, S, row);
    var s :| s in S;
    assert RowId(hold, s) in KeysOf(hold, S);
  }

  /** Cancellation, at any later time: when exactly the hold's rows carry the booking's id,
      exactly they go. */
  lemma {:induction false} CancelDropsTheHold(db: Db, sc: ScheduleId, booking: BookingId, hold: nat, S: set<SeatId>,
      dirty: set<ScheduleId>)
    requires Safe(db, dirty) && S != {} && Carrying(db.rows, sc, booking) == KeysOf(hold, S)
    ensures CancelBooking(db, sc, booking) == Settle(db.(rows := db.rows - KeysOf(hold, S)), sc, S)
    ensures var (db', reply) := CancelBooking(db, sc, booking);
            reply.Done? && reply.seats == S && db'.rows == db.rows - KeysOf(hold, S)
  {
    forall s | s in S ensures s in BookedSeatsOf(db.rows, sc, booking) {
      assert RowId(hold, s) in Carrying(db.rows, sc, booking);
    }
    forall s | s in BookedSeatsOf(db.rows, sc, booking) ensures s in S {
      var k :| k in Carrying(db.rows, sc, booking) && k.seat == s;
      assert k in KeysOf(hold, S);
    }
    assert BookedSeatsOf(db.rows, sc, booking) == S;
    var s :| s in S;
    assert RowId(hold, s) in Carrying(db.rows, sc, booking);
    assert SeatKey(sc, s) in db.seats;
  }

  // ----- compensation undoes -----

  /** Rows, statuses and counters are as they were. The columns lockedBy and lockExpiresAt of a
      seat that another hold keeps LOCKED may differ: the source overwrites the expiry. */
  predicate Restored(before: Db, after: Db) {
    && after.rows == before.rows && after.schedules == before.schedules
    && after.seats.Keys == before.seats.Keys
    && forall k | k in before.seats :: after.seats[k].status == before.seats[k].status
  }

  /** Apart from the rows, only the seats `S` of `sc` and the counters of `sc` differ. */
  predicate Confined(db: Db, db': Db, sc: ScheduleId, S: set<SeatId>) {
    && db'.seats.Keys == db.seats.Keys
    && (forall k | k in db.seats && !(k.sched == sc && k.seat in S) :: db'.seats[k] == db.seats[k])
    && db'.schedules.Keys == db.schedules.Keys
    && (forall s | s in db.schedules :: db'.schedules[s].(counts := db.schedules[s].counts) == db.schedules[s])
    && (forall s | s in db.schedules && s != sc :: db'.schedules[s] == db.schedules[s])
  }

  lemma {:induction false} SettleIsConfined(before: Db, db: Db, sc: ScheduleId, S: set<SeatId>)
    requires Confined(before, db, sc, S) && sc in db.schedules
    ensures Confined(before, Settle(db, sc, S).0, sc, S) && Settle(db, sc, S).0.rows == db.rows
  {
    assert Recompute(db, sc, S).seats.Keys == db.seats.Keys;
  }

  lemma {:induction false} RecomputeRestores(before: Db, db: Db, sc: ScheduleId, S: set<SeatId>)
    requires Confined(before, db, sc, S) && db.rows == before.rows
    requires forall s | s in S && SeatKey(sc, s) in before.seats ::
      before.seats[SeatKey(sc, s)].status == Summary(before.rows, sc, s)
    ensures var mid := Recompute(db, sc, S);
            && (forall k | k in before.seats :: k in mid.seats && mid.seats[k].status == before.seats[k].status)
            && CountSeats(mid.seats, sc) == CountSeats(before.seats, sc)
  {
    var mid := Recompute(db, sc, S);
    forall k | k in before.seats ensures k in mid.seats && mid.seats[k].status == before.seats[k].status {
      assert SeatKey(k.sched, k.seat) == k;
    }
    assert mid.seats.Keys == before.seats.Keys;
    forall status ensures Showing(mid.seats, sc, status) == Showing(before.seats, sc, status) {}
  }

  /** A settled schedule whose rows are back where they were has its statuses and counters back. */
  lemma {:induction false} SettlingRestores(before: Db, db: Db, sc: ScheduleId, S: set<SeatId>)
    requires sc in before.schedules && before.schedules[sc].counts == CountSeats(before.seats, sc)
    requires Confined(before, db, sc, S) && db.rows == before.rows
    requires forall s | s in S && SeatKey(sc, s) in before.seats ::
      before.seats[SeatKey(sc, s)].status == Summary(before.rows, sc, s)
    ensures Restored(before, Settle(db, sc, S).0)
  {
    RecomputeRestores(before, db, sc, S);
    SettleIsConfined(before, db, sc, S);
  }

  /** The seats asked for show what their rows say; segment-managed seats of an active schedule
      do in every allowed run. */
  predicate SeatsAgree(db: Db, sc: ScheduleId, ids: seq<SeatId>) {
    forall s | s in ids && SeatKey(sc, s) in db.seats ::
      db.seats[SeatKey(sc, s)].status == Summary(db.rows, sc, s)
  }

  /** What a successful segment lock leaves. */
  lemma {:induction false} LockInserts(db: Db, sc: ScheduleId, ids: seq<SeatId>, user: UserId, expires: int,
      from: int, to: int, dirty: set<ScheduleId>)
    requires Safe(db, dirty) && IsSegment(from, to) && from < to
    requires LockSeats(db, sc, ids, user, expires, from, to).1.Done?
    ensures var db' := LockSeats(db, sc, ids, user, expires, from, to).0;
            var S := Found(db.seats, sc, ids);
            var row := SegRow(sc, from, to, Locked, user, Some(expires), None);
            && sc in db.schedules && AllFound(db, sc, ids) && Found(db'.seats, sc, ids) == S
            && db'.rows == db.rows + NewRows(db.nextHold, S, row)
            && Confined(db, db', sc, S) && Safe(db', dirty)
  {
    LockIsSafe(db, sc, ids, user, expires, from, to, dirty);
    var S := Found(db.seats, sc, ids);
    var row := SegRow(sc, from, to, Locked, user, Some(expires), None);
    InsertedIsConfined(db, sc, S, row, expires);
    SettleIsConfined(db, Inserted(db, sc, S, row, expires), sc, S);
    ConfinedFindsTheSame(db, LockSeats(db, sc, ids, user, expires, from, to).0, sc, S, ids);
  }

  lemma {:induction false} InsertedIsConfined(db: Db, sc: ScheduleId, S: set<SeatId>, row: SegRow, expires: int)
    ensures Confined(db, Inserted(db, sc, S, row, expires), sc, S)
  {
    assert Inserted(db, sc, S, row, expires).seats.Keys == db.seats.Keys;
  }

  lemma {:induction false} ConfinedFindsTheSame(db: Db, db': Db, sc: ScheduleId, S: set<SeatId>, ids: seq<SeatId>)
    requires Confined(db, db', sc, S)
    ensures Found(db'.seats, sc, ids) == Found(db.seats, sc, ids)
  {
  }

  lemma {:induction false} NewRowsAreLive(db: Db, S: set<SeatId>, row: SegRow)
    requires row.status == Locked && row.from < row.to
    ensures Live(db.rows + NewRows(db.nextHold, S, row), db.nextHold, S, row)
  {
  }

  /** lockSeats then unlockSeats with the same arguments restores the ledger. */
  lemma {:induction false} LockThenUnlockRestores(db: Db, sc: ScheduleId, ids: seq<SeatId>, user: UserId,
      expires: int, from: int, to: int, dirty: set<ScheduleId>)
    requires Safe(db, dirty) && sc !in dirty && SeatsAgree(db, sc, ids) && IsSegment(from, to) && from < to
    requires LockSeats(db, sc, ids, user, expires, from, to).1.Done?
    ensures var db1 := LockSeats(db, sc, ids, user, expires, from, to).0;
            var (db2, reply) := UnlockSeats(db1, sc, ids, user, from, to);
            reply.Done? && Restored(db, db2)
  {
    var db1 := LockSeats(db, sc, ids, user, expires, from, to).0;
    var S := Found(db.seats, sc, ids);
    var row := SegRow(sc, from, to, Locked, user, Some(expires), None);
    LockInserts(db, sc, ids, user, expires, from, to, dirty);
    NewRowsAreLive(db, S, row);
    UnlockReleasesTheHold(db1, ids, db.nextHold, row, dirty);
    NamedIsTheHold(db1.rows, db.nextHold, S, row);
    NewRowsGoAway(db, S, row);
    SettlingRestores(db, db1.(rows := db1.rows - KeysOf(db.nextHold, S)), sc, S);
  }

  lemma {:induction false} NewRowsGoAway(db: Db, S: set<SeatId>, row: SegRow)
    requires RowsOwned(db)
    ensures db.rows + NewRows(db.nextHold, S, row) - KeysOf(db.nextHold, S) == db.rows
  {
    var added := NewRows(db.nextHold, S, row);
    assert added.Keys == KeysOf(db.nextHold, S);
    assert db.rows.Keys !! KeysOf(db.nextHold, S);
    assert (db.rows + added - KeysOf(db.nextHold, S)).Keys == db.rows.Keys;
  }

  predicate Fresh(rows: Rows, booking: BookingId) {
    forall k | k in rows :: rows[k].booking != Some(booking)
  }

  lemma {:induction false} BookedRowsCarry(db: Db, S: set<SeatId>, row: SegRow, booking: BookingId)
    requires RowsOwned(db) && Fresh(db.rows, booking) && row.booking == None
    ensures var keys := KeysOf(db.nextHold, S);
            var rows2 := BookRows(db.rows + NewRows(db.nextHold, S, row), keys, booking);
            Carrying(rows2, row.sched, booking) == keys && rows2 - keys == db.rows
  {
    var keys := KeysOf(db.nextHold, S);
    var rows1 := db.rows + NewRows(db.nextHold, S, row);
    var rows2 := BookRows(rows1, keys, booking);
    forall k | k in keys ensures k in rows1 && rows1[k] == row && k !in db.rows {}
    forall k | k in rows1 && k !in keys ensures k in db.rows && rows1[k] == db.rows[k] {}
    assert (rows2 - keys).Keys == db.rows.Keys;
  }

  /** What confirming the hold just taken leaves: its rows carry the fresh id, and only they. */
  lemma {:induction false} ConfirmAfterLock(db: Db, db1: Db, sc: ScheduleId, ids: seq<SeatId>, row: SegRow,
      booking: BookingId, dirty: set<ScheduleId>)
    requires RowsOwned(db) && Fresh(db.rows, booking)
    requires Safe(db1, dirty) && AllFound(db1, sc, ids) && sc in db1.schedules
    requires row.sched == sc && row.booking == None && row.status == Locked
    requires IsSegment(row.from, row.to) && row.from < row.to
    requires db1.rows == db.rows + NewRows(db.nextHold, Found(db1.seats, sc, ids), row)
    requires Confined(db, db1, sc, Found(db1.seats, sc, ids))
    ensures var S := Found(db1.seats, sc, ids);
            var (db2, reply) := ConfirmSeats(db1, sc, ids, row.user, booking, row.from, row.to);
            && reply.Done? && Safe(db2, dirty) && Confined(db, db2, sc, S)
            && Carrying(db2.rows, sc, booking) == KeysOf(db.nextHold, S)
            && db2.rows - KeysOf(db.nextHold, S) == db.rows
  {
    var S := Found(db1.seats, sc, ids);
    NewRowsAreLive(db, S, row);
    ConfirmBooksTheHold(db1, ids, db.nextHold, row, booking, dirty);
    ConfirmIsSafe(db1, sc, ids, row.user, booking, row.from, row.to, dirty);
    BookedRowsCarry(db, S, row, booking);
    var hit := Named(db1.rows, sc, S, row.user, row.from, row.to);
    SettleIsConfined(db, db1.(rows := BookRows(db1.rows, hit, booking)), sc, S);
  }

  /** lockSeats, confirmSeats, then cancelBooking with a fresh booking id restores the ledger. */
  lemma {:induction false} LockConfirmCancelRestores(db: Db, sc: ScheduleId, ids: seq<SeatId>, user: UserId,
      expires: int, from: int, to: int, booking: BookingId, dirty: set<ScheduleId>)
    requires Safe(db, dirty) && sc !in dirty && SeatsAgree(db, sc, ids)
    requires IsSegment(from, to) && from < to && Fresh(db.rows, booking)
    requires LockSeats(db, sc, ids, user, expires, from, to).1.Done?
    ensures var db1 := LockSeats(db, sc, ids, user, expires, from, to).0;
            var (db2, confirmed) := ConfirmSeats(db1, sc, ids, user, booking, from, to);
            var (db3, cancelled) := CancelBooking(db2, sc, booking);
            confirmed.Done? && cancelled.Done? && Restored(db, db3)
  {
    var db1 := LockSeats(db, sc, ids, user, expires, from, to).0;
    var S := Found(db.seats, sc, ids);
    var row := SegRow(sc, from, to, Locked, user, Some(expires), None);
    LockInserts(db, sc, ids, user, expires, from, to, dirty);
    ConfirmAfterLock(db, db1, sc, ids, row, booking, dirty);
    var db2 := ConfirmSeats(db1, sc, ids, user, booking, from, to).0;
    CancelRestores(db, db2, sc, booking, db.nextHold, S, dirty);
  }

  lemma {:induction false} CancelRestores(db: Db, db2: Db, sc: ScheduleId, booking: BookingId, hold: nat,
      S: set<SeatId>, dirty: set<ScheduleId>)
    requires sc in db.schedules && db.schedules[sc].counts == CountSeats(db.seats, sc)
    requires Safe(db2, dirty) && Confined(db, db2, sc, S) && S != {}
    requires Carrying(db2.rows, sc, booking) == KeysOf(hold, S) && db2.rows - KeysOf(hold, S) == db.rows
    requires forall s | s in S && SeatKey(sc, s) in db.seats ::
      db.seats[SeatKey(sc, s)].status == Summary(db.rows, sc, s)
    ensures var (db3, reply) := CancelBooking(db2, sc, booking);
            reply.Done? && Restored(db, db3)
  {
    CancelDropsTheHold(db2, sc, booking, hold, S, dirty);
    SettlingRestores(db, db2.(rows := db2.rows - KeysOf(hold, S)), sc, S);
  }
}
