/** The three tables of the inventory service and the six operations on them, as values.

    Every operation is a function from the tables to the tables and a reply. The class in
    Inventory.dfy carries the same operations out step by step and is proved to compute these
    functions; LedgerRuns.dfy proves what every run of them keeps.

    A sequence number 0 stands for an absent one: the source tests `fromSeq && toSeq`, and route
    sequence numbers start at 1. */
module Ledger {
  datatype Option<+T> = None | Some(value: T)

  type ScheduleId = nat
  type SeatId = nat
  type UserId = nat
  type BookingId = nat

  datatype Status = Available | Locked | Booked | Cancelled

  /** The primary key of a segment row, named by the number of the lockSeats call that
      inserted it and by the seat it is for. */
  datatype RowId = RowId(hold: nat, seat: SeatId)

  /** A row of seat_segment_locks, less its seat, which is in its key. */
  datatype SegRow = SegRow(sched: ScheduleId, from: int, to: int, status: Status,
                           user: UserId, expires: Option<int>, booking: Option<BookingId>)

  type Rows = map<RowId, SegRow>

  datatype SeatKey = SeatKey(sched: ScheduleId, seat: SeatId)

  /** A row of seat_inventories. */
  datatype Seat = Seat(status: Status, user: Option<UserId>, expires: Option<int>,
                       booking: Option<BookingId>)

  type Seats = map<SeatKey, Seat>

  datatype Counts = Counts(available: int, locked: int, booked: int)

  /** A row of schedule_inventories. */
  datatype Schedule = Schedule(active: bool, total: nat, counts: Counts)

  /** A key of idempotency_records. */
  datatype EventKey = ScheduleCreated(sched: ScheduleId) | ScheduleCancelled(sched: ScheduleId)

  datatype Db = Db(schedules: map<ScheduleId, Schedule>, seats: Seats, rows: Rows,
                   events: set<EventKey>, nextHold: nat)

  datatype Error = BadRequest | NotFound | Conflict | Forbidden | Internal

  /** What an operation answers: the seats it dealt with and the schedule's counters after it. */
  datatype Reply = Done(seats: set<SeatId>, counts: Counts) | Refused(error: Error)

  const EMPTY := Db(map[], map[], map[], {}, 0)

  predicate IsSegment(from: int, to: int) {
    from != 0 && to != 0
  }

  /** The source's overlap test of the intervals [f1, t1) and [f2, t2). */
  predicate Overlap(f1: int, t1: int, f2: int, t2: int) {
    f1 < t2 && t1 > f2
  }

  predicate Active(r: SegRow) {
    r.status == Locked || r.status == Booked
  }

  /** Row `k` is an active row for this seat of this schedule. */
  predicate IsFor(rows: Rows, k: RowId, sc: ScheduleId, seat: SeatId)
    requires k in rows
  {
    k.seat == seat && rows[k].sched == sc && Active(rows[k])
  }

  /** The requested seats that exist. */
  function Found(seats: Seats, sc: ScheduleId, ids: seq<SeatId>): set<SeatId> {
    set s | s in ids && SeatKey(sc, s) in seats
  }

  // ----- derived columns -----

  /** The status a seat should show, given the segment rows. */
  function Summary(rows: Rows, sc: ScheduleId, seat: SeatId): Status {
    if !(exists k :: k in rows && IsFor(rows, k, sc, seat)) then Available
    else if exists k :: k in rows && IsFor(rows, k, sc, seat) && rows[k].status == Locked then Locked
    else Booked
  }

  const FREE := Seat(Available, None, None, None)

  function Recomputed(seat: Seat, status: Status): Seat {
    if seat.status == status then seat
    else if status == Available then FREE
    else seat.(status := status)
  }

  /** The updates of seat rows that do not go through a recomputation. */
  datatype Edit =
    | Stamp(stamper: UserId, until: int)     // segment lock: keep the first user, take the new expiry
    | TakeWhole(taker: UserId, until: int)   // full-journey lock
    | ReleaseWhole                           // full-journey unlock
    | BookWhole(booker: BookingId)           // full-journey confirmation
    | Clear                                  // full-journey cancellation
    | FreeIfLocked                           // phase two of the expiry job

  function Edited(e: Edit, s: Seat): Seat {
    match e
    case Stamp(user, until) => s.(user := if s.user.None? then Some(user) else s.user, expires := Some(until))
    case TakeWhole(user, until) => s.(status := Locked, user := Some(user), expires := Some(until))
    case ReleaseWhole => s.(status := Available, user := None, expires := None)
    case BookWhole(booking) => s.(status := Booked, booking := Some(booking), expires := None)
    case Clear => FREE
    case FreeIfLocked =>
      if s.status == Locked then s.(status := Available, user := None, expires := None) else s
  }

  /** Applies an edit to the seats `S` of schedule `sc` and to no other. */
  function EditSeats(seats: Seats, sc: ScheduleId, S: set<SeatId>, e: Edit): Seats {
    map k | k in seats :: if k.sched == sc && k.seat in S then Edited(e, seats[k]) else seats[k]
  }

  function Recompute(db: Db, sc: ScheduleId, S: set<SeatId>): Db {
    db.(seats := map k | k in db.seats ::
      if k.sched == sc && k.seat in S then Recomputed(db.seats[k], Summary(db.rows, sc, k.seat))
      else db.seats[k])
  }

  /** The seats of a schedule that show this status. */
  function Showing(seats: Seats, sc: ScheduleId, status: Status): set<SeatKey> {
    set k | k in seats && k.sched == sc && seats[k].status == status
  }

  function CountSeats(seats: Seats, sc: ScheduleId): Counts {
    Counts(|Showing(seats, sc, Available)|, |Showing(seats, sc, Locked)|, |Showing(seats, sc, Booked)|)
  }

  function SetCounts(db: Db, sc: ScheduleId, counts: Counts): Db {
    if sc in db.schedules
    then db.(schedules := db.schedules[sc := db.schedules[sc].(counts := counts)])
    else db
  }

  function Recount(db: Db, sc: ScheduleId): Db {
    SetCounts(db, sc, CountSeats(db.seats, sc))
  }

  /** The end of every segment transaction: recompute the seats, recount the schedule. */
  function Settle(db: Db, sc: ScheduleId, S: set<SeatId>): (Db, Reply) {
    var db' := Recount(Recompute(db, sc, S), sc);
    if sc in db'.schedules then (db', Done(S, db'.schedules[sc].counts)) else (db, Refused(Internal))
  }

  /** The counters after `n` seats have gone from status `a` to status `b`, by arithmetic. */
  function Moved(c: Counts, n: nat, a: Status, b: Status): Counts {
    Counts(c.available + (if b == Available then n else 0) - (if a == Available then n else 0),
           c.locked + (if b == Locked then n else 0) - (if a == Locked then n else 0),
           c.booked + (if b == Booked then n else 0) - (if a == Booked then n else 0))
  }

  /** The end of every full-journey transaction: edit the seats, move their number between
      the counters without counting. */
  function Shift(db: Db, sc: ScheduleId, S: set<SeatId>, e: Edit, a: Status, b: Status): (Db, Reply) {
    if sc !in db.schedules then (db, Refused(Internal))
    else
      var counts := Moved(db.schedules[sc].counts, |S|, a, b);
      (SetCounts(db.(seats := EditSeats(db.seats, sc, S, e)), sc, counts), Done(S, counts))
  }

  // ----- lockSeats -----

  /** Some requested seat already has an active row that overlaps the requested segment. */
  predicate Blocked(rows: Rows, sc: ScheduleId, S: set<SeatId>, from: int, to: int) {
    exists k :: k in rows && k.seat in S && IsFor(rows, k, sc, k.seat)
                && Overlap(rows[k].from, rows[k].to, from, to)
  }

  function NewRows(hold: nat, S: set<SeatId>, row: SegRow): Rows {
    map s | s in S :: RowId(hold, s) := row
  }

  /** One new row per seat, and the seats stamped with the row's user and expiry. */
  function Inserted(db: Db, sc: ScheduleId, S: set<SeatId>, row: SegRow, expires: int): Db {
    db.(rows := db.rows + NewRows(db.nextHold, S, row),
        seats := EditSeats(db.seats, sc, S, Stamp(row.user, expires)),
        nextHold := db.nextHold + 1)
  }

  function LockSegment(db: Db, sc: ScheduleId, S: set<SeatId>, user: UserId, expires: int,
                       from: int, to: int): (Db, Reply)
  {
    if Blocked(db.rows, sc, S, from, to) then (db, Refused(Conflict))
    else
      Settle(Inserted(db, sc, S, SegRow(sc, from, to, Locked, user, Some(expires), None), expires), sc, S)
  }

  predicate AllShow(seats: Seats, sc: ScheduleId, S: set<SeatId>, status: Status) {
    forall s | s in S :: SeatKey(sc, s) in seats && seats[SeatKey(sc, s)].status == status
  }

  predicate AllHeldBy(seats: Seats, sc: ScheduleId, S: set<SeatId>, user: UserId) {
    forall s | s in S :: SeatKey(sc, s) in seats && seats[SeatKey(sc, s)].user == Some(user)
  }

  function LockJourney(db: Db, sc: ScheduleId, S: set<SeatId>, user: UserId, expires: int): (Db, Reply) {
    if !AllShow(db.seats, sc, S, Available) then (db, Refused(Conflict))
    else Shift(db, sc, S, TakeWhole(user, expires), Available, Locked)
  }

  function LockSeats(db: Db, sc: ScheduleId, ids: seq<SeatId>, user: UserId, expires: int,
                     from: int, to: int): (Db, Reply)
  {
    if ids == [] then (db, Refused(BadRequest))
    else if sc !in db.schedules then (db, Refused(NotFound))
    else if !db.schedules[sc].active then (db, Refused(BadRequest))
    else
      var S := Found(db.seats, sc, ids);
      if |S| != |ids| then (db, Refused(NotFound))
      else if IsSegment(from, to) then LockSegment(db, sc, S, user, expires, from, to)
      else LockJourney(db, sc, S, user, expires)
  }

  // ----- unlockSeats -----

  /** The LOCKED rows that a release or a confirmation of this user and segment names. */
  function Named(rows: Rows, sc: ScheduleId, S: set<SeatId>, user: UserId, from: int, to: int): set<RowId> {
    set k | k in rows && k.seat in S && rows[k].sched == sc && rows[k].user == user
            && rows[k].from == from && rows[k].to == to && rows[k].status == Locked
  }

  function UnlockSegment(db: Db, sc: ScheduleId, S: set<SeatId>, user: UserId, from: int, to: int): (Db, Reply) {
    Settle(db.(rows := db.rows - Named(db.rows, sc, S, user, from, to)), sc, S)
  }

  function UnlockJourney(db: Db, sc: ScheduleId, S: set<SeatId>, user: UserId): (Db, Reply) {
    if !AllShow(db.seats, sc, S, Locked) then (db, Refused(Conflict))
    else if !AllHeldBy(db.seats, sc, S, user) then (db, Refused(Forbidden))
    else Shift(db, sc, S, ReleaseWhole, Locked, Available)
  }

  function UnlockSeats(db: Db, sc: ScheduleId, ids: seq<SeatId>, user: UserId, from: int, to: int): (Db, Reply) {
    if ids == [] then (db, Refused(BadRequest))
    else
      var S := Found(db.seats, sc, ids);
      if |S| != |ids| then (db, Refused(NotFound))
      else if IsSegment(from, to) then UnlockSegment(db, sc, S, user, from, to)
      else UnlockJourney(db, sc, S, user)
  }

  // ----- confirmSeats -----

  function BookRows(rows: Rows, hit: set<RowId>, booking: BookingId): Rows {
    map k | k in rows ::
      if k in hit then rows[k].(status := Booked, booking := Some(booking), expires := None) else rows[k]
  }

  function ConfirmSegment(db: Db, sc: ScheduleId, S: set<SeatId>, user: UserId, booking: BookingId,
                          from: int, to: int): (Db, Reply)
  {
    var hit := Named(db.rows, sc, S, user, from, to);
    if hit == {} then (db, Refused(Conflict))
    else Settle(db.(rows := BookRows(db.rows, hit, booking)), sc, S)
  }

  function ConfirmJourney(db: Db, sc: ScheduleId, S: set<SeatId>, user: UserId, booking: BookingId): (Db, Reply) {
    if !AllShow(db.seats, sc, S, Locked) then (db, Refused(Conflict))
    else if !AllHeldBy(db.seats, sc, S, user) then (db, Refused(Forbidden))
    else Shift(db, sc, S, BookWhole(booking), Locked, Booked)
  }

  function ConfirmSeats(db: Db, sc: ScheduleId, ids: seq<SeatId>, user: UserId, booking: BookingId,
                        from: int, to: int): (Db, Reply)
  {
    if ids == [] then (db, Refused(BadRequest))
    else
      var S := Found(db.seats, sc, ids);
      if |S| != |ids| then (db, Refused(NotFound))
      else if IsSegment(from, to) then ConfirmSegment(db, sc, S, user, booking, from, to)
      else ConfirmJourney(db, sc, S, user, booking)
  }

  // ----- cancelBooking -----

  /** The rows of this schedule that carry the booking's id. */
  function Carrying(rows: Rows, sc: ScheduleId, booking: BookingId): set<RowId> {
    set k | k in rows && rows[k].sched == sc && rows[k].booking == Some(booking)
  }

  function BookedSeatsOf(rows: Rows, sc: ScheduleId, booking: BookingId): set<SeatId> {
    set k | k in rows && rows[k].sched == sc && rows[k].booking == Some(booking)
            && rows[k].status == Booked :: k.seat
  }

  function BookedWhole(seats: Seats, sc: ScheduleId, booking: BookingId): set<SeatId> {
    set k | k in seats && k.sched == sc && seats[k].booking == Some(booking)
            && seats[k].status == Booked :: k.seat
  }

  function CancelBooking(db: Db, sc: ScheduleId, booking: BookingId): (Db, Reply) {
    var affected := BookedSeatsOf(db.rows, sc, booking);
    if affected != {} then
      Settle(db.(rows := db.rows - Carrying(db.rows, sc, booking)), sc, affected)
    else
      var S := BookedWhole(db.seats, sc, booking);
      if S == {} then (db, Refused(NotFound))
      else Shift(db, sc, S, Clear, Booked, Available)
  }

  // ----- schedule events -----

  function FreshSeats(sc: ScheduleId, ids: seq<SeatId>): Seats {
    map s | s in ids :: SeatKey(sc, s) := FREE
  }

  /** The distinct elements of a list. */
  function Members(ids: seq<SeatId>): set<SeatId> {
    set s | s in ids
  }

  /** SCHEDULE_CREATED. A schedule or a seat that is already there breaks a unique index. */
  function InitializeInventory(db: Db, sc: ScheduleId, ids: seq<SeatId>): Db {
    if ids == [] || ScheduleCreated(sc) in db.events then db
    else if sc in db.schedules || |Members(ids)| != |ids| then db
    else db.(schedules := db.schedules[sc := Schedule(true, |ids|, Counts(|ids|, 0, 0))],
             seats := db.seats + FreshSeats(sc, ids),
             events := db.events + {ScheduleCreated(sc)})
  }

  /** SCHEDULE_CANCELLED. */
  function CancelSchedule(db: Db, sc: ScheduleId): Db {
    if ScheduleCancelled(sc) in db.events || sc !in db.schedules then db
    else db.(schedules := db.schedules[sc := Schedule(false, db.schedules[sc].total, Counts(0, 0, 0))],
             seats := map k | k in db.seats ::
               if k.sched == sc then db.seats[k].(status := Cancelled) else db.seats[k],
             events := db.events + {ScheduleCancelled(sc)})
  }

  // ----- the statements of the lock-expiry job -----

  /** The predicate `lockExpiresAt < now` of SQL, which a NULL never meets. */
  predicate Before(expires: Option<int>, now: int) {
    expires.Some? && expires.value < now
  }

  function ExpiredRows(rows: Rows, now: int): set<RowId> {
    set k | k in rows && rows[k].status == Locked && Before(rows[k].expires, now)
  }

  function SeatsOfRows(rows: Rows, ids: set<RowId>): set<SeatKey> {
    set k | k in ids && k in rows :: SeatKey(rows[k].sched, k.seat)
  }

  /** Deletes by primary key alone: whatever the row has become since it was found. */
  function DeleteRows(db: Db, ids: set<RowId>): Db {
    db.(rows := db.rows - ids)
  }

  function ExpiredSeats(seats: Seats, now: int): set<SeatKey> {
    set k | k in seats && seats[k].status == Locked && Before(seats[k].expires, now)
  }

  /** The part of `keys` that belongs to one schedule. */
  function Group(keys: set<SeatKey>, sc: ScheduleId): set<SeatId> {
    set k | k in keys && k.sched == sc :: k.seat
  }

  /** Phase two's update: frees the listed seats that are LOCKED at this moment. */
  function FreeSeats(db: Db, sc: ScheduleId, S: set<SeatId>): Db {
    db.(seats := EditSeats(db.seats, sc, S, FreeIfLocked))
  }

  // ----- getSeats -----

  /** The segmentStatus == 'AVAILABLE' mark of getSeats for one seat. */
  predicate MarkedAvailable(db: Db, sc: ScheduleId, seat: SeatId, from: int, to: int)
    requires SeatKey(sc, seat) in db.seats
  {
    var status := db.seats[SeatKey(sc, seat)].status;
    && !Blocked(db.rows, sc, {seat}, from, to)
    && !((status == Booked || status == Locked) && !(exists k :: k in db.rows && IsFor(db.rows, k, sc, seat)))
  }
}
