/** The at-least-once event bus: one stream and one consumer group, any number of consumers, and
    a crash allowed between any two Redis commands. */
module StreamBus {
  datatype Option<+T> = None | Some(value: T)

  const MAX_RETRIES := 3
  const BATCH := 10

  type Id = nat
  type Consumer = nat

  /** The payload of a message: JSON that parses, or not. */
  datatype Body = Json(text: int) | Garbage

  /** An entry as a read or a claim returns it; a trimmed message comes without fields. */
  datatype Entry = Entry(id: Id, fields: Option<Body>)

  /** Why a message is acknowledged. */
  datatype Why = Gone | Handled | Buried

  /** Where a consumer stands with the first entry of its batch: before it, after a handler that
      threw, before the write to the dead-letter stream, before the acknowledgement. */
  datatype Pc = Ready | Asking | Burying | Acking(why: Why)

  datatype Worker = Worker(batch: seq<Entry>, pc: Pc)

  const RESTED := Worker([], Ready)

  /** `log` is everything published since the group exists, by position; `cursor` the group's
      position; `pending` its Pending Entries List and `count` the delivery counts; `handled`
      the messages whose handler has returned, `dead` those in the dead-letter stream. */
  datatype Bus = Bus(log: seq<Body>, trimmed: set<Id>, cursor: nat, pending: set<Id>, count: map<Id, nat>,
                     handled: set<Id>, dead: set<Id>, workers: map<Consumer, Worker>)

  const START := Bus([], {}, 0, {}, map[], {}, {}, map[])

  datatype Event =
    | Publish(body: Body)
    | Trim(id: Id)                       // MAXLEN
    | Read(w: Consumer, upto: nat)       // XREADGROUP >
    | Claim(w: Consumer, ids: seq<Id>)   // XAUTOCLAIM of messages that have been idle
    | Act(w: Consumer, ok: bool)         // the next command or handler call of a consumer, and whether it succeeds
    | Crash(w: Consumer)

  function WorkerOf(s: Bus, w: Consumer): Worker {
    if w in s.workers then s.workers[w] else RESTED
  }

  function Put(s: Bus, w: Consumer, worker: Worker): Bus {
    s.(workers := s.workers[w := worker])
  }

  /** What a read or a claim returns for this message. */
  function EntryOf(s: Bus, id: Id): Entry {
    if id in s.trimmed || id >= |s.log| then Entry(id, None) else Entry(id, Some(s.log[id]))
  }

  /** The messages from `from` up to `upto` that have not been trimmed. */
  function Fresh(trimmed: set<Id>, from: nat, upto: nat): seq<Id>
    decreases upto - from
  {
    if from >= upto then []
    else (if from in trimmed then [] else [from]) + Fresh(trimmed, from + 1, upto)
  }

  function Entries(s: Bus, ids: seq<Id>): seq<Entry> {
    seq(|ids|, i requires 0 <= i < |ids| => EntryOf(s, ids[i]))
  }

  function Members(ids: seq<Id>): set<Id> {
    set id | id in ids
  }

  function CountOf(s: Bus, id: Id): nat {
    if id in s.count then s.count[id] else 0
  }

  function Delivered(s: Bus, ids: seq<Id>): map<Id, nat> {
    map id | id in s.count.Keys + Members(ids) :: CountOf(s, id) + if id in ids then 1 else 0
  }

  function ReadStep(s: Bus, w: Consumer, upto: nat): Bus {
    var ids := Fresh(s.trimmed, s.cursor, upto);
    if WorkerOf(s, w) != RESTED || upto > |s.log| || upto < s.cursor || |ids| > BATCH then s
    else Put(s.(cursor := upto, pending := s.pending + Members(ids), count := Delivered(s, ids)), w,
             Worker(Entries(s, ids), Ready))
  }

  predicate Distinct(ids: seq<Id>) {
    forall i, j | 0 <= i < j < |ids| :: ids[i] != ids[j]
  }

  function ClaimStep(s: Bus, w: Consumer, ids: seq<Id>): Bus {
    if WorkerOf(s, w) != RESTED || |ids| > BATCH || !Distinct(ids) || !(Members(ids) <= s.pending) then s
    else Put(s.(count := Delivered(s, ids)), w, Worker(Entries(s, ids), Ready))
  }

  /** XPENDING's answer: the delivery count, or 1 when it fails or does not know the message. */
  function Deliveries(s: Bus, id: Id, answered: bool): nat {
    if answered && id in s.pending then CountOf(s, id) else 1
  }

  function Turn(worker: Worker, pc: Pc): Worker {
    worker.(pc := pc)
  }

  /** On to the next entry of the batch. */
  function Done(worker: Worker): Worker {
    if worker.batch == [] then RESTED else Worker(worker.batch[1..], Ready)
  }

  /** One command of handleEntry. An error outside the handler's try drops the rest of the batch. */
  function ActStep(s: Bus, w: Consumer, ok: bool): Bus {
    var k := WorkerOf(s, w);
    if k.batch == [] then s
    else
      var id := k.batch[0].id;
      match k.pc
      case Ready =>
        if k.batch[0].fields.None? then Put(s, w, Turn(k, Acking(Gone)))
        else if k.batch[0].fields.value.Garbage? then Put(s, w, Turn(k, Burying))
        else if ok then Put(s.(handled := s.handled + {id}), w, Turn(k, Acking(Handled)))
        else Put(s, w, Turn(k, Asking))
      case Asking =>
        if Deliveries(s, id, ok) >= MAX_RETRIES then Put(s, w, Turn(k, Burying)) else Put(s, w, Done(k))
      case Burying =>
        if ok then Put(s.(dead := s.dead + {id}), w, Turn(k, Acking(Buried))) else Put(s, w, RESTED)
      case Acking(why) =>
        if ok then Put(s.(pending := s.pending - {id}), w, Done(k))
        else if why == Handled then Put(s, w, Turn(k, Asking))
        else Put(s, w, RESTED)
  }

  function Next(s: Bus, e: Event): Bus {
    match e
    case Publish(body) => s.(log := s.log + [body])
    case Trim(id) => if id < |s.log| then s.(trimmed := s.trimmed + {id}) else s
    case Read(w, upto) => ReadStep(s, w, upto)
    case Claim(w, ids) => ClaimStep(s, w, ids)
    case Act(w, ok) => ActStep(s, w, ok)
    case Crash(w) => Put(s, w, RESTED)
  }

  function Run(s: Bus, es: seq<Event>): Bus
    decreases |es|
  {
    if es == [] then s else Run(Next(s, es[0]), es[1..])
  }

  // ----- no silent loss -----

  predicate Accounted(s: Bus, id: Id) {
    id in s.pending || id in s.handled || id in s.dead || id in s.trimmed
  }

  /** A message that parses is buried only when its deliveries are used up. */
  predicate Spent(s: Bus, id: Id) {
    id < |s.log| && (s.log[id].Garbage? || CountOf(s, id) >= MAX_RETRIES)
  }

  predicate EntryFits(s: Bus, e: Entry) {
    && e.id < s.cursor && CountOf(s, e.id) > 0
    && (if e.fields.None? then e.id in s.trimmed else e.id < |s.log| && s.log[e.id] == e.fields.value)
  }

  predicate WorkerFits(s: Bus, k: Worker) {
    && (forall i {:trigger k.batch[i]} | 0 <= i < |k.batch| :: EntryFits(s, k.batch[i]))
    && (k.pc != Ready ==> k.batch != [])
    && (k.pc == Asking || k.pc == Burying || k.pc == Acking(Handled) ==> k.batch[0].fields.Some?)
    && (k.pc == Acking(Gone) ==> k.batch[0].id in s.trimmed)
    && (k.pc == Acking(Handled) ==> k.batch[0].id in s.handled)
    && (k.pc == Acking(Buried) ==> k.batch[0].id in s.dead)
    && (k.pc == Burying ==> Spent(s, k.batch[0].id))
  }

  predicate Sound(s: Bus) {
    && s.cursor <= |s.log|
    && (forall id | 0 <= id < s.cursor :: Accounted(s, id))
    && (forall id | id in s.pending :: id < s.cursor && CountOf(s, id) > 0)
    && (forall id | id in s.dead :: Spent(s, id))
    && (forall w | w in s.workers :: WorkerFits(s, s.workers[w]))
  }

  /** What may happen to the tables while a consumer keeps its batch. */
  predicate Ages(s: Bus, s': Bus) {
    && s.log <= s'.log && s.trimmed <= s'.trimmed && s.cursor <= s'.cursor
    && s.handled <= s'.handled && s.dead <= s'.dead
    && forall id | id in s.count :: id in s'.count && s.count[id] <= s'.count[id]
  }

  lemma {:induction false} FitsWithAge(s: Bus, s': Bus, k: Worker)
    requires Ages(s, s') && WorkerFits(s, k)
    ensures WorkerFits(s', k)
  {
    forall i | 0 <= i < |k.batch| ensures EntryFits(s', k.batch[i]) { assert EntryFits(s, k.batch[i]); }
  }

  /** The frame: the tables age, and worker `w` alone turns to `k`. */
  lemma {:induction false} WorkersFit(s: Bus, s': Bus, w: Consumer, k: Worker)
    requires Sound(s) && Ages(s, s') && s'.workers == s.workers[w := k] && WorkerFits(s', k)
    ensures forall x | x in s'.workers :: WorkerFits(s', s'.workers[x])
  {
    forall x | x in s'.workers ensures WorkerFits(s', s'.workers[x]) {
      if x != w { FitsWithAge(s, s', s.workers[x]); }
    }
  }

  lemma {:induction false} FreshIs(trimmed: set<Id>, from: nat, upto: nat)
    ensures forall id :: id in Fresh(trimmed, from, upto) <==> from <= id < upto && id !in trimmed
    decreases upto - from
  {
    if from < upto { FreshIs(trimmed, from + 1, upto); }
  }

  lemma {:induction false} ReadIsSound(s: Bus, w: Consumer, upto: nat)
    requires Sound(s)
    ensures Sound(ReadStep(s, w, upto))
  {
    var s' := ReadStep(s, w, upto);
    if s' != s {
      FreshIs(s.trimmed, s.cursor, upto);
      var ids := Fresh(s.trimmed, s.cursor, upto);
      EntriesFit(s, s', ids);
      WorkersFit(s, s', w, Worker(Entries(s, ids), Ready));
      forall id | 0 <= id < s'.cursor ensures Accounted(s', id) {
        if id < s.cursor { assert Accounted(s, id); } else { assert id in ids || id in s.trimmed; }
      }
      forall id | id in s'.dead ensures Spent(s', id) { assert Spent(s, id); }
    }
  }

  lemma {:induction false} EntriesFit(s: Bus, s': Bus, ids: seq<Id>)
    requires s'.log == s.log && s'.trimmed == s.trimmed && s'.cursor <= |s.log| && s'.count == Delivered(s, ids)
    requires forall id | id in ids :: id < s'.cursor
    ensures WorkerFits(s', Worker(Entries(s, ids), Ready))
  {
    forall i | 0 <= i < |ids| ensures EntryFits(s', Entries(s, ids)[i]) { assert ids[i] in ids; }
  }

  lemma {:induction false} ClaimIsSound(s: Bus, w: Consumer, ids: seq<Id>)
    requires Sound(s)
    ensures Sound(ClaimStep(s, w, ids))
  {
    var s' := ClaimStep(s, w, ids);
    if s' != s {
      forall id | id in ids ensures id in s.pending { assert id in Members(ids); }
      EntriesFit(s, s', ids);
      WorkersFit(s, s', w, Worker(Entries(s, ids), Ready));
      forall id | 0 <= id < s'.cursor ensures Accounted(s', id) { assert Accounted(s, id); }
      forall id | id in s'.dead ensures Spent(s', id) { assert Spent(s, id); }
    }
  }

  /** The rest of a batch fits as the batch did. */
  lemma {:induction false} DoneFits(s: Bus, k: Worker)
    requires WorkerFits(s, k) && k.batch != []
    ensures WorkerFits(s, Done(k))
  {
    forall i | 0 <= i < |k.batch[1..]| ensures EntryFits(s, k.batch[1..][i]) { assert EntryFits(s, k.batch[i + 1]); }
  }

  /** An acknowledgement has its reason. */
  lemma {:induction false} AckedIsAccounted(s: Bus, k: Worker)
    requires WorkerFits(s, k) && k.pc.Acking?
    ensures k.batch != [] && (k.batch[0].id in s.trimmed || k.batch[0].id in s.handled || k.batch[0].id in s.dead)
  {
    match k.pc.why
    case Gone =>
    case Handled =>
    case Buried =>
  }

  lemma {:induction false} ActIsSound(s: Bus, w: Consumer, ok: bool)
    requires Sound(s)
    ensures Sound(ActStep(s, w, ok))
  {
    var s' := ActStep(s, w, ok);
    var k := WorkerOf(s, w);
    if k.batch != [] {
      assert WorkerFits(s, k) && EntryFits(s, k.batch[0]);
      if k.pc.Acking? { AckedIsAccounted(s, k); }
      ActFits(s, w, ok);
      WorkersFit(s, s', w, s'.workers[w]);
      forall id | 0 <= id < s'.cursor ensures Accounted(s', id) { assert Accounted(s, id); }
      forall id | id in s'.dead ensures Spent(s', id) { if id in s.dead { assert Spent(s, id); } }
    }
  }

  lemma {:induction false} ActFits(s: Bus, w: Consumer, ok: bool)
    requires w in s.workers && WorkerFits(s, s.workers[w]) && s.workers[w].batch != []
    ensures var s' := ActStep(s, w, ok);
            w in s'.workers && WorkerFits(s', s'.workers[w]) && Ages(s, s')
            && s'.workers == s.workers[w := s'.workers[w]]
  {
    var s' := ActStep(s, w, ok);
    var k := s.workers[w];
    assert EntryFits(s, k.batch[0]);
    FitsWithAge(s, s', k);
    DoneFits(s', k);
  }

  lemma {:induction false} OutsideIsSound(s: Bus, s': Bus)
    requires Sound(s) && Ages(s, s') && s'.workers == s.workers && s'.cursor == s.cursor
    requires s'.pending == s.pending && s'.dead == s.dead && s'.handled == s.handled && s'.count == s.count
    ensures Sound(s')
  {
    forall x | x in s'.workers ensures WorkerFits(s', s'.workers[x]) { FitsWithAge(s, s', s.workers[x]); }
    forall id | 0 <= id < s'.cursor ensures Accounted(s', id) { assert Accounted(s, id); }
    forall id | id in s'.dead ensures Spent(s', id) { assert Spent(s, id); }
  }

  lemma {:induction false} NextIsSound(s: Bus, e: Event)
    requires Sound(s)
    ensures Sound(Next(s, e))
  {
    match e
    case Publish(_) => OutsideIsSound(s, Next(s, e));
    case Trim(_) => OutsideIsSound(s, Next(s, e));
    case Read(w, upto) => ReadIsSound(s, w, upto);
    case Claim(w, ids) => ClaimIsSound(s, w, ids);
    case Act(w, ok) => ActIsSound(s, w, ok);
    case Crash(w) =>
      var s' := Next(s, e);
      WorkersFit(s, s', w, RESTED);
      forall id | 0 <= id < s'.cursor ensures Accounted(s', id) { assert Accounted(s, id); }
      forall id | id in s'.dead ensures Spent(s', id) { assert Spent(s, id); }
  }

  lemma {:induction false} RunIsSound(s: Bus, es: seq<Event>)
    requires Sound(s)
    ensures Sound(Run(s, es))
    decreases |es|
  {
    if es != [] {
      NextIsSound(s, es[0]);
      RunIsSound(Next(s, es[0]), es[1..]);
    }
  }

  /** No silent loss: in every run, with crashes and failed commands anywhere, each message the
      group's cursor has passed is still pending, was handled, is in the dead-letter stream, or
      was trimmed; and the dead-letter stream holds only garbage and messages that were delivered
      at least three times. */
  lemma {:induction false} NothingIsLost(es: seq<Event>, id: Id)
    requires id < Run(START, es).cursor
    ensures Accounted(Run(START, es), id)
    ensures id in Run(START, es).dead ==> Spent(Run(START, es), id)
  {
    RunIsSound(START, es);
  }

  // ----- reads and claims -----

  lemma {:induction false} FreshAscends(trimmed: set<Id>, from: nat, upto: nat, i: nat, j: nat)
    requires i < j < |Fresh(trimmed, from, upto)|
    ensures Fresh(trimmed, from, upto)[i] < Fresh(trimmed, from, upto)[j]
    decreases upto - from
  {
    var rest := Fresh(trimmed, from + 1, upto);
    FreshIs(trimmed, from + 1, upto);
    if from in trimmed {
      FreshAscends(trimmed, from + 1, upto, i, j);
    } else if i == 0 {
      assert rest[j - 1] in rest;
    } else {
      FreshAscends(trimmed, from + 1, upto, i - 1, j - 1);
    }
  }

  /** The entry of a message that is there comes with its body, that of a trimmed one without. */
  predicate Carries(s: Bus, e: Entry) {
    e.id < |s.log| && e.fields == (if e.id in s.trimmed then None else Some(s.log[e.id]))
  }

  /** A read by a consumer at rest hands out what is new and not trimmed, each message once, in order
      and with its body, and makes it pending. */
  lemma {:induction false} ReadHandsOut(s: Bus, w: Consumer, upto: nat)
    requires WorkerOf(s, w) == RESTED && s.cursor <= upto <= |s.log|
    requires |Fresh(s.trimmed, s.cursor, upto)| <= 10
    ensures var s' := Next(s, Read(w, upto));
            var batch := WorkerOf(s', w).batch;
            && WorkerOf(s', w).pc == Ready && s'.cursor == upto
            && s' == s.(cursor := upto, pending := s'.pending, count := s'.count, workers := s'.workers)
            && (forall i | 0 <= i < |batch| :: Carries(s, batch[i]) && batch[i].id in s'.pending)
            && (forall i, j | 0 <= i < j < |batch| :: batch[i].id < batch[j].id)
            && (forall id: Id :: InBatch(WorkerOf(s', w), id) <==> s.cursor <= id < upto && id !in s.trimmed)
            && (forall id: Id :: id in s'.pending <==> id in s.pending || InBatch(WorkerOf(s', w), id))
  {
    var ids := Fresh(s.trimmed, s.cursor, upto);
    FreshIs(s.trimmed, s.cursor, upto);
    forall i, j | 0 <= i < j < |ids| ensures ids[i] < ids[j] { FreshAscends(s.trimmed, s.cursor, upto, i, j); }
    forall id: Id ensures InBatch(Worker(Entries(s, ids), Ready), id) <==> id in ids { BatchHas(s, ids, id); }
    forall i | 0 <= i < |ids| ensures ids[i] in ids && Entries(s, ids)[i].id == ids[i] {}
  }

  /** A claim of pending messages hands out exactly those, in its order, and moves nothing else. */
  lemma {:induction false} ClaimHandsOut(s: Bus, w: Consumer, ids: seq<Id>)
    requires WorkerOf(s, w) == RESTED && |ids| <= 10 && Distinct(ids) && forall id | id in ids :: id in s.pending
    requires forall id | id in s.pending :: id < |s.log|
    ensures var s' := Next(s, Claim(w, ids));
            var batch := WorkerOf(s', w).batch;
            && WorkerOf(s', w).pc == Ready && s' == s.(count := s'.count, workers := s'.workers) && |batch| == |ids|
            && forall i | 0 <= i < |batch| :: batch[i].id == ids[i] && Carries(s, batch[i])
  {
    assert Members(ids) <= s.pending;
    forall i | 0 <= i < |ids| ensures ids[i] in ids && ids[i] < |s.log| {}
  }

  predicate NoBigBatch(s: Bus) {
    forall w | w in s.workers :: |s.workers[w].batch| <= 10
  }

  lemma {:induction false} BatchesStaySmall(s: Bus, es: seq<Event>)
    requires NoBigBatch(s)
    ensures NoBigBatch(Run(s, es))
    decreases |es|
  {
    if es != [] {
      assert NoBigBatch(Next(s, es[0]));
      BatchesStaySmall(Next(s, es[0]), es[1..]);
    }
  }

  /** In every run no consumer has more than ten messages in hand. */
  lemma {:induction false} NoBatchPassesTen(es: seq<Event>, w: Consumer)
    ensures |WorkerOf(Run(START, es), w).batch| <= 10
  {
    BatchesStaySmall(START, es);
  }

  // ----- a failing message is retired -----

  /** How many more deliveries the message has before an answered failure retires it. */
  function Patience(s: Bus, id: Id): nat {
    if CountOf(s, id) < MAX_RETRIES then MAX_RETRIES - CountOf(s, id) else 0
  }

  predicate InBatch(k: Worker, id: Id) {
    exists i :: 0 <= i < |k.batch| && k.batch[i].id == id
  }

  /** This read or claim returns the message to its consumer. */
  predicate HandsOut(s: Bus, e: Event, id: Id) {
    (e.Read? || e.Claim?) && WorkerOf(s, e.w) == RESTED && InBatch(WorkerOf(Next(s, e), e.w), id)
  }

  /** How often reads and claims return the message in this run. */
  function HandedOut(s: Bus, es: seq<Event>, id: Id): nat
    decreases |es|
  {
    if es == [] then 0 else (if HandsOut(s, es[0], id) then 1 else 0) + HandedOut(Next(s, es[0]), es[1..], id)
  }

  lemma {:induction false} BatchHas(s: Bus, ids: seq<Id>, id: Id)
    ensures InBatch(Worker(Entries(s, ids), Ready), id) <==> id in ids
  {
    var k := Worker(Entries(s, ids), Ready);
    if id in ids {
      var i :| 0 <= i < |ids| && ids[i] == id;
      assert k.batch[i].id == id;
    }
  }

  lemma {:induction false} StepCounts(s: Bus, e: Event, id: Id)
    ensures CountOf(Next(s, e), id) == CountOf(s, id) + if HandsOut(s, e, id) then 1 else 0
  {
    if e.Read? {
      BatchHas(s, Fresh(s.trimmed, s.cursor, e.upto), id);
    } else if e.Claim? {
      BatchHas(s, e.ids, id);
    } else {
      assert Next(s, e).count == s.count;
    }
  }

  /** The delivery count is what its name says: in every run, with crashes and failed commands
      anywhere, it grows by one with each read or claim that returns the message, and with nothing else. */
  lemma {:induction false} CountIsDeliveries(s: Bus, es: seq<Event>, id: Id)
    ensures CountOf(Run(s, es), id) == CountOf(s, id) + HandedOut(s, es, id)
    decreases |es|
  {
    if es != [] {
      StepCounts(s, es[0], id);
      CountIsDeliveries(Next(s, es[0]), es[1..], id);
    }
  }

  /** The measure: every claim that returns a message uses up one of its deliveries. */
  lemma {:induction false} ClaimUsesPatience(s: Bus, w: Consumer, ids: seq<Id>, id: Id)
    requires id in ids && WorkerOf(s, w) == RESTED && |ids| <= BATCH && Distinct(ids) && Members(ids) <= s.pending
    ensures var s' := Next(s, Claim(w, ids));
            && CountOf(s', id) == CountOf(s, id) + 1
            && (Patience(s, id) > 0 ==> Patience(s', id) == Patience(s, id) - 1)
            && HandsOut(s, Claim(w, ids), id)
  {
    BatchHas(s, ids, id);
  }

  /** No step of consumer `w`. */
  predicate Others(es: seq<Event>, w: Consumer) {
    forall e | e in es :: (e.Read? || e.Claim? || e.Act? || e.Crash?) ==> e.w != w
  }

  lemma {:induction false} OthersLeaveAlone(s: Bus, es: seq<Event>, w: Consumer)
    requires Others(es, w)
    ensures WorkerOf(Run(s, es), w) == WorkerOf(s, w)
    decreases |es|
  {
    if es != [] {
      assert es[0] in es;
      assert WorkerOf(Next(s, es[0]), w) == WorkerOf(s, w);
      forall e | e in es[1..] ensures e in es {}
      OthersLeaveAlone(Next(s, es[0]), es[1..], w);
    }
  }

  lemma {:induction false} DeadStaysDead(s: Bus, es: seq<Event>, id: Id)
    requires id in s.dead
    ensures id in Run(s, es).dead
    decreases |es|
  {
    if es != [] {
      assert id in Next(s, es[0]).dead;
      DeadStaysDead(Next(s, es[0]), es[1..], id);
    }
  }

  /** Retirement: a failure of a pending message that has no patience left, when XPENDING answers,
      is not left for a retry: the consumer writes the message to the dead-letter stream and then
      acknowledges it, whatever the other consumers do between those commands. While it has
      patience left, the message stays pending, and by ClaimUsesPatience its next delivery has less. */
  lemma {:induction false} FailureRetiresIff(s: Bus, w: Consumer, es1: seq<Event>, es2: seq<Event>)
    requires WorkerOf(s, w).pc == Asking && WorkerOf(s, w).batch != [] && WorkerOf(s, w).batch[0].id in s.pending
    requires Others(es1, w) && Others(es2, w)
    ensures var id := WorkerOf(s, w).batch[0].id;
            var s1 := Next(s, Act(w, true));
            && (WorkerOf(s1, w).pc == Burying <==> Patience(s, id) == 0)
            && (Patience(s, id) > 0 ==> id in s1.pending)
            && (Patience(s, id) == 0 ==>
                  var s2 := Next(Run(s1, es1), Act(w, true));
                  var s3 := Next(Run(s2, es2), Act(w, true));
                  id in s3.dead && id !in s3.pending)
  {
    var k := WorkerOf(s, w);
    var id := k.batch[0].id;
    var s1 := Next(s, Act(w, true));
    if Patience(s, id) == 0 {
      assert WorkerOf(s1, w) == Turn(k, Burying);
      OthersLeaveAlone(s1, es1, w);
      var s2 := Next(Run(s1, es1), Act(w, true));
      assert id in s2.dead && WorkerOf(s2, w) == Turn(k, Acking(Buried));
      OthersLeaveAlone(s2, es2, w);
      DeadStaysDead(s2, es2, id);
    }
  }

  /** Over whole runs: a consumer whose handler has failed, and whom XPENDING answers, goes on to
      bury the message exactly when it has been delivered three times, to whichever consumers. */
  lemma {:induction false} ThirdFailureRetires(es: seq<Event>, w: Consumer, es1: seq<Event>, es2: seq<Event>)
    requires var s := Run(START, es);
             WorkerOf(s, w).pc == Asking && WorkerOf(s, w).batch != [] && WorkerOf(s, w).batch[0].id in s.pending
    requires Others(es1, w) && Others(es2, w)
    ensures var s := Run(START, es);
            var id := WorkerOf(s, w).batch[0].id;
            var s1 := Next(s, Act(w, true));
            && HandedOut(START, es, id) > 0
            && (HandedOut(START, es, id) < 3 <==> WorkerOf(s1, w).pc != Burying)
            && (HandedOut(START, es, id) < 3 ==> id in s1.pending)
            && (HandedOut(START, es, id) >= 3 ==>
                  var s2 := Next(Run(s1, es1), Act(w, true));
                  var s3 := Next(Run(s2, es2), Act(w, true));
                  id in s3.dead && id !in s3.pending)
  {
    var s := Run(START, es);
    var id := WorkerOf(s, w).batch[0].id;
    RunIsSound(START, es);
    CountIsDeliveries(START, es, id);
    FailureRetiresIff(s, w, es1, es2);
  }

  // ----- the consumer's code -----

  /** Fields as Redis returns them, key and value in turn; a key without a value maps to None. */
  method FieldsToObject(fields: seq<string>) returns (obj: map<string, Option<string>>)
    ensures obj == ObjectOf(fields)
  {
    obj := map[];
    var i := 0;
    while i < |fields|
      invariant 0 <= i <= |fields| + 1 && i % 2 == 0
      invariant obj == ObjectOf(fields[..if i <= |fields| then i else |fields|])
    {
      var value := if i + 1 < |fields| then Some(fields[i + 1]) else None;
      ObjectStep(fields, i);
      obj := obj[fields[i] := value];
      i := i + 2;
    }
    assert fields[..|fields|] == fields;
  }

  function ObjectOf(fields: seq<string>): map<string, Option<string>> {
    if fields == [] then map[]
    else if |fields| % 2 == 1 then ObjectOf(fields[..|fields| - 1])[fields[|fields| - 1] := None]
    else ObjectOf(fields[..|fields| - 2])[fields[|fields| - 2] := Some(fields[|fields| - 1])]
  }

  /** Key number `i` of the list, and what stands beside it. */
  predicate IsPair(fields: seq<string>, i: nat, key: string, value: Option<string>) {
    && i < |fields| && i % 2 == 0 && fields[i] == key
    && value == if i + 1 < |fields| then Some(fields[i + 1]) else None
  }

  /** The object has exactly the keys of the list, each with what stands beside its last mention. */
  lemma {:induction false} LastPairWins(fields: seq<string>, key: string)
    ensures key in ObjectOf(fields) <==> exists i :: 0 <= i < |fields| && i % 2 == 0 && fields[i] == key
    ensures key in ObjectOf(fields) ==>
      exists i: nat :: IsPair(fields, i, key, ObjectOf(fields)[key])
                       && forall j | i < j < |fields| && j % 2 == 0 :: fields[j] != key
  {
    if fields != [] {
      var n := if |fields| % 2 == 1 then |fields| - 1 else |fields| - 2;
      LastPairWins(fields[..n], key);
      if fields[n] == key {
        assert IsPair(fields, n, key, ObjectOf(fields)[key]);
      } else if key in ObjectOf(fields[..n]) {
        var i: nat :| IsPair(fields[..n], i, key, ObjectOf(fields[..n])[key])
          && forall j | i < j < n && j % 2 == 0 :: fields[..n][j] != key;
        assert IsPair(fields, i, key, ObjectOf(fields)[key]);
        forall j | i < j < |fields| && j % 2 == 0 ensures fields[j] != key {
          if j < n { assert fields[..n][j] != key; } else { assert j == n; }
        }
      }
    }
  }

  lemma {:induction false} ObjectStep(fields: seq<string>, i: nat)
    requires i < |fields| && i % 2 == 0
    ensures ObjectOf(fields[..if i + 2 <= |fields| then i + 2 else |fields|])
         == ObjectOf(fields[..i])[fields[i] := if i + 1 < |fields| then Some(fields[i + 1]) else None]
  {
    if i + 1 < |fields| {
      assert fields[..i + 2][..i] == fields[..i];
    } else {
      assert fields[..|fields|][..i] == fields[..i];
    }
  }

  /** A message published as ['data', json] comes back as its `data` field. */
  lemma {:induction false} DataComesBack(json: string)
    ensures ObjectOf(["data", json]) == map["data" := Some(json)]
  {
    assert ["data", json][..0] == [];
  }

  /** How the commands of one handleEntry turn out, in the order in which it may give them. */
  datatype Luck = Luck(handler: bool, ack: bool, pending: bool, bury: bool, ackBuried: bool)

  class Group {
    var bus: Bus

    ghost predicate Valid()
      reads this
    {
      Sound(bus)
    }

    constructor ()
      ensures bus == START && Valid()
    {
      bus := START;
    }

    /** One command of consumer `w`. */
    method Command(w: Consumer, ok: bool)
      requires Valid()
      modifies this
      ensures Valid() && bus == Next(old(bus), Act(w, ok))
    {
      NextIsSound(bus, Act(w, ok));
      bus := ActStep(bus, w, ok);
    }

    /** handleEntry for the first entry of the consumer's batch; `threw` says whether an error
        left it and took the rest of the batch along. */
    method HandleEntry(w: Consumer, luck: Luck) returns (threw: bool)
      requires Valid() && AtEntry(bus, w)
      modifies this
      ensures Valid() && Moved(old(bus), bus, w, luck, threw)
      ensures threw ==> !Succeeds(WorkerOf(old(bus), w).batch[0], luck)
    {
      var e := WorkerOf(bus, w).batch[0];
      if e.fields.None? {
        threw := AckTombstone(w, luck);
      } else if e.fields.value.Garbage? {
        Command(w, true);
        threw := Bury(w, luck);
      } else {
        threw := Deliver(w, luck);
      }
    }

    /** The loop over the entries of one read or claim, as `at` says: `at[i]` is what the first `i`
        leave. Only an error that leaves handleEntry ends it before the last. */
    method HandleBatch(w: Consumer, luck: nat -> Luck) returns (handled: nat, threw: bool, ghost at: seq<Bus>)
      requires Valid() && WorkerOf(bus, w).pc == Ready
      modifies this
      ensures Valid() && Ages(old(bus), bus) && WorkerOf(bus, w) == RESTED
      ensures handled + (if threw then 1 else 0) <= |WorkerOf(old(bus), w).batch|
      ensures !threw ==> handled == |WorkerOf(old(bus), w).batch|
      ensures Handling(old(bus), at, bus, w, luck, handled, threw)
      ensures forall i | 0 <= i < handled && Succeeds(WorkerOf(old(bus), w).batch[i], luck(i)) ::
        WorkerOf(old(bus), w).batch[i].id in bus.handled
    {
      ghost var batch := WorkerOf(bus, w).batch;
      handled, threw, at := 0, false, [bus];
      while WorkerOf(bus, w).batch != []
        invariant Valid() && Ages(old(bus), bus) && handled <= |batch| && !threw
        invariant WorkerOf(bus, w).pc == Ready && WorkerOf(bus, w).batch == batch[handled..]
        invariant Handling(old(bus), at, bus, w, luck, handled, false)
        invariant forall i | 0 <= i < handled && Succeeds(batch[i], luck(i)) :: batch[i].id in bus.handled
        decreases |batch| - handled
      {
        ghost var before := bus;
        threw := HandleEntry(w, luck(handled));
        HandlingOneMore(old(bus), at, before, bus, w, luck, handled, threw);
        at := at + [bus];
        if threw { return; }
        handled := handled + 1;
      }
    }

    method AckTombstone(w: Consumer, luck: Luck) returns (threw: bool)
      requires Valid() && AtEntry(bus, w) && WorkerOf(bus, w).batch[0].fields.None?
      modifies this
      ensures Valid() && Moved(old(bus), bus, w, luck, threw)
    {
      Command(w, true);
      Command(w, luck.ack);
      threw := !luck.ack;
    }

    /** The handler and what follows it. */
    method Deliver(w: Consumer, luck: Luck) returns (threw: bool)
      requires Valid() && AtEntry(bus, w)
      requires WorkerOf(bus, w).batch[0].fields.Some? && WorkerOf(bus, w).batch[0].fields.value.Json?
      modifies this
      ensures Valid() && Moved(old(bus), bus, w, luck, threw)
      ensures threw ==> !Succeeds(WorkerOf(old(bus), w).batch[0], luck)
    {
      threw := false;
      Command(w, luck.handler);
      if luck.handler {
        Command(w, luck.ack);
        if luck.ack { return; }
      }
      threw := Fail(w, luck);
    }

    /** The catch block: count the deliveries, then retire the message or leave it pending. */
    method Fail(w: Consumer, luck: Luck) returns (threw: bool)
      requires Valid() && WorkerOf(bus, w).pc == Asking && WorkerOf(bus, w).batch != []
      modifies this
      ensures Valid() && Ages(old(bus), bus)
      ensures WorkerOf(bus, w) == if threw then RESTED else Done(WorkerOf(old(bus), w))
      ensures var id := WorkerOf(old(bus), w).batch[0].id;
              var retire := CountUsedUp(old(bus), id, luck);
              && threw == (retire && !(luck.bury && luck.ackBuried))
              && bus.dead == old(bus).dead + (if retire && luck.bury then {id} else {})
              && bus.pending == old(bus).pending - (if retire && luck.bury && luck.ackBuried then {id} else {})
              && bus.handled == old(bus).handled && bus.count == old(bus).count
    {
      threw := false;
      var deliveries := Deliveries(bus, WorkerOf(bus, w).batch[0].id, luck.pending);
      Command(w, luck.pending);
      if deliveries >= MAX_RETRIES { threw := Bury(w, luck); }
    }

    /** XADD to the dead-letter stream, then XACK. */
    method Bury(w: Consumer, luck: Luck) returns (threw: bool)
      requires Valid() && WorkerOf(bus, w).pc == Burying && WorkerOf(bus, w).batch != []
      modifies this
      ensures Valid() && Ages(old(bus), bus) && threw == !(luck.bury && luck.ackBuried)
      ensures WorkerOf(bus, w) == if threw then RESTED else Done(WorkerOf(old(bus), w))
      ensures var id := WorkerOf(old(bus), w).batch[0].id;
              && bus.dead == old(bus).dead + (if luck.bury then {id} else {})
              && bus.pending == old(bus).pending - (if threw then {} else {id})
              && bus.handled == old(bus).handled && bus.count == old(bus).count
    {
      Command(w, luck.bury);
      if !luck.bury { return true; }
      Command(w, luck.ackBuried);
      threw := !luck.ackBuried;
    }
  }

  /** Consumer `w` is about to handle an entry. */
  predicate AtEntry(s: Bus, w: Consumer) {
    WorkerOf(s, w).pc == Ready && WorkerOf(s, w).batch != []
  }

  predicate Moved(s: Bus, s': Bus, w: Consumer, luck: Luck, threw: bool) {
    && WorkerOf(s, w).batch != [] && Ages(s, s') && Settled(s, s', WorkerOf(s, w).batch[0], luck)
    && WorkerOf(s', w) == (if threw then RESTED else Worker(WorkerOf(s, w).batch[1..], Ready))
    && threw == Throws(s, WorkerOf(s, w).batch[0], luck)
  }

  /** An error leaves handleEntry: the acknowledgement of a trimmed message fails, or a message is to be
      retired and one of the two commands for it fails. */
  predicate Throws(s: Bus, e: Entry, luck: Luck) {
    if e.fields.None? then !luck.ack
    else if e.fields.value.Json? && ((luck.handler && luck.ack) || !(CountUsedUp(s, e.id, luck))) then false
    else !luck.bury || !luck.ackBuried
  }

  /** XPENDING answers that the message has been delivered three times. */
  predicate CountUsedUp(s: Bus, id: Id, luck: Luck) {
    luck.pending && id in s.pending && CountOf(s, id) >= 3
  }

  /** `at` goes from `s` to `s'` by handling `n` entries, and one more if that threw. */
  predicate Handling(s: Bus, at: seq<Bus>, s': Bus, w: Consumer, luck: nat -> Luck, n: nat, threw: bool) {
    && |at| == n + (if threw then 2 else 1) && at[0] == s && at[|at| - 1] == s'
    && forall i | 0 <= i < |at| - 1 :: Moved(at[i], at[i + 1], w, luck(i), i == n)
  }

  lemma {:induction false} HandlingOneMore(s: Bus, at: seq<Bus>, s1: Bus, s': Bus, w: Consumer, luck: nat -> Luck,
      n: nat, threw: bool)
    requires Handling(s, at, s1, w, luck, n, false) && Moved(s1, s', w, luck(n), threw)
    ensures Handling(s, at + [s'], s', w, luck, if threw then n else n + 1, threw)
  {
  }

  predicate Succeeds(e: Entry, luck: Luck) {
    e.fields.Some? && e.fields.value.Json? && luck.handler && luck.ack
  }

  /** The outcome of a handleEntry that nothing disturbs: a trimmed or handled message is
      acknowledged; garbage, and a failure with no patience left, goes to the dead-letter stream
      and is then acknowledged; any other failure stays pending. */
  predicate Settled(s: Bus, s': Bus, e: Entry, luck: Luck) {
    var garbage := e.fields.Some? && e.fields.value.Garbage?;
    var failed := e.fields.Some? && !garbage && !(luck.handler && luck.ack);
    var retire := garbage || (failed && CountUsedUp(s, e.id, luck));
    && s'.handled == s.handled + (if e.fields.Some? && !garbage && luck.handler then {e.id} else {})
    && s'.dead == s.dead + (if retire && luck.bury then {e.id} else {})
    && s'.pending == s.pending - (if retire then (if luck.bury && luck.ackBuried then {e.id} else {})
                                  else if failed || !luck.ack then {} else {e.id})
  }
}
