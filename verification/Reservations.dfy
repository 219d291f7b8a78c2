/** The durable idempotency store: reservation files, the in-memory census of
    them, and what reserving, sweeping, trimming and settling do to both. */
module Reservations {

  // Times are nanoseconds.
  const SECOND := 1_000_000_000
  const KERNEL_TIMEOUT := 20 * SECOND
  const RESERVATION_TAKEOVER := 3 * KERNEL_TIMEOUT
  const PENDING_SWEEP_AFTER := 4 * RESERVATION_TAKEOVER
  const RESERVATION_TTL := 7 * 24 * 3600 * SECOND
  const MAX_RESERVATIONS := 512
  const MAX_PENDING_RESERVATIONS := 64

  datatype Option<+T> = None | Some(value: T)

  /** A device and one of its idempotency keys; also the name of the one file
      that reservation can live in. */
  datatype KeyRef = KeyRef(device: string, key: string)

  /** Every field that changes what a capture writes. The stored identity is a
      digest of exactly this, so the model uses the digested fields themselves. */
  datatype Payload = Payload(capturedAt: string, lane: string, intent: string, scope: string, text: string)

  datatype ReceiptState = Applied | Accepted | Rejected

  /** The bytes of one answer: a receipt with its own random id and times. */
  datatype Receipt = Receipt(receiptId: string, state: ReceiptState, memoryId: string, times: string)

  datatype RecordState = Pending | Settled

  datatype Record = Record(identity: Payload, memoryId: string, state: RecordState, reservedAt: int, expiresAt: int,
                           response: Option<Receipt>)

  /** Published timestamps keep whole seconds only. */
  function Stamp(t: int): (s: int)
    ensures t - SECOND < s <= t
  {
    t - t % SECOND
  }

  function NewRecord(identity: Payload, memoryId: string, now: int): Record {
    Record(identity, memoryId, Pending, Stamp(now), Stamp(now + RESERVATION_TTL), None)
  }

  predicate Collectable(r: Record, now: int) {
    now >= r.expiresAt || (r.state == Pending && now >= r.reservedAt + PENDING_SWEEP_AFTER)
  }

  predicate TakeoverDue(r: Record, now: int) {
    now >= r.reservedAt + RESERVATION_TAKEOVER
  }

  /** The files, and one process's census of them. */
  datatype Store = Store(disk: map<KeyRef, Record>, total: nat, pending: map<KeyRef, int>)

  /** A write may land and be reported, land and be reported as failed (the
      directory sync or mode check after the rename), or not land. */
  datatype Landing = Lands | Slips | Fails

  /** What the file system does during one operation: how the record write ends,
      and which files cannot be deleted. */
  datatype Faults = Faults(write: Landing, stuck: set<KeyRef>)

  datatype Outcome =
    | Replay(response: Receipt)
    | Conflict
    | InFlight
    | TooManyPending
    | WriteFailed
    | Claimed(record: Record, takenOver: bool)

  // -------------------------------------------------------- single operations

  function Minus(total: nat, n: nat): nat {
    if n <= total then total - n else 0
  }

  function Forget(s: Store, at: KeyRef): Store {
    s.(total := Minus(s.total, 1), pending := s.pending - {at})
  }

  function Stale(s: Store, now: int): set<KeyRef> {
    set at | at in s.pending && now >= s.pending[at] + PENDING_SWEEP_AFTER
  }

  function Sweep(s: Store, now: int, stuck: set<KeyRef>): Store {
    var stale := Stale(s, now);
    Store(s.disk - (stale - stuck), Minus(s.total, |stale|), s.pending - stale)
  }

  /** Settled files that trimming may take, the one just written aside. */
  function Trimmable(s: Store, keep: KeyRef, stuck: set<KeyRef>): set<KeyRef> {
    set at | at in s.disk && at != keep && s.disk[at].state == Settled && at !in stuck
  }

  function Excess(s: Store): nat {
    if s.total > MAX_RESERVATIONS && |s.disk| > MAX_RESERVATIONS then |s.disk| - MAX_RESERVATIONS else 0
  }

  /** `victims` is what one trim deletes: the oldest trimmable files, as many as
      the store is over its cap. Files of one age may go in either order. */
  ghost predicate TrimVictims(s: Store, keep: KeyRef, stuck: set<KeyRef>, victims: set<KeyRef>) {
    var open := Trimmable(s, keep, stuck);
    && victims <= open
    && |victims| == (if Excess(s) <= |open| then Excess(s) else |open|)
    && forall gone <- victims, stays <- open - victims :: s.disk[gone].reservedAt <= s.disk[stays].reservedAt
  }

  function Trim(s: Store, victims: set<KeyRef>): Store {
    Store(s.disk - victims, Minus(s.total, |victims|), s.pending - victims)
  }

  predicate Fresh(s: Store, at: KeyRef, now: int) {
    at !in s.disk || Collectable(s.disk[at], now)
  }

  /** The store once a fresh key has been made room for. */
  function Cleared(s: Store, at: KeyRef, now: int, stuck: set<KeyRef>): Store {
    var collected := if at in s.disk then Forget(s.(disk := s.disk - ({at} - stuck)), at) else s;
    Sweep(collected, now, stuck)
  }

  function Written(s: Store, at: KeyRef, r: Record, now: int, isNew: bool): Store {
    Store(s.disk[at := r], if isNew then s.total + 1 else s.total, s.pending[at := now])
  }

  /** The file after a write that was reported as failed: the census does not
      move, whether or not the record is there. */
  function Landed(s: Store, at: KeyRef, r: Record, write: Landing): Store {
    if write == Fails then s else s.(disk := s.disk[at := r])
  }

  /** The durable half of reserving a key, up to the trim that follows a write. */
  function Reserve(s: Store, at: KeyRef, identity: Payload, memoryId: string, now: int, faults: Faults): (Store, Outcome) {
    if Fresh(s, at, now) then
      var s1 := Cleared(s, at, now, faults.stuck);
      if |s1.pending| >= MAX_PENDING_RESERVATIONS then (s1, TooManyPending)
      else
        var r := NewRecord(identity, memoryId, now);
        if faults.write != Lands then (Landed(s1, at, r, faults.write), WriteFailed)
        else (Written(s1, at, r, now, true), Claimed(r, false))
    else
      var held := s.disk[at];
      if held.identity != identity then (s, Conflict)
      else if held.state == Settled && held.response.Some? then (s, Replay(held.response.value))
      else if !TakeoverDue(held, now) then (s, InFlight)
      else
        var r := NewRecord(identity, held.memoryId, now);
        if faults.write != Lands then (Landed(s, at, r, faults.write), WriteFailed)
        else (Written(s, at, r, now, false), Claimed(r, true))
  }

  function SettledRecord(r: Record, answer: Receipt): Record {
    r.(state := Settled, response := Some(answer))
  }

  function Settle(s: Store, at: KeyRef, r: Record, answer: Receipt): Store {
    s.(disk := s.disk[at := SettledRecord(r, answer)], pending := s.pending - {at})
  }

  /** Settling through a write that may fail. */
  function SettleBy(s: Store, at: KeyRef, r: Record, answer: Receipt, write: Landing): Store {
    if write == Lands then Settle(s, at, r, answer) else Landed(s, at, SettledRecord(r, answer), write)
  }

  /** A replay has a row to finish: one that is pending for this very capture. */
  predicate Unfinished(s: Store, at: KeyRef, identity: Payload) {
    at in s.disk && s.disk[at].state == Pending && s.disk[at].identity == identity
  }

  /** Finishes a pending row from bytes that are already durable elsewhere. */
  function SettleFromReplay(s: Store, at: KeyRef, identity: Payload, answer: Receipt, write: Landing): Store {
    if Unfinished(s, at, identity) then SettleBy(s, at, s.disk[at], answer, write) else s
  }

  function Kept(files: map<KeyRef, Record>, seen: set<KeyRef>, now: int): set<KeyRef> {
    set at | at in files && at in seen && !Collectable(files[at], now)
  }

  /** The store once a walk has looked at the files in `seen`. */
  function Counted(files: map<KeyRef, Record>, seen: set<KeyRef>, now: int, stuck: set<KeyRef>): Store {
    var kept := Kept(files, seen, now);
    Store(files - (seen - kept - stuck), |kept|, map at | at in kept && files[at].state == Pending :: files[at].reservedAt)
  }

  /** Opening a store: what may not be kept goes, the rest is counted. */
  function Open(files: map<KeyRef, Record>, now: int, stuck: set<KeyRef>): Store {
    Counted(files, files.Keys, now, stuck)
  }

  lemma CountOne(files: map<KeyRef, Record>, seen: set<KeyRef>, at: KeyRef, now: int, stuck: set<KeyRef>)
    requires at in files && at !in seen
    ensures Counted(files, seen + {at}, now, stuck) ==
            var s, r := Counted(files, seen, now, stuck), files[at];
            if Collectable(r, now) then (if at in stuck then s else s.(disk := s.disk - {at}))
            else Store(s.disk, s.total + 1, if r.state == Pending then s.pending[at := r.reservedAt] else s.pending)
  {
    var kept, more := Kept(files, seen, now), Kept(files, seen + {at}, now);
    hide Collectable;
    assert more == if Collectable(files[at], now) then kept else kept + {at};
    assert seen + {at} - more - stuck ==
           if Collectable(files[at], now) && at !in stuck then (seen - kept - stuck) + {at} else seen - kept - stuck;
  }

  lemma CountNone(files: map<KeyRef, Record>, now: int, stuck: set<KeyRef>)
    ensures Counted(files, {}, now, stuck) == Store(files, 0, map[])
  {
    assert Kept(files, {}, now) == {};
    assert files - ({} - {} - stuck) == files;
  }

  lemma MinusOne<K, V>(m: map<K, V>, gone: set<K>, x: K)
    ensures m - (gone + {x}) == m - gone - {x}
    ensures m - {} == m
  {
  }

  // ---------------------------------------------------------------- the class

  /** One process's store over the shared directory. */
  class ReservationStore {
    var disk: map<KeyRef, Record>
    var total: nat
    var pending: map<KeyRef, int>

    ghost function Value(): Store
      reads this
    {
      Store(disk, total, pending)
    }

    constructor (files: map<KeyRef, Record>, now: int, stuck: set<KeyRef>)
      ensures Value() == Open(files, now, stuck)
    {
      disk, total, pending := files, 0, map[];
      new;
      Census(now, stuck);
    }

    /** The one walk over the directory. */
    method Census(now: int, stuck: set<KeyRef>)
      modifies this
      ensures Value() == Open(old(disk), now, stuck)
    {
      hide Counted;
      ghost var files := disk;
      ghost var seen: set<KeyRef> := {};
      var rows := disk.Keys;
      total, pending := 0, map[];
      CountNone(files, now, stuck);
      while rows != {}
        invariant rows <= files.Keys && seen == files.Keys - rows
        invariant Value() == Counted(files, seen, now, stuck)
        invariant forall at <- rows :: at in disk && disk[at] == files[at]
        decreases |rows|
      {
        var at :| at in rows;
        CountOne(files, seen, at, now, stuck);
        rows, seen := rows - {at}, seen + {at};
        var r := disk[at];
        if Collectable(r, now) {
          if at !in stuck {
            disk := disk - {at};
          }
          continue;
        }
        total := total + 1;
        if r.state == Pending {
          pending := pending[at := r.reservedAt];
        }
      }
      assert seen == files.Keys;
    }

    /** Collects crashed claims by walking the pending set; answers how many
        live ones are left. */
    method SweepPending(now: int, stuck: set<KeyRef>) returns (live: nat)
      modifies this
      ensures Value() == Sweep(old(Value()), now, stuck) && live == |pending|
    {
      var stale := set at | at in pending && now >= pending[at] + PENDING_SWEEP_AFTER;
      assert stale == Stale(Value(), now);
      live := DropPending(stale);
      RemoveFiles(stale - stuck);
    }

    method DropPending(stale: set<KeyRef>) returns (live: nat)
      modifies this`pending, this`total
      ensures pending == old(pending) - stale && total == Minus(old(total), |stale|) && live == |pending|
    {
      var todo := stale;
      ghost var done: set<KeyRef>, n: nat := {}, 0;
      MinusOne(pending, {}, KeyRef("", ""));
      while todo != {}
        invariant done + todo == stale && n + |todo| == |stale|
        invariant pending == old(pending) - done && total == Minus(old(total), n)
        decreases |todo|
      {
        var at :| at in todo;
        MinusOne(old(pending), done, at);
        todo, done, n := todo - {at}, done + {at}, n + 1;
        pending := pending - {at};
        total := Minus(total, 1);
      }
      assert done == stale;
      live := |pending|;
    }

    method RemoveFiles(gone: set<KeyRef>)
      modifies this`disk
      ensures disk == old(disk) - gone
    {
      var todo := gone;
      ghost var done: set<KeyRef> := {};
      MinusOne(disk, {}, KeyRef("", ""));
      while todo != {}
        invariant todo <= gone && done == gone - todo && disk == old(disk) - done
        decreases |todo|
      {
        var at :| at in todo;
        MinusOne(old(disk), done, at);
        todo, done := todo - {at}, done + {at};
        disk := disk - {at};
      }
      assert done == gone;
    }

    /** Drops the oldest settled files once the store is over its total cap. */
    method TrimSettled(keep: KeyRef, stuck: set<KeyRef>) returns (ghost victims: set<KeyRef>)
      modifies this
      ensures TrimVictims(old(Value()), keep, stuck, victims)
      ensures Value() == Trim(old(Value()), victims)
    {
      victims := {};
      MinusOne(disk, {}, keep);
      MinusOne(pending, {}, keep);
      if total <= MAX_RESERVATIONS || |disk| <= MAX_RESERVATIONS {
        return;
      }
      ghost var before := Value();
      var open := set at | at in disk && at != keep && disk[at].state == Settled && at !in stuck;
      ghost var all := open;
      assert all == Trimmable(before, keep, stuck);
      victims := TakeOldest(open, |disk| - MAX_RESERVATIONS);
      assert |victims| == if Excess(before) <= |all| then Excess(before) else |all|;
    }

    method TakeOldest(all: set<KeyRef>, wanted: nat) returns (ghost victims: set<KeyRef>)
      requires all <= disk.Keys
      modifies this
      ensures victims <= all && |victims| == (if wanted <= |all| then wanted else |all|)
      ensures Value() == Trim(old(Value()), victims)
      ensures forall gone <- victims, stays <- all - victims :: old(disk)[gone].reservedAt <= old(disk)[stays].reservedAt
    {
      var open, excess := all, wanted;
      victims := {};
      ghost var before := disk;
      MinusOne(disk, {}, KeyRef("", ""));
      MinusOne(pending, {}, KeyRef("", ""));
      while excess > 0 && open != {}
        invariant victims <= all && open == all - victims && |victims| == wanted - excess && |open| == |all| - (wanted - excess)
        invariant disk == before - victims && pending == old(pending) - victims
        invariant total == Minus(old(total), wanted - excess) && 0 <= excess <= wanted
        invariant forall gone <- victims, stays <- open :: before[gone].reservedAt <= before[stays].reservedAt
        decreases |open|
      {
        var at := Oldest(open);
        MinusOne(before, victims, at);
        MinusOne(old(pending), victims, at);
        victims, open := victims + {at}, open - {at};
        disk := disk - {at};
        pending := pending - {at};
        total := Minus(total, 1);
        excess := excess - 1;
      }
    }

    method Oldest(among: set<KeyRef>) returns (at: KeyRef)
      requires among != {} && among <= disk.Keys
      ensures at in among && forall other <- among :: disk[at].reservedAt <= disk[other].reservedAt
    {
      at :| at in among;
      var rest := among - {at};
      while rest != {}
        invariant rest <= among && at in among
        invariant forall other <- among - rest :: disk[at].reservedAt <= disk[other].reservedAt
        decreases |rest|
      {
        var other :| other in rest;
        rest := rest - {other};
        if disk[other].reservedAt < disk[at].reservedAt {
          at := other;
        }
      }
    }

    /** Removes a record past its retention, and forgets it either way. */
    method Collect(at: KeyRef, stuck: set<KeyRef>)
      modifies this
      ensures Value() == Forget(old(Value()).(disk := old(disk) - ({at} - stuck)), at)
    {
      if at !in stuck {
        disk := disk - {at};
      }
      assert disk == old(disk) - ({at} - stuck);
      pending := pending - {at};
      if total > 0 {
        total := total - 1;
      }
    }

    /** Claims a key under the store's lock, then trims. */
    method ReserveOnDisk(at: KeyRef, identity: Payload, memoryId: string, now: int, faults: Faults)
      returns (outcome: Outcome, ghost victims: set<KeyRef>)
      modifies this
      ensures var (s, o) := Reserve(old(Value()), at, identity, memoryId, now, faults);
              && outcome == o
              && (o.Claimed? ==> TrimVictims(s, at, faults.stuck, victims) && Value() == Trim(s, victims))
              && (!o.Claimed? ==> victims == {} && Value() == s)
    {
      hide Sweep, TrimVictims, Trim, NewRecord, Forget;
      victims := {};
      var id, isNew, takenOver := memoryId, true, false;
      if at in disk {
        var existing := disk[at];
        if Collectable(existing, now) {
          Collect(at, faults.stuck);
        } else {
          if existing.identity != identity {
            return Conflict, {};
          }
          if existing.state == Settled && existing.response.Some? {
            return Replay(existing.response.value), {};
          }
          if !TakeoverDue(existing, now) {
            return InFlight, {};
          }
          id, isNew, takenOver := existing.memoryId, false, true;
        }
      }
      if isNew {
        var live := SweepPending(now, faults.stuck);
        assert Value() == Cleared(old(Value()), at, now, faults.stuck);
        if live >= MAX_PENDING_RESERVATIONS {
          return TooManyPending, {};
        }
      }
      var r := NewRecord(identity, id, now);
      if faults.write == Fails {
        return WriteFailed, {};
      }
      disk := disk[at := r];
      if faults.write == Slips {
        return WriteFailed, {};
      }
      if isNew {
        total := total + 1;
      }
      pending := pending[at := now];
      victims := TrimSettled(at, faults.stuck);
      outcome := Claimed(r, takenOver);
    }

    /** Stores the terminal answer for a held claim. */
    method SettleClaim(at: KeyRef, r: Record, answer: Receipt, write: Landing) returns (ok: bool)
      modifies this
      ensures ok <==> write == Lands
      ensures Value() == SettleBy(old(Value()), at, r, answer, write)
    {
      if write == Fails {
        return false;
      }
      disk := disk[at := SettledRecord(r, answer)];
      if write == Slips {
        return false;
      }
      pending := pending - {at};
      ok := true;
    }

    method SettleReplayed(at: KeyRef, identity: Payload, answer: Receipt, write: Landing) returns (ok: bool)
      modifies this
      ensures Value() == SettleFromReplay(old(Value()), at, identity, answer, write)
      ensures ok <==> write == Lands || !Unfinished(old(Value()), at, identity)
    {
      if at !in disk {
        return true;
      }
      var existing := disk[at];
      if existing.state == Settled || existing.identity != identity {
        return true;
      }
      ok := SettleClaim(at, existing, answer, write);
    }
  }
}
