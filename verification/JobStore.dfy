/**
 The durable job store (control/store.go, control/worker_jobs.go): a table of job
 rows kept in step with its journal file. Each method is one mutex-held section.
 */
module JobStore {
  import opened Basics
  import opened Jobs
  import opened Journal

  /** How the write and sync of one line end: all of it on disk, or an error after some of it. */
  datatype IO = Done | Broken(written: nat)

  datatype Worker = Worker(id: string, owner: Option<Owner>)

  /** No active job of the table uses the resource. */
  predicate IdleResource(jobs: map<string, Job>, resource: string) {
    forall id :: id in jobs && Active(jobs[id].state) ==> jobs[id].sinkResource != resource
  }

  predicate Eligible(jobs: map<string, Job>, id: string, now: Time) {
    id in jobs && Hosted(jobs[id]) && Due(jobs[id], now) && IdleResource(jobs, jobs[id].sinkResource)
  }

  predicate Mine(j: Job, w: Worker) {
    j.spec.workerID == w.id && j.owner == w.owner
  }

  /** The worker already executes a job under an unexpired lease. */
  predicate Engaged(jobs: map<string, Job>, w: Worker, now: Time) {
    exists id :: id in jobs && Mine(jobs[id], w) && Leased(jobs[id], now)
  }

  predicate WorkerEligible(jobs: map<string, Job>, w: Worker, id: string, now: Time) {
    id in jobs && Mine(jobs[id], w) && Claimable(jobs[id], now)
  }

  /** A row submitted with this key by this owner. */
  predicate Submitted(j: Job, key: string, owner: Option<Owner>) {
    j.idempotencyKey == key && j.owner == owner
  }

  predicate SameRequest(j: Job, spec: Spec, sourceFP: string, sinkFP: string) {
    j.spec == spec && j.sourceFP == sourceFP && j.sinkFP == sinkFP
  }

  /** The key was used before, for something else. */
  predicate OtherRequest(jobs: map<string, Job>, k: string, spec: Spec, sourceFP: string, sinkFP: string,
                         key: string, owner: Option<Owner>) {
    k in jobs && Submitted(jobs[k], key, owner) && !SameRequest(jobs[k], spec, sourceFP, sinkFP)
  }

  // ---- the one row a call may write ----

  /** A call writes its row, or fails to and poisons the store with it, or has none; a poisoned store changes no more. */
  predicate Outcome(before: map<string, Job>, after: map<string, Job>, poison: bool, poison': bool,
                    attempt: Option<Job>, attempt': Option<Job>, row: Option<Job>) {
    if poison then poison' && attempt' == attempt && after == before
    else if poison' then row.Some? && attempt' == row && after == before
    else after == before || (row.Some? && after == before[row.value.id := row.value])
  }

  function UpdateRow(jobs: map<string, Job>, id: string, change: Job -> Result<Job, Error>): Option<Job> {
    if id in jobs && change(jobs[id]).Ok? then Some(change(jobs[id]).value) else None
  }

  function ActionRow(jobs: map<string, Job>, id: string, op: Operator): Option<Job> {
    if id in jobs && ActionJob(jobs[id], op).Ok? then Some(ActionJob(jobs[id], op).value) else None
  }

  /** A new row, unless its key was used before by the same owner. */
  function CreateRow(jobs: map<string, Job>, j: Job): Option<Job> {
    if j.idempotencyKey != "" && exists k :: k in jobs && Submitted(jobs[k], j.idempotencyKey, j.owner) then None else Some(j)
  }

  predicate ClaimRow(jobs: map<string, Job>, now: Time, row: Option<Job>) {
    row.Some? ==> Eligible(jobs, row.value.id, now) && row.value == ClaimedJob(jobs[row.value.id])
  }

  predicate AssignRow(jobs: map<string, Job>, w: Worker, approved: bool, lease: string, now: Time, row: Option<Job>) {
    row.Some? ==>
      && Oldest(jobs, w, row.value.id, now)
      && row.value == if approved then LeasedJob(jobs[row.value.id], lease, now) else PolicyFailedJob(jobs[row.value.id])
  }

  function ReportRow(jobs: map<string, Job>, w: Worker, id: string, r: Report, now: Time): Option<Job> {
    if WellFormed(r) && id in jobs && Mine(jobs[id], w) && ReportedJob(jobs[id], r, now).Ok? then Some(ReportedJob(jobs[id], r, now).value)
    else None
  }

  /** The journal entry of a row: the row itself and an event that agrees with it; a canceled row is always so named. */
  predicate Receipt(e: Entry, j: Job, kind: string, digest: string, sequence: int) {
    && e.job == j && e.event.jobID == j.id && e.event.records == j.records && e.event.digest == digest
    && e.event.kind == (if j.state == Canceled then "canceled" else kind) && e.event.sequence == sequence
  }

  /** The entry that append writes for a row: the next number, the last hash, its own hash. */
  function NewEntry(c: Codec, t: Table, j: Job, kind: string, digest: string): Entry {
    var draft := Entry(Event(t.sequence + 1, j.id, if j.state == Canceled then "canceled" else kind, j.records, digest, t.hash, ""), j);
    draft.(event := draft.event.(hash := EntryHash(c, draft)))
  }

  lemma NewEntryFollows(c: Codec, t: Table, j: Job, kind: string, digest: string)
    ensures var e := NewEntry(c, t, j, kind, digest); Follows(c, t, e) && Receipt(e, j, kind, digest, t.sequence + 1)
  {
    var e := NewEntry(c, t, j, kind, digest);
    assert e.event.(hash := "").hash == "";
  }

  // ---- what contracts say of a row ----

  /** The worker executes the job under an unexpired lease. */
  predicate Keeps(j: Job, w: Worker, now: Time) {
    && j.spec.workerID == w.id && j.owner == w.owner
    && (j.state == Running || j.state == CancelRequested) && j.leaseUntil.Some? && now < j.leaseUntil.value
  }

  /** The worker may be given the job: queued, due again, or left without a live lease. */
  predicate OpenTo(j: Job, w: Worker, now: Time) {
    && j.spec.workerID == w.id && j.owner == w.owner
    && (|| j.state == Queued
        || (j.state == RetryWait && j.nextRunAt.Some? && j.nextRunAt.value <= now)
        || ((j.state == Running || j.state == CancelRequested) && (j.leaseUntil.None? || j.leaseUntil.value <= now)))
  }

  /** A hosted job whose time has come. */
  predicate DueHosted(j: Job, now: Time) {
    j.spec.workerID == "" && (j.state == Queued || (j.state == RetryWait && j.nextRunAt.Some? && j.nextRunAt.value <= now))
  }

  /** No running or canceling job, of a worker or hosted, writes to the resource. */
  predicate Unused(jobs: map<string, Job>, resource: string) {
    forall id :: id in jobs && jobs[id].sinkResource == resource ==> jobs[id].state != Running && jobs[id].state != CancelRequested
  }

  /** What a restart makes of a row: a running hosted job is queued, one being canceled is canceled, any other is kept. */
  predicate Restarted(j: Job, k: Job) {
    if j.spec.workerID != "" then k == j
    else if j.state == Running then k == j.(state := Queued)
    else if j.state == CancelRequested then k == j.(state := Canceled)
    else k == j
  }

  /** The row of a new lease: 60 seconds, and a cancel request stands. */
  predicate Granted(j: Job, k: Job, lease: string, now: Time) {
    k == j.(state := if j.state == CancelRequested then CancelRequested else Running, phase := Starting, runs := j.runs + 1,
            reportSequence := 0, nextRunAt := None, error := Blank, leaseID := lease, leaseUntil := Some(now + 60000))
  }

  /** The assignment tells what the row says, the lease and whether to cancel. */
  predicate Tells(a: Assignment, j: Job, lease: string, now: Time) {
    && a == Assignment(j.id, j.spec, lease, now + 60000, j.generation, j.records, j.batches,
                       j.lastCheckpointAt.Some?, j.sourceFP, j.sinkFP, a.cancelRequested)
    && (a.cancelRequested <==> j.state == CancelRequested)
  }

  /** A report is taken under the lease of the row while it lives, once, in order, and takes no progress back. */
  predicate Takes(j: Job, r: Report, now: Time) {
    && (j.state == Running || j.state == CancelRequested)
    && j.leaseID == r.leaseID && j.leaseUntil.Some? && now < j.leaseUntil.value && j.reportSequence < r.sequence
    && j.records <= r.records && j.batches <= r.batches && (j.records < r.records ==> r.checkpoint)
  }

  lemma ReportEffect(j: Job, r: Report, now: Time)
    ensures ReportedJob(j, r, now).Ok? <==> Takes(j, r, now)
    ensures Takes(j, r, now) ==> Taken(j, ReportedJob(j, r, now).value, r, now)
    ensures Takes(j, r, now) && j.state == Running ==> ReportedJob(j, r, now).value.state == r.state
    ensures Takes(j, r, now) && j.state == CancelRequested ==>
      ReportedJob(j, r, now).value.state == if r.state == Running || r.state == CancelRequested then CancelRequested else Canceled
  {
  }

  /** The row that an accepted report leaves, up to its state: progress, lease and schedule. */
  predicate Taken(j: Job, k: Job, r: Report, now: Time) {
    && k == j.(state := k.state, phase := r.phase, records := r.records, batches := r.batches, retries := r.retries,
               restarts := r.restarts, reportSequence := r.sequence, lastCheckpointAt := k.lastCheckpointAt,
               error := k.error, nextRunAt := k.nextRunAt, leaseID := k.leaseID, leaseUntil := k.leaseUntil)
    && k.lastCheckpointAt == (if r.checkpoint && (j.lastCheckpointAt == None || j.records < r.records || j.batches < r.batches)
                              then Some(now) else j.lastCheckpointAt)
    && k.error == (match r.failure case NoFailure => Blank case PolicyFailure => WorkerPolicy
                                   case CheckpointFailure => WorkerCheckpoint case TransferFailure => WorkerTransfer)
    && k.nextRunAt == (if k.state == RetryWait then Some(now + 1000 * (if r.retryAfter < 1 then 1 else r.retryAfter)) else None)
    && (k.leaseID, k.leaseUntil) == (if k.state == Running || k.state == CancelRequested then (j.leaseID, Some(now + 60000)) else ("", None))
  }

  class Store {
    const codec: Codec
    var file: string
    var jobs: map<string, Job>
    var sequence: int
    var hash: string
    var poison: bool
    // The row whose line failed to reach the disk, once the store is poisoned.
    ghost var attempt: Option<Job>

    function State(): Table
      reads this
    {
      Table(jobs, sequence, hash)
    }

    /** Memory agrees with the file; after a failed write the file may end in part of one more line. */
    ghost predicate Valid()
      reads this
    {
      && GoodCodec(codec)
      && (forall id :: id in jobs ==> jobs[id].id == id)
      && (!poison ==> Replaying(codec, EMPTY, file) == Replayed(State(), |file|))
      && (poison ==> attempt.Some? && exists base, e, cut :: InFlight(base, e, cut))
    }

    ghost predicate InFlight(base: string, e: Entry, cut: nat)
      reads this
    {
      && Replaying(codec, EMPTY, base) == Replayed(State(), |base|)
      && Follows(codec, State(), e) && cut <= |Line(codec, e)|
      && file == base + Line(codec, e)[..cut] && attempt == Some(e.job)
    }

    /** The journal holds one entry more than before: the receipt of this row. */
    ghost predicate Logged(before: string, j: Job, kind: string, digest: string)
      reads this
    {
      exists e :: Receipt(e, j, kind, digest, sequence) && Decoded(codec, file) == Decoded(codec, before) + [e]
    }

    constructor (codec: Codec, file: string)
      ensures this.codec == codec && this.file == file && !poison && State() == EMPTY
    {
      this.codec, this.file := codec, file;
      jobs, sequence, hash, poison, attempt := map[], 0, "", false, None;
    }

    /** Store.replay: rebuilds the table, cuts off an unfinished last line, refuses a broken chain. */
    method Load() returns (ok: bool)
      requires GoodCodec(codec) && State() == EMPTY && !poison
      modifies this
      ensures ok <==> Replaying(codec, EMPTY, old(file)).Replayed?
      ensures ok <==> LineByLine(codec, old(file)) && Linked(codec, Decoded(codec, old(file)))
      ensures ok ==> Valid() && !poison
      ensures ok ==> CutBack(Replaying(codec, EMPTY, old(file)), old(file))
      ensures !ok ==> file == old(file)
    {
      var offset: nat := 0;
      var more := true;
      ok := true;
      LoadStart(codec, file);
      AcceptedIff(codec, file);
      while more
        invariant file == old(file) && !poison
        invariant forall id :: id in jobs ==> jobs[id].id == id
        invariant ok ==> LoadInv(codec, file, offset, State())
        invariant ok && !more ==> Newline(file[offset..]) == |file| - offset
        invariant !ok ==> !more && Replaying(codec, EMPTY, file).Corrupt?
        decreases more, |file| - offset
      {
        offset, more, ok := LoadLine(offset);
      }
      if ok {
        LoadEnd(codec, file, offset, State());
        file := file[..offset];
      }
    }

    predicate CutBack(r: Replay, before: string)
      reads this
    {
      r.Replayed? && r.table == State() && r.length <= |before| && file == before[..r.length]
    }

    /** One pass of the loop of replay. */
    method LoadLine(offset: nat) returns (next: nat, more: bool, ok: bool)
      requires LoadInv(codec, file, offset, State()) && forall id :: id in jobs ==> jobs[id].id == id
      modifies this
      ensures file == old(file) && poison == old(poison) && forall id :: id in jobs ==> jobs[id].id == id
      ensures ok ==> LoadInv(codec, file, next, State())
      ensures ok && more ==> offset < next
      ensures ok && !more ==> next == offset && Newline(file[offset..]) == |file| - offset
      ensures !ok ==> !more && Replaying(codec, EMPTY, file).Corrupt?
    {
      var n := Newline(file[offset..]);
      if offset + n == |file| {
        return offset, false, true;
      }
      var line := file[offset..offset + n];
      var parsed := codec.decode(line);
      if parsed.None? || !Follows(codec, State(), parsed.value) {
        LoadBroken(codec, file, offset, State(), n);
        return offset, false, false;
      }
      LoadGoesOn(codec, file, offset, State(), n);
      Accept(parsed.value);
      return offset + n + 1, true, true;
    }

    /** An entry that follows becomes part of the table. */
    method Accept(e: Entry)
      modifies `jobs, `sequence, `hash
      ensures State() == Applied(old(State()), e)
    {
      jobs := jobs[e.job.id := e.job];
      sequence, hash := e.event.sequence, e.event.hash;
    }

    /** Store.append: one line, written and synced, then the table; a failure poisons the store. */
    method Append(j: Job, kind: string, digest: string, io: IO) returns (failed: bool)
      requires Valid()
      modifies this
      ensures Valid()
      ensures failed <==> old(poison) || io.Broken?
      ensures poison <==> failed
      ensures failed ==> State() == old(State())
      ensures !failed ==> jobs == old(jobs)[j.id := j] && sequence == old(sequence) + 1 && old(file) <= file
      ensures Outcome(old(jobs), jobs, old(poison), poison, old(attempt), attempt, Some(j))
      ensures !failed ==> Logged(old(file), j, kind, digest)
    {
      if poison {
        return true;
      }
      var e := NewEntry(codec, State(), j, kind, digest);
      NewEntryFollows(codec, State(), j, kind, digest);
      var line := Line(codec, e);
      if io.Broken? {
        Break(e, Min(io.written, |line|));
        return true;
      }
      ghost var t := State();
      LineWritten(codec, file, t, e);
      file := file + line;
      Accept(e);
      return false;
    }

    /** A write or sync that fails after some of the line: the store is poisoned. */
    method Break(e: Entry, cut: nat)
      requires Valid() && !poison && Follows(codec, State(), e) && cut <= |Line(codec, e)|
      modifies this
      ensures Valid() && poison && attempt == Some(e.job) && State() == old(State())
    {
      ghost var base := file;
      file := file + Line(codec, e)[..cut];
      poison, attempt := true, Some(e.job);
      assert InFlight(base, e, cut);
    }

    /** Store.Update: the closure decides; nothing is written when it refuses. */
    method Update(id: string, kind: string, digest: string, change: Job -> Result<Job, Error>, io: IO)
      returns (r: Result<Job, Error>)
      requires Valid() && forall j :: change(j).Ok? ==> change(j).value.id == j.id
      modifies this
      ensures Valid()
      ensures r.Err? ==> State() == old(State())
      ensures id !in old(jobs) ==> r == Err(NotFound)
      ensures id in old(jobs) && change(old(jobs)[id]).Err? ==> r == Err(change(old(jobs)[id]).error)
      ensures id in old(jobs) && change(old(jobs)[id]).Ok? ==>
        if old(poison) || io.Broken? then r == Err(StoreFailed)
        else r == change(old(jobs)[id]) && jobs == old(jobs)[id := r.value]
      ensures r == Err(StoreFailed) && (forall j :: change(j) != Err(StoreFailed)) ==> poison
      ensures r.Ok? ==> Logged(old(file), r.value, kind, digest)
      ensures r.Ok? ==> !poison
      ensures Outcome(old(jobs), jobs, old(poison), poison, old(attempt), attempt, UpdateRow(old(jobs), id, change))
    {
      if id !in jobs {
        return Err(NotFound);
      }
      var changed := change(jobs[id]);
      if changed.Err? {
        return Err(changed.error);
      }
      var failed := Append(changed.value, kind, digest, io);
      if failed {
        return Err(StoreFailed);
      }
      return Ok(jobs[id]);
    }

    /** Engine.Action: the new row of a cancel and of a resume, field by field, and when each conflicts. */
    method Action(id: string, op: Operator, io: IO) returns (r: Result<Job, Error>)
      requires Valid()
      modifies this
      ensures Valid()
      ensures r.Err? ==> State() == old(State())
      ensures r.Ok? ==> id in old(jobs) && r == ActionJob(old(jobs)[id], op) && jobs == old(jobs)[id := r.value]
      ensures id in old(jobs) && ActionJob(old(jobs)[id], op).Ok? && !old(poison) && io.Done? ==> r.Ok?
      ensures r.Ok? ==> Logged(old(file), r.value, if op == Cancel then "cancel" else "resume", "")
      ensures r.Ok? && op == Cancel ==> var j := old(jobs)[id];
        if j.state == Running || j.state == CancelRequested then r.value == j.(state := CancelRequested)
        else (j.state == Queued || j.state == RetryWait) && r.value == j.(state := Canceled, phase := NoPhase, nextRunAt := None, error := Blank)
      ensures r.Ok? && op == Resume ==> var j := old(jobs)[id];
        (j.state == Failed || j.state == Canceled || j.state == RetryWait) && r.value.generation == j.generation + if j.spec.workerID == "" then 0 else 1
      ensures r.Ok? && op == Resume && old(jobs)[id].spec.workerID != "" ==> r.value.leaseID == "" && r.value.leaseUntil == None && r.value.reportSequence == 0
      ensures r.Ok? && op == Resume ==> var j, k := old(jobs)[id], r.value;
        k == j.(state := Queued, phase := NoPhase, nextRunAt := None, restarts := 0, error := Blank,
                generation := k.generation, leaseID := k.leaseID, leaseUntil := k.leaseUntil, reportSequence := k.reportSequence)
      ensures r.Ok? && op == Resume && old(jobs)[id].spec.workerID == "" ==> var j := old(jobs)[id];
        r.value.leaseID == j.leaseID && r.value.leaseUntil == j.leaseUntil && r.value.reportSequence == j.reportSequence
      ensures id in old(jobs) && !old(poison) && io.Done? ==> var state := old(jobs)[id].state;
        r == Err(Conflict) <==> if op == Cancel then state == Canceled || state == Succeeded || state == Failed
                                else state == Queued || state == Running || state == CancelRequested || state == Succeeded
      ensures Outcome(old(jobs), jobs, old(poison), poison, old(attempt), attempt, ActionRow(old(jobs), id, op))
    {
      r := Update(id, if op == Cancel then "cancel" else "resume", "", j => ActionJob(j, op), io);
    }

    /** Store.Create: an earlier submission with the same key is returned, or conflicts. */
    method Create(id: string, spec: Spec, sourceFP: string, sinkFP: string, resource: string,
                  key: string, owner: Option<Owner>, now: Time, io: IO)
      returns (r: Result<Job, Error>, created: bool)
      requires Valid() && id !in jobs
      modifies this
      ensures Valid()
      ensures !created ==> State() == old(State())
      ensures created ==> r == Ok(NewJob(id, spec, owner, now, key, sourceFP, sinkFP, resource))
      ensures created ==> jobs == old(jobs)[id := r.value] && var j := r.value;
        && j.id == id && j.spec == spec && j.owner == owner && j.createdAt == now && j.idempotencyKey == key
        && j.sourceFP == sourceFP && j.sinkFP == sinkFP && j.sinkResource == resource
        && j.state == Queued && j.phase == NoPhase && j.error == Blank && j.cursor == "" && !j.sourceExhausted
        && j.records == 0 && j.batches == 0 && j.retries == 0 && j.runs == 0 && j.restarts == 0 && j.generation == 0
        && j.lastCheckpointAt == None && j.nextRunAt == None && j.leaseID == "" && j.leaseUntil == None && j.reportSequence == 0
      ensures created && key != "" ==> forall k :: k in old(jobs) ==> !Submitted(old(jobs)[k], key, owner)
      ensures created ==> Logged(old(file), r.value, "submitted", "")
      ensures !created && r.Ok? ==> r.value.id in old(jobs) && old(jobs)[r.value.id] == r.value
      ensures !created && r.Ok? ==> Submitted(r.value, key, owner) && SameRequest(r.value, spec, sourceFP, sinkFP)
      ensures !created && r.Ok? ==> var j := r.value;
        j.idempotencyKey == key && j.owner == owner && j.spec == spec && j.sourceFP == sourceFP && j.sinkFP == sinkFP
      ensures r == Err(Conflict) ==> exists k :: OtherRequest(old(jobs), k, spec, sourceFP, sinkFP, key, owner)
      ensures r == Err(Conflict) ==> key != "" && exists k :: k in old(jobs) && var j := old(jobs)[k];
        j.idempotencyKey == key && j.owner == owner && (j.spec != spec || j.sourceFP != sourceFP || j.sinkFP != sinkFP)
      ensures created && key != "" ==> forall k :: k in old(jobs) ==> old(jobs)[k].idempotencyKey != key || old(jobs)[k].owner != owner
      ensures Outcome(old(jobs), jobs, old(poison), poison, old(attempt), attempt, CreateRow(old(jobs), NewJob(id, spec, owner, now, key, sourceFP, sinkFP, resource)))
      ensures !old(poison) && io.Done? && !created ==> key != ""
      ensures !old(poison) && io.Done? && !created ==> exists k :: k in old(jobs) && Submitted(old(jobs)[k], key, owner)
    {
      if poison {
        return Err(StoreFailed), false;
      }
      if key != "" {
        var rest := jobs.Keys;
        while rest != {}
          invariant rest <= jobs.Keys && State() == old(State()) && Valid() && !poison
          invariant forall k :: k in jobs && k !in rest ==> !Submitted(jobs[k], key, owner)
          decreases |rest|
        {
          var k :| k in rest;
          if Submitted(jobs[k], key, owner) {
            if !SameRequest(jobs[k], spec, sourceFP, sinkFP) {
              assert OtherRequest(jobs, k, spec, sourceFP, sinkFP, key, owner);
              return Err(Conflict), false;
            }
            return Ok(jobs[k]), false;
          }
          rest := rest - {k};
        }
      }
      var j := NewJob(id, spec, owner, now, key, sourceFP, sinkFP, resource);
      var failed := Append(j, "submitted", "", io);
      if failed {
        return Err(StoreFailed), false;
      }
      return Ok(j), true;
    }

    /** Store.Claim: the oldest eligible hosted job becomes running. */
    method Claim(now: Time, io: IO) returns (picked: Option<Job>, failed: bool)
      requires Valid()
      modifies this
      ensures Valid()
      ensures picked.None? ==> State() == old(State())
      ensures picked.Some? ==> !failed && var id := picked.value.id;
        && Eligible(old(jobs), id, now)
        && (forall k :: Eligible(old(jobs), k, now) ==> old(jobs)[id].createdAt <= old(jobs)[k].createdAt)
        && picked.value == ClaimedJob(old(jobs)[id]) && jobs == old(jobs)[id := picked.value]
      ensures picked.Some? ==> var j := old(jobs)[picked.value.id];
        && DueHosted(j, now) && Unused(old(jobs), j.sinkResource)
        && picked.value == j.(state := Running, phase := Starting, nextRunAt := None, runs := j.runs + 1, error := Blank)
        && forall k :: k in old(jobs) && DueHosted(old(jobs)[k], now) && Unused(old(jobs), old(jobs)[k].sinkResource) ==> j.createdAt <= old(jobs)[k].createdAt
      ensures !failed && picked.None? ==> forall k :: k in jobs && DueHosted(jobs[k], now) ==> !Unused(jobs, jobs[k].sinkResource)
      ensures picked.Some? ==> Logged(old(file), picked.value, "started", "")
      ensures !failed && picked.None? ==> forall k :: !Eligible(old(jobs), k, now)
      ensures exists row :: ClaimRow(old(jobs), now, row) && Outcome(old(jobs), jobs, old(poison), poison, old(attempt), attempt, row)
      ensures !old(poison) && io.Done? ==> !failed
    {
      assert ClaimRow(jobs, now, None);
      if poison {
        return None, true;
      }
      var busy := BusyResources(jobs);
      var pick := PickHosted(jobs, busy, now);
      if pick.None? {
        return None, false;
      }
      assert ClaimRow(jobs, now, Some(ClaimedJob(pick.value)));
      failed := Append(ClaimedJob(pick.value), "started", "", io);
      if failed {
        return None, true;
      }
      return Some(ClaimedJob(pick.value)), false;
    }

    /** Store.Events: the first events of a job after a sequence number, read from the journal itself. */
    method Events(id: string, after: int, limit: int) returns (r: Result<seq<Event>, Error>)
      requires Valid()
      ensures id !in jobs ==> r == Err(NotFound)
      ensures id in jobs ==> r == Ok(FirstOf(Filtered(Decoded(codec, file), id, after), limit))
      ensures r.Ok? ==> r.value <= Filtered(Decoded(codec, file), id, after)
      ensures r.Ok? ==> |r.value| == if limit < 0 then 0 else Min(limit, |Filtered(Decoded(codec, file), id, after)|)
    {
      if id !in jobs {
        return Err(NotFound);
      }
      LinesDecode();
      var events := ReadEvents(codec, file, id, after, limit);
      return Ok(events);
    }

    lemma LinesDecode()
      requires Valid()
      ensures LineByLine(codec, file)
    {
      if poison {
        var base, e, cut :| InFlight(base, e, cut);
        AppendRefinement(codec, base, State(), e, cut);
      }
      ReplayedLines(codec, EMPTY, file);
    }

    /** Store.Recover: after a restart, interrupted hosted jobs are requeued or canceled. */
    method Recover(io: nat -> IO) returns (failed: bool)
      requires Valid()
      modifies this
      ensures Valid()
      ensures !failed ==> RecoveredExcept(old(jobs), jobs, {})
      ensures jobs.Keys == old(jobs).Keys
      ensures forall id :: id in old(jobs) ==> Restarted(old(jobs)[id], jobs[id]) || (failed && jobs[id] == old(jobs)[id])
      ensures failed ==> poison && exists rest :: RecoveredExcept(old(jobs), jobs, rest)
      ensures poison && !old(poison) ==> attempt.Some? && RecoveryOf(jobs, attempt.value)
      ensures old(poison) ==> poison && attempt == old(attempt) && jobs == old(jobs)
    {
      ghost var before := jobs;
      var rest, n := jobs.Keys, 0;
      while rest != {}
        invariant Valid() && RecoveredExcept(before, jobs, rest)
        invariant poison == old(poison) && (old(poison) ==> attempt == old(attempt) && jobs == old(jobs))
        decreases |rest|
      {
        var id :| id in rest;
        ghost var earlier := jobs;
        var failed' := RecoverOne(id, io(n));
        if failed' {
          AllRestarted(before, jobs, rest);
          return true;
        }
        RecoveredNext(before, earlier, jobs, rest, id);
        rest := rest - {id};
        n := n + 1;
      }
      AllRestarted(before, jobs, {});
      return false;
    }

    /** The pass of the loop of Recover for one job. */
    method RecoverOne(id: string, io: IO) returns (failed: bool)
      requires Valid() && id in jobs
      modifies this
      ensures Valid()
      ensures failed ==> jobs == old(jobs)
      ensures !failed ==> jobs == old(jobs)[id := RecoveredRow(old(jobs)[id])]
      ensures poison <==> failed || old(poison)
      ensures failed && !old(poison) ==> attempt.Some? && RecoveryOf(jobs, attempt.value)
      ensures old(poison) ==> attempt == old(attempt) && jobs == old(jobs)
    {
      if !Interrupted(jobs[id]) {
        assert jobs == jobs[id := jobs[id]];
        return false;
      }
      var r := Update(id, "recovered", "", j => Ok(RecoveredJob(j)), io);
      return r.Err?;
    }

    /**
     Store.ClaimWorker: no job while the worker is engaged; otherwise its oldest
     claimable job, leased, or failed when the worker's policy no longer covers it.
     */
    method ClaimWorker(w: Worker, approved: bool, lease: string, now: Time, io: IO)
      returns (a: Option<Assignment>, failed: bool)
      requires Valid()
      modifies this
      ensures Valid()
      ensures !old(poison) && io.Done? ==> !failed
      ensures failed ==> a.None? && State() == old(State())
      ensures a.Some? ==> Oldest(old(jobs), w, a.value.id, now) && approved
      ensures exists row :: AssignRow(old(jobs), w, approved, lease, now, row) && Outcome(old(jobs), jobs, old(poison), poison, old(attempt), attempt, row)
      ensures a.Some? ==> var j := LeasedJob(old(jobs)[a.value.id], lease, now);
        jobs == old(jobs)[a.value.id := j] && a.value == AssignmentOf(j)
      ensures a.Some? ==> a.value.id in old(jobs) && a.value.id in jobs && var j := old(jobs)[a.value.id];
        OpenTo(j, w, now) && Granted(j, jobs[a.value.id], lease, now) && Tells(a.value, j, lease, now)
      ensures a.Some? ==> Logged(old(file), jobs[a.value.id], "worker_leased", "")
      ensures a.Some? ==> forall id :: id in old(jobs) ==> !Keeps(old(jobs)[id], w, now)
      ensures a.Some? ==> forall id :: id in old(jobs) && OpenTo(old(jobs)[id], w, now) ==> old(jobs)[a.value.id].createdAt <= old(jobs)[id].createdAt
      ensures !failed && a.None? && jobs != old(jobs) ==> !approved && exists id :: id in old(jobs) && var j := old(jobs)[id];
        OpenTo(j, w, now) && jobs == old(jobs)[id := j.(state := Failed, error := PolicyChanged, leaseID := "", leaseUntil := None)]
      ensures !failed && a.None? && approved ==>
        (exists id :: id in jobs && Keeps(jobs[id], w, now)) || (forall id :: id in jobs ==> !OpenTo(jobs[id], w, now))
      ensures !failed && a.None? ==>
        || (jobs == old(jobs) && (Engaged(jobs, w, now) || forall id :: !WorkerEligible(jobs, w, id, now)))
        || (!approved && exists id :: Oldest(old(jobs), w, id, now) && jobs == old(jobs)[id := PolicyFailedJob(old(jobs)[id])])
    {
      assert AssignRow(jobs, w, approved, lease, now, None);
      if poison {
        return None, true;
      }
      var engaged, pick := PickWorker(jobs, w, now);
      if engaged || pick.None? {
        return None, false;
      }
      assert Oldest(jobs, w, pick.value.id, now);
      if !approved {
        assert AssignRow(jobs, w, approved, lease, now, Some(PolicyFailedJob(pick.value)));
        failed := Append(PolicyFailedJob(pick.value), "failed", "", io);
        return None, failed;
      }
      var j := LeasedJob(pick.value, lease, now);
      assert AssignRow(jobs, w, approved, lease, now, Some(j));
      failed := Append(j, "worker_leased", "", io);
      if failed {
        return None, true;
      }
      return Some(AssignmentOf(j)), false;
    }

    /**
     Store.ReportWorker: exactly when a report is taken, and the row it leaves, field
     by field. A cancel request outlives every report: an active worker keeps it,
     any other report cancels the job.
     */
    method ReportWorker(w: Worker, id: string, r: Report, now: Time, io: IO) returns (result: Result<Job, Error>)
      requires Valid()
      modifies this
      ensures Valid()
      ensures result.Err? ==> State() == old(State())
      ensures result.Ok? ==> WellFormed(r) && id in old(jobs) && Mine(old(jobs)[id], w)
      ensures result.Ok? ==> old(jobs)[id].spec.workerID == w.id && old(jobs)[id].owner == w.owner
      ensures result.Ok? ==> 1 <= r.sequence && 0 <= r.restarts <= 10 && 0 <= r.retryAfter <= 3600 && (r.failure != NoFailure ==> r.state == Failed)
      ensures WellFormed(r) && (id !in old(jobs) || old(jobs)[id].spec.workerID != w.id || old(jobs)[id].owner != w.owner) ==> result == Err(NotFound)
      ensures Outcome(old(jobs), jobs, old(poison), poison, old(attempt), attempt, ReportRow(old(jobs), w, id, r, now))
      ensures result.Ok? ==> result == ReportedJob(old(jobs)[id], r, now) && jobs == old(jobs)[id := result.value]
      ensures !old(poison) && io.Done? && WellFormed(r) && id in old(jobs) && Mine(old(jobs)[id], w) ==>
        result == ReportedJob(old(jobs)[id], r, now)
      ensures result.Ok? && old(jobs)[id].state == CancelRequested ==>
        result.value.state == if r.state == Running || r.state == CancelRequested then CancelRequested else Canceled
      ensures result.Ok? && old(jobs)[id].state != CancelRequested ==> old(jobs)[id].state == Running && result.value.state == r.state
      ensures result.Ok? ==> Logged(old(file), result.value, "worker_progress", "")
      ensures result.Ok? ==> Taken(old(jobs)[id], result.value, r, now)
      ensures !old(poison) && io.Done? && id in old(jobs) && WellFormed(r) && old(jobs)[id].spec.workerID == w.id && old(jobs)[id].owner == w.owner ==>
        (result.Ok? <==> Takes(old(jobs)[id], r, now))
    {
      if !WellFormed(r) {
        return Err(Invalid);
      }
      if id in jobs {
        ReportEffect(jobs[id], r, now);
      }
      result := Update(id, "worker_progress", "", j => if Mine(j, w) then ReportedJob(j, r, now) else Err(NotFound), io);
    }

    /**
     Store.PrepareWorkerJob, on the worker's own store: a new generation is queued
     again, the same one is returned as it is, and a job the worker has lost is
     refused if anything of it was ever reported.
     */
    method PrepareWorkerJob(a: Assignment, sourceFP: string, sinkFP: string, resource: string, now: Time, io: IO)
      returns (result: Result<Job, Error>)
      requires Valid()
      modifies this
      ensures Valid()
      ensures result.Err? ==> State() == old(State())
      ensures var want := Prepared(old(jobs), a, sourceFP, sinkFP, resource, now);
        && (want.Err? ==> result == want)
        && (want.Ok? ==> result == want || (result == Err(StoreFailed) && (old(poison) || io.Broken?)))
        && (result.Ok? ==> jobs == old(jobs)[a.id := result.value])
      ensures result.Ok? && a.id in old(jobs) ==> var j := old(jobs)[a.id];
        && j.spec == a.spec.(workerID := "") && j.sourceFP == sourceFP && j.sinkFP == sinkFP
        && j.generation <= a.generation && a.records <= j.records && a.batches <= j.batches && (a.checkpoint ==> j.lastCheckpointAt.Some?)
        && result.value == if j.generation == a.generation then j
                           else j.(generation := a.generation, state := Queued, restarts := 0, error := Blank, nextRunAt := None)
      ensures result.Ok? && a.id !in old(jobs) ==> var j := result.value;
        && !a.checkpoint && a.records <= 0 && a.batches <= 0 && j.id == a.id && j.spec == a.spec.(workerID := "")
        && j.state == Queued && j.generation == a.generation && j.sourceFP == sourceFP && j.sinkFP == sinkFP && j.sinkResource == resource
        && j.records == 0 && j.batches == 0 && j.restarts == 0 && j.cursor == "" && !j.sourceExhausted
        && j.lastCheckpointAt == None && j.nextRunAt == None && j.createdAt == now && j.owner == None
      ensures result.Ok? && (a.id !in old(jobs) || old(jobs)[a.id].generation < a.generation) ==>
        Logged(old(file), result.value, if a.id in old(jobs) then "resumed" else "submitted", "")
      ensures result.Ok? && a.id in old(jobs) && old(jobs)[a.id].generation == a.generation ==> file == old(file)
      ensures result == Err(Conflict) ==> a.id in old(jobs) && var j := old(jobs)[a.id];
        j.spec != a.spec.(workerID := "") || j.sourceFP != sourceFP || j.sinkFP != sinkFP || a.generation < j.generation
      ensures result == Err(CheckpointMissing) ==>
        if a.id !in old(jobs) then a.checkpoint || a.records > 0 || a.batches > 0
        else var j := old(jobs)[a.id];
          && j.spec == a.spec.(workerID := "") && j.sourceFP == sourceFP && j.sinkFP == sinkFP && j.generation <= a.generation
          && (j.records < a.records || j.batches < a.batches || (a.checkpoint && j.lastCheckpointAt.None?))
      ensures result.Err? ==> result.error == Conflict || result.error == CheckpointMissing || result.error == StoreFailed
      ensures result == Err(StoreFailed) ==> old(poison) || io.Broken?
    {
      if a.id in jobs {
        var want := PreparedJob(jobs[a.id], a, sourceFP, sinkFP);
        if want.Err? {
          return want;
        }
        if a.generation > jobs[a.id].generation {
          var failed := Append(want.value, "resumed", "", io);
          if failed {
            return Err(StoreFailed);
          }
        }
        return Ok(jobs[a.id]);
      }
      var fresh' := AdmittedJob(a, sourceFP, sinkFP, resource, now);
      if fresh'.Err? {
        return fresh';
      }
      var failed := Append(fresh'.value, "submitted", "", io);
      if failed {
        return Err(StoreFailed);
      }
      return Ok(jobs[a.id]);
    }
  }

  function FirstOf<T>(all: seq<T>, limit: int): seq<T> {
    all[..Max(0, Min(limit, |all|))]
  }

  lemma FilteredCons(e: Entry, es: seq<Entry>, id: string, after: int)
    ensures Filtered([e] + es, id, after)
         == (if e.job.id == id && e.event.sequence > after then [e.event] else []) + Filtered(es, id, after)
  {
    assert ([e] + es)[1..] == es;
  }

  /** ReadBytes up to a newline, decoded; nothing at the end of the complete lines. */
  method NextLine(c: Codec, text: string) returns (e: Option<Entry>, rest: string)
    requires LineByLine(c, text)
    ensures e.None? ==> Decoded(c, text) == []
    ensures e.Some? ==> Decoded(c, text) == [e.value] + Decoded(c, rest) && LineByLine(c, rest) && |rest| < |text|
  {
    var n := Newline(text);
    if n == |text| {
      return None, "";
    }
    return c.decode(text[..n]), text[n + 1..];
  }

  /** The events still ahead in the rest of a journal. */
  function Left(c: Codec, text: string, id: string, after: int): seq<Event> {
    Filtered(Decoded(c, text), id, after)
  }

  /** One pass of the loop of Events: at most one event comes off the front of a journal. */
  method NextEvent(c: Codec, text: string, id: string, after: int) returns (more: bool, taken: seq<Event>, rest: string)
    requires LineByLine(c, text)
    ensures !more ==> Left(c, text, id, after) == []
    ensures more ==> LineByLine(c, rest) && |rest| < |text| && |taken| <= 1
    ensures more ==> Left(c, text, id, after) == taken + Left(c, rest, id, after)
  {
    var e, tail := NextLine(c, text);
    if e.None? {
      return false, [], "";
    }
    FilteredCons(e.value, Decoded(c, tail), id, after);
    if e.value.job.id == id && e.value.event.sequence > after {
      return true, [e.value.event], tail;
    }
    return true, [], tail;
  }

  /** The loop of Events over the lines of a journal. */
  method ReadEvents(c: Codec, file: string, id: string, after: int, limit: int) returns (events: seq<Event>)
    requires LineByLine(c, file)
    ensures events == FirstOf(Filtered(Decoded(c, file), id, after), limit)
  {
    events := [];
    var rest := file;
    ghost var all := Left(c, file, id, after);
    ghost var ahead := all;
    while |events| < limit
      invariant |events| <= Max(0, limit) && LineByLine(c, rest)
      invariant ahead == Left(c, rest, id, after) && all == events + ahead
      decreases |rest|
    {
      var more, taken, tail := NextEvent(c, rest, id, after);
      if !more {
        break;
      }
      events := events + taken;
      rest := tail;
      ahead := Left(c, rest, id, after);
    }
    FirstPart(all, events, ahead, limit);
  }

  lemma FirstPart<T>(all: seq<T>, front: seq<T>, ahead: seq<T>, limit: int)
    requires all == front + ahead && |front| <= Max(0, limit) && (|front| < limit ==> ahead == [])
    ensures front == FirstOf(all, limit)
  {
  }

  /** The first loop of Claim: the resources in use. */
  method BusyResources(jobs: map<string, Job>) returns (busy: set<string>)
    ensures forall x :: x in busy <==> !IdleResource(jobs, x)
    ensures forall x :: x in busy <==> !Unused(jobs, x)
  {
    busy := {};
    var rest := jobs.Keys;
    while rest != {}
      invariant rest <= jobs.Keys
      invariant forall x :: x in busy <==>
        exists k :: k in jobs && k !in rest && Active(jobs[k].state) && jobs[k].sinkResource == x
      decreases |rest|
    {
      var k :| k in rest;
      if Active(jobs[k].state) {
        busy := busy + {jobs[k].sinkResource};
      }
      rest := rest - {k};
    }
  }

  /** The guard of Claim, spelled out. */
  lemma EligibleIff(jobs: map<string, Job>, now: Time)
    ensures forall k :: Eligible(jobs, k, now) <==> k in jobs && DueHosted(jobs[k], now) && Unused(jobs, jobs[k].sinkResource)
  {
    forall k | k in jobs
      ensures IdleResource(jobs, jobs[k].sinkResource) <==> Unused(jobs, jobs[k].sinkResource)
    {
    }
  }

  /**
   A job that ran when its process died is not lost: once Recover has gone through
   the table, it can be claimed at any time, unless its destination is in use.
   */
  lemma RequeuedEligible(before: map<string, Job>, after: map<string, Job>, id: string, now: Time)
    requires after.Keys == before.Keys && forall k :: k in before ==> Restarted(before[k], after[k])
    requires id in before && before[id].spec.workerID == "" && before[id].state == Running
    ensures Eligible(after, id, now) <==>
      forall k :: k in before && before[k].spec.workerID != "" && (before[k].state == Running || before[k].state == CancelRequested) ==>
        before[k].sinkResource != before[id].sinkResource
  {
    forall k | k in before
      ensures Active(after[k].state) <==> before[k].spec.workerID != "" && (before[k].state == Running || before[k].state == CancelRequested)
      ensures after[k].sinkResource == before[k].sinkResource
    {
      assert Restarted(before[k], after[k]);
    }
    assert after[id] == before[id].(state := Queued);
    EligibleIff(after, now);
  }

  /** The second loop of Claim: the oldest eligible job. */
  method PickHosted(jobs: map<string, Job>, busy: set<string>, now: Time) returns (pick: Option<Job>)
    requires forall id :: id in jobs ==> jobs[id].id == id
    requires forall x :: x in busy <==> !IdleResource(jobs, x)
    ensures pick.None? ==> forall k :: !Eligible(jobs, k, now)
    ensures pick.Some? ==> Eligible(jobs, pick.value.id, now) && jobs[pick.value.id] == pick.value
    ensures pick.Some? ==> forall k :: Eligible(jobs, k, now) ==> pick.value.createdAt <= jobs[k].createdAt
    ensures pick.Some? ==> DueHosted(pick.value, now) && Unused(jobs, pick.value.sinkResource)
    ensures pick.Some? ==> forall k :: k in jobs && DueHosted(jobs[k], now) && Unused(jobs, jobs[k].sinkResource) ==> pick.value.createdAt <= jobs[k].createdAt
    ensures pick.None? ==> forall k :: k in jobs && DueHosted(jobs[k], now) ==> !Unused(jobs, jobs[k].sinkResource)
  {
    pick := None;
    var rest := jobs.Keys;
    while rest != {}
      invariant rest <= jobs.Keys
      invariant pick.None? ==> forall k :: k !in rest ==> !Eligible(jobs, k, now)
      invariant pick.Some? ==> pick.value.id in jobs && jobs[pick.value.id] == pick.value && Eligible(jobs, pick.value.id, now)
      invariant pick.Some? ==> forall k :: k !in rest && Eligible(jobs, k, now) ==> pick.value.createdAt <= jobs[k].createdAt
      decreases |rest|
    {
      var k :| k in rest;
      var j := jobs[k];
      if Hosted(j) && Due(j, now) && j.sinkResource !in busy && (pick.None? || j.createdAt < pick.value.createdAt) {
        pick := Some(j);
      }
      rest := rest - {k};
    }
    EligibleIff(jobs, now);
  }

  /** The loop of ClaimWorker: whether the worker is engaged, and its oldest claimable job if it is not. */
  method PickWorker(jobs: map<string, Job>, w: Worker, now: Time) returns (engaged: bool, pick: Option<Job>)
    requires forall id :: id in jobs ==> jobs[id].id == id
    ensures engaged <==> Engaged(jobs, w, now)
    ensures engaged <==> exists id :: id in jobs && Keeps(jobs[id], w, now)
    ensures !engaged && pick.None? ==> forall id :: !WorkerEligible(jobs, w, id, now)
    ensures !engaged && pick.None? ==> forall id :: id in jobs ==> !OpenTo(jobs[id], w, now)
    ensures !engaged && pick.Some? ==> Oldest(jobs, w, pick.value.id, now) && jobs[pick.value.id] == pick.value
    ensures !engaged && pick.Some? ==> OpenTo(pick.value, w, now)
    ensures !engaged && pick.Some? ==> forall id :: id in jobs && OpenTo(jobs[id], w, now) ==> pick.value.createdAt <= jobs[id].createdAt
  {
    pick := None;
    var rest := jobs.Keys;
    while rest != {}
      invariant rest <= jobs.Keys
      invariant forall id :: id in jobs && id !in rest ==> !(Mine(jobs[id], w) && Leased(jobs[id], now))
      invariant pick.None? ==> forall id :: id !in rest ==> !WorkerEligible(jobs, w, id, now)
      invariant pick.Some? ==> pick.value.id in jobs && jobs[pick.value.id] == pick.value
      invariant pick.Some? ==> WorkerEligible(jobs, w, pick.value.id, now)
      invariant pick.Some? ==> forall id :: id !in rest && WorkerEligible(jobs, w, id, now) ==> pick.value.createdAt <= jobs[id].createdAt
      decreases |rest|
    {
      var id :| id in rest;
      rest := rest - {id};
      var j := jobs[id];
      if Mine(j, w) {
        if Leased(j, now) {
          return true, None;
        }
        if Claimable(j, now) && (pick.None? || j.createdAt < pick.value.createdAt) {
          pick := Some(j);
        }
      }
    }
    Opened(jobs, w, now);
    return false, pick;
  }

  /** Without a live lease, the worker's claimable jobs are its open ones. */
  lemma Opened(jobs: map<string, Job>, w: Worker, now: Time)
    requires !Engaged(jobs, w, now)
    ensures forall id :: WorkerEligible(jobs, w, id, now) <==> id in jobs && OpenTo(jobs[id], w, now)
    ensures forall id :: id in jobs ==> !Keeps(jobs[id], w, now)
  {
  }

  /** The entry of a poisoned store that may or may not be on disk. */
  ghost predicate InFlightEntry(s: Store, e: Entry)
    reads s
  {
    Follows(s.codec, s.State(), e) && s.attempt == Some(e.job)
  }

  /** A crash at any moment, and a new process that opens the same journal. */
  method Reopen(s: Store) returns (t: Store)
    requires s.Valid()
    ensures fresh(t) && t.Valid() && !t.poison && t.codec == s.codec
    ensures t.State() == s.State() || (s.poison && exists e :: InFlightEntry(s, e) && t.State() == Applied(s.State(), e))
  {
    if s.poison {
      ghost var base, e, cut :| s.InFlight(base, e, cut);
      AppendRefinement(s.codec, base, s.State(), e, cut);
    }
    t := new Store(s.codec, s.file);
    var ok := t.Load();
  }

  /** The row that Recover writes for an interrupted job. */
  predicate RecoveryOf(jobs: map<string, Job>, j: Job) {
    j.id in jobs && Interrupted(jobs[j.id]) && j == RecoveredJob(jobs[j.id])
  }

  /** Every row but those in rest has been through Recover. */
  predicate RecoveredExcept(before: map<string, Job>, now: map<string, Job>, rest: set<string>) {
    && now.Keys == before.Keys && rest <= before.Keys
    && forall id :: id in before ==> now[id] == if id in rest then before[id] else RecoveredRow(before[id])
  }

  lemma RecoveredNext(before: map<string, Job>, earlier: map<string, Job>, now: map<string, Job>, rest: set<string>, id: string)
    requires RecoveredExcept(before, earlier, rest) && id in rest && now == earlier[id := RecoveredRow(earlier[id])]
    ensures RecoveredExcept(before, now, rest - {id})
  {
  }

  lemma AllRestarted(before: map<string, Job>, now: map<string, Job>, rest: set<string>)
    requires RecoveredExcept(before, now, rest)
    ensures now.Keys == before.Keys
    ensures forall id :: id in before ==> if id in rest then now[id] == before[id] else Restarted(before[id], now[id])
  {
  }

  function RecoveredRow(j: Job): Job {
    if Interrupted(j) then RecoveredJob(j) else j
  }

  /** The oldest job the worker may claim; the worker executes nothing else. */
  predicate Oldest(jobs: map<string, Job>, w: Worker, id: string, now: Time) {
    && WorkerEligible(jobs, w, id, now) && !Engaged(jobs, w, now)
    && forall k :: k in jobs && WorkerEligible(jobs, w, k, now) ==> jobs[id].createdAt <= jobs[k].createdAt
  }

  function Prepared(jobs: map<string, Job>, a: Assignment, sourceFP: string, sinkFP: string, resource: string, now: Time)
    : Result<Job, Error>
  {
    if a.id in jobs then PreparedJob(jobs[a.id], a, sourceFP, sinkFP)
    else AdmittedJob(a, sourceFP, sinkFP, resource, now)
  }

  lemma LineWritten(c: Codec, file: string, t: Table, e: Entry)
    requires GoodCodec(c) && Replaying(c, EMPTY, file) == Replayed(t, |file|) && Follows(c, t, e)
    ensures Replaying(c, EMPTY, file + Line(c, e)) == Replayed(Applied(t, e), |file + Line(c, e)|)
    ensures Decoded(c, file + Line(c, e)) == Decoded(c, file) + [e]
  {
    var line := Line(c, e);
    assert line[..|line|] == line;
    AppendRefinement(c, file, t, e, |line|);
    AppendedEntry(c, file, t, e);
  }

  lemma OneLine(c: Codec, t: Table, line: string)
    requires '\n' !in line && c.decode(line).Some? && Follows(c, t, c.decode(line).value)
    ensures Replaying(c, t, line + "\n") == Replayed(Applied(t, c.decode(line).value), |line| + 1)
  {
    var text := line + "\n";
    NewlineOf(line, "");
    assert line + "\n" + "" == text;
    assert text[..|line|] == line && text[|line| + 1..] == "";
    assert Replaying(c, Applied(t, c.decode(line).value), "") == Replayed(Applied(t, c.decode(line).value), 0);
  }

  /** Replaying a text whose first line ends at n. */
  lemma FirstLine(c: Codec, t: Table, text: string, n: nat)
    requires n == Newline(text) && n < |text|
    requires c.decode(text[..n]).Some? && Follows(c, t, c.decode(text[..n]).value)
    ensures Replaying(c, t, text) == Shifted(n + 1, Replaying(c, Applied(t, c.decode(text[..n]).value), text[n + 1..]))
  {
  }

  lemma Joined(c: Codec, t: Table, done: string, u: Table, more: string, v: Table)
    requires Replaying(c, t, done) == Replayed(u, |done|) && Replaying(c, u, more) == Replayed(v, |more|)
    ensures Replaying(c, t, done + more) == Replayed(v, |done + more|)
  {
    ReplayMore(c, t, done, more);
  }

  lemma LineDone(c: Codec, done: string, t: Table, line: string)
    requires Replaying(c, EMPTY, done) == Replayed(t, |done|)
    requires '\n' !in line && c.decode(line).Some? && Follows(c, t, c.decode(line).value)
    ensures Replaying(c, EMPTY, done + (line + "\n")) == Replayed(Applied(t, c.decode(line).value), |done + (line + "\n")|)
  {
    var more, u := line + "\n", Applied(t, c.decode(line).value);
    assert Replaying(c, t, more) == Replayed(u, |more|) by {
      OneLine(c, t, line);
    }
    Joined(c, EMPTY, done, t, more, u);
  }

  /** replay has turned the first offset characters into table t. */
  ghost predicate LoadInv(c: Codec, file: string, offset: nat, t: Table) {
    && offset <= |file|
    && Replaying(c, EMPTY, file[..offset]) == Replayed(t, offset)
    && Replaying(c, EMPTY, file) == Shifted(offset, Replaying(c, t, file[offset..]))
  }

  lemma LoadStart(c: Codec, file: string)
    ensures LoadInv(c, file, 0, EMPTY)
  {
    assert file[0..] == file && file[..0] == "";
  }

  lemma LoadEnd(c: Codec, file: string, offset: nat, t: Table)
    requires LoadInv(c, file, offset, t) && Newline(file[offset..]) == |file| - offset
    ensures Replaying(c, EMPTY, file) == Replayed(t, offset) && Replaying(c, EMPTY, file[..offset]) == Replayed(t, offset)
  {
  }

  lemma LoadBroken(c: Codec, file: string, offset: nat, t: Table, n: nat)
    requires LoadInv(c, file, offset, t) && n == Newline(file[offset..]) && offset + n < |file|
    requires var line := file[offset..offset + n]; c.decode(line).None? || !Follows(c, t, c.decode(line).value)
    ensures Replaying(c, EMPTY, file).Corrupt?
  {
    assert file[offset..][..n] == file[offset..offset + n];
  }

  lemma LoadGoesOn(c: Codec, file: string, offset: nat, t: Table, n: nat)
    requires LoadInv(c, file, offset, t) && n == Newline(file[offset..]) && offset + n < |file|
    requires var line := file[offset..offset + n]; c.decode(line).Some? && Follows(c, t, c.decode(line).value)
    ensures LoadInv(c, file, offset + n + 1, Applied(t, c.decode(file[offset..offset + n]).value))
  {
    LoadDone(c, file, offset, t, n);
    LoadRest(c, file, offset, t, n);
  }

  /** One pass of the loop of replay: the part accounted for. */
  lemma LoadDone(c: Codec, file: string, offset: nat, t: Table, n: nat)
    requires offset <= |file| && n == Newline(file[offset..]) && offset + n < |file|
    requires Replaying(c, EMPTY, file[..offset]) == Replayed(t, offset)
    requires var line := file[offset..offset + n]; c.decode(line).Some? && Follows(c, t, c.decode(line).value)
    ensures Replaying(c, EMPTY, file[..offset + n + 1]) ==
      Replayed(Applied(t, c.decode(file[offset..offset + n]).value), offset + n + 1)
  {
    NextCut(file, offset, n);
    LineDone(c, file[..offset], t, file[offset..offset + n]);
  }

  lemma NextCut(file: string, offset: nat, n: nat)
    requires offset <= |file| && n == Newline(file[offset..]) && offset + n < |file|
    ensures '\n' !in file[offset..offset + n]
    ensures file[..offset + n + 1] == file[..offset] + (file[offset..offset + n] + "\n")
  {
    var line := file[offset..offset + n];
    assert file[offset..][..n] == line;
    assert file[offset + n] == file[offset..][n] == '\n';
    assert file[offset..offset + n + 1] == line + "\n";
  }

  /** One pass of the loop of replay: the part still to come. */
  lemma LoadRest(c: Codec, file: string, offset: nat, t: Table, n: nat)
    requires offset <= |file| && n == Newline(file[offset..]) && offset + n < |file|
    requires var line := file[offset..offset + n]; c.decode(line).Some? && Follows(c, t, c.decode(line).value)
    ensures Replaying(c, t, file[offset..]) ==
      Shifted(n + 1, Replaying(c, Applied(t, c.decode(file[offset..offset + n]).value), file[offset + n + 1..]))
  {
    var text := file[offset..];
    assert text[..n] == file[offset..offset + n] && text[n + 1..] == file[offset + n + 1..];
    FirstLine(c, t, text, n);
  }
}
