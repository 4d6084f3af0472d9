/**
 One key of the authoritative assignment bucket, and the compare-and-set loop
 that updates it next to any number of other writers.
 */
module Store {
  import opened Wrappers
  import opened Records

  type Assignments = map<string, AssignmentRecord>

  datatype Update = Insert(record: AssignmentRecord) | Remove(assignmentId: string) | Clear

  function Apply(update: Update, assignments: Assignments): Assignments
  {
    match update
    case Insert(record) => assignments[record.assignmentId := record]
    case Remove(id) => assignments - {id}
    case Clear => map[]
  }

  /** The latest message under the key: a value, or a delete marker left by an operator. */
  datatype Entry = Put(revision: nat, assignments: Assignments) | Marker(revision: nat)

  /** Who changed the key, and how. `Expired` is the time-to-live, `Purged` an operator. */
  datatype Change = Committed(writer: nat, update: Update) | Expired | Purged

  /** `last` is the highest revision ever given out; `log` is every change so far. */
  datatype Cell = Cell(entry: Option<Entry>, last: nat, log: seq<Change>)
  {
    function Contents(): Assignments
    {
      if entry.Some? && entry.value.Put? then entry.value.assignments else map[]
    }

    function Revision(): Option<nat>
    {
      if entry.None? then None else Some(entry.value.revision)
    }
  }

  const EMPTY := Cell(None, 0, [])

  function After(assignments: Assignments, change: Change): Assignments
  {
    if change.Committed? then Apply(change.update, assignments) else map[]
  }

  /** What the log of changes amounts to. */
  function Replay(log: seq<Change>): Assignments
  {
    if log == [] then map[] else After(Replay(log[..|log| - 1]), log[|log| - 1])
  }

  /** The value under the key is the fold of the committed updates, and revisions never repeat. */
  ghost predicate CellOk(cell: Cell)
  {
    cell.Contents() == Replay(cell.log) &&
    (cell.entry.Some? ==> cell.entry.value.revision <= cell.last)
  }

  // The atomic steps of the bucket.

  /** A draft written at a base revision: `update` when there is one, `create` otherwise. */
  predicate Accepts(cell: Cell, base: Option<nat>)
  {
    match base
    case Some(revision) => cell.Revision() == Some(revision)
    case None => cell.entry.None? || cell.entry.value.Marker?
  }

  /** A new key can be created exactly while it holds no value, and an old one updated while nobody has changed it. */
  lemma AcceptsMeans(cell: Cell)
    ensures Accepts(cell, None) <==> forall r, a :: cell.entry != Some(Put(r, a))
    ensures forall r: nat :: Accepts(cell, Some(r)) <==> cell.entry.Some? && cell.entry.value.revision == r
  {
    if cell.entry.Some? && cell.entry.value.Put? {
      assert cell.entry == Some(Put(cell.entry.value.revision, cell.entry.value.assignments));
    }
  }

  function Commit(cell: Cell, writer: nat, update: Update, draft: Assignments): Cell
  {
    Cell(Some(Put(cell.last + 1, draft)), cell.last + 1, cell.log + [Committed(writer, update)])
  }

  function Drop(cell: Cell): Cell
  {
    Cell(None, cell.last, cell.log + [Expired])
  }

  function Purge(cell: Cell): Cell
  {
    Cell(Some(Marker(cell.last + 1)), cell.last + 1, cell.log + [Purged])
  }

  /** A draft is sound while the base revision, if still current, still holds what was read. */
  ghost predicate DraftOk(cell: Cell, base: Option<nat>, update: Update, draft: Assignments)
  {
    if base.None? then draft == Apply(update, map[])
    else base.value <= cell.last && (cell.Revision() == base ==> draft == Apply(update, cell.Contents()))
  }

  lemma ReplayAppend(log: seq<Change>, change: Change)
    ensures Replay(log + [change]) == After(Replay(log), change)
  {
    assert (log + [change])[..|log|] == log;
  }

  /** A commit that is accepted applies its update to exactly the value it replaces. */
  lemma CommitIsOnLatest(cell: Cell, base: Option<nat>, writer: nat, update: Update, draft: Assignments)
    requires CellOk(cell) && DraftOk(cell, base, update, draft) && Accepts(cell, base)
    ensures draft == Apply(update, cell.Contents())
    ensures CellOk(Commit(cell, writer, update, draft))
  {
    var next := Commit(cell, writer, update, draft);
    assert draft == Apply(update, cell.Contents());
    assert next.Contents() == draft;
    ReplayAppend(cell.log, Committed(writer, update));
    assert Replay(next.log) == Apply(update, Replay(cell.log));
  }

  lemma DropKeepsOk(cell: Cell)
    requires CellOk(cell)
    ensures CellOk(Drop(cell)) && CellOk(Purge(cell))
  {
    ReplayAppend(cell.log, Expired);
    ReplayAppend(cell.log, Purged);
    assert Drop(cell).Contents() == map[] && Replay(Drop(cell).log) == map[];
    assert Purge(cell).Contents() == map[] && Replay(Purge(cell).log) == map[];
  }

  /** No step of anybody invalidates a draft in flight. */
  lemma DraftSurvives(cell: Cell, next: Cell, base: Option<nat>, update: Update, draft: Assignments)
    requires CellOk(cell) && DraftOk(cell, base, update, draft)
    requires next == Drop(cell) || next == Purge(cell) ||
             exists w, u, d :: next == Commit(cell, w, u, d)
    ensures DraftOk(next, base, update, draft)
  {
  }

  // What a log says about one assignment.

  predicate Discards(change: Change, id: string)
  {
    change.Committed? ==> change.update == Remove(id) || change.update == Clear
  }

  predicate Inserts(change: Change, id: string)
  {
    change.Committed? && change.update.Insert? && change.update.record.assignmentId == id
  }

  /** The latest insert at `i` was not discarded afterwards. */
  ghost predicate InsertedAndKept(log: seq<Change>, id: string, i: nat)
  {
    i < |log| && Inserts(log[i], id) && forall j | i < j < |log| :: !Discards(log[j], id)
  }

  /** An assignment is present exactly when it was inserted and nothing later discarded it. */
  lemma {:induction false} PresentIff(log: seq<Change>, id: string)
    ensures id in Replay(log) <==> exists i :: InsertedAndKept(log, id, i)
  {
    if log != [] {
      var n := |log| - 1;
      var init := log[..n];
      PresentIff(init, id);
      if Inserts(log[n], id) {
        assert InsertedAndKept(log, id, n);
      } else if Discards(log[n], id) {
        forall i: nat
          ensures !InsertedAndKept(log, id, i)
        {
        }
      } else {
        forall i: nat
          ensures InsertedAndKept(log, id, i) <==> InsertedAndKept(init, id, i)
        {
        }
      }
    }
  }

  /** Until it is inserted anew or discarded, the record stays the one that was inserted. */
  lemma {:induction false} InsertedRecordStays(log: seq<Change>, id: string, i: nat)
    requires InsertedAndKept(log, id, i)
    requires forall j | i < j < |log| :: !Inserts(log[j], id)
    ensures id in Replay(log) && Replay(log)[id] == log[i].update.record
  {
    var n := |log| - 1;
    if i < n {
      InsertedRecordStays(log[..n], id, i);
    }
  }

  // The compare-and-set loop.

  function CommitsBy(log: seq<Change>, writer: nat): nat
  {
    if log == [] then 0
    else CommitsBy(log[..|log| - 1], writer) +
         if log[|log| - 1].Committed? && log[|log| - 1].writer == writer then 1 else 0
  }

  lemma CommitsByAppend(log: seq<Change>, change: Change, writer: nat)
    ensures CommitsBy(log + [change], writer) ==
            CommitsBy(log, writer) + if change.Committed? && change.writer == writer then 1 else 0
  {
    assert (log + [change])[..|log|] == log;
  }

  const MAX_ATTEMPTS: nat := 16

  function Trues(replies: seq<bool>): nat
  {
    if replies == [] then 0
    else Trues(replies[..|replies| - 1]) + if replies[|replies| - 1] then 1 else 0
  }

  lemma TruesNext(replies: seq<bool>, i: nat)
    requires i < |replies|
    ensures Trues(replies[..i + 1]) == Trues(replies[..i]) + if replies[i] then 1 else 0
  {
    assert replies[..i + 1][..i] == replies[..i];
  }

  datatype Outcome = Done | Conflict | ReadFailed

  class Bucket {
    var cell: Cell

    constructor ()
      ensures cell == EMPTY && CellOk(cell)
    {
      cell := EMPTY;
    }

    /** One step of another writer, of the time-to-live or of an operator. */
    method OtherStep(me: nat, ghost base: Option<nat>, ghost update: Update, ghost draft: Assignments)
      requires CellOk(cell) && DraftOk(cell, base, update, draft)
      modifies this
      ensures CellOk(cell) && DraftOk(cell, base, update, draft)
      ensures |cell.log| == |old(cell.log)| + 1 && old(cell.log) <= cell.log
      ensures CommitsBy(cell.log, me) == old(CommitsBy(cell.log, me))
    {
      DropKeepsOk(cell);
      if * {
        CommitsByAppend(cell.log, Expired, me);
        cell := Drop(cell);
      } else if * {
        CommitsByAppend(cell.log, Purged, me);
        cell := Purge(cell);
      } else {
        var writer: nat, theirs: Update := *, *;
        if writer == me {
          writer := me + 1;
        }
        CommitsByAppend(cell.log, Committed(writer, theirs), me);
        CommitIsOnLatest(cell, cell.Revision(), writer, theirs, Apply(theirs, cell.Contents()));
        cell := Commit(cell, writer, theirs, Apply(theirs, cell.Contents()));
      }
    }

    /** Any number of steps by others. */
    method Interfere(me: nat, ghost base: Option<nat>, ghost update: Update, ghost draft: Assignments)
      requires CellOk(cell) && DraftOk(cell, base, update, draft)
      modifies this
      ensures CellOk(cell) && DraftOk(cell, base, update, draft)
      ensures old(cell.log) <= cell.log
      ensures |cell.log| == |old(cell.log)| ==> cell == old(cell)
      ensures CommitsBy(cell.log, me) == old(CommitsBy(cell.log, me))
    {
      var steps: nat := *;
      while steps > 0
        invariant CellOk(cell) && DraftOk(cell, base, update, draft)
        invariant old(cell.log) <= cell.log
        invariant |cell.log| == |old(cell.log)| ==> cell == old(cell)
        invariant CommitsBy(cell.log, me) == old(CommitsBy(cell.log, me))
      {
        OtherStep(me, base, update, draft);
        steps := steps - 1;
      }
    }

    /** `update` or `create` with a draft. */
    method Write(me: nat, base: Option<nat>, update: Update, draft: Assignments) returns (ok: bool)
      requires CellOk(cell) && DraftOk(cell, base, update, draft)
      modifies this
      ensures CellOk(cell)
      ensures ok == old(Accepts(cell, base))
      ensures cell.log == if ok then old(cell.log) + [Committed(me, update)] else old(cell.log)
      ensures ok ==>
                && cell.log[..|cell.log| - 1] == old(cell.log)
                && cell.Contents() == Apply(update, Replay(old(cell.log)))
      ensures CommitsBy(cell.log, me) == old(CommitsBy(cell.log, me)) + if ok then 1 else 0
    {
      ok := Accepts(cell, base);
      if ok {
        CommitIsOnLatest(cell, base, me, update, draft);
        CommitsByAppend(cell.log, Committed(me, update), me);
        cell := Commit(cell, me, update, draft);
      }
    }

    /** One round of the loop: read the entry, draft the update, write it. */
    method Attempt(me: nat, update: Update, entryFails: bool, replyFails: bool) returns (outcome: Outcome)
      requires CellOk(cell)
      modifies this
      ensures CellOk(cell)
      ensures old(cell.log) <= cell.log
      ensures CommitsBy(cell.log, me) == old(CommitsBy(cell.log, me)) + if outcome.Done? then 1 else 0
      ensures outcome.Done? ==>
                && old(cell.log) < cell.log
                && cell.log[|cell.log| - 1] == Committed(me, update)
                && cell.Contents() == Apply(update, Replay(cell.log[..|cell.log| - 1]))
      ensures outcome.ReadFailed? <==> entryFails
      ensures outcome.Conflict? && !replyFails ==> |cell.log| > |old(cell.log)|
      ensures outcome.Done? ==> !replyFails
    {
      Interfere(me, None, Clear, map[]);
      if entryFails {
        return ReadFailed;
      }
      var base := cell.Revision();
      var draft := Apply(update, cell.Contents());
      Interfere(me, base, update, draft);
      outcome := Conflict;
      if !replyFails {
        var ok := Write(me, base, update, draft);
        if ok {
          outcome := Done;
        }
      }
    }

    /**
     Updates the assignments of the key. A successful call has committed exactly
     once, as the last change, on the revision just before it. A failed call has
     committed nothing and ended at its first failed read or after the last attempt;
     in each attempt before that its write got an error reply, or it was overtaken by
     a change of somebody else. `entryFails` and `replyFails` say which store calls
     return an error; an error reply is taken to mean that nothing was written.
     */
    method UpdateServerAssignments(me: nat, update: Update, entryFails: seq<bool>, replyFails: seq<bool>)
      returns (ok: bool, ghost attempts: nat)
      requires |entryFails| == MAX_ATTEMPTS && |replyFails| == MAX_ATTEMPTS
      requires CellOk(cell)
      modifies this
      ensures CellOk(cell)
      ensures old(cell.log) <= cell.log
      ensures CommitsBy(cell.log, me) == old(CommitsBy(cell.log, me)) + if ok then 1 else 0
      ensures ok ==>
                && old(cell.log) < cell.log
                && cell.log[|cell.log| - 1] == Committed(me, update)
                && cell.Contents() == Apply(update, Replay(cell.log[..|cell.log| - 1]))
      ensures attempts <= MAX_ATTEMPTS && forall i | 0 <= i < attempts :: !entryFails[i]
      ensures if ok then attempts < MAX_ATTEMPTS && !entryFails[attempts] && !replyFails[attempts]
              else attempts == MAX_ATTEMPTS || entryFails[attempts]
      ensures |cell.log| + Trues(replyFails[..attempts]) >= |old(cell.log)| + attempts + if ok then 1 else 0
    {
      attempts := 0;
      for attempt := 0 to MAX_ATTEMPTS
        invariant CellOk(cell) && attempts == attempt
        invariant old(cell.log) <= cell.log
        invariant CommitsBy(cell.log, me) == old(CommitsBy(cell.log, me))
        invariant forall i | 0 <= i < attempt :: !entryFails[i]
        invariant |cell.log| + Trues(replyFails[..attempt]) >= |old(cell.log)| + attempt
      {
        var outcome := Attempt(me, update, entryFails[attempt], replyFails[attempt]);
        if !outcome.Conflict? {
          return outcome.Done?, attempts;
        }
        TruesNext(replyFails, attempt);
        attempts := attempts + 1;
      }
      return false, attempts;
    }
  }
}
