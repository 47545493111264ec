/** The `side_effects` table: the idempotency ledger's rows. */
module SideEffectTable {
  import opened Domain
  import opened Durable

  class SideEffectRepository {
    const db: Store

    constructor (db: Store)
      ensures this.db == db
    {
      this.db := db;
    }

    method Get(key: Key) returns (row: Option<SideEffectRecord>)
      ensures row == if key in db.sideEffects then Some(db.sideEffects[key]) else None
    {
      row := if key in db.sideEffects then Some(db.sideEffects[key]) else None;
    }

    /** Inserts a reservation; `None` when the unique key is already taken, and also when
        the run it would refer to does not exist: both are integrity errors to SQLite. */
    method TryReserve(key: Key, runId: string, stepName: StepName, toolName: string)
      returns (out: Outcome<Option<SideEffectRecord>>)
      modifies db`sideEffects, db`mishaps
      ensures !out.Raised?
      ensures key in old(db.sideEffects) || runId !in db.runs ==> out == Ok(None) && db.W() == old(db.W())
      ensures key !in old(db.sideEffects) && runId in db.runs ==>
        && db.sideEffects == old(db.sideEffects)[key := NewRow(key, runId, stepName, toolName)]
        && (out.Ok? ==> out.value == Some(db.sideEffects[key]))
      ensures db.mishaps == old(db.mishaps) + if out.Crashed? then 1 else 0
    {
      if key in db.sideEffects || runId !in db.runs {
        return Ok(None);
      }
      db.sideEffects := db.sideEffects[key := NewRow(key, runId, stepName, toolName)];
      var dead := db.Dies();
      if dead {
        return Crashed;
      }
      return Ok(Some(db.sideEffects[key]));
    }

    /** Unconditional on the current state; a result already stored survives an update
        that brings none. */
    method SetState(key: Key, state: LedgerState, result: Option<Payload>) returns (out: Outcome<SideEffectRecord>)
      requires key in db.sideEffects
      modifies db`sideEffects, db`mishaps
      ensures !out.Raised?
      ensures db.sideEffects == old(db.sideEffects)[key := Moved(old(db.sideEffects)[key], state, result)]
      ensures db.mishaps == old(db.mishaps) + if out.Crashed? then 1 else 0
    {
      db.sideEffects := db.sideEffects[key := Moved(db.sideEffects[key], state, result)];
      var dead := db.Dies();
      if dead {
        return Crashed;
      }
      return Ok(db.sideEffects[key]);
    }

    /** Another process may reserve the same key between this one's read and its insert. */
    method ReservedElsewhere(key: Key, runId: string, stepName: StepName, toolName: string)
      modifies db`sideEffects
      ensures db.sideEffects == old(db.sideEffects)
           || (key !in old(db.sideEffects) && runId in db.runs
               && db.sideEffects == old(db.sideEffects)[key := NewRow(key, runId, stepName, toolName)])
    {
      var raced: bool := *;
      if raced && key !in db.sideEffects && runId in db.runs {
        db.sideEffects := db.sideEffects[key := NewRow(key, runId, stepName, toolName)];
      }
    }
  }

  function NewRow(key: Key, runId: string, stepName: StepName, toolName: string): SideEffectRecord {
    SideEffectRecord(key, runId, stepName, toolName, LedgerState.Reserved, None)
  }

  function Moved(row: SideEffectRecord, state: LedgerState, result: Option<Payload>): SideEffectRecord {
    row.(state := state, result := if result.Some? then result else row.result)
  }
}
