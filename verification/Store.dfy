/** One module's tables and the sessions that change them: rows become visible to
    others only when a session commits. */
module Store {
  import opened Common
  import opened Envelope
  import opened Topology
  import opened Handlers

  datatype Schema = ShipmentSchema | CustomsSchema | FilesSchema

  /** An outbox row. Rows are kept in `created_at` order. */
  datatype Row = Row(content: Content, target: Target, headers: Headers, sent: bool)

  /** The inbox deduplication key, within the schema whose inbox it is. */
  datatype Key = Key(schema: Schema, id: MessageId, handler: HandlerName)

  /** A committed handler write, and the inbox key it was made under. */
  datatype Effect = Effect(key: Key, write: Write)

  /** Rows of each table in the order they were committed. */
  datatype Tables = Tables(outbox: seq<Row>, inbox: seq<Key>, effects: seq<Effect>)

  /** The unique constraint on `message_id`. */
  predicate MessageIdTaken(rows: seq<Row>, id: MessageId) {
    exists i :: 0 <= i < |rows| && rows[i].content.id == id
  }

  /** Inbox rows are unique and stand one to one with the handlers' writes. */
  ghost predicate Coupled(inbox: seq<Key>, effects: seq<Effect>) {
    NoDuplicates(inbox) &&
    |effects| == |inbox| &&
    forall i :: 0 <= i < |effects| ==> effects[i].key == inbox[i]
  }

  class Database<T> {
    var tables: T

    constructor (tables: T)
      ensures this.tables == tables
    {
      this.tables := tables;
    }
  }

  /** A transaction: a working copy that replaces the tables when it commits. */
  class Session<T> {
    const db: Database<T>
    var working: T

    constructor (db: Database<T>)
      ensures this.db == db && working == db.tables
    {
      this.db := db;
      working := db.tables;
    }

    method Commit(outcome: CommitOutcome) returns (ok: bool)
      modifies db
      ensures ok <==> outcome == Stored
      ensures db.tables == if outcome == Refused then old(db.tables) else working
    {
      if outcome != Refused {
        db.tables := working;
      }
      ok := outcome == Stored;
    }

    method Rollback()
      modifies this`working
      ensures working == db.tables
    {
      working := db.tables;
    }
  }
}
