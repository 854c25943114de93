/**
 * The database session every endpoint receives: a working copy of the tables
 * that the request changes row by row, and the committed copy. A commit makes
 * the working copy durable when it satisfies the schema's constraints and
 * raises otherwise; a rollback discards the working copy.
 */
module Store {
  import opened Common
  import opened Models

  /** What a request that does not talk to the gateway leaves behind: its
      reply and the durable tables. */
  datatype Response<T, C> = Response(reply: Reply<T, C>, tables: Tables)

  class Session {
    /** What the request's queries see, including its uncommitted changes. */
    var db: Tables
    /** What is durable. */
    var committed: Tables

    /** No change is pending: what the queries see is what is durable. */
    predicate Idle()
      reads this
    {
      db == committed
    }

    /** Between requests nothing is pending and the durable state is
        consistent. */
    predicate Valid()
      reads this
    {
      Idle() && Consistent(committed)
    }

    constructor (t: Tables)
      requires Consistent(t)
      ensures Valid() && committed == t
    {
      db := t;
      committed := t;
    }

    /** `db.commit()`: succeeds exactly when the pending state satisfies every
        constraint; on failure it raises and nothing becomes durable. */
    method Commit() returns (ok: bool)
      modifies this
      ensures ok <==> Consistent(old(db))
      ensures db == old(db)
      ensures committed == if ok then old(db) else old(committed)
    {
      ok := Consistent(db);
      if ok {
        committed := db;
      }
    }

    /** `db.flush()`: sends the pending changes, raising exactly when they
        break a constraint; nothing becomes durable either way. */
    method Flush() returns (ok: bool)
      ensures ok <==> Consistent(db)
    {
      ok := Consistent(db);
    }

    /** `db.rollback()`: the working copy goes back to the durable state. */
    method Rollback()
      modifies this
      ensures db == old(committed) && committed == old(committed)
    {
      db := committed;
    }
  }
}
