/** The nested-transaction session: one database transaction shared by
    nested BeginTx/Commit pairs, counted on a Go `int8`. */
module Sessions {
  import opened Types

  /** Go's `int8`. Its increment and decrement wrap around. */
  newtype int8 = x: int | -128 <= x < 128

  /** `x++` on an int8: 127 wraps to -128. */
  function Inc8(x: int8): (r: int8)
    ensures x < 127 ==> r as int == x as int + 1
    ensures x == 127 ==> r == -128
  {
    if x == 127 then -128 else x + 1
  }

  /** `x--` on an int8: -128 wraps to 127. */
  function Dec8(x: int8): (r: int8)
    ensures x > -128 ==> r as int == x as int - 1
    ensures x == -128 ==> r == 127
  {
    if x == -128 then 127 else x - 1
  }

  /** Decrementing undoes incrementing, wrap-around included. */
  lemma Dec8Inc8(x: int8)
    ensures Dec8(Inc8(x)) == x
  {
  }

  /** An opaque database handle (`*sql.DB`) and transaction (`*sql.Tx`). */
  datatype Db = Db(id: nat)
  datatype Tx = Tx(id: nat)

  /** `commitInitStatus`: the counter value of an outermost transaction. */
  const CommitInitStatus: int8 := 1

  /** The three mutable fields of a session. */
  datatype SessionState = SessionState(tx: Option<Tx>, commit: int8, canRollback: bool)

  /** The zero value of the fields, as `&Session{}` leaves them. */
  const FreshState := SessionState(None, 0, false)

  /** BeginTx. `begin` is what `db.Begin()` answers; it is only consulted
      when no transaction is open. */
  function BeginTxStep(s: SessionState, begin: Result<Tx>): (r: (SessionState, Option<Error>))
    ensures r.0.canRollback
    ensures s.tx.Some? ==> r == (SessionState(s.tx, Inc8(s.commit), true), None)
    ensures s.tx.None? && begin.Ok? ==> r == (SessionState(Some(begin.value), CommitInitStatus, true), None)
    ensures s.tx.None? && begin.Err? ==> r == (s.(canRollback := true), Some(begin.error))
  {
    var s1 := s.(canRollback := true);
    if s1.tx.Some? then
      (s1.(commit := Inc8(s1.commit)), None)
    else
      match begin
      case Err(e) => (s1, Some(e))
      case Ok(t) => (s1.(tx := Some(t), commit := CommitInitStatus), None)
  }

  /** Commit. `outcome` is what `tx.Commit()` answers; it is only consulted
      when the outermost level is committed. */
  function CommitStep(s: SessionState, outcome: Option<Error>): (r: (SessionState, Option<Error>))
    ensures !r.0.canRollback
    ensures s.tx.None? ==> r == (s.(canRollback := false), None)
    ensures s.tx.Some? && s.commit != CommitInitStatus ==>
      r == (SessionState(s.tx, Dec8(s.commit), false), None)
    ensures s.tx.Some? && s.commit == CommitInitStatus ==>
      r.1 == outcome && r.0.commit == s.commit && (r.0.tx.None? <==> outcome.None?)
    ensures r.0.tx.Some? ==> r.0.tx == s.tx
  {
    var s1 := s.(canRollback := false);
    if s1.tx.None? then (s1, None)
    else if s1.commit != CommitInitStatus then (s1.(commit := Dec8(s1.commit)), None)
    else if outcome.Some? then (s1, outcome)
    else (s1.(tx := None), None)
  }

  /** Rollback. `outcome` is what `tx.Rollback()` answers; it is only
      consulted when a transaction is open and rolling back is allowed. */
  function RollbackStep(s: SessionState, outcome: Option<Error>): (r: (SessionState, Option<Error>))
    ensures s.tx.None? || !s.canRollback ==> r == (s, None)
    ensures s.tx.Some? && s.canRollback ==>
      r.1 == outcome && r.0 == (if outcome.None? then s.(tx := None) else s)
    ensures r.0.commit == s.commit && r.0.canRollback == s.canRollback
  {
    if s.tx.None? || !s.canRollback then (s, None)
    else if outcome.Some? then (s, outcome)
    else (s.(tx := None), None)
  }

  /** While a transaction is open the counter is at least one; the counter
      is never negative. */
  predicate Inv(s: SessionState) {
    0 <= s.commit && (s.tx.Some? ==> s.commit >= 1)
  }

  /** A session call, with what the database answers to it. */
  datatype Call =
    | BeginTx(begin: Result<Tx>)
    | Commit(outcome: Option<Error>)
    | Rollback(outcome: Option<Error>)

  /** Whether a call would push the counter past 127: a BeginTx inside a
      transaction whose counter is already at the top. */
  predicate Wraps(s: SessionState, c: Call) {
    c.BeginTx? && s.tx.Some? && s.commit == 127
  }

  /** Every call that does not wrap the counter keeps the invariant, and
      no call raises the counter by more than one. */
  function Step(s: SessionState, c: Call): (r: (SessionState, Option<Error>))
    ensures Inv(s) && !Wraps(s, c) ==> Inv(r.0)
    ensures Inv(s) && s.commit < 127 ==> r.0.commit as int <= s.commit as int + 1
  {
    match c
    case BeginTx(b) => BeginTxStep(s, b)
    case Commit(o) => CommitStep(s, o)
    case Rollback(o) => RollbackStep(s, o)
  }

  /** The state after a series of calls. */
  function Run(s: SessionState, calls: seq<Call>): SessionState
    decreases |calls|
  {
    if calls == [] then s else Run(Step(s, calls[0]).0, calls[1..])
  }

  /** Whether no call of the series, made in the state the calls before
      it lead to, wraps the counter. */
  predicate NeverWraps(s: SessionState, calls: seq<Call>)
    decreases |calls|
  {
    calls == [] || (!Wraps(s, calls[0]) && NeverWraps(Step(s, calls[0]).0, calls[1..]))
  }

  /** The invariant holds after any series of calls, however long, from a
      state that has it, as long as no BeginTx is made inside a transaction
      whose counter is at 127. */
  lemma {:induction false} RunKeepsInv(s: SessionState, calls: seq<Call>)
    requires Inv(s) && NeverWraps(s, calls)
    ensures Inv(Run(s, calls))
    decreases |calls|
  {
    if calls != [] {
      RunKeepsInv(Step(s, calls[0]).0, calls[1..]);
    }
  }

  /** Fewer than 128 - commit calls can never wrap the counter. */
  lemma {:induction false} ShortRunNeverWraps(s: SessionState, calls: seq<Call>)
    requires Inv(s) && s.commit as int + |calls| < 128
    ensures NeverWraps(s, calls)
    decreases |calls|
  {
    if calls != [] {
      ShortRunNeverWraps(Step(s, calls[0]).0, calls[1..]);
    }
  }

  lemma CounterWraps(t: Tx)
    ensures var s := SessionState(Some(t), 127, true);
      Inv(s) && !Inv(BeginTxStep(s, Ok(t)).0)
  {
  }

  /** begin; begin; commit; commit; rollback on a fresh session: the inner
      commit leaves the transaction open, the outer one commits it, and the
      rollback afterwards does nothing. */
  lemma NestedCommit(t: Tx, second: Result<Tx>, inner: Option<Error>)
    ensures var (s1, e1) := BeginTxStep(FreshState, Ok(t));
      var (s2, e2) := BeginTxStep(s1, second);
      var (s3, e3) := CommitStep(s2, inner);
      var (s4, e4) := CommitStep(s3, None);
      var (s5, e5) := RollbackStep(s4, Some(Driver("unused")));
      && e1.None? && e2.None? && e3.None? && e4.None? && e5.None?
      && s2.tx == Some(t) && s2.commit == 2
      && s3.tx == Some(t) && s3.commit == 1
      && s4.tx.None? && s5 == s4
  {
  }

  /** After any commit, even an inner one that only decrements the counter,
      Rollback is a no-op until the next BeginTx: the open transaction is
      not rolled back. */
  lemma CommitDisablesRollback(s: SessionState, c: Option<Error>, r: Option<Error>)
    ensures var (s1, _) := CommitStep(s, c);
      RollbackStep(s1, r) == (s1, None)
  {
  }

  /** BeginTx re-enables Rollback: right after a successful BeginTx,
      Rollback consults the database and, on success, closes the
      transaction. */
  lemma BeginTxEnablesRollback(s: SessionState, b: Result<Tx>)
    requires s.tx.Some? || b.Ok?
    ensures var (s1, _) := BeginTxStep(s, b);
      RollbackStep(s1, None) == (s1.(tx := None), None)
  {
  }

  /** A database session. */
  class Session {
    const db: Db
    var tx: Option<Tx>
    var commit: int8
    var canRollback: bool

    function State(): SessionState
      reads this
    {
      SessionState(tx, commit, canRollback)
    }

    constructor (db: Db)
      ensures this.db == db && State() == FreshState
    {
      this.db := db;
      tx := None;
      commit := 0;
      canRollback := false;
    }

    method BeginTx(begin: Result<Tx>) returns (err: Option<Error>)
      modifies this
      ensures (State(), err) == BeginTxStep(old(State()), begin)
    {
      canRollback := true;
      if tx.Some? {
        commit := Inc8(commit);
        return None;
      }
      if begin.Err? {
        return Some(begin.error);
      }
      tx := Some(begin.value);
      commit := CommitInitStatus;
      return None;
    }

    method Rollback(outcome: Option<Error>) returns (err: Option<Error>)
      modifies this
      ensures (State(), err) == RollbackStep(old(State()), outcome)
    {
      if tx.None? || !canRollback {
        return None;
      }
      if outcome.Some? {
        return outcome;
      }
      tx := None;
      return None;
    }

    method Commit(outcome: Option<Error>) returns (err: Option<Error>)
      modifies this
      ensures (State(), err) == CommitStep(old(State()), outcome)
    {
      canRollback := false;
      if tx.None? {
        return None;
      }
      if commit != CommitInitStatus {
        commit := Dec8(commit);
        return None;
      }
      if outcome.Some? {
        return outcome;
      }
      tx := None;
      return None;
    }
  }

  /** Creates sessions that share one database handle. */
  class SessionFactory {
    const db: Db

    constructor (db: Db)
      ensures this.db == db
    {
      this.db := db;
    }

    method NewSession() returns (s: Session)
      ensures fresh(s) && s.db == db && s.State() == FreshState
    {
      s := new Session(db);
    }
  }
}
