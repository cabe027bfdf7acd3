/** The key table under concurrent transactions, one SQL statement at a time.

    A transaction sees its own uncommitted row and otherwise the latest committed one.  A row that
    a transaction has read FOR UPDATE or updated stays locked until it commits or rolls back; a
    statement that needs a row locked by another transaction is not enabled.  Every transaction of
    the store touches at most one row. */
module KeyStore {
  import opened Prelude

  datatype KeyKind = Management | Inference

  datatype Row = Row(
    id: nat, clientId: nat, digest: nat, kind: KeyKind, createdAt: nat, lastUsedAt: Option<nat>, revokedAt: Option<nat>)

  /** A locked row: the session that holds it and its uncommitted version. */
  datatype Hold = Hold(session: nat, row: Row)

  /** A committed version of a row. */
  datatype Version = Version(session: nat, row: Row)

  /** Committed rows, locked rows, and all versions in commit order. */
  datatype Db = Db(rows: map<nat, Row>, held: map<nat, Hold>, history: seq<Version>)

  datatype Statement =
    | SelectForUpdate(session: nat, id: nat)
    | UpdateLastUsed(session: nat, id: nat, clientId: nat, at: nat)
    | UpdateRevoked(session: nat, id: nat, clientId: nat, at: nat)
    | Insert(session: nat, row: Row)
    | Commit(session: nat, id: nat)
    | Rollback(session: nat, id: nat)

  const NO_KEYS := Db(map[], map[], [])

  predicate HoldsRow(db: Db, session: nat, id: nat) {
    id in db.held && db.held[id].session == session
  }

  predicate HoldsNothing(db: Db, session: nat) {
    forall id :: id in db.held ==> db.held[id].session != session
  }

  /** The row as `session` sees it. */
  function Seen(db: Db, session: nat, id: nat): Row
    requires id in db.rows
  {
    if HoldsRow(db, session, id) then db.held[id].row else db.rows[id]
  }

  predicate MatchesLastUsed(row: Row, clientId: nat, at: nat) {
    row.clientId == clientId && row.revokedAt.None? && (row.lastUsedAt.None? || row.lastUsedAt.value < at)
  }

  predicate MatchesRevoke(row: Row, clientId: nat) {
    row.clientId == clientId && row.revokedAt.None?
  }

  /** The statement's condition selects the row. */
  predicate Selects(db: Db, s: Statement) {
    match s
    case SelectForUpdate(session, id) => id in db.rows
    case UpdateLastUsed(session, id, clientId, at) => id in db.rows && MatchesLastUsed(Seen(db, session, id), clientId, at)
    case UpdateRevoked(session, id, clientId, at) => id in db.rows && MatchesRevoke(Seen(db, session, id), clientId)
    case Insert(_, row) => true
    case Commit(session, id) => HoldsRow(db, session, id)
    case Rollback(session, id) => HoldsRow(db, session, id)
  }

  predicate DigestUnused(db: Db, digest: nat) {
    forall id :: id in db.rows ==> db.rows[id].digest != digest
  }

  /** A selected row must not be locked by another session; identifiers and digests are unique; a
      new row has never been used or revoked. */
  predicate Enabled(db: Db, s: Statement) {
    Selects(db, s) ==>
      match s
      case Insert(_, row) => row.id !in db.rows && DigestUnused(db, row.digest) && row.lastUsedAt.None? && row.revokedAt.None?
      case Commit(_, _) => true
      case Rollback(_, _) => true
      case _ => HoldsRow(db, s.session, s.id) || (s.id !in db.held && HoldsNothing(db, s.session))
  }

  function Apply(db: Db, s: Statement): Db {
    if !Selects(db, s) then db
    else
      match s
      case SelectForUpdate(session, id) => db.(held := db.held[id := Hold(session, Seen(db, session, id))])
      case UpdateLastUsed(session, id, _, at) =>
        db.(held := db.held[id := Hold(session, Seen(db, session, id).(lastUsedAt := Some(at)))])
      case UpdateRevoked(session, id, _, at) =>
        db.(held := db.held[id := Hold(session, Seen(db, session, id).(revokedAt := Some(at)))])
      case Insert(session, row) => db.(rows := db.rows[row.id := row], history := db.history + [Version(session, row)])
      case Commit(session, id) =>
        Db(db.rows[id := db.held[id].row], db.held - {id}, db.history + [Version(session, db.held[id].row)])
      case Rollback(_, id) => db.(held := db.held - {id})
  }

  // ----- what every statement keeps ----------------------------------------------------

  predicate NotBefore(a: Option<nat>, b: Option<nat>) {
    a.Some? ==> b.Some? && a.value <= b.value
  }

  /** How a row may change: identity never, last use only forward, and not at all once revoked. */
  predicate Evolves(a: Row, b: Row) {
    && b == a.(lastUsedAt := b.lastUsedAt, revokedAt := b.revokedAt)
    && NotBefore(a.lastUsedAt, b.lastUsedAt)
    && (a.revokedAt.Some? ==> b == a)
  }

  ghost predicate TableOK(rows: map<nat, Row>) {
    && (forall id :: id in rows ==> rows[id].id == id)
    && (forall a, b :: a in rows && b in rows && rows[a].digest == rows[b].digest ==> a == b)
  }

  /** Locked rows evolve from their committed versions, one per session. */
  ghost predicate HoldsOK(db: Db) {
    && (forall id :: id in db.held ==> id in db.rows && Evolves(db.rows[id], db.held[id].row))
    && (forall a, b :: a in db.held && b in db.held && db.held[a].session == db.held[b].session ==> a == b)
  }

  /** Committed versions of a row form a chain that ends in the table. */
  ghost predicate HistoryOK(rows: map<nat, Row>, history: seq<Version>) {
    && (forall i :: 0 <= i < |history| ==> history[i].row.id in rows && Evolves(history[i].row, rows[history[i].row.id]))
    && (forall i, j :: 0 <= i < j < |history| && history[i].row.id == history[j].row.id ==> Evolves(history[i].row, history[j].row))
    && (forall id :: id in rows ==> exists i :: 0 <= i < |history| && history[i].row == rows[id])
  }

  ghost predicate Inv(db: Db) {
    TableOK(db.rows) && HoldsOK(db) && HistoryOK(db.rows, db.history)
  }

  /** `later` was reached from `earlier`: rows evolve and history grows. */
  ghost predicate Extends(earlier: Db, later: Db) {
    && |earlier.history| <= |later.history| && later.history[..|earlier.history|] == earlier.history
    && (forall id :: id in earlier.rows ==> id in later.rows && Evolves(earlier.rows[id], later.rows[id]))
  }

  lemma {:induction false} StatementKeepsHolds(db: Db, s: Statement)
    requires Inv(db) && Enabled(db, s)
    ensures HoldsOK(Apply(db, s))
  {
    hide HistoryOK;
  }

  lemma {:induction false} StatementKeepsTable(db: Db, s: Statement)
    requires Inv(db) && Enabled(db, s)
    ensures TableOK(Apply(db, s).rows)
  {
    hide HistoryOK;
  }

  /** Committing a version that evolves from the table's keeps the chain. */
  lemma HistoryGrows(rows: map<nat, Row>, history: seq<Version>, v: Version)
    requires TableOK(rows) && HistoryOK(rows, history)
    requires v.row.id in rows ==> Evolves(rows[v.row.id], v.row)
    ensures HistoryOK(rows[v.row.id := v.row], history + [v])
  {
    var rows', history' := rows[v.row.id := v.row], history + [v];
    assert history'[|history|] == v;
    forall id | id in rows'
      ensures exists i :: 0 <= i < |history'| && history'[i].row == rows'[id]
    {
      if id == v.row.id {
        assert history'[|history|].row == rows'[id];
      } else {
        var i :| 0 <= i < |history| && history[i].row == rows[id];
        assert history'[i].row == rows'[id];
      }
    }
  }

  lemma {:induction false} StatementKeepsInv(db: Db, s: Statement)
    requires Inv(db) && Enabled(db, s)
    ensures Inv(Apply(db, s))
  {
    hide HistoryOK;
    StatementKeepsHolds(db, s);
    StatementKeepsTable(db, s);
    if Selects(db, s) && s.Commit? {
      HistoryGrows(db.rows, db.history, Version(s.session, db.held[s.id].row));
    } else if Selects(db, s) && s.Insert? {
      HistoryGrows(db.rows, db.history, Version(s.session, s.row));
    }
  }

  lemma {:induction false} StatementExtends(db: Db, s: Statement)
    requires Inv(db) && Enabled(db, s)
    ensures Extends(db, Apply(db, s))
  {
  }

  lemma ExtendsTrans(a: Db, b: Db, c: Db)
    requires Extends(a, b) && Extends(b, c)
    ensures Extends(a, c)
  {
    assert c.history[..|a.history|] == b.history[..|a.history|];
  }

  // ----- runs --------------------------------------------------------------------------

  function Exec(db: Db, ss: seq<Statement>): Db
    decreases |ss|
  {
    if ss == [] then db else Exec(Apply(db, ss[0]), ss[1..])
  }

  predicate ValidRun(db: Db, ss: seq<Statement>)
    decreases |ss|
  {
    ss == [] || (Enabled(db, ss[0]) && ValidRun(Apply(db, ss[0]), ss[1..]))
  }

  /** Over every run of statements from any sessions: a row's revocation is set at most once and
      never changes, its last use never goes back and is frozen by the revocation. */
  lemma {:induction false} RunExtends(db: Db, ss: seq<Statement>)
    requires Inv(db) && ValidRun(db, ss)
    ensures Inv(Exec(db, ss)) && Extends(db, Exec(db, ss))
    ensures forall id :: id in db.rows ==>
              && id in Exec(db, ss).rows
              && var before, after := db.rows[id], Exec(db, ss).rows[id];
                 && after.id == before.id && after.clientId == before.clientId && after.digest == before.digest
                 && after.kind == before.kind && after.createdAt == before.createdAt
                 && (before.lastUsedAt.Some? ==> after.lastUsedAt.Some? && before.lastUsedAt.value <= after.lastUsedAt.value)
                 && (before.revokedAt.Some? ==> after.revokedAt == before.revokedAt && after.lastUsedAt == before.lastUsedAt)
    decreases |ss|
  {
    if ss != [] {
      StatementKeepsInv(db, ss[0]);
      StatementExtends(db, ss[0]);
      RunExtends(Apply(db, ss[0]), ss[1..]);
      ExtendsTrans(db, Apply(db, ss[0]), Exec(db, ss));
    }
  }

  /** The statement that set a revocation was issued for that key and for its own tenant. */
  ghost predicate RevokedBy(ss: seq<Statement>, row: Row) {
    exists k :: 0 <= k < |ss| && ss[k].UpdateRevoked? && ss[k].id == row.id && ss[k].clientId == row.clientId
             && row.revokedAt == Some(ss[k].at)
  }

  /** No tenant's row is revoked except by a revoke naming that key and that tenant. */
  lemma {:induction false} RevocationsAreOwn(ss: seq<Statement>)
    requires ValidRun(NO_KEYS, ss)
    ensures var db := Exec(NO_KEYS, ss);
            && (forall id :: id in db.rows && db.rows[id].revokedAt.Some? ==> RevokedBy(ss, db.rows[id]))
            && (forall id :: id in db.held && db.held[id].row.revokedAt.Some? ==> RevokedBy(ss, db.held[id].row))
    decreases |ss|
  {
    if ss != [] {
      var before, s := ss[..|ss| - 1], ss[|ss| - 1];
      RunSplits(NO_KEYS, ss);
      RevocationsAreOwn(before);
      RunExtends(NO_KEYS, before);
      forall row | RevokedBy(before, row)
        ensures RevokedBy(ss, row)
      {
        var k :| 0 <= k < |before| && before[k].UpdateRevoked? && before[k].id == row.id && before[k].clientId == row.clientId
              && row.revokedAt == Some(before[k].at);
        assert ss[k] == before[k];
      }
      assert ss[|ss| - 1] == s;
      RevokeStep(Exec(NO_KEYS, before), s, ss);
    }
  }

  lemma {:induction false} RevokeStep(db: Db, s: Statement, ss: seq<Statement>)
    requires TableOK(db.rows) && HoldsOK(db) && Enabled(db, s) && |ss| > 0 && ss[|ss| - 1] == s
    requires forall id :: id in db.rows && db.rows[id].revokedAt.Some? ==> RevokedBy(ss, db.rows[id])
    requires forall id :: id in db.held && db.held[id].row.revokedAt.Some? ==> RevokedBy(ss, db.held[id].row)
    ensures forall id :: id in Apply(db, s).rows && Apply(db, s).rows[id].revokedAt.Some? ==> RevokedBy(ss, Apply(db, s).rows[id])
    ensures forall id :: id in Apply(db, s).held && Apply(db, s).held[id].row.revokedAt.Some? ==> RevokedBy(ss, Apply(db, s).held[id].row)
  {
    if s.UpdateRevoked? && Selects(db, s) {
      var row := Apply(db, s).held[s.id].row;
      assert ss[|ss| - 1].id == row.id && ss[|ss| - 1].clientId == row.clientId && row.revokedAt == Some(s.at);
      assert RevokedBy(ss, row);
    }
  }

  lemma {:induction false} RunSplits(db: Db, ss: seq<Statement>)
    requires ss != []
    ensures var before := Exec(db, ss[..|ss| - 1]);
            && Exec(db, ss) == Apply(before, ss[|ss| - 1])
            && (ValidRun(db, ss) ==> ValidRun(db, ss[..|ss| - 1]) && Enabled(before, ss[|ss| - 1]))
    decreases |ss|
  {
    if |ss| > 1 {
      RunSplits(Apply(db, ss[0]), ss[1..]);
      assert ss[1..][..|ss| - 2] == ss[..|ss| - 1][1..];
    }
  }

  /** A version committed after a revoked version of the same key is that revoked version. */
  lemma RevokedIsFinal(db: Db, i: nat, j: nat)
    requires Inv(db) && i < j < |db.history| && db.history[i].row.id == db.history[j].row.id
    requires db.history[i].row.revokedAt.Some?
    ensures db.history[j].row == db.history[i].row
  {
  }
}
