/** Authentication and key administration as transactions over the shared key table.

    Other sessions run between any two statements of a transaction; a statement may fail or time
    out waiting for a lock, and a failed commit may or may not have taken effect. */
module AuthStore {
  import opened Prelude
  import opened KeyStore
  import opened Inventory

  /** What one statement returned: an error, no row, or the selected row. */
  datatype Reply = Failed | NoRow | Returned(row: Row)

  datatype StoreResult<+T> = Ok(value: T) | Unavailable

  datatype RevokeOutcome = Revoked(record: Row) | AlreadyRevoked(record: Row) | NotFound

  predicate Owned(db: Db, clientId: nat, key: nat) {
    key in db.rows && db.rows[key].clientId == clientId
  }

  predicate IsRevocation(row: Row, clientId: nat, key: nat, revokedAt: nat) {
    row.id == key && row.clientId == clientId && row.revokedAt == Some(revokedAt)
  }

  // ----- one session among others ------------------------------------------------------

  /** Rows held by the session are exactly as before. */
  ghost predicate HoldsSame(me: nat, earlier: Db, later: Db) {
    forall id :: HoldsRow(earlier, me, id) || HoldsRow(later, me, id) ==>
      && id in earlier.held && id in later.held && later.held[id] == earlier.held[id]
      && id in earlier.rows && id in later.rows && later.rows[id] == earlier.rows[id]
  }

  /** Since `start` the session committed nothing, whatever others did. */
  ghost predicate Running(me: nat, start: Db, now: Db) {
    && Inv(now) && Extends(start, now)
    && (forall n :: |start.history| <= n < |now.history| ==> now.history[n].session != me)
  }

  /** Since `start` the session committed exactly one version, `row`, as number `at`. */
  ghost predicate CommittedOnce(me: nat, start: Db, now: Db, at: nat, row: Row) {
    && |start.history| <= at < |now.history| && now.history[at] == Version(me, row)
    && (forall n :: |start.history| <= n < |now.history| && n != at ==> now.history[n].session != me)
  }

  /** The transaction that started at `start` is over. */
  ghost predicate Over(me: nat, start: Db, now: Db) {
    Inv(now) && Extends(start, now) && HoldsNothing(now, me)
  }

  predicate UsedSince(row: Row, usedAt: nat) {
    row.lastUsedAt.Some? && usedAt <= row.lastUsedAt.value
  }

  /** No version of the key committed before number `at` is revoked. */
  ghost predicate UnrevokedUntil(db: Db, at: nat, id: nat) {
    forall i :: 0 <= i < at < |db.history| && db.history[i].row.id == id ==> db.history[i].row.revokedAt.None?
  }

  lemma OthersHold(me: nat, db: Db, s: Statement)
    requires Inv(db) && Enabled(db, s) && s.session != me
    ensures HoldsSame(me, db, Apply(db, s))
  {
    hide TableOK, HistoryOK, Evolves;
  }

  lemma OthersRun(me: nat, start: Db, db: Db, s: Statement)
    requires Running(me, start, db) && Enabled(db, s) && s.session != me
    ensures Running(me, start, Apply(db, s))
  {
    hide Inv, Extends;
    StatementKeepsInv(db, s);
    StatementExtends(db, s);
    ExtendsTrans(start, db, Apply(db, s));
  }

  /** Reading and updating statements commit nothing. */
  lemma OwnStatement(me: nat, start: Db, db: Db, s: Statement)
    requires Running(me, start, db) && Enabled(db, s) && !s.Commit? && !s.Insert?
    ensures Running(me, start, Apply(db, s))
  {
    hide Inv, Extends;
    StatementKeepsInv(db, s);
    StatementExtends(db, s);
    ExtendsTrans(start, db, Apply(db, s));
  }

  lemma RunningNow(me: nat, db: Db)
    requires Inv(db)
    ensures Running(me, db, db) && HoldsSame(me, db, db)
  {
  }

  lemma HoldsOne(me: nat, db: Db, s: Statement)
    requires Inv(db) && (s.Commit? || s.Rollback?) && s.session == me && HoldsRow(db, me, s.id)
    ensures HoldsNothing(Apply(db, s), me)
  {
    hide TableOK, HistoryOK, Evolves;
  }

  lemma OwnCommit(me: nat, start: Db, db: Db, id: nat)
    requires Running(me, start, db) && HoldsRow(db, me, id)
    ensures var now := Apply(db, Commit(me, id));
            && Over(me, start, now) && CommittedOnce(me, start, now, |db.history|, db.held[id].row)
            && (id in db.rows && db.rows[id].revokedAt.None? ==> UnrevokedUntil(now, |db.history|, id))
  {
    hide Inv, Extends, HoldsNothing;
    var s := Commit(me, id);
    StatementKeepsInv(db, s);
    StatementExtends(db, s);
    ExtendsTrans(start, db, Apply(db, s));
    HoldsOne(me, db, s);
    if id in db.rows {
      UnrevokedSoFar(db, id);
    }
    assert |start.history| <= |db.history| by {
      Grown(start, db);
    }
  }

  lemma Grown(start: Db, db: Db)
    requires Extends(start, db)
    ensures |start.history| <= |db.history|
  {
  }

  lemma RowEvolves(earlier: Db, later: Db, id: nat)
    requires Inv(later) && Extends(earlier, later) && id in earlier.rows
    ensures id in later.rows && Evolves(earlier.rows[id], later.rows[id]) && later.rows[id].id == id
  {
    hide HistoryOK, HoldsOK, Evolves;
  }

  lemma OnlyKeyOf(db: Db, id: nat)
    requires Inv(db) && id in db.rows
    ensures forall key :: key in db.rows && db.rows[key].digest == db.rows[id].digest ==> key == id
  {
    hide HistoryOK, HoldsOK;
  }

  lemma HeldEvolves(db: Db, id: nat)
    requires Inv(db) && id in db.held
    ensures id in db.rows && Evolves(db.rows[id], db.held[id].row)
  {
    hide TableOK, HistoryOK, Evolves;
  }

  lemma WasUnused(earlier: Db, later: Db, digest: nat)
    requires Extends(earlier, later) && DigestUnused(later, digest)
    ensures DigestUnused(earlier, digest)
  {
  }

  lemma OwnRollback(me: nat, start: Db, db: Db, id: nat)
    requires Running(me, start, db) && HoldsRow(db, me, id)
    ensures Over(me, start, Apply(db, Rollback(me, id))) && Running(me, start, Apply(db, Rollback(me, id)))
  {
    hide Inv, Extends, HoldsNothing;
    OwnStatement(me, start, db, Rollback(me, id));
    HoldsOne(me, db, Rollback(me, id));
  }

  /** A row still unrevoked in the table has no revoked version. */
  lemma UnrevokedSoFar(db: Db, id: nat)
    requires Inv(db) && id in db.rows
    ensures db.rows[id].revokedAt.None? ==>
              forall i :: 0 <= i < |db.history| && db.history[i].row.id == id ==> db.history[i].row.revokedAt.None?
  {
  }

  datatype ListResult = Listed(rows: seq<Row>) | InvalidLimit | ListUnavailable

  /** With `quiet`, no other session acts; with `reliable`, no statement, read or commit fails. */
  class PostgresAuthStore {
    const quiet: bool
    const reliable: bool
    var db: Db

    // ----- statements ------------------------------------------------------------------

    /** Any other sessions' statements, in any number. */
    method Others(me: nat, ghost start: Db)
      requires Running(me, start, db)
      modifies this
      ensures Running(me, start, db) && HoldsSame(me, old(db), db)
      ensures Running(me, old(db), db)
      ensures quiet ==> db == old(db)
    {
      hide Inv, Extends;
      RunningNow(me, db);
      var n: nat :| true;
      while n > 0
        invariant Running(me, start, db) && HoldsSame(me, old(db), db) && Running(me, old(db), db)
        invariant quiet ==> db == old(db)
      {
        var s: Statement :| true;
        if !quiet && s.session != me && Enabled(db, s) {
          OthersHold(me, db, s);
          OthersRun(me, start, db, s);
          OthersRun(me, old(db), db, s);
          db := Apply(db, s);
        }
        n := n - 1;
      }
    }

    /** Issues one reading or updating statement; `before` is the table when it takes effect. */
    method Issue(ghost start: Db, s: Statement) returns (reply: Reply, ghost before: Db)
      requires Running(s.session, start, db) && (s.SelectForUpdate? || s.UpdateLastUsed? || s.UpdateRevoked?)
      modifies this
      ensures Running(s.session, start, db) && Running(s.session, start, before) && Running(s.session, old(db), before)
      ensures HoldsSame(s.session, old(db), before)
      ensures quiet ==> before == old(db)
      ensures match reply
              case Failed => db == before && (reliable ==> !Enabled(before, s))
              case NoRow => db == before && Enabled(before, s) && !Selects(before, s)
              case Returned(row) =>
                Enabled(before, s) && Selects(before, s) && db == Apply(before, s) && row == db.held[s.id].row
    {
      hide Inv, Extends;
      Others(s.session, start);
      before := db;
      var failed: bool :| true;
      if (failed && !reliable) || !Enabled(db, s) {
        return Failed, before;
      }
      OwnStatement(s.session, start, db, s);
      if !Selects(db, s) {
        return NoRow, before;
      }
      db := Apply(db, s);
      reply := Returned(db.held[s.id].row);
    }

    /** Commits the row the session holds; a commit that fails may or may not have taken effect. */
    method CommitRow(me: nat, ghost start: Db, id: nat) returns (ok: bool, ghost before: Db)
      requires Running(me, start, db) && HoldsRow(db, me, id)
      modifies this
      ensures Running(me, start, before) && HoldsSame(me, old(db), before) && HoldsRow(before, me, id)
      ensures Over(me, start, db)
      ensures ok ==> db == Apply(before, Commit(me, id))
      ensures (reliable ==> ok) && (quiet ==> before == old(db))
      ensures id in before.rows && Evolves(before.rows[id], before.held[id].row)
      ensures db == Apply(before, Commit(me, id)) ==>
                && CommittedOnce(me, start, db, |before.history|, before.held[id].row)
                && (before.rows[id].revokedAt.None? ==> UnrevokedUntil(db, |before.history|, id))
      ensures db == Apply(before, Commit(me, id)) || (db == Apply(before, Rollback(me, id)) && Running(me, start, db))
    {
      hide Inv, Extends, HoldsNothing;
      Others(me, start);
      before := db;
      OwnCommit(me, start, db, id);
      OwnRollback(me, start, db, id);
      HeldEvolves(db, id);
      var committed: bool :| true;
      committed := committed || reliable;
      db := Apply(db, if committed then Commit(me, id) else Rollback(me, id));
      var told: bool :| true;
      ok := committed && (told || reliable);
    }

    method RollbackRow(me: nat, ghost start: Db, id: nat)
      requires Running(me, start, db) && HoldsRow(db, me, id)
      modifies this
      ensures Over(me, start, db) && Running(me, start, db)
    {
      hide Inv, Extends, HoldsNothing;
      Others(me, start);
      OwnRollback(me, start, db, id);
      db := Apply(db, Rollback(me, id));
    }

    /** Ends a transaction that locked nothing. */
    method CommitNothing(me: nat, ghost start: Db) returns (ok: bool)
      requires Running(me, start, db) && HoldsNothing(db, me)
      modifies this
      ensures Over(me, start, db) && Running(me, start, db) && Running(me, old(db), db)
      ensures (reliable ==> ok) && (quiet ==> db == old(db))
    {
      hide Inv, Extends;
      Others(me, start);
      ok :| true;
      ok := ok || reliable;
    }

    // ----- transactions ----------------------------------------------------------------

    /** `authenticate_digest_on`: locks the row of the digest and records its use. */
    method AuthenticateDigest(me: nat, digest: nat, usedAt: nat) returns (result: StoreResult<Option<Row>>, ghost at: nat)
      requires Inv(db) && HoldsNothing(db, me)
      modifies this
      ensures Over(me, old(db), db)
      ensures result == Ok(None) ==> DigestUnused(old(db), digest) && Running(me, old(db), db)
      ensures result.Ok? && result.value.Some? ==>
                var record := result.value.value;
                && record.digest == digest && CommittedOnce(me, old(db), db, at, record)
                && (record.revokedAt.None? ==> UsedSince(record, usedAt) && UnrevokedUntil(db, at, record.id))
      ensures result.Unavailable? ==>
                || Running(me, old(db), db)
                || (exists row: Row :: row.digest == digest && CommittedOnce(me, old(db), db, at, row))
      ensures quiet && reliable && DigestUnused(old(db), digest) ==> result == Ok(None) && db.rows == old(db).rows
      ensures forall key :: quiet && reliable && key in old(db).rows && old(db).rows[key].digest == digest && key !in old(db).held ==>
                var row := old(db).rows[key];
                var latest := if row.lastUsedAt.Some? then Max(row.lastUsedAt.value, usedAt) else usedAt;
                var used := if row.revokedAt.Some? then row else row.(lastUsedAt := Some(latest));
                result == Ok(Some(used)) && db.rows == old(db).rows[key := used]
    {
      hide Inv, Extends;
      ghost var start := db;
      RunningNow(me, db);
      at := |db.history|;
      Others(me, start);
      ghost var found := db;
      if id :| id in db.rows && db.rows[id].digest == digest {
        OnlyKeyOf(found, id);
        var reply, locked := Issue(start, SelectForUpdate(me, id));
        if !reply.Returned? {
          return Unavailable, at;
        }
        RowEvolves(found, locked, id);
        var record := reply.row;
        var readable: bool :| true;
        if !readable && !reliable {
          RollbackRow(me, start, id);
          return Unavailable, at;
        }
        if record.revokedAt.Some? {
          var ok, ended := CommitRow(me, start, id);
          at := |ended.history|;
          return if ok then Ok(Some(record)) else Unavailable, at;
        }
        var updated, touched := Issue(start, UpdateLastUsed(me, id, record.clientId, usedAt));
        match updated {
          case Failed =>
            RollbackRow(me, start, id);
            return Unavailable, at;
          case NoRow =>
          case Returned(row) =>
            record := record.(lastUsedAt := row.lastUsedAt);
        }
        var ok, ended := CommitRow(me, start, id);
        at := |ended.history|;
        return if ok then Ok(Some(record)) else Unavailable, at;
      } else {
        WasUnused(start, db, digest);
        var ok := CommitNothing(me, start);
        return if ok then Ok(None) else Unavailable, at;
      }
    }

    /** `revoke_key`: revokes the tenant's unrevoked key, or tells why there was none. */
    method RevokeKey(me: nat, clientId: nat, key: nat, revokedAt: nat) returns (result: StoreResult<RevokeOutcome>, ghost at: nat)
      requires Inv(db) && HoldsNothing(db, me)
      modifies this
      ensures Over(me, old(db), db)
      ensures match result
              case Ok(Revoked(record)) =>
                && IsRevocation(record, clientId, key, revokedAt)
                && CommittedOnce(me, old(db), db, at, record) && UnrevokedUntil(db, at, key)
              case Ok(AlreadyRevoked(record)) =>
                && Running(me, old(db), db)
                && key in db.rows && Evolves(record, db.rows[key]) && record.id == key && record.clientId == clientId
                && (key in old(db).rows ==> record.revokedAt.Some?)
              case Ok(NotFound) =>
                Running(me, old(db), db) && !Owned(old(db), clientId, key)
              case Unavailable =>
                || Running(me, old(db), db)
                || (exists row :: IsRevocation(row, clientId, key, revokedAt) && CommittedOnce(me, old(db), db, at, row))
      ensures Owned(old(db), clientId, key) && old(db).rows[key].revokedAt.Some? ==>
                result in {Ok(AlreadyRevoked(old(db).rows[key])), Unavailable} && Running(me, old(db), db)
      ensures quiet && reliable ==>
                if !(key in old(db).rows && old(db).rows[key].clientId == clientId) then result == Ok(NotFound) && db.rows == old(db).rows
                else if old(db).rows[key].revokedAt.Some? then result == Ok(AlreadyRevoked(old(db).rows[key])) && db.rows == old(db).rows
                else if key !in old(db).held then
                  var revoked := old(db).rows[key].(revokedAt := Some(revokedAt));
                  result == Ok(Revoked(revoked)) && db.rows == old(db).rows[key := revoked]
                else result == Unavailable
    {
      hide Inv, Extends;
      ghost var start := db;
      RunningNow(me, db);
      at := |db.history|;
      var reply, tried := Issue(start, UpdateRevoked(me, key, clientId, revokedAt));
      if key in start.rows {
        RowEvolves(start, tried, key);
      }
      match reply {
        case Failed =>
          return Unavailable, at;
        case Returned(row) =>
          var readable: bool :| true;
          if !readable && !reliable {
            RollbackRow(me, start, key);
            return Unavailable, at;
          }
          RunningNow(me, tried);
          RowEvolves(tried, tried, key);
          var ok, ended := CommitRow(me, start, key);
          at := |ended.history|;
          return if ok then Ok(Revoked(row)) else Unavailable, at;
        case NoRow =>
      }
      Others(me, start);
      if key in tried.rows {
        RowEvolves(tried, db, key);
      }
      var failed: bool :| true;
      if failed && !reliable {
        return Unavailable, at;
      }
      ghost var seen := db;
      var existing := if key in db.rows && db.rows[key].clientId == clientId then Some(db.rows[key]) else None;
      var ok := CommitNothing(me, start);
      if existing.Some? {
        RowEvolves(seen, db, key);
      }
      return if !ok then Unavailable else if existing.Some? then Ok(AlreadyRevoked(existing.value)) else Ok(NotFound), at;
    }

    /** `touch_last_used`: one statement that commits by itself. */
    method TouchLastUsed(me: nat, clientId: nat, key: nat, usedAt: nat) returns (result: StoreResult<bool>, ghost at: nat)
      requires Inv(db) && HoldsNothing(db, me)
      modifies this
      ensures Over(me, old(db), db)
      ensures result == Ok(true) ==>
                exists row :: CommittedOnce(me, old(db), db, at, row) && row.id == key && row.clientId == clientId
                           && row.lastUsedAt == Some(usedAt) && UnrevokedUntil(db, at, key)
      ensures result == Ok(false) ==>
                && Running(me, old(db), db)
                && (Owned(old(db), clientId, key) ==> key in db.rows && (db.rows[key].revokedAt.Some? || UsedSince(db.rows[key], usedAt)))
      ensures quiet && reliable && key !in old(db).held ==>
                var matches := && key in old(db).rows && old(db).rows[key].clientId == clientId && old(db).rows[key].revokedAt.None?
                               && (old(db).rows[key].lastUsedAt.None? || old(db).rows[key].lastUsedAt.value < usedAt);
                && result == Ok(matches)
                && db.rows == if matches then old(db).rows[key := old(db).rows[key].(lastUsedAt := Some(usedAt))] else old(db).rows
    {
      hide Inv, Extends;
      ghost var start := db;
      RunningNow(me, db);
      at := |db.history|;
      var reply, tried := Issue(start, UpdateLastUsed(me, key, clientId, usedAt));
      if key in start.rows {
        RowEvolves(start, tried, key);
      }
      match reply {
        case Failed =>
          return Unavailable, at;
        case NoRow =>
          return Ok(false), at;
        case Returned(row) =>
          RunningNow(me, tried);
          RowEvolves(tried, tried, key);
          var ok, ended := CommitRow(me, start, key);
          at := |ended.history|;
          return if ok then Ok(true) else Unavailable, at;
      }
    }

    /** `list_keys_for_client`: a slice of the tenant's listing, in the committed table `seen`. */
    method ListKeysForClient(me: nat, clientId: nat, limit: int, offset: int, kind: Option<KeyKind>) returns (result: ListResult, ghost seen: Db)
      requires Inv(db) && HoldsNothing(db, me)
      modifies this
      ensures Over(me, old(db), db) && db == seen && (quiet ==> db == old(db))
      ensures reliable ==> result != ListUnavailable
      ensures result == InvalidLimit <==> !(1 <= limit <= MAX_KEY_LIST_LIMIT && 0 <= offset)
      ensures result.Listed? ==> result.rows == Slice(Listing(seen.rows, clientId, kind), limit, offset)
    {
      if !(1 <= limit <= MAX_KEY_LIST_LIMIT) || offset < 0 {
        RunningNow(me, db);
        return InvalidLimit, db;
      }
      RunningNow(me, db);
      Others(me, db);
      seen := db;
      var failed: bool :| true;
      if failed && !reliable {
        return ListUnavailable, db;
      }
      result := Listed(Slice(Listing(db.rows, clientId, kind), limit, offset));
    }
  }

  // ----- revocation and authentication together ----------------------------------------

  /** Every unrevoked version of a key, such as a successful authentication commits, precedes
      every revoked one. */
  lemma {:induction false} AuthenticationPrecedesRevocation(db: Db, at: nat, revoked: nat)
    requires Inv(db) && at < |db.history| && revoked < |db.history|
    requires db.history[at].row.id == db.history[revoked].row.id
    requires db.history[at].row.revokedAt.None? && db.history[revoked].row.revokedAt.Some?
    ensures at < revoked
  {
    if revoked < at {
      RevokedIsFinal(db, revoked, at);
    }
  }

  /** Whatever is committed for the digest of a key that was revoked at `start` is that revoked row. */
  lemma {:induction false} RevokedStaysDenied(start: Db, now: Db, key: nat, at: nat)
    requires Inv(start) && Inv(now) && Extends(start, now)
    requires key in start.rows && start.rows[key].revokedAt.Some?
    requires |start.history| <= at < |now.history| && now.history[at].row.digest == start.rows[key].digest
    ensures now.history[at].row == start.rows[key]
  {
    var i :| 0 <= i < |start.history| && start.history[i].row == start.rows[key];
    assert now.history[..|start.history|][i] == start.history[i];
    SameDigestSameKey(now, i, at);
    RevokedIsFinal(now, i, at);
  }

  lemma SameDigestSameKey(db: Db, i: nat, j: nat)
    requires Inv(db) && i < |db.history| && j < |db.history| && db.history[i].row.digest == db.history[j].row.digest
    ensures db.history[i].row.id == db.history[j].row.id
  {
    var a, b := db.history[i].row.id, db.history[j].row.id;
    assert a in db.rows && Evolves(db.history[i].row, db.rows[a]);
    assert b in db.rows && Evolves(db.history[j].row, db.rows[b]);
  }

  /** Other sessions' statements only. */
  predicate Foreign(me: nat, ss: seq<Statement>) {
    forall k :: 0 <= k < |ss| ==> ss[k].session != me
  }

  /** A revocation can be told that the key was revoked already although it is not: with other
      sessions' statements `first` before its update and `second` between update and select, the
      update finds no row and the select finds the tenant's unrevoked one. */
  ghost predicate Misreports(db: Db, me: nat, clientId: nat, key: nat, at: nat, first: seq<Statement>, second: seq<Statement>) {
    && Foreign(me, first) && Foreign(me, second) && ValidRun(db, first)
    && var tried := Exec(db, first);
       && !Selects(tried, UpdateRevoked(me, key, clientId, at)) && ValidRun(tried, second)
       && Owned(Exec(tried, second), clientId, key) && Exec(tried, second).rows[key].revokedAt.None?
  }

  lemma HoldsNoRow(db: Db, me: nat)
    ensures HoldsNothing(db, me) <==> forall id :: !HoldsRow(db, me, id)
  {
    assert forall id :: id in db.held ==> (HoldsRow(db, me, id) <==> db.held[id].session == me);
  }

  lemma {:induction false} ForeignKeepsHolds(db: Db, me: nat, ss: seq<Statement>)
    requires Inv(db) && HoldsNothing(db, me) && ValidRun(db, ss) && Foreign(me, ss)
    ensures HoldsNothing(Exec(db, ss), me)
    decreases |ss|
  {
    if ss != [] {
      OthersHold(me, db, ss[0]);
      StatementKeepsInv(db, ss[0]);
      var next := Apply(db, ss[0]);
      HoldsNoRow(db, me);
      HoldsNoRow(next, me);
      ForeignKeepsHolds(next, me, ss[1..]);
    }
  }

  lemma {:induction false} UnusedDigest(rows: map<nat, Row>) returns (digest: nat)
    ensures forall id :: id in rows ==> rows[id].digest < digest
    decreases |rows|
  {
    if rows == map[] {
      digest := 0;
    } else {
      var id :| id in rows;
      var rest := rows - {id};
      assert rest.Keys == rows.Keys - {id};
      digest := UnusedDigest(rest);
      digest := Max(digest, rows[id].digest + 1);
      assert forall other :: other in rows && other != id ==> other in rest && rest[other] == rows[other];
    }
  }

  /** Such a false report is possible exactly when the key does not exist as the revocation begins,
      whatever the tenant and whoever else acts. */
  lemma {:induction false} MisreportExactly(db: Db, me: nat, clientId: nat, key: nat, at: nat)
    requires Inv(db) && HoldsNothing(db, me)
    ensures (exists first, second :: Misreports(db, me, clientId, key, at, first, second)) <==> key !in db.rows
  {
    if key !in db.rows {
      InsertMisleads(db, me, clientId, key, at);
    }
    forall first, second | Misreports(db, me, clientId, key, at, first, second)
      ensures key !in db.rows
    {
      ExistingIsReportedRight(db, me, clientId, key, at, first, second);
    }
  }

  lemma InsertMisleads(db: Db, me: nat, clientId: nat, key: nat, at: nat)
    requires Inv(db) && key !in db.rows
    ensures exists first, second :: Misreports(db, me, clientId, key, at, first, second)
  {
    hide Inv;
    var digest := UnusedDigest(db.rows);
    var row := Row(key, clientId, digest, Inference, 0, None, None);
    var second := [Insert(me + 1, row)];
    assert second[1..] == [];
    assert Exec(db, []) == db && ValidRun(db, []);
    assert DigestUnused(db, digest);
    assert Enabled(db, second[0]) && ValidRun(Apply(db, second[0]), second[1..]);
    assert ValidRun(db, second) && Exec(db, second) == Exec(Apply(db, second[0]), second[1..]) == Apply(db, second[0]);
    assert Misreports(db, me, clientId, key, at, [], second);
  }

  lemma ExistingIsReportedRight(db: Db, me: nat, clientId: nat, key: nat, at: nat, first: seq<Statement>, second: seq<Statement>)
    requires Inv(db) && HoldsNothing(db, me) && Misreports(db, me, clientId, key, at, first, second)
    ensures key !in db.rows
  {
    hide Inv, Extends;
    RunExtends(db, first);
    ForeignKeepsHolds(db, me, first);
    var tried := Exec(db, first);
    RunExtends(tried, second);
    if key in db.rows {
      RowEvolves(db, tried, key);
      RowEvolves(tried, Exec(tried, second), key);
    }
  }

  // ----- the service -------------------------------------------------------------------

  datatype AuthContext = AuthContext(clientId: nat, keyId: nat, kind: KeyKind)

  datatype AuthError = InvalidCredentials | StoreUnavailable | CapabilityDenied | KeyNotFound | InvalidInput

  datatype AuthResult<+T> = Granted(value: T) | Denied(error: AuthError)

  function RequireManagement(actor: AuthContext): (refused: Option<AuthError>)
    ensures refused.None? <==> actor.kind == Management
  {
    if actor.kind != Management then Some(CapabilityDenied) else None
  }

  class AuthService {
    const store: PostgresAuthStore

    constructor (store: PostgresAuthStore)
      ensures this.store == store
    {
      this.store := store;
    }

    /** A granted context names a row that was committed, unrevoked and freshly used, by this very
        call, before any revocation of it; a credential revoked before the call is denied. */
    method Authenticate(me: nat, digest: nat, usedAt: nat) returns (result: AuthResult<AuthContext>, ghost at: nat)
      requires Inv(store.db) && HoldsNothing(store.db, me)
      modifies store
      ensures Over(me, old(store.db), store.db)
      ensures result.Granted? ==>
                && |old(store.db).history| <= at < |store.db.history|
                && var row := store.db.history[at].row;
                && CommittedOnce(me, old(store.db), store.db, at, row) && row.digest == digest
                && result.value == AuthContext(row.clientId, row.id, row.kind)
                && row.revokedAt.None? && UsedSince(row, usedAt) && UnrevokedUntil(store.db, at, row.id)
      ensures forall key :: key in old(store.db).rows && old(store.db).rows[key].digest == digest && old(store.db).rows[key].revokedAt.Some? ==>
                result.Denied?
      ensures result == Denied(InvalidCredentials) ==>
                || DigestUnused(old(store.db), digest)
                || (exists row: Row :: row.digest == digest && row.revokedAt.Some? && CommittedOnce(me, old(store.db), store.db, at, row))
      ensures result.Denied? ==> result.error.InvalidCredentials? || result.error.StoreUnavailable?
      ensures store.quiet && store.reliable && DigestUnused(old(store.db), digest) ==> result == Denied(InvalidCredentials)
      ensures forall key :: store.quiet && store.reliable
                            && key in old(store.db).rows && old(store.db).rows[key].digest == digest && key !in old(store.db).held ==>
                var row := old(store.db).rows[key];
                if row.revokedAt.Some? then result == Denied(InvalidCredentials)
                else
                  var latest := if row.lastUsedAt.Some? then Max(row.lastUsedAt.value, usedAt) else usedAt;
                  && result == Granted(AuthContext(row.clientId, key, row.kind))
                  && store.db.rows == old(store.db).rows[key := row.(lastUsedAt := Some(latest))]
    {
      var record;
      record, at := store.AuthenticateDigest(me, digest, usedAt);
      match record {
        case Unavailable =>
          return Denied(StoreUnavailable), at;
        case Ok(None) =>
          return Denied(InvalidCredentials), at;
        case Ok(Some(row)) =>
          if row.revokedAt.Some? {
            return Denied(InvalidCredentials), at;
          }
          forall key | key in old(store.db).rows && old(store.db).rows[key].digest == digest && old(store.db).rows[key].revokedAt.Some?
            ensures false
          {
            RevokedStaysDenied(old(store.db), store.db, key, at);
          }
          return Granted(AuthContext(row.clientId, row.id, row.kind)), at;
      }
    }

    /** After a successful revocation the key, if it existed when the call began, is revoked. */
    method RevokeKey(me: nat, actor: AuthContext, key: nat, now: nat) returns (result: AuthResult<()>)
      requires Inv(store.db) && HoldsNothing(store.db, me)
      modifies store
      ensures Over(me, old(store.db), store.db)
      ensures actor.kind != Management ==> result == Denied(CapabilityDenied) && store.db == old(store.db)
      ensures result.Granted? ==>
                && actor.kind == Management && Owned(store.db, actor.clientId, key)
                && (key in old(store.db).rows ==> store.db.rows[key].revokedAt.Some?)
      ensures result == Denied(KeyNotFound) ==> !Owned(old(store.db), actor.clientId, key)
      ensures result.Denied? ==> result.error.CapabilityDenied? || result.error.KeyNotFound? || result.error.StoreUnavailable?
      ensures actor.kind == Management && store.quiet && store.reliable && key !in old(store.db).held ==>
                if key in old(store.db).rows && old(store.db).rows[key].clientId == actor.clientId then
                  var row := old(store.db).rows[key];
                  && result == Granted(())
                  && store.db.rows == old(store.db).rows[key := if row.revokedAt.Some? then row else row.(revokedAt := Some(now))]
                else
                  result == Denied(KeyNotFound) && store.db.rows == old(store.db).rows
    {
      var refused := RequireManagement(actor);
      if refused.Some? {
        return Denied(refused.value);
      }
      var outcome, at := store.RevokeKey(me, actor.clientId, key, now);
      match outcome {
        case Unavailable =>
          return Denied(StoreUnavailable);
        case Ok(NotFound) =>
          return Denied(KeyNotFound);
        case Ok(Revoked(record)) =>
          return Granted(());
        case Ok(AlreadyRevoked(record)) =>
          return Granted(());
      }
    }

    /** `list_keys`: one page, and a peek at the key after it that decides `hasMore`.  `first` and
        `second` are the tables the two queries saw. */
    method ListKeys(me: nat, actor: AuthContext, limit: int, offset: int, kind: Option<KeyKind>) returns (result: AuthResult<Page>, ghost first: Db, ghost second: Db)
      requires Inv(store.db) && HoldsNothing(store.db, me) && offset <= I64_MAX
      modifies store
      ensures Over(me, old(store.db), store.db) && (store.quiet ==> store.db == old(store.db) && first == second == store.db)
      ensures actor.kind != Management <==> result == Denied(CapabilityDenied)
      ensures actor.kind == Management ==> (result == Denied(InvalidInput) <==> !(1 <= limit <= 100 && 0 <= offset))
      ensures result.Denied? ==> result.error.CapabilityDenied? || result.error.InvalidInput? || result.error.StoreUnavailable?
      ensures store.reliable ==> result != Denied(StoreUnavailable)
      ensures result.Granted? ==>
                && Inv(first) && Inv(second)
                && result.value.keys == Slice(Listing(first.rows, actor.clientId, kind), limit, offset)
                && (result.value.hasMore <==>
                      && |result.value.keys| == limit
                      && offset + limit <= I64_MAX && offset + limit < |Listing(second.rows, actor.clientId, kind)|)
    {
      hide TableOK, HoldsOK, HistoryOK, Extends, Listing, Slice;
      first, second := store.db, store.db;
      var refused := RequireManagement(actor);
      RunningNow(me, store.db);
      if refused.Some? {
        return Denied(refused.value), first, second;
      }
      if !(1 <= limit <= MAX_KEY_LIST_LIMIT) {
        return Denied(InvalidInput), first, second;
      }
      if offset < 0 {
        return Denied(InvalidInput), first, second;
      }
      var records;
      records, first := store.ListKeysForClient(me, actor.clientId, limit, offset, kind);
      second := first;
      if !records.Listed? {
        return Denied(StoreUnavailable), first, second;
      }
      var hasMore := false;
      if |records.rows| == limit && offset + limit <= I64_MAX {
        var peek;
        peek, second := store.ListKeysForClient(me, actor.clientId, 1, offset + limit, kind);
        ExtendsTrans(old(store.db), first, second);
        if !peek.Listed? {
          return Denied(StoreUnavailable), first, second;
        }
        PeekTells(Listing(second.rows, actor.clientId, kind), offset + limit);
        hasMore := peek.rows != [];
      }
      return Granted(Page(records.rows, hasMore)), first, second;
    }
  }

  /** In a quiescent store a page says that a key follows exactly when one does, unless the next
      offset is not an i64; it is one whenever the listing itself is no longer than that. */
  lemma {:induction false} QuietPage(store: Db, clientId: nat, kind: Option<KeyKind>, limit: nat, offset: nat, page: Page)
    requires Inv(store) && limit > 0
    requires page.keys == Slice(Listing(store.rows, clientId, kind), limit, offset)
    requires page.hasMore <==>
               |page.keys| == limit && offset + limit <= I64_MAX && offset + limit < |Listing(store.rows, clientId, kind)|
    ensures IsPage(Listing(store.rows, clientId, kind), limit, offset, page) <==>
              (offset + limit < |Listing(store.rows, clientId, kind)| ==> offset + limit <= I64_MAX)
    ensures |Listing(store.rows, clientId, kind)| <= I64_MAX + 1 ==> IsPage(Listing(store.rows, clientId, kind), limit, offset, page)
  {
    var list := Listing(store.rows, clientId, kind);
    if offset + limit < |list| {
      assert |Slice(list, limit, offset)| == limit;
    }
  }

  /** A client that follows pages from the first one on until told that no more follow, in a store
      nobody else changes, gets the tenant's matching keys, each once, newest first. */
  method FollowPages(service: AuthService, me: nat, actor: AuthContext, limit: int, kind: Option<KeyKind>) returns (result: AuthResult<seq<Row>>)
    requires Inv(service.store.db) && HoldsNothing(service.store.db, me) && service.store.quiet
    requires actor.kind == Management && 1 <= limit <= MAX_KEY_LIST_LIMIT
    requires |Listing(service.store.db.rows, actor.clientId, kind)| <= I64_MAX
    modifies service.store
    ensures service.store.db == old(service.store.db)
    ensures match result
            case Granted(keys) => keys == Listing(old(service.store.db).rows, actor.clientId, kind)
            case Denied(error) => error == StoreUnavailable && !service.store.reliable
  {
    hide TableOK, HoldsOK, HistoryOK, Extends, Listing;
    ghost var db := service.store.db;
    ghost var list := Listing(db.rows, actor.clientId, kind);
    var keys: seq<Row> := [];
    var offset := 0;
    var more := true;
    while more
      invariant service.store.db == db && 0 <= offset
      invariant keys == list[..Min(offset, |list|)]
      invariant if more then offset == 0 || offset < |list| else |list| <= offset
      decreases more, |list| - offset
    {
      var page, first, second := service.ListKeys(me, actor, limit, offset, kind);
      if page.Denied? {
        return Denied(page.error);
      }
      QuietPage(db, actor.clientId, kind, limit, offset, page.value);
      assert list[..Min(offset, |list|)] + Slice(list, limit, offset) == list[..Min(offset + limit, |list|)];
      keys := keys + page.value.keys;
      offset := offset + limit;
      more := page.value.hasMore;
    }
    assert list[..Min(offset, |list|)] == list;
    return Granted(keys);
  }
}
