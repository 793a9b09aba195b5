/** The two tables, their constraints, and the statements the service runs on them. */
module Repository {
  import opened Wrappers
  import opened Domain

  type Rows = map<UUID, Row>

  datatype Store = Store(rows: Rows, events: map<EventKey, Event>)

  /** `Constraint` is a unique or primary key violation, `Unavailable` any other database failure. */
  datatype RepoError = NotFound | Constraint | Unavailable

  /** What a purchase is looked up by. */
  datatype SubKey =
    | ByTransaction(provider: Provider, originalTransactionID: string)
    | ByToken(provider: Provider, purchaseToken: string)

  predicate Matches(row: Row, key: SubKey) {
    match key
    case ByTransaction(p, id) => row.provider == p && row.originalTransactionID == Some(id)
    case ByToken(p, token) => row.provider == p && row.purchaseToken == Some(token)
  }

  /** Two rows that one of the two partial unique indexes forbids to coexist. */
  predicate Collide(a: Row, b: Row) {
    a.provider == b.provider
    && ((a.originalTransactionID.Some? && a.originalTransactionID == b.originalTransactionID)
        || (a.purchaseToken.Some? && a.purchaseToken == b.purchaseToken))
  }

  /** Whether storing `row` under its id breaks a unique index or the status check. */
  predicate Violates(rows: Rows, row: Row) {
    !row.status.Valid() || exists id :: id in rows && id != row.id && Collide(rows[id], row)
  }

  /** The database constraints. */
  ghost predicate Valid(rows: Rows) {
    && (forall id :: id in rows ==> rows[id].id == id && rows[id].status.Valid())
    && (forall a, b :: a in rows && b in rows && a != b ==> !Collide(rows[a], rows[b]))
  }

  /** INSERT. */
  function Inserted(rows: Rows, row: Row): Result<Rows, RepoError> {
    if row.id in rows || Violates(rows, row) then Err(Constraint) else Ok(rows[row.id := row])
  }

  /** The row an UPDATE leaves behind: `user_id`, `provider` and `created_at` are never written. */
  function Merged(current: Row, row: Row): Row {
    row.(userID := current.userID, provider := current.provider, createdAt := current.createdAt)
  }

  /** UPDATE ... WHERE id. */
  function Updated(rows: Rows, row: Row): Result<Rows, RepoError> {
    if row.id !in rows then Err(NotFound)
    else
      var merged := Merged(rows[row.id], row);
      if Violates(rows, merged) then Err(Constraint) else Ok(rows[row.id := merged])
  }

  /** INSERT ... ON CONFLICT (id) DO UPDATE. */
  function Upserted(rows: Rows, row: Row): Result<Rows, RepoError> {
    if row.id in rows then Updated(rows, row) else Inserted(rows, row)
  }

  /** The row a keyed lookup reads; the unique indexes leave at most one. */
  ghost function Find(rows: Rows, key: SubKey): Option<Row> {
    if exists id :: id in rows && Matches(rows[id], key) then
      var id :| id in rows && Matches(rows[id], key);
      Some(rows[id])
    else
      None
  }

  /** `row` is a row of `user` that no other row of the user was updated after. */
  ghost predicate IsLatest(rows: Rows, user: UUID, row: Row) {
    && (exists id :: id in rows && rows[id] == row)
    && row.userID == user
    && (forall id :: id in rows && rows[id].userID == user ==> rows[id].updatedAt <= row.updatedAt)
  }

  ghost predicate HasRows(rows: Rows, user: UUID) {
    exists id :: id in rows && rows[id].userID == user
  }

  function WithoutUser(rows: Rows, user: UUID): Rows {
    map id | id in rows && rows[id].userID != user :: rows[id]
  }

  /** A lookup answers with the one matching row, whichever row that is. */
  lemma FindIsUnique(rows: Rows, id: UUID, key: SubKey)
    requires Valid(rows) && id in rows && Matches(rows[id], key)
    ensures Find(rows, key) == Some(rows[id])
    ensures forall other :: other in rows && Matches(rows[other], key) ==> other == id
  {
  }

  /** A user with rows has a most recently updated one. */
  lemma {:induction false} LatestExists(rows: Rows, user: UUID, among: set<UUID>) returns (best: UUID)
    requires among != {} && forall id :: id in among ==> id in rows && rows[id].userID == user
    ensures best in among && forall id :: id in among ==> rows[id].updatedAt <= rows[best].updatedAt
  {
    var one :| one in among;
    if among == {one} {
      best := one;
    } else {
      var rest := LatestExists(rows, user, among - {one});
      best := if rows[rest].updatedAt > rows[one].updatedAt then rest else one;
    }
  }

  /** Every statement keeps the constraints, whether it succeeds or not. */
  lemma StatementsKeepConstraints(rows: Rows, row: Row)
    requires Valid(rows)
    ensures Inserted(rows, row).Ok? ==> Valid(Inserted(rows, row).value)
    ensures Updated(rows, row).Ok? ==> Valid(Updated(rows, row).value)
    ensures Upserted(rows, row).Ok? ==> Valid(Upserted(rows, row).value)
  {
  }

  lemma DeletionKeepsConstraints(rows: Rows, user: UUID)
    requires Valid(rows)
    ensures Valid(WithoutUser(rows, user))
  {
  }

  lemma PutKeepsConstraints(rows: Rows, row: Row)
    requires Valid(rows)
    ensures !Violates(rows, row) ==> Valid(rows[row.id := row])
  {
  }

  /** Writing one row changes the answer of exactly the lookups that row takes part in. */
  lemma FindAfterPut(rows: Rows, row: Row, key: SubKey)
    requires Valid(rows) && Valid(rows[row.id := row])
    ensures Matches(row, key) ==> Find(rows[row.id := row], key) == Some(row)
    ensures !Matches(row, key) && (row.id in rows ==> !Matches(rows[row.id], key)) ==>
              Find(rows[row.id := row], key) == Find(rows, key)
  {
    var after := rows[row.id := row];
    if Matches(row, key) {
      FindIsUnique(after, row.id, key);
    } else if row.id in rows ==> !Matches(rows[row.id], key) {
      if id :| id in rows && Matches(rows[id], key) {
        FindIsUnique(rows, id, key);
        assert after[id] == rows[id];
        FindIsUnique(after, id, key);
      } else {
        assert forall id :: id in after ==> !Matches(after[id], key);
      }
    }
  }

  /** What a lookup finds is stored and matches; finding nothing means nothing matches. */
  lemma FindAnswers(rows: Rows, key: SubKey)
    requires Valid(rows)
    ensures match Find(rows, key)
            case Some(row) => row.id in rows && rows[row.id] == row && Matches(row, key)
            case None => forall id :: id in rows ==> !Matches(rows[id], key)
  {
  }

  /** The repository against the database. The argument `fails` of a statement says
      that it does not get through. */
  class SubscriptionRepository {
    var rows: Rows
    var events: map<EventKey, Event>

    function Contents(): Store
      reads this
    {
      Store(rows, events)
    }

    constructor ()
      ensures Contents() == Store(map[], map[])
    {
      rows, events := map[], map[];
    }

    method FindByKey(key: SubKey, fails: bool) returns (r: Result<Subscription, RepoError>)
      ensures fails ==> r == Err(Unavailable)
      ensures !fails && r.Err? ==> r == Err(NotFound) && forall id :: id in rows ==> !Matches(rows[id], key)
      ensures !fails && r.Ok? ==> fresh(r.value)
      ensures !fails && r.Ok? ==> exists id :: id in rows && Matches(rows[id], key) && r.value.row == rows[id]
    {
      if fails {
        return Err(Unavailable);
      }
      if id :| id in rows && Matches(rows[id], key) {
        var sub := new Subscription.Scan(rows[id]);
        return Ok(sub);
      }
      return Err(NotFound);
    }

    method FindByProviderAndTransaction(provider: Provider, originalTransactionID: string, fails: bool)
      returns (r: Result<Subscription, RepoError>)
      requires Valid(rows)
      ensures fails ==> r == Err(Unavailable)
      ensures !fails ==> match Find(rows, ByTransaction(provider, originalTransactionID))
                         case None => r == Err(NotFound)
                         case Some(row) => r.Ok? && fresh(r.value) && r.value.row == row
    {
      var key := ByTransaction(provider, originalTransactionID);
      r := FindByKey(key, fails);
      if r.Ok? {
        FindIsUnique(rows, r.value.row.id, key);
      }
    }

    method FindByProviderAndPurchaseToken(provider: Provider, purchaseToken: string, fails: bool)
      returns (r: Result<Subscription, RepoError>)
      requires Valid(rows)
      ensures fails ==> r == Err(Unavailable)
      ensures !fails ==> match Find(rows, ByToken(provider, purchaseToken))
                         case None => r == Err(NotFound)
                         case Some(row) => r.Ok? && fresh(r.value) && r.value.row == row
    {
      var key := ByToken(provider, purchaseToken);
      r := FindByKey(key, fails);
      if r.Ok? {
        FindIsUnique(rows, r.value.row.id, key);
      }
    }

    method FindByID(id: UUID, fails: bool) returns (r: Result<Subscription, RepoError>)
      ensures fails ==> r == Err(Unavailable)
      ensures !fails && id !in rows ==> r == Err(NotFound)
      ensures !fails && id in rows ==> r.Ok? && fresh(r.value) && r.value.row == rows[id]
    {
      if fails {
        return Err(Unavailable);
      }
      if id !in rows {
        return Err(NotFound);
      }
      var sub := new Subscription.Scan(rows[id]);
      return Ok(sub);
    }

    /** ORDER BY updated_at DESC LIMIT 1: any row of the user that none was updated after. */
    method FindByUserID(user: UUID, fails: bool) returns (r: Result<Subscription, RepoError>)
      ensures fails ==> r == Err(Unavailable)
      ensures !fails && r.Err? ==> r == Err(NotFound) && !HasRows(rows, user)
      ensures !fails && r.Ok? ==> fresh(r.value) && IsLatest(rows, user, r.value.row)
    {
      if fails {
        return Err(Unavailable);
      }
      var mine := set id | id in rows && rows[id].userID == user;
      if mine == {} {
        assert forall id :: id in rows && rows[id].userID == user ==> id in mine;
        return Err(NotFound);
      }
      ghost var newest := LatestExists(rows, user, mine);
      var best :| best in mine && forall id :: id in mine ==> rows[id].updatedAt <= rows[best].updatedAt;
      assert forall id :: id in rows && rows[id].userID == user ==> id in mine;
      var sub := new Subscription.Scan(rows[best]);
      return Ok(sub);
    }

    method Create(sub: Subscription, fails: bool) returns (r: Option<RepoError>)
      modifies this
      ensures events == old(events)
      ensures fails ==> r == Some(Unavailable) && rows == old(rows)
      ensures !fails ==> match Inserted(old(rows), old(sub.row))
                         case Ok(after) => r == None && rows == after
                         case Err(e) => r == Some(e) && rows == old(rows)
    {
      if fails {
        return Some(Unavailable);
      }
      var row := sub.row;
      if row.id in rows || Violates(rows, row) {
        return Some(Constraint);
      }
      rows := rows[row.id := row];
      return None;
    }

    method Update(sub: Subscription, fails: bool) returns (r: Option<RepoError>)
      modifies this
      ensures events == old(events)
      ensures fails ==> r == Some(Unavailable) && rows == old(rows)
      ensures !fails ==> match Updated(old(rows), old(sub.row))
                         case Ok(after) => r == None && rows == after
                         case Err(e) => r == Some(e) && rows == old(rows)
    {
      if fails {
        return Some(Unavailable);
      }
      var row := sub.row;
      if row.id !in rows {
        return Some(NotFound);
      }
      var merged := Merged(rows[row.id], row);
      if Violates(rows, merged) {
        return Some(Constraint);
      }
      rows := rows[row.id := merged];
      return None;
    }

    method Upsert(sub: Subscription, fails: bool) returns (r: Option<RepoError>)
      modifies this
      ensures events == old(events)
      ensures fails ==> r == Some(Unavailable) && rows == old(rows)
      ensures !fails ==> match Upserted(old(rows), old(sub.row))
                         case Ok(after) => r == None && rows == after
                         case Err(e) => r == Some(e) && rows == old(rows)
    {
      var found := sub.row.id in rows;
      if found {
        r := Update(sub, fails);
      } else {
        r := Create(sub, fails);
      }
    }

    /** INSERT ... ON CONFLICT (provider, event_id) DO NOTHING. */
    method RecordEventIfNotExists(event: Event, fails: bool) returns (r: Result<bool, RepoError>)
      modifies this
      ensures rows == old(rows)
      ensures fails ==> r == Err(Unavailable) && events == old(events)
      ensures !fails ==> r == Ok(event.key !in old(events))
      ensures !fails ==> events == if event.key in old(events) then old(events) else old(events)[event.key := event]
    {
      if fails {
        return Err(Unavailable);
      }
      if event.key in events {
        return Ok(false);
      }
      events := events[event.key := event];
      return Ok(true);
    }

    method DeleteAllByUser(user: UUID, fails: bool) returns (r: Option<RepoError>)
      modifies this
      ensures events == old(events)
      ensures r == (if fails then Some(Unavailable) else None)
      ensures rows == if fails then old(rows) else WithoutUser(old(rows), user)
    {
      if fails {
        return Some(Unavailable);
      }
      rows := WithoutUser(rows, user);
      return None;
    }

    /** Opens a transaction: what a rollback goes back to. */
    method Begin(fails: bool) returns (r: Result<Store, RepoError>)
      ensures r == if fails then Err(Unavailable) else Ok(Contents())
    {
      if fails {
        return Err(Unavailable);
      }
      return Ok(Contents());
    }

    /** Ends a transaction: keeps what its statements wrote when `failed` is none and the commit
        gets through, and otherwise goes back to `snapshot`. */
    method End(snapshot: Store, failed: bool, commitFails: bool) returns (r: Option<RepoError>)
      modifies this
      ensures failed ==> r == None && Contents() == snapshot
      ensures !failed && commitFails ==> r == Some(Unavailable) && Contents() == snapshot
      ensures !failed && !commitFails ==> r == None && Contents() == old(Contents())
    {
      if failed || commitFails {
        rows, events := snapshot.rows, snapshot.events;
        if !failed {
          return Some(Unavailable);
        }
      }
      return None;
    }
  }
}
