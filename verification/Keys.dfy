/** virtual_keys: creation, revocation, last use and authentication by hash. */
module Keys {
  import opened Core

  datatype Status = Active | Revoked

  /** `hash` is hex(sha256(plaintext)), an opaque token here. */
  datatype KeyRow = KeyRow(id: Id, org: Id, user: Id, team: Option<Id>, hash: string, status: Status,
                           lastUsed: Option<int>, revokedAt: Option<int>)

  /** PRIMARY KEY (id) and UNIQUE (key_hash). */
  ghost predicate WellKeyed(rows: seq<KeyRow>) {
    forall i, j :: 0 <= i < j < |rows| ==> rows[i].id != rows[j].id && rows[i].hash != rows[j].hash
  }

  predicate Taken(rows: seq<KeyRow>, id: Id, hash: string) {
    exists i :: 0 <= i < |rows| && (rows[i].id == id || rows[i].hash == hash)
  }

  /** INSERT: a unique violation leaves the table alone. */
  function Create(rows: seq<KeyRow>, id: Id, org: Id, user: Id, team: Option<Id>, hash: string): seq<KeyRow> {
    if Taken(rows, id, hash) then rows
    else rows + [KeyRow(id, org, user, team, hash, Active, None, None)]
  }

  /** UPDATE ... SET status = 'revoked' WHERE id = $1 AND org_id = $2. */
  function Revoke(rows: seq<KeyRow>, id: Id, org: Id, now: int): (rows': seq<KeyRow>)
    ensures |rows'| == |rows|
  {
    seq(|rows|, i requires 0 <= i < |rows| =>
      if rows[i].id == id && rows[i].org == org then rows[i].(status := Revoked, revokedAt := Some(now)) else rows[i])
  }

  /** UPDATE ... SET last_used_at WHERE id = $1 AND org_id = $2. */
  function Touch(rows: seq<KeyRow>, id: Id, org: Id, now: int): (rows': seq<KeyRow>)
    ensures |rows'| == |rows|
  {
    seq(|rows|, i requires 0 <= i < |rows| =>
      if rows[i].id == id && rows[i].org == org then rows[i].(lastUsed := Some(now)) else rows[i])
  }

  /** SELECT ... WHERE key_hash = $1. */
  function LookupByHash(rows: seq<KeyRow>, hash: string): (found: Option<KeyRow>)
    ensures found.Some? ==> found.value in rows && found.value.hash == hash
    ensures found.None? <==> forall row :: row in rows ==> row.hash != hash
  {
    if rows == [] then None
    else if rows[0].hash == hash then Some(rows[0])
    else LookupByHash(rows[1..], hash)
  }

  function IdentityOf(row: KeyRow): Identity {
    Identity(row.org, row.user, row.team, row.id)
  }

  /** VirtualKeyAuth: the identity of an active key, or nothing for an unknown or revoked one alike. */
  function Authenticate(rows: seq<KeyRow>, hash: string): Option<Identity> {
    var found := LookupByHash(rows, hash);
    if found.Some? && found.value.status.Active? then Some(IdentityOf(found.value)) else None
  }

  ghost predicate RevokedHash(rows: seq<KeyRow>, hash: string) {
    exists i :: 0 <= i < |rows| && rows[i].hash == hash && rows[i].status.Revoked?
  }

  /** The columns no statement of the gateway changes. */
  predicate SameKey(a: KeyRow, b: KeyRow) {
    a.id == b.id && a.org == b.org && a.user == b.user && a.team == b.team && a.hash == b.hash
  }

  /** rows' comes from rows by key statements: nothing is deleted, renamed or reactivated. */
  ghost predicate Evolved(rows: seq<KeyRow>, rows': seq<KeyRow>) {
    && |rows| <= |rows'|
    && (forall i :: 0 <= i < |rows| ==>
          SameKey(rows[i], rows'[i]) && (rows[i].status.Revoked? ==> rows'[i].status.Revoked?))
  }

  /** Every statement evolves the table and keeps its unique keys. */
  lemma StatementsEvolve(rows: seq<KeyRow>, id: Id, org: Id, user: Id, team: Option<Id>, hash: string, now: int)
    requires WellKeyed(rows)
    ensures WellKeyed(Create(rows, id, org, user, team, hash)) && Evolved(rows, Create(rows, id, org, user, team, hash))
    ensures WellKeyed(Revoke(rows, id, org, now)) && Evolved(rows, Revoke(rows, id, org, now))
    ensures WellKeyed(Touch(rows, id, org, now)) && Evolved(rows, Touch(rows, id, org, now))
  {
  }

  /** However the table evolves, a revoked hash stays revoked and never authenticates; no new row can take it over. */
  lemma RevokedNeverAuthenticates(rows: seq<KeyRow>, rows': seq<KeyRow>, hash: string)
    requires WellKeyed(rows') && Evolved(rows, rows') && RevokedHash(rows, hash)
    ensures RevokedHash(rows', hash) && Authenticate(rows', hash).None?
  {
    var i :| 0 <= i < |rows| && rows[i].hash == hash && rows[i].status.Revoked?;
    assert SameKey(rows[i], rows'[i]);
    var found := LookupByHash(rows', hash);
    var j :| 0 <= j < |rows'| && rows'[j] == found.value;
    assert i == j;
  }

  /** Revoking revokes the key named by id in its own org, and touches no row of another org or id. */
  lemma RevocationStaysInItsOrg(rows: seq<KeyRow>, id: Id, org: Id, now: int, i: nat)
    requires i < |rows|
    ensures rows[i].org != org || rows[i].id != id ==> Revoke(rows, id, org, now)[i] == rows[i]
    ensures rows[i].org == org && rows[i].id == id ==> RevokedHash(Revoke(rows, id, org, now), rows[i].hash)
  {
    if rows[i].org == org && rows[i].id == id {
      assert Revoke(rows, id, org, now)[i].hash == rows[i].hash;
    }
  }

  /** A key's hash authenticates exactly while its row is active, and then as that row's identity. */
  lemma AuthenticatesIffActive(rows: seq<KeyRow>, i: nat)
    requires WellKeyed(rows) && i < |rows|
    ensures Authenticate(rows, rows[i].hash) == if rows[i].status.Active? then Some(IdentityOf(rows[i])) else None
  {
    var found := LookupByHash(rows, rows[i].hash);
    assert rows[i] in rows;
    var j :| 0 <= j < |rows| && rows[j] == found.value;
    assert i == j;
  }

  // ---- Column by column ----

  lemma {:induction false} LookupAppend(rows: seq<KeyRow>, row: KeyRow)
    requires forall r :: r in rows ==> r.hash != row.hash
    ensures LookupByHash(rows + [row], row.hash) == Some(row)
  {
    if rows == [] {
      assert (rows + [row])[0] == row;
    } else {
      assert rows[0] in rows && (rows + [row])[1..] == rows[1..] + [row];
      LookupAppend(rows[1..], row);
    }
  }

  /** A created key authenticates as the org, user, team and id it was created with; a taken id or hash creates nothing.
      */
  lemma CreatedKeyAuthenticates(rows: seq<KeyRow>, id: Id, org: Id, user: Id, team: Option<Id>, hash: string)
    ensures (forall row :: row in rows ==> row.id != id && row.hash != hash) ==>
      Authenticate(Create(rows, id, org, user, team, hash), hash) == Some(Identity(org, user, team, id))
    ensures (exists row :: row in rows && (row.id == id || row.hash == hash)) ==>
      Create(rows, id, org, user, team, hash) == rows
  {
    if forall row :: row in rows ==> row.id != id && row.hash != hash {
      assert !Taken(rows, id, hash);
      LookupAppend(rows, KeyRow(id, org, user, team, hash, Active, None, None));
    }
  }

  /** A use sets the time of the last use of the named key in its org, and nothing else of any row. */
  lemma TouchSetsOnlyLastUse(rows: seq<KeyRow>, id: Id, org: Id, now: int, i: nat)
    requires i < |rows|
    ensures var was, row := rows[i], Touch(rows, id, org, now)[i];
      && row.id == was.id && row.org == was.org && row.user == was.user && row.team == was.team && row.hash == was.hash
      && row.status == was.status && row.revokedAt == was.revokedAt
      && row.lastUsed == if was.id == id && was.org == org then Some(now) else was.lastUsed
  {
  }

  /** A revocation sets the status and the time of revocation of the named key in its org, and nothing else of any row.
      */
  lemma RevokeSetsOnlyStatus(rows: seq<KeyRow>, id: Id, org: Id, now: int, i: nat)
    requires i < |rows|
    ensures var was, row := rows[i], Revoke(rows, id, org, now)[i];
      && row.id == was.id && row.org == was.org && row.user == was.user && row.team == was.team && row.hash == was.hash
      && row.lastUsed == was.lastUsed
      && row.status == (if was.id == id && was.org == org then Revoked else was.status)
      && row.revokedAt == if was.id == id && was.org == org then Some(now) else was.revokedAt
  {
  }
}
