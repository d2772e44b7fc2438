/**
  The Postgres tables and the statements the services send. Rows of `users` and
  `refresh_tokens` are never deleted, so each table is kept in insertion order and a
  row's position stands for its id. Each statement is one atomic step; it advances
  `tick`. Fields marked "history" are read by no statement and no handler.
*/
module Database {
  import opened Wrappers
  import opened Models

  /**
    History of a refresh-token row: made by `issue_tokens`, or by a rotation whose SELECT and
    UPDATE ran at these points.
  */
  datatype Origin = SignIn | Rotation(parent: nat, selectedAt: nat, updatedAt: nat)

  datatype TokenRow = TokenRow(
    userId: UserId,
    lookupKey: LookupKey,
    tokenHash: Hash,
    expiresAt: int,
    revoked: bool,
    origin: Origin,     // history
    bornAt: nat,        // history
    revokedAt: nat)     // history: point of the first revocation, once revoked

  datatype LocalCredential = LocalCredential(username: string, passwordHash: Hash)

  datatype Link = Link(user: UserId, since: nat /* history */)

  datatype Cut = Cut(user: UserId, at: nat)

  datatype Grant = Grant(admin: UserId, target: UserId)

  datatype Db = Db(
    users: seq<UserRow>,
    locals: map<UserId, LocalCredential>,
    links: map<Identity, Link>,
    tokens: seq<TokenRow>,
    issued: set<Claims>,               // every access token signed so far
    tick: nat,                         // history: statements run so far
    cuts: set<Cut>,                    // history: revoke-all statements
    deactivatedAt: map<UserId, nat>,   // history: first deactivation of each inactive user
    grants: seq<Grant>)                // history: updates that gave the admin role

  // ---- Reads ----

  function FindByEmail(users: seq<UserRow>, email: string): (r: Option<UserId>)
    ensures r.Some? ==> r.value < |users| && users[r.value].email == email
    ensures r.None? ==> forall u :: 0 <= u < |users| ==> users[u].email != email
  {
    if users == [] then None
    else if users[|users| - 1].email == email then Some(|users| - 1)
    else FindByEmail(users[..|users| - 1], email)
  }

  function FindByLookupKey(tokens: seq<TokenRow>, key: LookupKey): (r: Option<nat>)
    ensures r.Some? ==> r.value < |tokens| && tokens[r.value].lookupKey == key
    ensures r.None? ==> forall i :: 0 <= i < |tokens| ==> tokens[i].lookupKey != key
  {
    if tokens == [] then None
    else if tokens[|tokens| - 1].lookupKey == key then Some(|tokens| - 1)
    else FindByLookupKey(tokens[..|tokens| - 1], key)
  }

  // ---- Statements ----

  /** A statement that changes no table. */
  function Read(db: Db): Db {
    db.(tick := db.tick + 1)
  }

  /** INSERT INTO users; the email index is checked before the display-name index. */
  function InsertUser(db: Db, email: string, displayName: string): Result<Db, Error> {
    if exists u :: 0 <= u < |db.users| && db.users[u].email == email then Failure(EmailTaken)
    else if exists u :: 0 <= u < |db.users| && db.users[u].displayName == displayName then Failure(DatabaseFailed)
    else Success(db.(users := db.users + [UserRow(email, displayName, User, true)], tick := db.tick + 1))
  }

  /** The transaction of `UserService::create`: both rows or neither. */
  function CreateLocal(db: Db, email: string, displayName: string, username: string, hash: Hash): Result<Db, Error> {
    match InsertUser(db, email, displayName)
    case Failure(error) => Failure(error)
    case Success(after) =>
      if exists u :: u in db.locals && db.locals[u].username == username then Failure(UsernameTaken)
      else Success(after.(locals := db.locals[|db.users| := LocalCredential(username, hash)]))
  }

  /** INSERT INTO oauth_credentials ... ON CONFLICT DO NOTHING. */
  function InsertLink(db: Db, identity: Identity, user: UserId): Db {
    if identity in db.links then Read(db)
    else db.(links := db.links[identity := Link(user, db.tick)], tick := db.tick + 1)
  }

  predicate Linked(db: Db, user: UserId, provider: Provider) {
    exists x :: x in db.links && db.links[x].user == user && x.provider == provider
  }

  /** DELETE FROM oauth_credentials WHERE user_id = .. AND provider = .. */
  function DeleteLinks(db: Db, user: UserId, provider: Provider): Db {
    db.(links := map x | x in db.links && !(db.links[x].user == user && x.provider == provider) :: db.links[x],
        tick := db.tick + 1)
  }

  function UpdatePassword(db: Db, user: UserId, hash: Hash): Db {
    if user in db.locals
    then db.(locals := db.locals[user := db.locals[user].(passwordHash := hash)], tick := db.tick + 1)
    else Read(db)
  }

  function UpdateRole(db: Db, admin: UserId, target: UserId, role: Role): Db
    requires target < |db.users|
  {
    db.(users := db.users[target := db.users[target].(role := role)],
        grants := if role == Admin then db.grants + [Grant(admin, target)] else db.grants,
        tick := db.tick + 1)
  }

  function Deactivate(db: Db, user: UserId): Db {
    if user < |db.users|
    then db.(users := db.users[user := db.users[user].(isActive := false)],
             deactivatedAt := if user in db.deactivatedAt then db.deactivatedAt else db.deactivatedAt[user := db.tick],
             tick := db.tick + 1)
    else Read(db)
  }

  /** INSERT INTO refresh_tokens; `lookup_key` is unique and `user_id` references users. */
  function InsertToken(db: Db, user: UserId, raw: string, salt: nat, expiresAt: int, origin: Origin):
      Result<Db, Error>
  {
    if user >= |db.users| || FindByLookupKey(db.tokens, Hmac(raw)).Some? then Failure(DatabaseFailed)
    else Success(db.(
      tokens := db.tokens + [TokenRow(user, Hmac(raw), Argon2(salt, raw), expiresAt, false, origin, db.tick, 0)],
      tick := db.tick + 1))
  }

  function Revoked(row: TokenRow, at: nat): TokenRow {
    if row.revoked then row else row.(revoked := true, revokedAt := at)
  }

  /** UPDATE refresh_tokens SET revoked = TRUE WHERE id = .. : unconditional on the row's state. */
  function RevokeRow(db: Db, row: nat): Db {
    if row < |db.tokens|
    then db.(tokens := db.tokens[row := Revoked(db.tokens[row], db.tick)], tick := db.tick + 1)
    else Read(db)
  }

  /** UPDATE refresh_tokens SET revoked = TRUE WHERE user_id = .. AND revoked = FALSE. */
  function RevokeAll(db: Db, user: UserId): Db {
    db.(tokens := seq(|db.tokens|, i requires 0 <= i < |db.tokens| =>
                    if db.tokens[i].userId == user then Revoked(db.tokens[i], db.tick) else db.tokens[i]),
        cuts := db.cuts + {Cut(user, db.tick)},
        tick := db.tick + 1)
  }

  function Issue(db: Db, claims: Claims): Db {
    db.(issued := db.issued + {claims})
  }

  ghost predicate NoLiveRow(db: Db, user: UserId) {
    forall i :: 0 <= i < |db.tokens| && db.tokens[i].userId == user ==> db.tokens[i].revoked
  }

  // ---- What every statement keeps ----

  /** `users.email` and the surviving UNIQUE on `users.display_name`; soft deletion is recorded. */
  ghost predicate UsersOk(db: Db) {
    && (forall i, j :: 0 <= i < j < |db.users| ==> db.users[i].email != db.users[j].email)
    && (forall i, j :: 0 <= i < j < |db.users| ==> db.users[i].displayName != db.users[j].displayName)
    && (forall u :: 0 <= u < |db.users| ==> (u in db.deactivatedAt <==> !db.users[u].isActive))
    && (forall u :: u in db.deactivatedAt ==> u < |db.users| && db.deactivatedAt[u] < db.tick)
  }

  /** Foreign keys and uniqueness of the two credential tables. */
  ghost predicate CredentialsOk(db: Db) {
    && (forall u :: u in db.locals ==> u < |db.users|)
    && (forall u, v :: u in db.locals && v in db.locals && u != v ==> db.locals[u].username != db.locals[v].username)
    && (forall x :: x in db.links ==> db.links[x].user < |db.users| && db.links[x].since < db.tick)
  }

  /** A row made by a rotation: its parent had been seen unrevoked, and was revoked by the time of the UPDATE. */
  ghost predicate RotationOk(tokens: seq<TokenRow>, i: nat)
    requires i < |tokens|
  {
    tokens[i].origin.Rotation? ==>
      var q := tokens[i].origin.parent;
      && q < i
      && tokens[q].userId == tokens[i].userId
      && tokens[q].revoked
      && tokens[q].bornAt < tokens[i].origin.selectedAt < tokens[q].revokedAt
      && tokens[q].revokedAt <= tokens[i].origin.updatedAt < tokens[i].bornAt
  }

  ghost predicate RowOk(db: Db, i: nat)
    requires i < |db.tokens|
  {
    && db.tokens[i].userId < |db.users|
    && db.tokens[i].lookupKey == Hmac(db.tokens[i].tokenHash.text)
    && db.tokens[i].bornAt < db.tick
    && (db.tokens[i].revoked ==> db.tokens[i].bornAt < db.tokens[i].revokedAt < db.tick)
  }

  /** A revoke-all at point `cut.at` left every row the user had revoked by then. */
  ghost predicate CutOk(tokens: seq<TokenRow>, cut: Cut) {
    forall i :: 0 <= i < |tokens| && tokens[i].userId == cut.user && tokens[i].bornAt <= cut.at ==>
      tokens[i].revoked && tokens[i].revokedAt <= cut.at
  }

  ghost predicate TokensOk(db: Db) {
    && (forall i :: 0 <= i < |db.tokens| ==> RowOk(db, i))
    && (forall i :: 0 <= i < |db.tokens| ==> RotationOk(db.tokens, i))
    && (forall i, j :: 0 <= i < j < |db.tokens| ==> db.tokens[i].lookupKey != db.tokens[j].lookupKey)
    && (forall cut :: cut in db.cuts ==> cut.at < db.tick && CutOk(db.tokens, cut))
  }

  /**
    The claim's subject, email and display name are those of its user's row, and a password
    claim has a local credential behind it.
  */
  ghost predicate ClaimTrue(db: Db, c: Claims) {
    && c.sub < |db.users|
    && c.email == db.users[c.sub].email
    && c.displayName == db.users[c.sub].displayName
    && (c.via == Password ==> c.sub in db.locals)
  }

  ghost predicate ClaimsOk(db: Db) {
    forall c :: c in db.issued ==> ClaimTrue(db, c)
  }

  ghost predicate DbInv(db: Db) {
    UsersOk(db) && CredentialsOk(db) && TokensOk(db) && ClaimsOk(db)
  }

  // ---- What a handler may rely on while others run ----

  ghost predicate UserEvolves(a: UserRow, b: UserRow) {
    a.email == b.email && a.displayName == b.displayName && (b.isActive ==> a.isActive)
  }

  ghost predicate RowEvolves(a: TokenRow, b: TokenRow, from: nat) {
    b == a || (!a.revoked && b.revokedAt >= from && b == a.(revoked := true, revokedAt := b.revokedAt))
  }

  ghost predicate Evolves(a: Db, b: Db) {
    && a.tick <= b.tick
    && |a.users| <= |b.users|
    && (forall u :: 0 <= u < |a.users| ==> UserEvolves(a.users[u], b.users[u]))
    && a.locals.Keys <= b.locals.Keys
    && (forall x :: x in b.links ==> (x in a.links && a.links[x] == b.links[x]) || b.links[x].since >= a.tick)
    && |a.tokens| <= |b.tokens|
    && (forall i :: 0 <= i < |a.tokens| ==> RowEvolves(a.tokens[i], b.tokens[i], a.tick))
    && (forall i :: |a.tokens| <= i < |b.tokens| ==> b.tokens[i].bornAt >= a.tick)
    && a.issued <= b.issued
    && a.cuts <= b.cuts
    && (forall u :: u in a.deactivatedAt ==> u in b.deactivatedAt && b.deactivatedAt[u] == a.deactivatedAt[u])
    && (forall u :: u in b.deactivatedAt && u !in a.deactivatedAt ==> b.deactivatedAt[u] >= a.tick)
    && a.grants <= b.grants
  }

  lemma EvolvesTransitive(a: Db, b: Db, c: Db)
    requires Evolves(a, b) && Evolves(b, c)
    ensures Evolves(a, c)
  {
    forall i | 0 <= i < |a.tokens| ensures RowEvolves(a.tokens[i], c.tokens[i], a.tick) {
      assert RowEvolves(a.tokens[i], b.tokens[i], a.tick) && RowEvolves(b.tokens[i], c.tokens[i], b.tick);
    }
    forall u | 0 <= u < |a.users| ensures UserEvolves(a.users[u], c.users[u]) {
      assert UserEvolves(a.users[u], b.users[u]) && UserEvolves(b.users[u], c.users[u]);
    }
    forall x | x in c.links ensures (x in a.links && a.links[x] == c.links[x]) || c.links[x].since >= a.tick {
    }
    forall i | |a.tokens| <= i < |c.tokens| ensures c.tokens[i].bornAt >= a.tick {
      if i < |b.tokens| {
        assert RowEvolves(b.tokens[i], c.tokens[i], b.tick);
      }
    }
  }

  lemma ReadKeeps(db: Db)
    requires DbInv(db)
    ensures DbInv(Read(db)) && Evolves(db, Read(db))
  {
    forall i | 0 <= i < |db.tokens| ensures RowOk(Read(db), i) {
      assert RowOk(db, i);
    }
    forall c | c in db.issued ensures ClaimTrue(Read(db), c) {
      assert ClaimTrue(db, c);
    }
  }

  /** Rows untouched by a statement stay well formed as the tables around them evolve. */
  lemma RowsKeep(a: Db, b: Db)
    requires TokensOk(a) && a.tick <= b.tick && |a.users| <= |b.users| && b.tokens == a.tokens && b.cuts == a.cuts
    ensures TokensOk(b)
  {
    forall i | 0 <= i < |b.tokens| ensures RowOk(b, i) {
      assert RowOk(a, i);
    }
  }

  lemma ClaimsKeep(a: Db, b: Db)
    requires ClaimsOk(a) && a.issued == b.issued && |a.users| <= |b.users| && a.locals.Keys <= b.locals.Keys
    requires forall u :: 0 <= u < |a.users| ==> UserEvolves(a.users[u], b.users[u])
    ensures ClaimsOk(b)
  {
    forall c | c in b.issued ensures ClaimTrue(b, c) {
      assert ClaimTrue(a, c) && UserEvolves(a.users[c.sub], b.users[c.sub]);
    }
  }

  lemma InsertUserKeeps(db: Db, email: string, displayName: string)
    requires DbInv(db) && InsertUser(db, email, displayName).Success?
    ensures var after := InsertUser(db, email, displayName).value; DbInv(after) && Evolves(db, after)
  {
    var after := InsertUser(db, email, displayName).value;
    RowsKeep(db, after);
    ClaimsKeep(db, after);
  }

  lemma CreateLocalKeeps(db: Db, email: string, displayName: string, username: string, hash: Hash)
    requires DbInv(db) && CreateLocal(db, email, displayName, username, hash).Success?
    ensures var after := CreateLocal(db, email, displayName, username, hash).value; DbInv(after) && Evolves(db, after)
  {
    var after := CreateLocal(db, email, displayName, username, hash).value;
    InsertUserKeeps(db, email, displayName);
    RowsKeep(db, after);
    ClaimsKeep(db, after);
  }

  lemma InsertLinkKeeps(db: Db, identity: Identity, user: UserId)
    requires DbInv(db) && user < |db.users|
    ensures var after := InsertLink(db, identity, user); DbInv(after) && Evolves(db, after)
  {
    if identity in db.links {
      ReadKeeps(db);
      return;
    }
    var after := InsertLink(db, identity, user);
    RowsKeep(db, after);
    ClaimsKeep(db, after);
  }

  lemma DeleteLinksKeeps(db: Db, user: UserId, provider: Provider)
    requires DbInv(db)
    ensures var after := DeleteLinks(db, user, provider); DbInv(after) && Evolves(db, after)
  {
    var after := DeleteLinks(db, user, provider);
    RowsKeep(db, after);
    ClaimsKeep(db, after);
  }

  lemma UpdatePasswordKeeps(db: Db, user: UserId, hash: Hash)
    requires DbInv(db)
    ensures var after := UpdatePassword(db, user, hash); DbInv(after) && Evolves(db, after)
  {
    if user !in db.locals {
      ReadKeeps(db);
      return;
    }
    var after := UpdatePassword(db, user, hash);
    RowsKeep(db, after);
    ClaimsKeep(db, after);
  }

  lemma UpdateRoleKeeps(db: Db, admin: UserId, target: UserId, role: Role)
    requires DbInv(db) && target < |db.users|
    ensures var after := UpdateRole(db, admin, target, role); DbInv(after) && Evolves(db, after)
  {
    var after := UpdateRole(db, admin, target, role);
    RowsKeep(db, after);
    ClaimsKeep(db, after);
  }

  lemma DeactivateKeeps(db: Db, user: UserId)
    requires DbInv(db)
    ensures var after := Deactivate(db, user); DbInv(after) && Evolves(db, after)
  {
    if user >= |db.users| {
      ReadKeeps(db);
      return;
    }
    var after := Deactivate(db, user);
    RowsKeep(db, after);
    ClaimsKeep(db, after);
    DeactivateKeepsUsers(db, user);
  }

  lemma DeactivateKeepsUsers(db: Db, user: UserId)
    requires UsersOk(db) && user < |db.users|
    ensures UsersOk(Deactivate(db, user))
  {
  }

  /** What an INSERT of a rotated row needs from its handler. */
  ghost predicate OriginOk(db: Db, user: UserId, origin: Origin) {
    origin.Rotation? ==>
      var q := origin.parent;
      && q < |db.tokens|
      && db.tokens[q].userId == user
      && db.tokens[q].revoked
      && db.tokens[q].bornAt < origin.selectedAt < db.tokens[q].revokedAt <= origin.updatedAt < db.tick
  }

  lemma InsertTokenKeeps(db: Db, user: UserId, raw: string, salt: nat, expiresAt: int, origin: Origin)
    requires DbInv(db) && InsertToken(db, user, raw, salt, expiresAt, origin).Success?
    requires OriginOk(db, user, origin)
    ensures var after := InsertToken(db, user, raw, salt, expiresAt, origin).value; DbInv(after) && Evolves(db, after)
  {
    var after := InsertToken(db, user, raw, salt, expiresAt, origin).value;
    ClaimsKeep(db, after);
    forall i | 0 <= i < |after.tokens| ensures RowOk(after, i) && RotationOk(after.tokens, i) {
      if i < |db.tokens| {
        assert RowOk(db, i) && RotationOk(db.tokens, i);
      }
    }
  }

  /** Replacing rows by their revoked form, at the current point. */
  ghost predicate RevokesSome(db: Db, after: seq<TokenRow>) {
    && |after| == |db.tokens|
    && forall i :: 0 <= i < |after| ==> after[i] == db.tokens[i] || after[i] == Revoked(db.tokens[i], db.tick)
  }

  lemma RevocationKeepsRows(db: Db, after: seq<TokenRow>)
    requires TokensOk(db) && RevokesSome(db, after)
    ensures TokensOk(db.(tokens := after, tick := db.tick + 1))
  {
    var b := db.(tokens := after, tick := db.tick + 1);
    forall i | 0 <= i < |after| ensures RowOk(b, i) && RotationOk(after, i) {
      assert RowOk(db, i) && RotationOk(db.tokens, i);
    }
    forall cut | cut in db.cuts ensures CutOk(after, cut) {
      assert CutOk(db.tokens, cut);
    }
  }

  lemma RevokeRowKeeps(db: Db, row: nat)
    requires DbInv(db)
    ensures var after := RevokeRow(db, row); DbInv(after) && Evolves(db, after)
  {
    if row >= |db.tokens| {
      ReadKeeps(db);
      return;
    }
    var after := RevokeRow(db, row);
    ClaimsKeep(db, after);
    assert RevokesSome(db, after.tokens);
    RevocationKeepsRows(db, after.tokens);
  }

  lemma RevokeAllKeeps(db: Db, user: UserId)
    requires DbInv(db)
    ensures var after := RevokeAll(db, user); DbInv(after) && Evolves(db, after)
  {
    var after := RevokeAll(db, user);
    ClaimsKeep(db, after);
    RevocationKeepsRows(db, after.tokens);
    assert CutOk(after.tokens, Cut(user, db.tick)) by {
      forall i | 0 <= i < |after.tokens| && after.tokens[i].userId == user
        ensures after.tokens[i].revoked && after.tokens[i].revokedAt <= db.tick
      {
        assert RowOk(db, i);
      }
    }
    var b := db.(tokens := after.tokens, tick := db.tick + 1);
    forall i | 0 <= i < |after.tokens| ensures RowOk(after, i) {
      assert RowOk(b, i);
    }
  }

  lemma IssueKeeps(db: Db, claims: Claims)
    requires DbInv(db) && ClaimTrue(db, claims)
    ensures DbInv(Issue(db, claims)) && Evolves(db, Issue(db, claims))
  {
    var after := Issue(db, claims);
    RowsKeep(db, after);
    forall c | c in after.issued ensures ClaimTrue(after, c) {
      assert c == claims || ClaimTrue(db, c);
    }
  }
}
