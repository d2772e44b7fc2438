/** The account service, run atomically, is a directory of accounts and linked identities. */
module Refinement {
  import opened Wrappers
  import opened Models
  import opened Database
  import opened Handlers
  import opened Atomic
  import opened AccountTheorems
  import opened OutcomeTheorems

  datatype Credential = Credential(username: string, password: string)

  datatype Account = Account(displayName: string, active: bool, credential: Option<Credential>)

  /** Accounts by email, and the email each external identity is linked to. */
  datatype Directory = Directory(accounts: map<string, Account>, links: map<Identity, string>)

  function CredentialOf(db: Db, u: UserId): Option<Credential> {
    if u in db.locals then Some(Credential(db.locals[u].username, db.locals[u].passwordHash.text)) else None
  }

  function AccountOf(db: Db, u: UserId): Account
    requires u < |db.users|
  {
    Account(db.users[u].displayName, db.users[u].isActive, CredentialOf(db, u))
  }

  function Accounts(db: Db): map<string, Account> {
    map email | email in (set row | row in db.users :: row.email) && FindByEmail(db.users, email).Some? ::
      AccountOf(db, FindByEmail(db.users, email).value)
  }

  function Links(db: Db): map<Identity, string> {
    map x | x in db.links && db.links[x].user < |db.users| :: db.users[db.links[x].user].email
  }

  /** The directory the tables stand for. */
  function Abs(db: Db): Directory {
    Directory(Accounts(db), Links(db))
  }

  // ---- The specification ----

  predicate NameUsed(m: Directory, name: string) {
    exists email :: email in m.accounts && m.accounts[email].displayName == name
  }

  predicate HandleUsed(m: Directory, username: string) {
    exists email ::
      email in m.accounts && m.accounts[email].credential.Some?
          && m.accounts[email].credential.value.username == username
  }

  predicate MayRegister(m: Directory, email: string, username: string, password: string) {
    && |password| >= 8 && 3 <= |username| <= 32
    && email !in m.accounts && !NameUsed(m, UpToAt(email)) && !HandleUsed(m, username)
  }

  predicate HasPassword(m: Directory, email: string, password: string) {
    email in m.accounts && m.accounts[email].credential.Some? && m.accounts[email].credential.value.password == password
  }

  predicate MayLogin(m: Directory, email: string, password: string) {
    HasPassword(m, email, password) && m.accounts[email].active
  }

  /** The account a profile belongs to: by its identity, else by its email. */
  function Resolve(m: Directory, profile: Profile): string {
    if profile.identity in m.links then m.links[profile.identity] else profile.email
  }

  predicate MayOAuth(m: Directory, profile: Profile) {
    var email := Resolve(m, profile);
    if email in m.accounts then m.accounts[email].active else !NameUsed(m, OAuthName(profile))
  }

  /** An OAuth login links a new identity to the account of its email, made if there is none and its name is free. */
  function OAuthStep(m: Directory, profile: Profile): Directory {
    if profile.identity in m.links then m
    else if profile.email in m.accounts then m.(links := m.links[profile.identity := profile.email])
    else if NameUsed(m, OAuthName(profile)) then m
    else Directory(m.accounts[profile.email := Account(OAuthName(profile), true, None)],
                   m.links[profile.identity := profile.email])
  }

  function AddAccount(m: Directory, email: string, username: string, password: string): Directory {
    m.(accounts := m.accounts[email := Account(UpToAt(email), true, Some(Credential(username, password)))])
  }

  function SetPassword(m: Directory, email: string, password: string): Directory
    requires email in m.accounts && m.accounts[email].credential.Some?
  {
    var account := m.accounts[email];
    m.(accounts := m.accounts[email := account.(credential := Some(account.credential.value.(password := password)))])
  }

  function Close(m: Directory, email: string): Directory
    requires email in m.accounts
  {
    m.(accounts := m.accounts[email := m.accounts[email].(active := false)])
  }

  function Unlink(m: Directory, email: string, p: Provider): Directory {
    m.(links := map x | x in m.links && !(m.links[x] == email && x.provider == p) :: m.links[x])
  }

  /** What an operation does to the directory; `admitted` says whether the access token it carries is let in. */
  function SpecStep(m: Directory, admitted: bool, op: Op): Directory {
    match op
    case OAuthLogin(profile, _) => OAuthStep(m, profile)
    case Op(Register(email, username, password), _) =>
      if MayRegister(m, email, username, password) then AddAccount(m, email, username, password) else m
    case Op(ChangePassword(claims, current, proposed), _) =>
      if admitted && HasPassword(m, claims.email, current) then SetPassword(m, claims.email, proposed) else m
    case Op(DeactivateAccount(claims), _) =>
      if admitted && claims.email in m.accounts then Close(m, claims.email) else m
    case Op(UnlinkConnection(claims, slug), _) =>
      if admitted && FromSlug(slug).Some? then Unlink(m, claims.email, FromSlug(slug).value) else m
    case _ => m
  }

  /** Whether an operation comes back with tokens, as far as accounts decide it. */
  predicate SpecDelivers(m: Directory, op: Op) {
    match op
    case OAuthLogin(profile, _) => MayOAuth(m, profile)
    case Op(Register(email, username, password), _) => MayRegister(m, email, username, password)
    case Op(Login(email, password), _) => MayLogin(m, email, password)
    case _ => false
  }

  // ---- The abstraction at work ----

  lemma FindsItself(db: Db, u: UserId)
    requires UsersOk(db) && u < |db.users|
    ensures FindByEmail(db.users, db.users[u].email) == Some(u)
  {
  }

  lemma AccountsAt(db: Db, email: string)
    ensures email in Accounts(db) <==> FindByEmail(db.users, email).Some?
    ensures email in Accounts(db) ==> Accounts(db)[email] == AccountOf(db, FindByEmail(db.users, email).value)
  {
    var found := FindByEmail(db.users, email);
    if found.Some? {
      assert db.users[found.value] in db.users;
    }
  }

  /** Every user has its account. */
  lemma AccountFor(db: Db, u: UserId)
    requires UsersOk(db) && u < |db.users|
    ensures db.users[u].email in Accounts(db) && Accounts(db)[db.users[u].email] == AccountOf(db, u)
  {
    FindsItself(db, u);
    AccountsAt(db, db.users[u].email);
  }

  lemma SameAccounts(a: Db, b: Db)
    requires a.users == b.users && a.locals == b.locals
    ensures Accounts(a) == Accounts(b)
  {
    forall email
      ensures email in Accounts(a) <==> email in Accounts(b)
      ensures email in Accounts(a) ==> Accounts(a)[email] == Accounts(b)[email]
    {
      AccountsAt(a, email);
      AccountsAt(b, email);
    }
  }

  /** Links show only whose email they lead to. */
  lemma SameLinks(a: Db, b: Db)
    requires |a.users| == |b.users| && a.links == b.links
    requires forall u :: 0 <= u < |a.users| ==> a.users[u].email == b.users[u].email
    ensures Links(a) == Links(b)
  {
  }

  lemma SameAbs(a: Db, b: Db)
    requires a.users == b.users && a.locals == b.locals && a.links == b.links
    ensures Abs(a) == Abs(b)
  {
    SameAccounts(a, b);
    SameLinks(a, b);
  }

  lemma {:induction false} SameFind(a: seq<UserRow>, b: seq<UserRow>, email: string)
    requires |a| == |b| && forall u :: 0 <= u < |a| ==> a[u].email == b[u].email
    ensures FindByEmail(a, email) == FindByEmail(b, email)
  {
    if a == [] {
    } else {
      SameFind(a[..|a| - 1], b[..|b| - 1], email);
    }
  }

  /** Roles do not show. */
  lemma AbsRole(db: Db, admin: UserId, target: UserId, role: Role)
    requires target < |db.users|
    ensures Abs(UpdateRole(db, admin, target, role)) == Abs(db)
  {
    var after := UpdateRole(db, admin, target, role);
    SameLinks(db, after);
    forall email
      ensures email in Accounts(after) <==> email in Accounts(db)
      ensures email in Accounts(after) ==> Accounts(after)[email] == Accounts(db)[email]
    {
      AccountsAt(after, email);
      AccountsAt(db, email);
      SameFind(db.users, after.users, email);
    }
  }

  /** Adding a user adds one account. */
  lemma AccountsInsert(a: Db, b: Db, row: UserRow)
    requires b.users == a.users + [row]
    requires forall u: UserId :: u < |a.users| ==> CredentialOf(a, u) == CredentialOf(b, u)
    ensures Accounts(b) == Accounts(a)[row.email := AccountOf(b, |a.users|)]
  {
    var m := Accounts(a)[row.email := AccountOf(b, |a.users|)];
    forall email
      ensures email in Accounts(b) <==> email in m
      ensures email in m ==> Accounts(b)[email] == m[email]
    {
      AccountsAt(a, email);
      AccountsAt(b, email);
      assert b.users[..|b.users| - 1] == a.users;
    }
  }

  /** Two tables differ in nothing an account shows, but for user `u`. */
  ghost predicate SameBut(a: Db, b: Db, u: UserId) {
    && |b.users| == |a.users|
    && (forall v: UserId :: v < |a.users| ==> a.users[v].email == b.users[v].email)
    && (forall v: UserId :: v < |a.users| && v != u ==> AccountOf(a, v) == AccountOf(b, v))
  }

  lemma UpdateAt(a: Db, b: Db, u: UserId, email: string)
    requires u < |a.users| && FindByEmail(a.users, a.users[u].email) == Some(u) && SameBut(a, b, u)
    ensures email in Accounts(b) <==> email in Accounts(a)
    ensures email in Accounts(b) ==>
              Accounts(b)[email] == if email == a.users[u].email then AccountOf(b, u) else Accounts(a)[email]
  {
    AccountsAt(a, email);
    AccountsAt(b, email);
    SameFind(a.users, b.users, email);
  }

  lemma UpdateAll(a: Db, b: Db, u: UserId)
    requires u < |a.users| && FindByEmail(a.users, a.users[u].email) == Some(u) && SameBut(a, b, u)
    ensures forall email :: email in Accounts(b) <==> email in Accounts(a)
    ensures forall email :: email in Accounts(b) ==>
              Accounts(b)[email] == if email == a.users[u].email then AccountOf(b, u) else Accounts(a)[email]
  {
    forall email
      ensures email in Accounts(b) <==> email in Accounts(a)
      ensures email in Accounts(b) ==>
                Accounts(b)[email] == if email == a.users[u].email then AccountOf(b, u) else Accounts(a)[email]
    {
      UpdateAt(a, b, u, email);
    }
  }

  /** Changing what is stored about one user changes that user's account alone. */
  lemma AccountsUpdate(a: Db, b: Db, u: UserId)
    requires UsersOk(a) && u < |a.users| && SameBut(a, b, u)
    ensures Accounts(b) == Accounts(a)[a.users[u].email := AccountOf(b, u)]
  {
    FindsItself(a, u);
    UpdateAll(a, b, u);
    AccountsAt(a, a.users[u].email);
    OneKeyChanged(Accounts(a), Accounts(b), a.users[u].email, AccountOf(b, u));
  }

  lemma OneKeyChanged(m: map<string, Account>, n: map<string, Account>, email: string, account: Account)
    requires email in m && forall k :: k in n <==> k in m
    requires forall k :: k in n ==> n[k] == if k == email then account else m[k]
    ensures n == m[email := account]
  {
  }

  /** Used emails, names and handles are those of the tables. */
  lemma EmailShows(db: Db, email: string)
    ensures email in Accounts(db) <==> EmailUsed(db, email)
  {
    AccountsAt(db, email);
  }

  lemma NameShows(db: Db, name: string)
    requires UsersOk(db)
    ensures NameUsed(Abs(db), name) <==> DisplayNameUsed(db, name)
  {
    if NameUsed(Abs(db), name) {
      var email :| email in Accounts(db) && Accounts(db)[email].displayName == name;
      AccountsAt(db, email);
      assert db.users[FindByEmail(db.users, email).value].displayName == name;
    }
    if DisplayNameUsed(db, name) {
      var u :| 0 <= u < |db.users| && db.users[u].displayName == name;
      AccountFor(db, u);
      assert Abs(db).accounts[db.users[u].email].displayName == name;
    }
  }

  lemma HandleShows(db: Db, username: string)
    requires UsersOk(db) && CredentialsOk(db)
    ensures HandleUsed(Abs(db), username) <==> UsernameUsed(db, username)
  {
    if HandleUsed(Abs(db), username) {
      var email :| email in Accounts(db) && Accounts(db)[email].credential.Some?
                   && Accounts(db)[email].credential.value.username == username;
      AccountsAt(db, email);
      assert db.locals[FindByEmail(db.users, email).value].username == username;
    }
    if UsernameUsed(db, username) {
      var u :| u in db.locals && db.locals[u].username == username;
      AccountFor(db, u);
      assert Abs(db).accounts[db.users[u].email].credential.value.username == username;
    }
  }

  // ---- Sign-ins ----

  /** The user of the email is active and has this password. */
  predicate PasswordOpens(db: Db, email: string, password: string) {
    var found := FindByEmail(db.users, email);
    && found.Some? && db.users[found.value].isActive
    && found.value in db.locals && db.locals[found.value].passwordHash.text == password
  }

  lemma LoginShows(db: Db, email: string, password: string)
    ensures MayLogin(Abs(db), email, password) <==> PasswordOpens(db, email, password)
  {
    AccountsAt(db, email);
  }

  lemma LoginDelivers(db: Db, email: string, password: string, e: Env)
    requires FreshDraw(db, e)
    ensures var f := Apply(db, Op(Login(email, password), e));
            && (Delivered(f.pc).Some? <==> PasswordOpens(db, email, password))
            && (Delivered(f.pc).Some? ==>
                  Delivered(f.pc).value.claims.email == email && Delivered(f.pc).value.claims.via == Password)
            && f.db.users == db.users && f.db.locals == db.locals && f.db.links == db.links
  {
    LoginOutcome(db, email, password, e);
  }

  /**
    With a fresh secret, `login(email, p)` returns tokens exactly when the directory holds the
    email, active, with password p; they are for that email, and no account changes.
  */
  lemma LoginExact(db: Db, email: string, password: string, e: Env)
    requires DbInv(db) && FreshDraw(db, e)
    ensures var f := Apply(db, Op(Login(email, password), e));
            && (Delivered(f.pc).Some? <==> MayLogin(Abs(db), email, password))
            && (Delivered(f.pc).Some? ==>
                  Delivered(f.pc).value.claims.email == email && Delivered(f.pc).value.claims.via == Password)
            && f.db.users == db.users && f.db.locals == db.locals && f.db.links == db.links
  {
    LoginShows(db, email, password);
    LoginDelivers(db, email, password, e);
  }

  ghost predicate Registrable(db: Db, email: string, username: string, password: string) {
    && ValidFields(username, password)
    && !EmailUsed(db, email) && !DisplayNameUsed(db, UpToAt(email)) && !UsernameUsed(db, username)
  }

  lemma RegisterShows(db: Db, email: string, username: string, password: string)
    requires UsersOk(db) && CredentialsOk(db)
    ensures MayRegister(Abs(db), email, username, password) <==> Registrable(db, email, username, password)
  {
    EmailShows(db, email);
    NameShows(db, UpToAt(email));
    HandleShows(db, username);
  }

  lemma RegisterDelivers(db: Db, email: string, username: string, password: string, e: Env)
    requires DbInv(db) && FreshDraw(db, e)
    ensures var f := Apply(db, Op(Register(email, username, password), e));
            && (Delivered(f.pc).Some? <==> Registrable(db, email, username, password))
            && (if Delivered(f.pc).Some?
                then Registered(db, f.db, email, username, password) && SignedIn(db, f.db, |db.users|, e)
                else f.db.users == db.users && f.db.locals == db.locals && f.db.links == db.links)
  {
    RegisterOutcome(db, email, username, password, e);
  }

  /**
    With a fresh secret, a registration is delivered exactly when its fields are valid and its
    email, name and username free.
  */
  lemma RegisterExact(db: Db, email: string, username: string, password: string, e: Env)
    requires DbInv(db) && FreshDraw(db, e)
    ensures var f := Apply(db, Op(Register(email, username, password), e));
            && (Delivered(f.pc).Some? <==> MayRegister(Abs(db), email, username, password))
            && (if Delivered(f.pc).Some?
                then Registered(db, f.db, email, username, password) && SignedIn(db, f.db, |db.users|, e)
                else f.db.users == db.users && f.db.locals == db.locals && f.db.links == db.links)
  {
    RegisterShows(db, email, username, password);
    RegisterDelivers(db, email, username, password, e);
  }

  /** Tokens are delivered exactly if the user is active, and they are its own. */
  ghost predicate DeliveredTo(pc: Pc, who: Snapshot) {
    && (Delivered(pc).Some? <==> who.row.isActive)
    && (who.row.isActive ==> Delivered(pc).value.claims == ClaimsOf(who, OAuth))
  }

  /**
    With a fresh secret, an OAuth login is delivered exactly for an active resolved user, or for
    a new one with a free display name; its identity ends linked to the user it resolved to,
    active or not, and nothing else changes but the new user.
  */
  lemma OAuthExact(db: Db, profile: Profile, e: Env)
    requires DbInv(db) && FreshDraw(db, e)
    ensures var f := Apply(db, OAuthLogin(profile, e));
            var user := Resolved(db, profile);
            && f.db.locals == db.locals
            && if user.Some? then
                 && user.value < |db.users| && f.db.users == db.users
                 && LinkedTo(db, f.db, profile.identity, user.value)
                 && DeliveredTo(f.pc, SnapshotOf(db, user.value))
               else if DisplayNameUsed(db, OAuthName(profile)) then
                 f.db.users == db.users && f.db.links == db.links && Delivered(f.pc).None?
               else
                 && f.db.users == db.users + [UserRow(profile.email, OAuthName(profile), User, true)]
                 && LinkedTo(db, f.db, profile.identity, |db.users|) && DeliveredTo(f.pc, SnapshotOf(f.db, |db.users|))
  {
    OAuthOutcome(db, profile, e);
    var f, user := Apply(db, OAuthLogin(profile, e)), Resolved(db, profile);
    if user.Some? {
      AdmittedDelivers(db, f, profile, user.value, e);
    } else if !DisplayNameUsed(db, OAuthName(profile)) {
      CreatedDelivers(db, f, profile, e);
    }
  }

  lemma AdmittedDelivers(db: Db, f: Progress, profile: Profile, u: UserId, e: Env)
    requires OutcomeTheorems.Admitted(db, f, profile, u, e)
    ensures f.db.users == db.users && f.db.locals == db.locals && DeliveredTo(f.pc, SnapshotOf(db, u))
  {
  }

  lemma CreatedDelivers(db: Db, f: Progress, profile: Profile, e: Env)
    requires Created(db, f, profile, e)
    ensures f.db.locals == db.locals && DeliveredTo(f.pc, SnapshotOf(f.db, |db.users|))
  {
  }

  // ---- Each operation refines its specification ----

  lemma RegisterRefines(db: Db, email: string, username: string, password: string, e: Env)
    requires DbInv(db) && FreshDraw(db, e)
    ensures var op := Op(Register(email, username, password), e);
            Abs(Apply(db, op).db) == SpecStep(Abs(db), false, op) == SpecStep(Abs(db), true, op)
  {
    var f := Apply(db, Op(Register(email, username, password), e));
    RegisterExact(db, email, username, password, e);
    if Delivered(f.pc).Some? {
      assert |db.users| !in db.locals;
      AccountsInsert(db, f.db, f.db.users[|db.users|]);
      LinksInsert(db, f.db);
    } else {
      SameAbs(db, f.db);
    }
  }

  /** A new user changes no link's email. */
  lemma LinksInsert(a: Db, b: Db)
    requires CredentialsOk(a) && a.users <= b.users && a.links == b.links
    ensures Links(a) == Links(b)
  {
  }

  /** A link row shows as its user's email. */
  lemma LinkShows(a: Db, b: Db, x: Identity, u: UserId)
    requires CredentialsOk(a) && a.users <= b.users && u < |b.users| && LinkedTo(a, b, x, u)
    ensures Links(b) == Links(a)[x := b.users[u].email]
  {
  }

  lemma OAuthRefines(db: Db, profile: Profile, e: Env)
    requires DbInv(db) && FreshDraw(db, e)
    ensures var f := Apply(db, OAuthLogin(profile, e));
            && Abs(f.db) == OAuthStep(Abs(db), profile)
            && (Delivered(f.pc).Some? <==> MayOAuth(Abs(db), profile))
  {
    var f := Apply(db, OAuthLogin(profile, e));
    var user := Resolved(db, profile);
    OAuthExact(db, profile, e);
    AccountsAt(db, profile.email);
    NameShows(db, OAuthName(profile));
    if user.Some? {
      SameAccounts(db, f.db);
      LinkShows(db, f.db, profile.identity, user.value);
      AccountFor(db, user.value);
    } else if DisplayNameUsed(db, OAuthName(profile)) {
      SameAbs(db, f.db);
    } else {
      AccountsInsert(db, f.db, f.db.users[|db.users|]);
      LinkShows(db, f.db, profile.identity, |db.users|);
      assert |db.users| !in db.locals;
    }
  }

  /** A guarded operation is let in when its access token was issued and is not a guest's. */
  predicate Admits(issued: set<Claims>, op: Op) {
    && op.Op?
    && (op.request.ChangePassword? || op.request.DeactivateAccount? || op.request.UnlinkConnection?)
    && op.request.claims in issued && op.request.claims.role.IsAtLeast(User)
  }

  /** The account behind an issued claim. */
  lemma ClaimsAccount(db: Db, claims: Claims)
    requires DbInv(db) && claims in db.issued
    ensures claims.sub < |db.users| && claims.email == db.users[claims.sub].email
    ensures claims.email in Accounts(db) && Accounts(db)[claims.email] == AccountOf(db, claims.sub)
  {
    assert ClaimTrue(db, claims);
    AccountFor(db, claims.sub);
  }

  lemma PasswordAbs(db: Db, user: UserId, hash: Hash)
    requires UsersOk(db) && user in db.locals && user < |db.users|
    ensures var email := db.users[user].email;
            email in Abs(db).accounts && Abs(db).accounts[email].credential.Some?
            && Abs(UpdatePassword(db, user, hash)) == SetPassword(Abs(db), email, hash.text)
  {
    var after := UpdatePassword(db, user, hash);
    assert SameBut(db, after, user);
    AccountsUpdate(db, after, user);
    SameLinks(db, after);
    AccountFor(db, user);
  }

  lemma DeactivateAbs(db: Db, user: UserId)
    requires UsersOk(db) && user < |db.users|
    ensures db.users[user].email in Abs(db).accounts
            && Abs(Deactivate(db, user)) == Close(Abs(db), db.users[user].email)
  {
    var after := Deactivate(db, user);
    assert SameBut(db, after, user);
    AccountsUpdate(db, after, user);
    SameLinks(db, after);
    AccountFor(db, user);
  }

  lemma LinksDelete(db: Db, user: UserId, p: Provider)
    requires UsersOk(db) && CredentialsOk(db) && user < |db.users|
    ensures Links(DeleteLinks(db, user, p)) == Unlink(Abs(db), db.users[user].email, p).links
  {
    assert forall x :: x in db.links && db.users[db.links[x].user].email == db.users[user].email ==>
        db.links[x].user == user;
  }

  lemma NothingToDelete(db: Db, user: UserId, p: Provider)
    requires UsersOk(db) && CredentialsOk(db) && user < |db.users| && !Linked(db, user, p)
    ensures Unlink(Abs(db), db.users[user].email, p).links == Links(db)
  {
    assert forall x :: x in db.links && db.users[db.links[x].user].email == db.users[user].email ==>
        db.links[x].user == user;
  }

  lemma UnlinkFinishes(db: Db, user: UserId, p: Provider, e: Env)
    requires UsersOk(db) && CredentialsOk(db) && user < |db.users|
    ensures Abs(Finish(db, UnlinkDelete(user, p), e).db) == Unlink(Abs(db), db.users[user].email, p)
  {
    var last := AdvanceManage(db, UnlinkDelete(user, p), e);
    assert Finish(db, UnlinkDelete(user, p), e) == Finish(last.db, last.pc, e) == last;
    SameAccounts(db, last.db);
    if Linked(db, user, p) {
      LinksDelete(db, user, p);
    } else {
      SameLinks(db, last.db);
      NothingToDelete(db, user, p);
    }
  }

  /** The revoke-all that follows an UPDATE shows in no account. */
  lemma RevokeTail(db: Db, user: UserId, e: Env)
    ensures var f := Finish(db, RevokeSessions(user), e); f.pc == Done(Finished) && Abs(f.db) == Abs(db)
  {
    var last := AdvanceManage(db, RevokeSessions(user), e);
    assert Finish(db, RevokeSessions(user), e) == Finish(last.db, last.pc, e) == last;
    SameAbs(db, last.db);
  }

  lemma PasswordUpdateFinishes(db: Db, user: UserId, proposed: string, e: Env)
    requires UsersOk(db) && user in db.locals && user < |db.users|
    ensures var email := db.users[user].email;
            email in Abs(db).accounts && Abs(db).accounts[email].credential.Some?
            && Abs(Finish(db, PasswordUpdate(user, proposed), e).db) == SetPassword(Abs(db), email, proposed)
  {
    var p1 := AdvanceManage(db, PasswordUpdate(user, proposed), e);
    assert Finish(db, PasswordUpdate(user, proposed), e) == Finish(p1.db, p1.pc, e);
    RevokeTail(p1.db, user, e);
    PasswordAbs(db, user, Argon2(e.salt, proposed));
  }

  lemma PasswordSelectFinishes(db: Db, user: UserId, current: string, proposed: string, e: Env)
    requires UsersOk(db) && user < |db.users|
    ensures var email := db.users[user].email;
            Abs(Finish(db, PasswordSelect(user, current, proposed), e).db)
            == if HasPassword(Abs(db), email, current) then SetPassword(Abs(db), email, proposed) else Abs(db)
  {
    var p1 := AdvanceManage(db, PasswordSelect(user, current, proposed), e);
    assert Finish(db, PasswordSelect(user, current, proposed), e) == Finish(p1.db, p1.pc, e);
    SameAbs(db, p1.db);
    AccountFor(db, user);
    if p1.pc.PasswordUpdate? {
      PasswordUpdateFinishes(p1.db, user, proposed, e);
    }
  }

  lemma PasswordRefines(db: Db, claims: Claims, current: string, proposed: string, e: Env)
    requires DbInv(db)
    ensures var op := Op(ChangePassword(claims, current, proposed), e);
            Abs(Apply(db, op).db) == SpecStep(Abs(db), Admits(db.issued, op), op)
  {
    SameAbs(db, Read(db));
    if Admits(db.issued, Op(ChangePassword(claims, current, proposed), e)) {
      ClaimsAccount(db, claims);
      ReadKeeps(db);
      PasswordSelectFinishes(Read(db), claims.sub, current, proposed, e);
    }
  }

  lemma DeactivateFinishes(db: Db, user: UserId, e: Env)
    requires UsersOk(db) && user < |db.users|
    ensures db.users[user].email in Abs(db).accounts
    ensures Abs(Finish(db, DeactivateUpdate(user), e).db) == Close(Abs(db), db.users[user].email)
  {
    var p1 := AdvanceManage(db, DeactivateUpdate(user), e);
    assert Finish(db, DeactivateUpdate(user), e) == Finish(p1.db, p1.pc, e);
    RevokeTail(p1.db, user, e);
    DeactivateAbs(db, user);
  }

  lemma DeactivateRefines(db: Db, claims: Claims, e: Env)
    requires DbInv(db)
    ensures var op := Op(DeactivateAccount(claims), e);
            Abs(Apply(db, op).db) == SpecStep(Abs(db), Admits(db.issued, op), op)
  {
    SameAbs(db, Read(db));
    if Admits(db.issued, Op(DeactivateAccount(claims), e)) {
      ClaimsAccount(db, claims);
      ReadKeeps(db);
      DeactivateFinishes(Read(db), claims.sub, e);
    }
  }

  lemma UnlinkRefines(db: Db, claims: Claims, slug: string, e: Env)
    requires DbInv(db)
    ensures var op := Op(UnlinkConnection(claims, slug), e);
            Abs(Apply(db, op).db) == SpecStep(Abs(db), Admits(db.issued, op), op)
  {
    SameAbs(db, Read(db));
    if Admits(db.issued, Op(UnlinkConnection(claims, slug), e)) && FromSlug(slug).Some? {
      ClaimsAccount(db, claims);
      ReadKeeps(db);
      UnlinkFinishes(Read(db), claims.sub, FromSlug(slug).value, e);
    }
  }

  /** The statements of a refresh, logout or role change, and the calls that need none. */
  predicate LeavesAccounts(pc: Pc) {
    InRefresh(pc) || pc.RevokeSessions? || pc.RoleUpdate? || Settled(pc)
  }

  predicate Bystander(request: Request) {
    && !request.Register? && !request.Login?
    && !request.ChangePassword? && !request.DeactivateAccount? && !request.UnlinkConnection?
  }

  lemma StartLeavesAccounts(issued: set<Claims>, request: Request)
    requires Bystander(request)
    ensures LeavesAccounts(Start(issued, request))
  {
  }

  lemma ManageLeavesAccounts(db: Db, pc: Pc, e: Env)
    requires pc.RevokeSessions? || pc.RoleUpdate?
    ensures var next := AdvanceManage(db, pc, e); Abs(next.db) == Abs(db) && next.pc.Done?
  {
    if pc.RoleUpdate? && pc.target < |db.users| {
      AbsRole(db, pc.admin, pc.target, pc.role);
    } else {
      SameAbs(db, AdvanceManage(db, pc, e).db);
    }
  }

  lemma StatementLeavesAccounts(db: Db, pc: Pc, e: Env)
    requires LeavesAccounts(pc) && !Settled(pc)
    ensures var next := Advance(db, pc, e); Abs(next.db) == Abs(db) && LeavesAccounts(next.pc)
  {
    if InRefresh(pc) {
      RefreshLeavesAccounts(db, pc, e);
      SameAbs(db, AdvanceRefresh(db, pc, e).db);
    } else {
      ManageLeavesAccounts(db, pc, e);
    }
  }

  lemma {:induction false} OthersFinish(db: Db, pc: Pc, e: Env)
    requires LeavesAccounts(pc)
    ensures Abs(Finish(db, pc, e).db) == Abs(db)
    decreases Rank(pc)
  {
    if Settled(pc) {
    } else {
      StatementLeavesAccounts(db, pc, e);
      OthersFinish(Advance(db, pc, e).db, Advance(db, pc, e).pc, e);
    }
  }

  lemma OthersRefine(db: Db, request: Request, e: Env)
    requires Bystander(request)
    ensures Abs(Apply(db, Op(request, e)).db) == Abs(db)
  {
    StartLeavesAccounts(db.issued, request);
    SameAbs(db, Read(db));
    OthersFinish(Read(db), Start(db.issued, request), e);
  }

  /** One atomic operation moves the directory exactly as specified. */
  lemma OpRefines(db: Db, op: Op)
    requires DbInv(db) && FreshDraw(db, op.e)
    ensures Abs(Apply(db, op).db) == SpecStep(Abs(db), Admits(db.issued, op), op)
  {
    match op
    case OAuthLogin(profile, e) => OAuthRefines(db, profile, e);
    case Op(Register(email, username, password), e) => RegisterRefines(db, email, username, password, e);
    case Op(ChangePassword(claims, current, proposed), e) => PasswordRefines(db, claims, current, proposed, e);
    case Op(DeactivateAccount(claims), e) => DeactivateRefines(db, claims, e);
    case Op(UnlinkConnection(claims, slug), e) => UnlinkRefines(db, claims, slug, e);
    case Op(Login(email, password), e) =>
      LoginExact(db, email, password, e);
      SameAbs(db, Apply(db, op).db);
    case Op(request, e) => OthersRefine(db, request, e);
  }

  /** A sign-in from outside is delivered exactly when the directory says so. */
  lemma OpDelivers(db: Db, op: Op)
    requires DbInv(db) && FreshDraw(db, op.e)
    requires op.Op? ==> op.request.Register? || op.request.Login?
    ensures Delivered(Apply(db, op).pc).Some? <==> SpecDelivers(Abs(db), op)
  {
    match op
    case OAuthLogin(profile, e) => OAuthRefines(db, profile, e);
    case Op(Register(email, username, password), e) => RegisterExact(db, email, username, password, e);
    case Op(Login(email, password), e) => LoginExact(db, email, password, e);
  }

  /** The specification along a whole run, given which guarded operations were let in. */
  function SpecPlay(m: Directory, ops: seq<Op>, admitted: seq<bool>): Directory
    requires |ops| == |admitted|
    decreases |ops|
  {
    if ops == [] then m else SpecPlay(SpecStep(m, admitted[0], ops[0]), ops[1..], admitted[1..])
  }

  /** Which operations of a run carried an issued access token of sufficient role. */
  function Admissions(db: Db, ops: seq<Op>): (admitted: seq<bool>)
    ensures |admitted| == |ops|
    decreases |ops|
  {
    if ops == [] then [] else [Admits(db.issued, ops[0])] + Admissions(Apply(db, ops[0]).db, ops[1..])
  }

  /** Every operation of the run draws a secret that is not in the table yet. */
  ghost predicate FreshRun(db: Db, ops: seq<Op>)
    decreases |ops|
  {
    ops == [] || (FreshDraw(db, ops[0].e) && FreshRun(Apply(db, ops[0]).db, ops[1..]))
  }

  lemma {:induction false} RunRefines(db: Db, ops: seq<Op>)
    requires DbInv(db) && FreshRun(db, ops)
    ensures Abs(Play(db, ops)) == SpecPlay(Abs(db), ops, Admissions(db, ops)) && DbInv(Play(db, ops))
    decreases |ops|
  {
    if ops == [] {
    } else {
      OpRefines(db, ops[0]);
      ApplyKeeps(db, ops[0]);
      RunRefines(Apply(db, ops[0]).db, ops[1..]);
      assert Admissions(db, ops)[1..] == Admissions(Apply(db, ops[0]).db, ops[1..]);
    }
  }

  /** After any atomic run, each sign-in from outside succeeds exactly when the specified directory says so. */
  lemma AccountServiceRefinesMap(db: Db, ops: seq<Op>, op: Op)
    requires DbInv(db) && FreshRun(db, ops) && FreshDraw(Play(db, ops), op.e)
    requires op.Op? ==> op.request.Register? || op.request.Login?
    ensures Delivered(Apply(Play(db, ops), op).pc).Some?
            <==> SpecDelivers(SpecPlay(Abs(db), ops, Admissions(db, ops)), op)
  {
    RunRefines(db, ops);
    OpDelivers(Play(db, ops), op);
  }

  // ---- Repeated OAuth logins ----

  /** A delivered atomic OAuth login leaves a link row for its identity, to the active user it resolved. */
  lemma OAuthLeavesLink(db: Db, profile: Profile, e: Env)
    requires DbInv(db) && Delivered(Apply(db, OAuthLogin(profile, e)).pc).Some?
    ensures var f := Apply(db, OAuthLogin(profile, e));
            && profile.identity in f.db.links && f.db.links[profile.identity].user == Delivered(f.pc).value.claims.sub
            && ActiveUser(f.db, f.db.links[profile.identity].user)
  {
    FirstOk(db, OAuthLogin(profile, e));
    LinkFinish(Begun(db, OAuthLogin(profile, e)), db.tick, OAuthFindLink(profile), e);
  }

  predicate ActiveUser(db: Db, u: UserId) {
    u < |db.users| && db.users[u].isActive
  }

  predicate LinkedActive(db: Db, x: Identity, u: UserId) {
    x in db.links && db.links[x].user == u && ActiveUser(db, u)
  }

  ghost predicate LinkMid(db: Db, pc: Pc) {
    && ((pc.OAuthFindEmail? || pc.OAuthCreate? || pc.OAuthLink?) ==> pc.profile.identity !in db.links)
    && (pc.OAuthLink? && pc.who.row.isActive ==> ActiveUser(db, pc.who.id))
    && (pc.OAuthCredential? ==> LinkedActive(db, pc.profile.identity, pc.who.id))
    && (pc.IssueTokens? && pc.door.ViaCallback? ==> LinkedActive(db, pc.door.profile.identity, pc.who.id))
    && (pc.CallbackStore? ==> LinkedActive(db, pc.profile.identity, pc.response.claims.sub))
  }

  lemma {:induction false} LinkFinish(db: Db, begun: nat, pc: Pc, e: Env)
    requires DbInv(db) && begun < db.tick && PcOk(db, begun, pc) && LinkMid(db, pc) && ProfileOf(pc).Some? && !pc.Done?
    ensures var f := Finish(db, pc, e);
            || (ProfileOf(f.pc) == ProfileOf(pc) && LinkMid(f.db, f.pc) && f.pc.CallbackStore?)
            || (f.pc.Done? && f.pc.outcome.Failed?)
    decreases Rank(pc)
  {
    if Settled(pc) {
    } else {
      var next := LinkNext(db, begun, pc, e);
      if !next.pc.Done? {
        LinkFinish(next.db, begun, next.pc, e);
      }
    }
  }

  lemma LinkNext(db: Db, begun: nat, pc: Pc, e: Env) returns (next: Progress)
    requires DbInv(db) && begun < db.tick && PcOk(db, begun, pc) && LinkMid(db, pc) && ProfileOf(pc).Some?
             && !Settled(pc)
    ensures Finish(db, pc, e) == Finish(next.db, next.pc, e) && Rank(next.pc) < Rank(pc)
    ensures DbInv(next.db) && begun < next.db.tick && PcOk(next.db, begun, next.pc)
    ensures || (ProfileOf(next.pc) == ProfileOf(pc) && LinkMid(next.db, next.pc) && !next.pc.Done?)
            || (next.pc.Done? && next.pc.outcome.Failed?)
  {
    next := Advance(db, pc, e);
    AdvanceKeeps(db, begun, pc, e);
    LinkStep(db, pc, e);
  }

  lemma LinkStep(db: Db, pc: Pc, e: Env)
    requires CredentialsOk(db) && LinkMid(db, pc) && ProfileOf(pc).Some? && !Settled(pc)
    ensures var next := Advance(db, pc, e);
            || (ProfileOf(next.pc) == ProfileOf(pc) && LinkMid(next.db, next.pc) && !next.pc.Done?)
            || (next.pc.Done? && next.pc.outcome.Failed?)
  {
  }

  /** Repeating a delivered OAuth login is delivered again, for the same user, and adds no user and no link. */
  lemma OAuthLoginRepeats(db: Db, profile: Profile, again: Profile, e: Env, e': Env)
    requires DbInv(db) && Delivered(Apply(db, OAuthLogin(profile, e)).pc).Some? && again.identity == profile.identity
    requires FreshDraw(Apply(db, OAuthLogin(profile, e)).db, e')
    ensures var f := Apply(db, OAuthLogin(profile, e));
            var g := Apply(f.db, OAuthLogin(again, e'));
            && g.db.users == f.db.users && g.db.links == f.db.links && g.db.locals == f.db.locals
            && Delivered(g.pc).Some? && Delivered(g.pc).value.claims.sub == Delivered(f.pc).value.claims.sub
  {
    OAuthLeavesLink(db, profile, e);
    ApplyKeeps(db, OAuthLogin(profile, e));
    OAuthExact(Apply(db, OAuthLogin(profile, e)).db, again, e');
  }
}
