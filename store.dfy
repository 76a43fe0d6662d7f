/** The credential store as the service sees it: the `Firm` and `User` rows
    it reads and writes, the unique index on `User.email`, and the ids the
    database hands out. */
module Store {
  import opened Common
  import Argon2

  type FirmId = nat
  type UserId = nat

  datatype Role = Admin | Staff

  datatype TwoFactorStatus = Pending | Verified

  datatype Firm = Firm(
    id: FirmId,
    name: string,
    address: Option<string>,
    city: Option<string>,
    state: Option<string>,
    zip: Option<string>,
    planTier: string)

  datatype User = User(
    id: UserId,
    firmId: FirmId,
    email: string,
    passwordHash: Argon2.Digest,
    firstName: string,
    lastName: string,
    phone: Option<string>,
    role: Role,
    twoFactorSecret: Option<string>,
    twoFactorStatus: TwoFactorStatus)

  /** The two tables, the e-mail index, and the next id of each table. */
  datatype Db = Db(
    firms: map<FirmId, Firm>,
    users: map<UserId, User>,
    emailIndex: map<string, UserId>,
    nextFirmId: FirmId,
    nextUserId: UserId)
  {
    /** Rows sit under their own id, below the next id to hand out; every
        user belongs to a stored firm; the index maps each stored e-mail,
        which is lower case, to the one user that has it. */
    ghost predicate Valid() {
      && (forall id :: id in firms ==> firms[id].id == id && id < nextFirmId)
      && (forall id :: id in users ==> UserRowOk(id))
      && (forall e :: e in emailIndex ==> emailIndex[e] in users && users[emailIndex[e]].email == e)
    }

    ghost predicate UserRowOk(id: UserId)
      requires id in users
    {
      var u := users[id];
      && u.id == id
      && id < nextUserId
      && u.firmId in firms
      && IsLower(u.email)
      && u.email in emailIndex && emailIndex[u.email] == id
    }
  }

  function EmptyDb(): (db: Db)
    ensures db.Valid() && db.users == map[] && db.firms == map[]
  {
    Db(map[], map[], map[], 0, 0)
  }

  /** `prisma.user.findUnique({where: {email}})`: the user with that e-mail,
      if there is one. */
  function FindUserByEmail(db: Db, email: string): (r: Option<User>)
    requires db.Valid()
    ensures r.Some? ==> r.value.id in db.users && db.users[r.value.id] == r.value && r.value.email == email
    ensures r.None? ==> forall id :: id in db.users ==> db.users[id].email != email
  {
    if email in db.emailIndex then Some(db.users[db.emailIndex[email]]) else None
  }

  /** `prisma.user.findUnique({where: {id}})`. */
  function FindUserById(db: Db, id: UserId): (r: Option<User>)
    requires db.Valid()
    ensures r.Some? <==> id in db.users
    ensures r.Some? ==> r.value == db.users[id] && r.value.id == id && r.value.firmId in db.firms
  {
    if id in db.users then Some(db.users[id]) else None
  }

  /** Two stored users never share an e-mail address. */
  lemma EmailsUnique(db: Db, a: UserId, b: UserId)
    requires db.Valid() && a in db.users && b in db.users
    requires db.users[a].email == db.users[b].email
    ensures a == b
  {
  }
}
