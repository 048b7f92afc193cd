/** The user handlers: list users a page at a time, create the caller's user
    record, and return the caller's own record. The database is a map from
    `firebase_uid` to the user record, held by a `UserStore` object. */
module UserController {
  import opened Common
  import opened Errors
  import opened Requests
  import opened UserSchemas
  import opened PaginationSchema
  import opened ErrorHandler

  /** A failure the database client throws; `message` is `None` when what
      it throws is not an `Error`, and `stack` is its stack trace. */
  datatype StoreFault = StoreFault(message: Option<string>, code: Option<string>, stack: Option<string>)

  /** A success response: its status and the payload under `data`. */
  datatype Reply<T> = Reply(status: int, data: T)

  /** A user record without its `firebase_uid`. */
  datatype PublicUser = PublicUser(id: int, email: string, name: Option<string>)

  const InvalidIdentityMessage: string := "Invalid Firebase user data"
  const EmailRequiredMessage: string := "Email is required"
  const AlreadyExistsMessage: string := "User already exists"
  const UserNotFoundMessage: string := "User not found"
  const CreateFailedPrefix: string := "Failed to create user: "
  const GetFailedPrefix: string := "Failed to get user: "
  const UniqueUidFault: StoreFault :=
    StoreFault(Some("Unique constraint failed on the fields: (`firebase_uid`)"), Some("P2002"), None)

  /** A database failure that is not caught on the way: the error itself
      reaches the error normaliser, with its message, code and stack. */
  function Uncaught(f: StoreFault): (e: Failure)
    ensures e.code == f.code && e.statusCode.None? && e.stack == f.stack
    ensures f.message.Some? ==> e.message == f.message.value
  {
    Failure(if f.message.Some? then f.message.value else "", None, f.code, f.stack)
  }

  /** `error instanceof Error ? error.message : 'Unknown error'`. */
  function FaultText(f: StoreFault): string
  {
    if f.message.Some? then f.message.value else "Unknown error"
  }

  class UserStore {
    var users: map<string, User>
    var nextId: int

    /** Every record is filed under its own uid, and ids are distinct and
        below the next id to hand out. */
    ghost predicate Valid()
      reads this
    {
      && nextId >= 1
      && (forall uid :: uid in users ==> users[uid].firebaseUid == uid && 1 <= users[uid].id < nextId)
      && (forall a, b :: a in users && b in users && a != b ==> users[a].id != users[b].id)
    }

    constructor ()
      ensures Valid() && users == map[] && nextId == 1
    {
      users := map[];
      nextId := 1;
    }

    /** `prisma.users.findUnique({where: {firebase_uid: uid}})`. */
    function FindUnique(uid: string): (r: Option<User>)
      reads this
      ensures r.Some? <==> uid in users
      ensures r.Some? ==> r.value == users[uid]
    {
      if uid in users then Some(users[uid]) else None
    }

    /** `prisma.users.create({data})`: a new record with the next id, unless
        the uid is taken (the unique column refuses it) or the database
        fails with `fault`. */
    method Create(uid: string, email: string, name: Option<string>, fault: Option<StoreFault>)
      returns (r: Result<User, StoreFault>)
      requires Valid()
      modifies this
      ensures Valid()
      ensures fault.Some? ==> r == Err(fault.value)
      ensures fault.None? && uid in old(users) ==> r == Err(UniqueUidFault)
      ensures r.Err? ==> users == old(users) && nextId == old(nextId)
      ensures r.Ok? <==> fault.None? && uid !in old(users)
      ensures r.Ok? ==>
        && r.value == User(old(nextId), uid, email, name)
        && users == old(users)[uid := r.value]
        && nextId == old(nextId) + 1
    {
      if fault.Some? {
        return Err(fault.value);
      }
      if uid in users {
        return Err(UniqueUidFault);
      }
      var user := User(nextId, uid, email, name);
      users := users[uid := user];
      nextId := nextId + 1;
      r := Ok(user);
    }
  }

  /** The identity check both handlers start with: `!firebaseUser ||
      !firebaseUser.uid`. */
  predicate HasIdentity(identity: Option<DecodedToken>)
    ensures HasIdentity(identity) <==> identity.Some? && TruthyString(Some(identity.value.uid))
  {
    identity.Some? && identity.value.uid != ""
  }

  /** `name || null`: an empty or missing name is stored as null. */
  function StoredName(name: Option<string>): (r: Option<string>)
    ensures r.Some? <==> name.Some? && name.value != ""
    ensures r.Some? ==> r == name
  {
    if name.Some? && name.value != "" then name else None
  }

  /** `createUser(req, res)`: the guards run in the order invalid identity
      (400), missing email (400), existing record (409); only then is one
      record inserted and answered with 201. A database failure on the
      lookup (`lookupFault`) is not caught and travels on as it is; one on
      the insert (`insertFault`) becomes a 500 whose message names the cause.
      `trace` is the stack trace the runtime gives an `AppError` built here. */
  method CreateUser(req: Request, store: UserStore, lookupFault: Option<StoreFault>,
                    insertFault: Option<StoreFault>, trace: Option<string>)
    returns (r: Result<Reply<User>, Failure>)
    requires store.Valid()
    modifies store
    ensures store.Valid()
    ensures r.Err? ==> store.users == old(store.users)
    ensures r.Err? && r.error.code.Some? ==> lookupFault.Some? && r.error == Uncaught(lookupFault.value)
    ensures !HasIdentity(req.firebaseUser) ==> r == Err(AppError(InvalidIdentityMessage, 400, trace))
    ensures HasIdentity(req.firebaseUser) && !TruthyString(InputOf(req.body).email) ==>
      r == Err(AppError(EmailRequiredMessage, 400, trace))
    ensures (HasIdentity(req.firebaseUser) && TruthyString(InputOf(req.body).email)
             && lookupFault.Some?) ==>
      r == Err(Uncaught(lookupFault.value))
    ensures (HasIdentity(req.firebaseUser) && TruthyString(InputOf(req.body).email)
             && lookupFault.None? && req.firebaseUser.value.uid in old(store.users)) ==>
      r == Err(AppError(AlreadyExistsMessage, 409, trace))
    ensures (HasIdentity(req.firebaseUser) && TruthyString(InputOf(req.body).email)
             && lookupFault.None? && req.firebaseUser.value.uid !in old(store.users)
             && insertFault.Some?) ==>
      r == Err(AppError(CreateFailedPrefix + FaultText(insertFault.value), 500, trace))
    ensures r.Ok? <==>
      (HasIdentity(req.firebaseUser) && TruthyString(InputOf(req.body).email)
       && lookupFault.None? && req.firebaseUser.value.uid !in old(store.users) && insertFault.None?)
    ensures r.Ok? ==>
      var uid := req.firebaseUser.value.uid;
      && r.value == Reply(201, User(old(store.nextId), uid, InputOf(req.body).email.value,
                                    StoredName(InputOf(req.body).name)))
      && store.users == old(store.users)[uid := r.value.data]
  {
    var firebaseUser := req.firebaseUser;
    if firebaseUser.None? || firebaseUser.value.uid == "" {
      return Err(AppError(InvalidIdentityMessage, 400, trace));
    }
    var input := InputOf(req.body);
    if input.email.None? || input.email.value == "" {
      return Err(AppError(EmailRequiredMessage, 400, trace));
    }
    if lookupFault.Some? {
      return Err(Uncaught(lookupFault.value));
    }
    var existingUser := store.FindUnique(firebaseUser.value.uid);
    if existingUser.Some? {
      return Err(AppError(AlreadyExistsMessage, 409, trace));
    }
    var created := store.Create(firebaseUser.value.uid, input.email.value, StoredName(input.name), insertFault);
    match created
    case Ok(newUser) =>
      r := Ok(Reply(201, newUser));
    case Err(error) =>
      r := Err(AppError(CreateFailedPrefix + FaultText(error), 500, trace));
  }

  /** A failed insert reaches the client as a 500 carrying the database's
      message, even when the database reports a unique-constraint violation:
      the normaliser's 409 branch is never reached through the insert. The
      stack sent in development mode is the one of the wrapping `AppError`,
      not the database's. */
  lemma InsertFailureIsServerError(f: StoreFault, trace: Option<string>, nodeEnv: string)
    ensures Handle(AppError(CreateFailedPrefix + FaultText(f), 500, trace), nodeEnv)
      == ErrorResponse(500, ErrorBody("error", CreateFailedPrefix + FaultText(f),
                                      if nodeEnv == "development" then trace else None))
  {
    assert (CreateFailedPrefix + FaultText(f))[0] == 'F';
  }

  /** A body the create schema accepted always carries a truthy email when
      the empty string is not an email, so after validation the "Email is
      required" guard cannot fire. */
  lemma ValidatedBodyHasEmail(v: Value, isEmail: string -> bool)
    requires !isEmail("")
    requires ParseCreate(v, isEmail).Ok?
    ensures TruthyString(InputOf(InputToValue(ParseCreate(v, isEmail).value)).email)
  {
    var u := ParseCreate(v, isEmail).value;
    InputRoundTrip(u);
    assert u.email.Some? && isEmail(u.email.value);
  }

  /** `const {firebase_uid, ...userWithoutFirebaseId} = user`. */
  function Strip(u: User): (p: PublicUser)
    ensures p.id == u.id && p.email == u.email && p.name == u.name
  {
    PublicUser(u.id, u.email, u.name)
  }

  /** Stripping loses the uid and nothing else: it can be put back. */
  lemma StripLosesOnlyUid(u: User)
    ensures var p := Strip(u); User(p.id, u.firebaseUid, p.email, p.name) == u
  {
  }

  /** `getCurrentUser(req, res)`: reads the store and changes nothing. An
      invalid identity is a 400 before the store is read; a missing record is
      the 404 AppError, re-thrown unchanged; any other database failure is a
      500; a found record is answered with 200 without its uid. `trace` is
      the stack trace the runtime gives an `AppError` built here. */
  method GetCurrentUser(req: Request, store: UserStore, fault: Option<StoreFault>, trace: Option<string>)
    returns (r: Result<Reply<PublicUser>, Failure>)
    ensures !HasIdentity(req.firebaseUser) ==> r == Err(AppError(InvalidIdentityMessage, 400, trace))
    ensures HasIdentity(req.firebaseUser) && fault.Some? ==>
      r == Err(AppError(GetFailedPrefix + FaultText(fault.value), 500, trace))
    ensures HasIdentity(req.firebaseUser) && fault.None? ==>
      var uid := req.firebaseUser.value.uid;
      r == if uid in store.users then Ok(Reply(200, Strip(store.users[uid])))
           else Err(AppError(UserNotFoundMessage, 404, trace))
  {
    var firebaseUser := req.firebaseUser;
    if firebaseUser.None? || firebaseUser.value.uid == "" {
      return Err(AppError(InvalidIdentityMessage, 400, trace));
    }
    if fault.Some? {
      return Err(AppError(GetFailedPrefix + FaultText(fault.value), 500, trace));
    }
    var user := store.FindUnique(firebaseUser.value.uid);
    if user.None? {
      return Err(AppError(UserNotFoundMessage, 404, trace));
    }
    r := Ok(Reply(200, Strip(user.value)));
  }

  // ---------------------------------------------------------------------
  // Listing a page of users

  function Min(a: int, b: int): int
  {
    if a <= b then a else b
  }

  /** `Math.ceil(total / limit)`. */
  function CeilDiv(total: nat, limit: int): (pages: nat)
    requires limit >= 1
    ensures pages * limit >= total
    ensures pages > 0 ==> (pages - 1) * limit < total
    ensures pages == 0 <==> total == 0
  {
    var q := (total + limit - 1) / limit;
    assert q * limit + (total + limit - 1) % limit == total + limit - 1;
    assert (q - 1) * limit == q * limit - limit;
    q
  }

  /** The rows `findMany({skip: (page - 1) * limit, take: limit})` returns
      from `rows`, the table in the requested order. */
  function Page<T>(rows: seq<T>, page: int, limit: int): (r: seq<T>)
    requires page >= 1 && limit >= 1
    ensures |r| <= limit
  {
    var skip := (page - 1) * limit;
    assert skip >= 0 by {
      assert (page - 1) * limit >= 0 * limit;
    }
    rows[Min(skip, |rows|)..Min(skip + limit, |rows|)]
  }

  datatype PaginationInfo = PaginationInfo(page: int, limit: int, total: int, pages: int)

  datatype ListReply = ListReply(status: int, results: int, pagination: PaginationInfo, users: seq<User>)

  /** `getAllUsers(req, res)` for a validated query; `rows` are the table's
      records in the order `sort` and `order` ask for. */
  function ListUsers(q: PaginationQuery, rows: seq<User>): (r: ListReply)
    requires InRange(q)
    ensures r.status == 200
    ensures r.users == Page(rows, q.page, q.limit)
    ensures r.results == |r.users| <= q.limit
    ensures r.pagination.page == q.page && r.pagination.limit == q.limit && r.pagination.total == |rows|
    ensures r.pagination.pages * q.limit >= |rows|
    ensures r.pagination.pages > 0 ==> (r.pagination.pages - 1) * q.limit < |rows|
  {
    var users := Page(rows, q.page, q.limit);
    ListReply(200, |users|, PaginationInfo(q.page, q.limit, |rows|, CeilDiv(|rows|, q.limit)), users)
  }

  /** Pages 1..n, one after the other. */
  function PagesUpTo<T>(rows: seq<T>, limit: int, n: nat): seq<T>
    requires limit >= 1
  {
    if n == 0 then [] else PagesUpTo(rows, limit, n - 1) + Page(rows, n, limit)
  }

  /** The first n pages are exactly the first n * limit rows. */
  lemma {:induction false} PagesUpToIsPrefix<T>(rows: seq<T>, limit: int, n: nat)
    requires limit >= 1
    ensures PagesUpTo(rows, limit, n) == rows[..Min(n * limit, |rows|)]
  {
    if n > 0 {
      PagesUpToIsPrefix(rows, limit, n - 1);
      assert (n - 1) * limit + limit == n * limit;
      assert (n - 1) * limit >= 0 by {
        assert (n - 1) * limit >= 0 * limit;
      }
      var a, b := Min((n - 1) * limit, |rows|), Min(n * limit, |rows|);
      assert Page(rows, n, limit) == rows[a..b];
      assert rows[..a] + rows[a..b] == rows[..b];
    }
  }

  /** Walking the pages 1..pages visits every row once, in order. */
  lemma PagesCoverAllRows<T>(rows: seq<T>, limit: int)
    requires limit >= 1
    ensures PagesUpTo(rows, limit, CeilDiv(|rows|, limit)) == rows
  {
    PagesUpToIsPrefix(rows, limit, CeilDiv(|rows|, limit));
  }

  /** Every page after the last one is empty. */
  lemma PagesAfterLastAreEmpty<T>(rows: seq<T>, page: int, limit: int)
    requires limit >= 1 && page > CeilDiv(|rows|, limit)
    ensures Page(rows, page, limit) == []
  {
    var pages := CeilDiv(|rows|, limit);
    assert (page - 1) * limit >= pages * limit by {
      assert page - 1 >= pages;
    }
  }
}
