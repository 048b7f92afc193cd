/** The field rules for users: the body of a create request, the body of an
    update request, and a stored user record. Whether a string is a
    well-formed email address is the parameter `isEmail`. */
module UserSchemas {
  import opened Common
  import opened ZodIssues

  const InvalidEmailMessage: string := "Invalid email format"
  const EmptyNameMessage: string := "Name cannot be empty"
  /** The library's own message for a malformed email in `userSchema`. */
  const DefaultEmailMessage: string := "Invalid email"

  /** A create or update body after validation: the fields that were given. */
  datatype UserInput = UserInput(email: Option<string>, name: Option<string>)

  /** A stored user record. */
  datatype User = User(id: int, firebaseUid: string, email: string, name: Option<string>)

  /** `z.string().email({message: 'Invalid email format'})`, made optional
      when `optional` holds. */
  function EmailField(raw: Value, isEmail: string -> bool, optional: bool): (r: Result<Option<string>, seq<Issue>>)
    ensures r.Ok? <==> (raw.Undefined? && optional) || (raw.Str? && isEmail(raw.s))
    ensures r.Ok? ==> r.value == if raw.Str? then Some(raw.s) else None
    ensures raw.Str? && !isEmail(raw.s) ==> r == Err([Issue([], InvalidEmailMessage)])
  {
    match raw
    case Undefined => if optional then Ok(None) else Err([Issue([], InvalidTypeMessage("string", raw))])
    case Str(s) => if isEmail(s) then Ok(Some(s)) else Err([Issue([], InvalidEmailMessage)])
    case _ => Err([Issue([], InvalidTypeMessage("string", raw))])
  }

  /** `z.string().min(1, {message: 'Name cannot be empty'}).optional()`. */
  function NameField(raw: Value): (r: Result<Option<string>, seq<Issue>>)
    ensures r.Ok? <==> raw.Undefined? || (raw.Str? && |raw.s| >= 1)
    ensures r.Ok? ==> r.value == if raw.Str? then Some(raw.s) else None
    ensures raw == Str("") ==> r == Err([Issue([], EmptyNameMessage)])
  {
    match raw
    case Undefined => Ok(None)
    case Str(s) => if |s| >= 1 then Ok(Some(s)) else Err([Issue([], EmptyNameMessage)])
    case _ => Err([Issue([], InvalidTypeMessage("string", raw))])
  }

  /** The two body schemas, which differ only in whether `email` may be
      missing. Unknown keys are dropped. */
  function ParseInput(v: Value, isEmail: string -> bool, emailOptional: bool): (r: Result<UserInput, seq<Issue>>)
    ensures r.Ok? <==>
      v.Obj? && EmailField(Field(v, "email"), isEmail, emailOptional).Ok? && NameField(Field(v, "name")).Ok?
    ensures r.Ok? ==>
      r.value == UserInput(EmailField(Field(v, "email"), isEmail, emailOptional).value, NameField(Field(v, "name")).value)
    ensures r.Ok? ==> r.value.email.Some? ==> isEmail(r.value.email.value)
    ensures r.Ok? ==> r.value.name.Some? ==> |r.value.name.value| >= 1
    ensures r.Err? ==> |r.error| >= 1
  {
    if !v.Obj? then Err([Issue([], InvalidTypeMessage("object", v))])
    else
      var email := EmailField(Field(v, "email"), isEmail, emailOptional);
      var name := NameField(Field(v, "name"));
      if email.Ok? && name.Ok? then Ok(UserInput(email.value, name.value))
      else Err(AtKey("email", IssuesOf(email)) + AtKey("name", IssuesOf(name)))
  }

  /** `userCreateSchema.parse(body)`. */
  function ParseCreate(v: Value, isEmail: string -> bool): (r: Result<UserInput, seq<Issue>>)
    ensures r.Ok? <==>
      v.Obj? && Field(v, "email").Str? && isEmail(Field(v, "email").s) && NameField(Field(v, "name")).Ok?
    ensures r.Ok? ==> r.value.email.Some?
  {
    ParseInput(v, isEmail, false)
  }

  /** `userUpdateSchema.parse(body)`. */
  function ParseUpdate(v: Value, isEmail: string -> bool): (r: Result<UserInput, seq<Issue>>)
    ensures r.Ok? <==>
      && v.Obj?
      && (Field(v, "email").Undefined? || (Field(v, "email").Str? && isEmail(Field(v, "email").s)))
      && NameField(Field(v, "name")).Ok?
  {
    ParseInput(v, isEmail, true)
  }

  /** A validated body as the value that replaces `req.body`: only the
      fields that were given. */
  function InputToValue(u: UserInput): Value
  {
    var withEmail: map<string, Value> := if u.email.Some? then map["email" := Str(u.email.value)] else map[];
    Obj(if u.name.Some? then withEmail["name" := Str(u.name.value)] else withEmail)
  }

  /** How a handler reads `email` and `name` out of `req.body`. */
  function InputOf(body: Value): UserInput
  {
    var email := Field(body, "email");
    var name := Field(body, "name");
    UserInput(if email.Str? then Some(email.s) else None, if name.Str? then Some(name.s) else None)
  }

  lemma InputRoundTrip(u: UserInput)
    ensures InputOf(InputToValue(u)) == u
  {
  }

  /** `userCreateSchema` as the validator sees it: an accepted body is
      stored as a value the handler reads back as the parsed input, and a
      refused one hands over its issues. */
  function CreateSchema(isEmail: string -> bool, v: Value): (r: ParseOutcome)
    ensures r.Parsed? <==> ParseCreate(v, isEmail).Ok?
    ensures r.Parsed? ==>
      r.value == InputToValue(ParseCreate(v, isEmail).value) && InputOf(r.value) == ParseCreate(v, isEmail).value
    ensures !r.Parsed? ==> r == Invalid(ParseCreate(v, isEmail).error)
  {
    match ParseCreate(v, isEmail)
    case Ok(u) => InputRoundTrip(u); Parsed(InputToValue(u))
    case Err(issues) => Invalid(issues)
  }

  /** A create body without an email is refused, and only the email is
      reported. */
  lemma CreateRequiresEmail(v: Value, isEmail: string -> bool)
    requires v.Obj? && Field(v, "email").Undefined? && NameField(Field(v, "name")).Ok?
    ensures ParseCreate(v, isEmail) == Err([Issue([Key("email")], "Required")])
  {
    assert EmailField(Field(v, "email"), isEmail, false) == Err([Issue([], "Required")]);
    SingleIssueAtKey("email", "Required");
    assert AtKey("name", []) == [];
    assert [Issue([Key("email")], "Required")] + [] == [Issue([Key("email")], "Required")];
  }

  /** The update schema accepts the empty object, and every create body it
      accepts too, with the same result. */
  lemma UpdateIsCreateWithOptionalEmail(v: Value, isEmail: string -> bool)
    ensures ParseUpdate(Obj(map[]), isEmail) == Ok(UserInput(None, None))
    ensures ParseCreate(v, isEmail).Ok? ==> ParseUpdate(v, isEmail) == ParseCreate(v, isEmail)
  {
  }

  /** A refused body reports every issue of each field whose rule refuses
      it, under that field's key, and nothing else. */
  lemma EveryRefusedInputFieldIsReported(v: Value, isEmail: string -> bool, emailOptional: bool)
    requires v.Obj?
    ensures var email := EmailField(Field(v, "email"), isEmail, emailOptional);
      var name := NameField(Field(v, "name"));
      var r := ParseInput(v, isEmail, emailOptional);
      && (r.Err? <==> email.Err? || name.Err?)
      && (r.Err? ==>
        && ReportedUnder("email", IssuesOf(email), r.error)
        && ReportedUnder("name", IssuesOf(name), r.error)
        && |r.error| == |IssuesOf(email)| + |IssuesOf(name)|)
  {
    var email := EmailField(Field(v, "email"), isEmail, emailOptional);
    var name := NameField(Field(v, "name"));
    var a, b := AtKey("email", IssuesOf(email)), AtKey("name", IssuesOf(name));
    if email.Err? || name.Err? {
      assert ParseInput(v, isEmail, emailOptional).error == a + b;
      AtKeyIsReported("email", IssuesOf(email), [], b);
      assert [] + a + b == a + b;
      AtKeyIsReported("name", IssuesOf(name), a, []);
      assert a + b + [] == a + b;
    }
  }

  /** A malformed email and an empty name are both reported, email first. */
  lemma BothIssuesReported(v: Value, isEmail: string -> bool)
    requires v.Obj? && Field(v, "email").Str? && !isEmail(Field(v, "email").s)
    requires Field(v, "name") == Str("")
    ensures ParseCreate(v, isEmail) ==
      Err([Issue([Key("email")], InvalidEmailMessage), Issue([Key("name")], EmptyNameMessage)])
  {
    assert EmailField(Field(v, "email"), isEmail, false) == Err([Issue([], InvalidEmailMessage)]);
    assert NameField(Field(v, "name")) == Err([Issue([], EmptyNameMessage)]);
    SingleIssueAtKey("email", InvalidEmailMessage);
    SingleIssueAtKey("name", EmptyNameMessage);
    assert ParseCreate(v, isEmail) == Err(AtKey("email", [Issue([], InvalidEmailMessage)]) + AtKey("name", [Issue([], EmptyNameMessage)]));
    var a, b := Issue([Key("email")], InvalidEmailMessage), Issue([Key("name")], EmptyNameMessage);
    assert [a] + [b] == [a, b];
  }

  // ---------------------------------------------------------------------
  // userSchema: a stored record

  function UserToValue(u: User): Value
  {
    Obj(map["id" := Num(u.id), "firebase_uid" := Str(u.firebaseUid), "email" := Str(u.email),
            "name" := if u.name.Some? then Str(u.name.value) else Null])
  }

  /** `userSchema.parse(v)`: a numeric id, a string `firebase_uid`, a
      well-formed email and a string or null name. */
  function ParseUser(v: Value, isEmail: string -> bool): (r: Result<User, seq<Issue>>)
    ensures r.Ok? <==>
      && v.Obj? && Field(v, "id").Num? && Field(v, "firebase_uid").Str?
      && Field(v, "email").Str? && isEmail(Field(v, "email").s)
      && (Field(v, "name").Str? || Field(v, "name").Null?)
    ensures r.Ok? ==> r.value.id == Field(v, "id").n && r.value.firebaseUid == Field(v, "firebase_uid").s
    ensures r.Ok? ==> r.value.email == Field(v, "email").s && isEmail(r.value.email)
    ensures r.Ok? ==> r.value.name == if Field(v, "name").Str? then Some(Field(v, "name").s) else None
    ensures r.Err? ==> |r.error| >= 1
  {
    if !v.Obj? then Err([Issue([], InvalidTypeMessage("object", v))])
    else
      var id := Field(v, "id");
      var uid := Field(v, "firebase_uid");
      var email := Field(v, "email");
      var name := Field(v, "name");
      var issues :=
        (if id.Num? then [] else [Issue([Key("id")], InvalidTypeMessage("number", id))])
        + (if uid.Str? then [] else [Issue([Key("firebase_uid")], InvalidTypeMessage("string", uid))])
        + (if !email.Str? then [Issue([Key("email")], InvalidTypeMessage("string", email))]
           else if !isEmail(email.s) then [Issue([Key("email")], DefaultEmailMessage)]
           else [])
        + (if name.Str? || name.Null? then [] else [Issue([Key("name")], InvalidTypeMessage("string", name))]);
      if issues == [] then
        Ok(User(id.n, uid.s, email.s, if name.Str? then Some(name.s) else None))
      else Err(issues)
  }

  /** A record satisfies `userSchema` exactly when its email is well formed,
      and then parses back to itself. */
  lemma UserRecordValid(u: User, isEmail: string -> bool)
    ensures ParseUser(UserToValue(u), isEmail).Ok? <==> isEmail(u.email)
    ensures isEmail(u.email) ==> ParseUser(UserToValue(u), isEmail) == Ok(u)
  {
    var v := UserToValue(u);
    assert Field(v, "id") == Num(u.id) && Field(v, "firebase_uid") == Str(u.firebaseUid);
    assert Field(v, "email") == Str(u.email);
    assert Field(v, "name") == if u.name.Some? then Str(u.name.value) else Null;
  }
}
