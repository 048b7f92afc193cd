/** The authentication middleware: take the ID token from the
    `Authorization` header, have the identity provider verify it, and either
    attach the decoded identity to the request or fail with a 401. */
module Auth {
  import opened Common
  import opened Strings
  import opened Errors
  import opened Requests

  const BearerScheme: string := "Bearer"
  const NotLoggedInMessage: string := "You are not logged in. Please log in to get access"
  const ExpiredMessage: string := "Your session has expired. Please log in again"
  const InvalidTokenMessage: string := "Invalid token. Please log in again"
  const ExpiredCode: string := "auth/id-token-expired"

  /** What the identity provider answers for a token: its claims, or a
      rejection with the error's `code` when it has one. */
  datatype VerifyOutcome = Verified(claims: DecodedToken) | Rejected(code: Option<string>)

  /** The identity provider. Its verdict on each token is `decide`; it
      records every token presented to it. */
  class TokenVerifier {
    const decide: string -> VerifyOutcome
    var presented: seq<string>

    constructor (decide: string -> VerifyOutcome)
      ensures this.decide == decide && presented == []
    {
      this.decide := decide;
      presented := [];
    }

    /** `auth.verifyIdToken(token)`. */
    method VerifyIdToken(token: string) returns (o: VerifyOutcome)
      modifies this
      ensures presented == old(presented) + [token]
      ensures o == decide(token)
    {
      presented := presented + [token];
      o := decide(token);
    }
  }

  /** `authorization.split(' ')[1]` when the header is present and starts
      with `Bearer`; `None` when there is no such header, no second field,
      or an empty one (all falsy). */
  function ExtractToken(header: Option<string>): (t: Option<string>)
    ensures t.Some? ==> header.Some? && StartsWith(header.value, BearerScheme)
    ensures t.Some? ==> t.value != "" && ' ' !in t.value
  {
    if header.Some? && header.value != "" && StartsWith(header.value, BearerScheme) then
      var parts := Split(header.value, ' ');
      if |parts| >= 2 && parts[1] != "" then Some(parts[1]) else None
    else None
  }

  /** The text after the first space, up to the next space or the end;
      `None` when there is no space. */
  function SecondField(h: string): (r: Option<string>)
    ensures r.Some? ==> ' ' !in r.value
  {
    var i := FirstIndex(h, ' ');
    if i == |h| then None
    else
      var after := h[i + 1..];
      Some(after[..FirstIndex(after, ' ')])
  }

  /** The token is the header's second space-separated field, when that
      field is non-empty and the header starts with `Bearer`. */
  lemma ExtractTokenIsSecondField(h: string)
    ensures ExtractToken(Some(h)) ==
      if StartsWith(h, BearerScheme) && SecondField(h).Some? && SecondField(h).value != ""
      then SecondField(h) else None
  {
    var i := FirstIndex(h, ' ');
    SplitAtFirst(h, ' ');
    if i < |h| {
      SplitAtFirst(h[i + 1..], ' ');
      assert Split(h, ' ')[1] == Split(h[i + 1..], ' ')[0];
    }
  }

  /** In `w + " " + t + r`, where neither `w` nor `t` holds a space and
      `r` is empty or starts with one, the second field is `t`. */
  lemma SecondFieldOf(w: string, t: string, r: string)
    requires ' ' !in w && ' ' !in t
    requires r == "" || r[0] == ' '
    ensures SecondField(w + " " + t + r) == Some(t)
  {
    var h := w + " " + t + r;
    assert h == w + (" " + (t + r));
    FirstIndexAfter(w, " " + (t + r), ' ');
    assert FirstIndex(h, ' ') == |w|;
    assert h[|w| + 1..] == t + r;
    FirstIndexAfter(t, r, ' ');
    assert FirstIndex(t + r, ' ') == |t|;
    assert (t + r)[..|t|] == t;
  }

  /** `Bearer <token>` yields the token, whether the header ends there or
      goes on after a space. */
  lemma BearerTokenIsExtracted(token: string, rest: string)
    requires token != "" && ' ' !in token
    requires rest == "" || rest[0] == ' '
    ensures ExtractToken(Some(BearerScheme + " " + token + rest)) == Some(token)
  {
    var h := BearerScheme + " " + token + rest;
    assert h[..|BearerScheme|] == BearerScheme;
    SecondFieldOf(BearerScheme, token, rest);
    ExtractTokenIsSecondField(h);
  }

  /** No header, the scheme alone, or an empty second field (two spaces
      after `Bearer`) yield no token. */
  lemma NoTokenAfterScheme(token: string)
    ensures ExtractToken(None) == None
    ensures ExtractToken(Some(BearerScheme)) == None
    ensures ExtractToken(Some(BearerScheme + "  " + token)) == None
  {
    ExtractTokenIsSecondField(BearerScheme);
    assert FirstIndex(BearerScheme, ' ') == |BearerScheme|;
    var h := BearerScheme + "  " + token;
    assert h == BearerScheme + " " + "" + (" " + token);
    SecondFieldOf(BearerScheme, "", " " + token);
    ExtractTokenIsSecondField(h);
  }

  /** Only the prefix `Bearer` is checked: another scheme yields no token,
      but a longer word such as `BearerX` is accepted as the scheme. */
  lemma SchemeIsOnlyAPrefix(token: string)
    requires token != "" && ' ' !in token
    ensures ExtractToken(Some("Basic " + token)) == None
    ensures ExtractToken(Some(BearerScheme + "X " + token)) == Some(token)
  {
    var basic := "Basic " + token;
    assert basic[1] == 'a';
    var h := BearerScheme + "X " + token;
    assert h == "BearerX" + " " + token + "";
    assert h[..|BearerScheme|] == BearerScheme;
    SecondFieldOf("BearerX", token, "");
    ExtractTokenIsSecondField(h);
  }

  /** The 401 message for a rejected token: only the expiry code gets its
      own message. */
  function RejectionMessage(code: Option<string>): (m: string)
    ensures m == ExpiredMessage <==> code == Some(ExpiredCode)
    ensures m == InvalidTokenMessage <==> code != Some(ExpiredCode)
  {
    if code == Some(ExpiredCode) then ExpiredMessage else InvalidTokenMessage
  }

  /** `protect(req, res, next)`. The result is what is passed to `next`:
      `None` for `next()`. Without a token the provider is not asked and
      the request fails with 401; a verified token attaches its claims; a
      rejected one fails with 401. Only `firebaseUser` may change. `trace`
      is the stack trace the runtime gives an `AppError` built here. */
  method Protect(req: Request, verifier: TokenVerifier, trace: Option<string>) returns (next: Option<Failure>)
    modifies req, verifier
    ensures req.authorization == old(req.authorization)
    ensures req.body == old(req.body) && req.query == old(req.query) && req.params == old(req.params)
    ensures next.Some? ==>
      && next.value.statusCode == Some(401)
      && next.value.message in {NotLoggedInMessage, ExpiredMessage, InvalidTokenMessage}
      && req.firebaseUser == old(req.firebaseUser)
    ensures ExtractToken(old(req.authorization)).None? ==>
      && next == Some(AppError(NotLoggedInMessage, 401, trace))
      && verifier.presented == old(verifier.presented)
    ensures ExtractToken(old(req.authorization)).Some? ==>
      var token := ExtractToken(old(req.authorization)).value;
      && verifier.presented == old(verifier.presented) + [token]
      && match verifier.decide(token)
         case Verified(claims) => next.None? && req.firebaseUser == Some(claims)
         case Rejected(code) => next == Some(AppError(RejectionMessage(code), 401, trace))
  {
    var idToken := ExtractToken(req.authorization);
    if idToken.None? {
      return Some(AppError(NotLoggedInMessage, 401, trace));
    }
    var outcome := verifier.VerifyIdToken(idToken.value);
    match outcome
    case Verified(decodedToken) =>
      req.firebaseUser := Some(decodedToken);
      next := None;
    case Rejected(code) =>
      var message := InvalidTokenMessage;
      if code == Some(ExpiredCode) {
        message := ExpiredMessage;
      }
      next := Some(AppError(message, 401, trace));
  }
}
