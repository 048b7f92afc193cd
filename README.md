# Request pipeline of the mathly user API, in Dafny

This project models the decision code of the mathly backend's Express request
pipeline and proves what that code promises:

- **Error normaliser** (`errorHandler`): maps every failure to one status and
  one JSON body `{status: "error", message, stack?}`.
- **Authenticator** (`protect`): takes the ID token from the `Authorization`
  header. The identity provider is an oracle that verifies the token. The
  authenticator then either attaches the decoded identity to the request or
  fails with one of three 401 messages.
- **Validator** (`validate`): parses one request source against a schema. On
  success it replaces that source in place. On failure it turns the issues into
  a 400 whose message is `Validation error: ` plus a JSON array of
  `{path, message}`.
- **Listing query schema** (`paginationSchema`): defaults, `parseInt` coercion,
  range checks and the `order` enum.
- **User schemas**: the create and update body rules and the stored-record
  rule. Whether a string is a well-formed email address is an uninterpreted
  predicate `isEmail`.
- **User controller**:
  - `getAllUsers`: the paging arithmetic;
  - `createUser`: a guarded insert into a store held as a map from
    `firebase_uid` to user record;
  - `getCurrentUser`: a read-only lookup that strips `firebase_uid`.
- **Logger**: level filtering, line decoration and the request logger's
  classification of finished requests.

The modules follow the source files:

| module | models |
|---|---|
| `Common` | optional values, results, JavaScript values in a request |
| `Strings` | `startsWith`, `split`, `join`, `String(n)` and `parseInt(s, 10)` |
| `JsonText` | `JSON.stringify` of a string, and a reader for it |
| `Errors` | the failure record and `AppError` |
| `ErrorHandler` | the error normaliser |
| `ZodIssues` | schema issues and the schema library's default message texts |
| `Requests` | the mutable request object (`class Request`) |
| `Auth` | the authenticator, and the identity provider as a class |
| `Validation` | the validator |
| `PaginationSchema` | the listing query schema |
| `UserSchemas` | the user schemas |
| `UserController` | the store (`class UserStore`) and the three handlers |
| `Logging` | the logger (`class Logger`) and the request logger |

The database, the identity provider, the clock and the console are not
modelled:

- The store is a `UserStore` object. Its failures are parameters of the
  handlers (`lookupFault`, `insertFault`, `fault`).
- The identity provider is a `TokenVerifier` whose verdict on each token is
  the function `decide`. It records every token presented to it, so "the
  provider was not asked" can be stated.
- `NODE_ENV`, timestamps and durations are parameters.
- A logging call returns the formatted message it hands to the console.

The schema library's default messages are written out in `ZodIssues`:

- `Required`
- `Expected number, received nan`
- `Number must be greater than 0`
- `Number must be less than or equal to 100`
- `Invalid enum value. Expected 'asc' | 'desc', received '…'`
- `Invalid email`

The validator parses with `parseAsync`, which fixes the order of the issues.
Checks that run while the object's fields are walked report first, in
declaration order: string types and the `order` enum. The number checks of
`page` and `limit` come behind `.pipe` and wait for the coerced value, so
their issues come last, page before limit. The two body schemas have no
such late check, so their issues stay in declaration order.

## Model

| member | source | states |
|---|---|---|
| Errors.AppError | src/features/users/userController.ts:130-132 | An `AppError` carries exactly the given message and status and the stack trace the runtime captured, and no database code. |
| ErrorHandler.Handle | src/core/middleware/errorHandler.ts:16-38 | Every response has body status "error", a non-empty message and a non-zero status. A stack appears only in development mode and never for codes P2002/P2025. |
| ErrorHandler.UniqueViolationIsConflict | src/core/middleware/errorHandler.ts:19-25 | Code P2002 always yields 409 "A record with this value already exists" with no stack, whatever the error's own status and message. |
| ErrorHandler.RecordNotFoundIsNotFound | src/core/middleware/errorHandler.ts:26-31 | Code P2025 always yields 404 "Record not found" with no stack. |
| ErrorHandler.OtherErrorsKeepTheirOwnStatus | src/core/middleware/errorHandler.ts:16-17 | Any other error (no code, or another P code) gets its own status when non-zero, else 500. It keeps its own message when non-empty, else "Internal Server Error". Its stack is included exactly when NODE_ENV is "development". |
| ErrorHandler.AppErrorIsVerbatim | src/core/middleware/errorHandler.ts:34-38 | An AppError with a non-empty message and a non-zero status reaches the client with that status and message. Its own stack is sent exactly in development mode. |
| ErrorHandler.UnexpectedErrorIsGeneric | src/core/middleware/errorHandler.ts:16-17 | An error with no status and no message becomes 500 "Internal Server Error". |
| Strings.Split | src/core/middleware/authMiddleware.ts:22 | `split(' ')` returns at least one field, and no field contains the separator. |
| Strings.JoinSplit | src/core/middleware/validationMiddleware.ts:23 | Joining the fields of a split with the same separator gives the string back. |
| Strings.SplitJoin | src/core/middleware/validationMiddleware.ts:23 | Splitting a join of separator-free fields gives the same fields back. |
| Strings.Join | src/core/middleware/validationMiddleware.ts:23 | Joining two or more fields always puts a separator in the result. |
| Strings.JoinAppend | src/core/middleware/validationMiddleware.ts:23 | `join` writes the fields left to right, each after the first preceded by the separator. |
| Strings.SplitPrefix | src/core/middleware/authMiddleware.ts:22 | A separator-free text in front extends only the first field of the split. |
| Strings.FirstIndex | src/core/middleware/authMiddleware.ts:22 | The position of the first separator: none occurs before it, and it is either the length of the string or a separator. |
| Strings.FirstIndexAfter | src/core/middleware/authMiddleware.ts:22 | A separator-free text in front moves the first separator along by exactly its length. |
| Strings.SplitAtFirst | src/core/middleware/authMiddleware.ts:22 | The first field runs up to the first separator. The remaining fields are the split of the text after that separator. |
| Strings.StripPrefix | src/core/utils/logger.ts:64-73 | Stripping succeeds exactly when the string starts with the prefix, and the prefix plus the result is the string. |
| Strings.PrefixThenRest | src/core/utils/logger.ts:64-73 | A prefix written in front of a text is stripped off again, leaving that text. |
| Strings.StartsWithChars | src/core/middleware/authMiddleware.ts:20 | `startsWith` holds exactly when the prefix fits and matches the string character by character from the start. |
| Strings.NatToString | src/core/utils/logger.ts:136-140 | `String(n)` for n ≥ 0 is a non-empty run of digits with no leading zero. |
| Strings.IntToString | src/core/utils/logger.ts:136-140 | `String(i)` starts with a digit exactly when i ≥ 0. |
| Strings.TrimStart | src/schemas/common/paginationSchema.ts:7 | `parseInt` skips exactly the leading ECMAScript white space, and what remains is a suffix not starting with white space. |
| Strings.TrimStartSkips | src/schemas/common/paginationSchema.ts:7 | White space in front of a text is trimmed away whatever the text is. |
| Strings.ParseIntSkipsWhiteSpace | src/schemas/common/paginationSchema.ts:7 | `parseInt` gives the same result with or without leading white space. |
| Strings.ParseIntWithoutDigitsIsNaN | src/schemas/common/paginationSchema.ts:7-8 | An empty text, or one starting with neither white space, a sign nor a digit, gives `NaN`, which the page and limit checks then refuse. |
| Strings.LeadingDigits | src/schemas/common/paginationSchema.ts:7 | The digit run `parseInt` reads is the longest prefix made of decimal digits. |
| Strings.DigitsValueOfNatToString | src/schemas/common/paginationSchema.ts:7 | The digits of `String(n)` denote n. |
| Strings.LeadingDigitsOfDigits | src/schemas/common/paginationSchema.ts:7 | A digit string followed by a non-digit is exactly the digit run read. |
| Strings.NatToStringParses | src/schemas/common/paginationSchema.ts:7 | `parseInt(String(n) + rest)` is n when rest does not start with a digit, so trailing text is ignored. |
| Strings.NegativeParses | src/schemas/common/paginationSchema.ts:12 | `parseInt("-" + String(n) + rest)` is -n. |
| Strings.IntToStringParsesBefore | src/schemas/common/paginationSchema.ts:7 | `parseInt` reads back every integer written by `String`, followed by any non-digit text. |
| Strings.IntToStringParses | src/schemas/common/paginationSchema.ts:12 | `parseInt(String(i), 10)` is i for every integer i. |
| JsonText.HexRoundTrip | src/core/middleware/validationMiddleware.ts:29 | A hex digit written by `JSON.stringify` escapes reads back as its value. |
| JsonText.EscapeCharPrintable | src/core/middleware/validationMiddleware.ts:29 | Each character is written as at least one character, none of them below the space: quote, backslash and control characters are escaped. |
| JsonText.EscapePrintable | src/core/middleware/validationMiddleware.ts:29 | The escaped text is at least as long as the original and holds no raw character below the space, as JSON requires of a string. |
| JsonText.QuoteIsLiteral | src/core/middleware/validationMiddleware.ts:29 | `JSON.stringify(s)` is delimited by quotes, at least two characters longer than s, and holds no raw control character. |
| JsonText.DecodeEscape | src/core/middleware/validationMiddleware.ts:29 | An escape sequence consumes at least one and at most the available characters. |
| JsonText.ReadStringBody | src/core/middleware/validationMiddleware.ts:29 | Reading a string literal always consumes input. |
| JsonText.ReadString | src/core/middleware/validationMiddleware.ts:29 | Reading a quoted literal always consumes input. |
| JsonText.ReadEscapedChar | src/core/middleware/validationMiddleware.ts:29 | Every character, as `JSON.stringify` escapes it (short escapes, `\u00xx` for the other control characters), reads back as that character. |
| JsonText.ReadEscape | src/core/middleware/validationMiddleware.ts:29 | An escaped string reads back as itself and stops exactly at the closing quote. |
| JsonText.ReadQuote | src/core/middleware/validationMiddleware.ts:29 | `JSON.stringify(s)` reads back as s, leaving what follows untouched. |
| ZodIssues.InvalidTypeMessage | src/schemas/common/paginationSchema.ts:5-6 | A type mismatch reads "Required" exactly when the value is missing. |
| ZodIssues.AtKey | src/schemas/common/paginationSchema.ts:3-16 | A field's issues keep their order and messages and gain the field's key at the front of their paths. |
| ZodIssues.AtKeyIsReported | src/schemas/common/paginationSchema.ts:3-16 | A field's issues, moved under its key, are all reported wherever they are placed in a report. |
| ZodIssues.FourFieldsReported | src/schemas/common/paginationSchema.ts:3-16 | When four fields report one after the other, every issue of each appears under its key, and no other issue does. |
| ZodIssues.ReportedInLonger | src/schemas/common/paginationSchema.ts:3-16 | An issue reported in part of a report is reported in the whole report. |
| ZodIssues.PhaseReported | src/core/middleware/validationMiddleware.ts:15 | A field whose issues are split between the early and the late phase has all of them reported under its key. |
| ZodIssues.TwoPhaseReported | src/core/middleware/validationMiddleware.ts:15 | Two fields may report some issues late, after the walk over the fields. Even then, every issue of each of the four fields appears under its key, and no other issue does. |
| Common.Field | src/features/users/userController.ts:134 | A key an object holds reads as its value. Any other read is `undefined`. |
| Requests.Request.constructor | src/core/middleware/authMiddleware.ts:34 | A fresh request carries no identity. |
| Requests.Request.Set | src/core/middleware/validationMiddleware.ts:17 | `req[source] = v` sets that source and leaves the other two sources, the header and the identity unchanged. |
| Auth.TokenVerifier.constructor | src/core/middleware/authMiddleware.ts:32 | A new identity provider has been presented no tokens. |
| Auth.TokenVerifier.VerifyIdToken | src/core/middleware/authMiddleware.ts:32 | Verifying a token records it and returns the provider's verdict on it. |
| Auth.ExtractToken | src/core/middleware/authMiddleware.ts:17-25 | A token is found only in a header starting with "Bearer". It is non-empty and has no space. |
| Auth.SecondField | src/core/middleware/authMiddleware.ts:22 | The text between the first and the next space contains no space. |
| Auth.ExtractTokenIsSecondField | src/core/middleware/authMiddleware.ts:18-25 | The token is exactly the header's second space-separated field, when the header starts with "Bearer" and that field is non-empty. Otherwise there is none. |
| Auth.SecondFieldOf | src/core/middleware/authMiddleware.ts:22 | In `w + " " + t + r`, with w and t space-free and r empty or starting with a space, the second field is t. |
| Auth.BearerTokenIsExtracted | src/core/middleware/authMiddleware.ts:18-22 | `Bearer <token>` yields the token, whether or not more space-separated text follows. |
| Auth.NoTokenAfterScheme | src/core/middleware/authMiddleware.ts:18-25 | No header, "Bearer" alone, or two spaces after "Bearer" yield no token. |
| Auth.SchemeIsOnlyAPrefix | src/core/middleware/authMiddleware.ts:20 | "Basic …" yields no token. Because only the prefix is checked, "BearerX <token>" yields the token. |
| Auth.RejectionMessage | src/core/middleware/authMiddleware.ts:40-43 | The message is the expiry one exactly for code "auth/id-token-expired", and the invalid-token one for every other rejection. |
| Auth.Protect | src/core/middleware/authMiddleware.ts:12-47 | Without a token, the result is 401 "You are not logged in…" and the provider is not asked. With a token, the provider is asked exactly once. A verified token sets `firebaseUser` and calls `next()`. A rejection yields a 401 with the message for its code. Every failure is 401 with one of the three messages, and `firebaseUser` is unchanged. Body, query, params and the header are never changed. |
| Validation.PathKeyTexts | src/core/middleware/validationMiddleware.ts:23 | Each path segment is written as its key or its decimal index, one text per segment. |
| Validation.PathText | src/core/middleware/validationMiddleware.ts:23 | The joined path is empty exactly for the path of the value itself, or a single empty key. |
| Validation.PathTextSplits | src/core/middleware/validationMiddleware.ts:23 | The dot-joined path splits back into its segments when no key contains a dot. |
| Validation.Format | src/core/middleware/validationMiddleware.ts:22-25 | There is one formatted issue per issue, in order, with the joined path and the same message. |
| Validation.ReadItem | src/core/middleware/validationMiddleware.ts:29 | Reading one `{path, message}` object consumes input. |
| Validation.ReadItemOfStringify | src/core/middleware/validationMiddleware.ts:29 | `JSON.stringify({path, message})` reads back as the same issue. |
| Validation.ReadRestOfStringify | src/core/middleware/validationMiddleware.ts:29 | The comma-separated items after the first read back as the same issues, in order. |
| Validation.ReadIssuesOfStringify | src/core/middleware/validationMiddleware.ts:29 | What `JSON.stringify(formattedErrors)` means: the serialised array reads back as exactly the formatted issues, in order, and `[]` exactly when there is none. |
| Validation.ValidationMessage | src/core/middleware/validationMiddleware.ts:22-31 | The 400 message is "Validation error: " followed by a JSON array that reads back as one `{path, message}` per issue, in the schema's order. |
| Validation.Validate | src/core/middleware/validationMiddleware.ts:9-38 | On success, the chosen source (body by default) becomes the parsed value and `next()` is called. On schema issues, the source keeps its raw value and `next` gets `AppError(ValidationMessage(issues), 400)`. Any other error is passed on unchanged. The other sources and the identity never change. |
| PaginationSchema.CountField | src/schemas/common/paginationSchema.ts:4-13 | A page or limit field is accepted exactly when it is missing or a string whose coerced value (fallback if empty, else `parseInt`) is a number > 0 and, for limit, ≤ 100. The accepted value is that number. A rejection is one issue. |
| PaginationSchema.SortField | src/schemas/common/paginationSchema.ts:14 | `sort` defaults to "createdAt", keeps any given string, and rejects other types. |
| PaginationSchema.OrderField | src/schemas/common/paginationSchema.ts:15 | `order` is accepted exactly when missing, "asc" or "desc". It defaults to desc, and an accepted value names its order. |
| PaginationSchema.NumberCheckIssues | src/schemas/common/paginationSchema.ts:4-13 | A page or limit field's issues are those of its string check followed by those of its number checks. Only one of the two parts is non-empty. |
| PaginationSchema.Parse | src/schemas/common/paginationSchema.ts:3-16 | A query is accepted exactly when it is an object whose page, limit, sort and order fields are each accepted. The result is those four fields' values. Every accepted query has page ≥ 1 and 1 ≤ limit ≤ 100. A rejection reports at least one issue. |
| PaginationSchema.NumberChecksReportLast | src/core/middleware/validationMiddleware.ts:15 | Under `parseAsync`, a refusal ends with the issues of the page and then the limit number checks. Every issue of `sort` and `order` comes before them. |
| PaginationSchema.OrderIssueBeforePageNumberIssue | src/core/middleware/validationMiddleware.ts:15 | `?page=0&order=up` is refused with the enum issue of `order` first and the positive check of `page` second. |
| PaginationSchema.EveryRefusedQueryFieldIsReported | src/schemas/common/paginationSchema.ts:3-16 | A refused query reports every issue of each refused field under that field's key, and no other issue. A value that is not an object is refused as a whole. |
| PaginationSchema.Schema | src/schemas/common/paginationSchema.ts:3-16 | The validator gets a parsed value exactly when the schema accepts. That value reads back in the list handler as the parsed query. A refusal hands over exactly the schema's issues, in the order `parseAsync` reports them. |
| PaginationSchema.FromToValue | src/features/users/userController.ts:64 | The handler reads back exactly the query the validator stored in `req.query`. |
| PaginationSchema.MissingOrEmptyTakeDefaults | src/schemas/common/paginationSchema.ts:4-15 | Missing or empty page and limit, with no sort or order, give the query (1, 10, "createdAt", desc). |
| PaginationSchema.EmptyQueryIsDefault | src/schemas/common/paginationSchema.ts:3-16 | An empty query string gives the default query. |
| PaginationSchema.PageIsAcceptedIffPositive | src/schemas/common/paginationSchema.ts:4-8 | A page written as an integer n is accepted only as n. It is refused when n ≤ 0, and accepted with the other defaults when n ≥ 1. |
| PaginationSchema.LimitIsAcceptedIffInRange | src/schemas/common/paginationSchema.ts:9-13 | A limit written as an integer n is accepted only as n. It is refused outside 1..100, and accepted with the other defaults inside it. |
| PaginationSchema.TrailingTextIsIgnored | src/schemas/common/paginationSchema.ts:7 | A page such as "2abc" is page 2, and "0abc" is refused. |
| PaginationSchema.SortKeptOrderChecked | src/schemas/common/paginationSchema.ts:14-15 | In an accepted query, the sort is the given string and the order was missing, "asc" or "desc". A missing order is desc. |
| UserSchemas.EmailField | src/features/users/userSchemas.ts:11 | Email is accepted exactly when it is a well-formed string, or missing where optional. A malformed string fails with "Invalid email format". |
| UserSchemas.NameField | src/features/users/userSchemas.ts:12 | Name is accepted exactly when missing or a non-empty string. The empty string fails with "Name cannot be empty". |
| UserSchemas.ParseInput | src/features/users/userSchemas.ts:10-18 | A body is accepted exactly when it is an object whose email and name fields are each accepted. The result is those two fields' values. An accepted email is well formed and an accepted name non-empty. A rejection reports at least one issue. |
| UserSchemas.ParseCreate | src/features/users/userSchemas.ts:10-13 | A create body is accepted exactly when it is an object with a well-formed string email and an acceptable name. An accepted body always has an email. |
| UserSchemas.ParseUpdate | src/features/users/userSchemas.ts:15-18 | An update body is accepted exactly when it is an object whose email is missing or a well-formed string and whose name is acceptable. |
| UserSchemas.InputRoundTrip | src/features/users/userController.ts:134 | The handler reads back from `req.body` exactly the email and name the validator stored. |
| UserSchemas.CreateSchema | src/features/users/userRoutes.ts:11 | The validator gets a parsed body exactly when the create schema accepts. The handler reads that body back as the parsed input. A refusal hands over exactly the schema's issues. |
| ZodIssues.SingleIssueAtKey | src/features/users/userSchemas.ts:10-13 | A field's single issue is reported under that field's key. |
| UserSchemas.CreateRequiresEmail | src/features/users/userSchemas.ts:11 | A create body without an email is refused with the one issue "Required" at `email`. |
| UserSchemas.UpdateIsCreateWithOptionalEmail | src/features/users/userSchemas.ts:15-18 | The update schema accepts `{}`, and accepts every create body with the same result. |
| UserSchemas.EveryRefusedInputFieldIsReported | src/features/users/userSchemas.ts:10-18 | A body object is refused exactly when its email or name field is refused. It then reports every issue of each refused field under that field's key, and no other issue. |
| UserSchemas.BothIssuesReported | src/features/users/userSchemas.ts:10-13 | A malformed email and an empty name are both reported, email first. |
| UserSchemas.ParseUser | src/features/users/userSchemas.ts:3-8 | A record is accepted exactly when it is an object with a numeric `id`, a string `firebase_uid`, a well-formed string email and a string or null name. The user it yields carries those fields' values. A rejection reports at least one issue. |
| UserSchemas.UserRecordValid | src/features/users/userSchemas.ts:3-8 | A record (numeric id, string uid, string-or-null name) satisfies the schema exactly when its email is well formed, and then parses back to itself. |
| UserController.Uncaught | src/features/users/userController.ts:140-142 | A database error that is not caught keeps its code, message and stack, and has no HTTP status of its own. |
| UserController.UserStore.constructor | src/core/lib/prisma.ts:3 | A new store is empty and valid. |
| UserController.UserStore.FindUnique | src/features/users/userController.ts:140-142 | The lookup finds a record exactly when one is filed under the uid, and returns that record. |
| UserController.UserStore.Create | src/features/users/userController.ts:149-155 | The insert keeps the store valid. It fails with the injected fault, or with a P2002 fault when the uid is taken, and then changes nothing. Otherwise it adds exactly one record with the next id under the uid. |
| UserController.HasIdentity | src/features/users/userController.ts:130 | The identity check passes exactly when there is a decoded token whose uid is truthy. |
| UserController.StoredName | src/features/users/userController.ts:153 | `name \|\| null`: a name is stored exactly when it is given and non-empty. |
| UserController.CreateUser | src/features/users/userController.ts:127-167 | The guards apply in order: invalid identity 400, missing email 400, an uncaught lookup failure passed on as is, existing record 409, insert failure 500 "Failed to create user: …". Success is exactly when none applies. Then one record `{uid, email, name or null}` with the next id is inserted and answered with 201. On every failure the store is unchanged. |
| UserController.InsertFailureIsServerError | src/features/users/userController.ts:161-166 | Any insert failure, a unique-constraint violation included, reaches the client as 500 with the database's message, never as the normaliser's 409. In development mode the stack sent is the wrapping AppError's. |
| UserController.ValidatedBodyHasEmail | src/features/users/userRoutes.ts:11 | After the create schema accepted a body, the "Email is required" guard cannot fire, provided the empty string is not an email. |
| UserController.Strip | src/features/users/userController.ts:210 | The public record has the same id, email and name. |
| UserController.StripLosesOnlyUid | src/__tests__/features/users/userController.test.ts:44-71 | Stripping loses only `firebase_uid`: adding it back gives the record. |
| UserController.GetCurrentUser | src/features/users/userController.ts:194-224 | Reads only. An invalid identity gives 400 before the store is read. A database failure gives 500 "Failed to get user: …". A missing record gives 404 "User not found". A found record gives 200 with the record minus its uid. |
| UserController.CeilDiv | src/features/users/userController.ts:88 | `Math.ceil(total / limit)`: the least page count whose pages hold all rows. It is zero exactly for an empty table. |
| UserController.Page | src/features/users/userController.ts:67-79 | One page, taken with skip = (page-1)·limit and take = limit, has at most `limit` rows. |
| UserController.ListUsers | src/features/users/userController.ts:62-92 | The status is 200. The users are exactly the page that skip = (page-1)·limit and take = limit select from the ordered rows. `results` is their number, at most `limit`. page, limit and total are echoed. `pages` is the ceiling of total/limit. |
| UserController.PagesUpToIsPrefix | src/features/users/userController.ts:67-79 | Pages 1..n together are exactly the first n·limit rows. |
| UserController.PagesCoverAllRows | src/features/users/userController.ts:67-88 | Walking pages 1..pages returns every row exactly once, in order. |
| UserController.PagesAfterLastAreEmpty | src/features/users/userController.ts:67-88 | Every page after the last is empty. |
| Logging.IndexOf | src/core/utils/logger.ts:96-98 | `indexOf` returns the first position of the level, or -1 exactly when it is absent. |
| Logging.IndexOfLevels | src/core/utils/logger.ts:3-8 | In `Object.values(LogLevel)`, ERROR, WARN, INFO and DEBUG sit at positions 0, 1, 2 and 3. |
| Logging.ShouldLog | src/core/utils/logger.ts:95-101 | ERROR always passes. DEBUG passes exactly at DEBUG. The DEBUG setting lets every level pass. |
| Logging.ShouldLogComparesPositions | src/core/utils/logger.ts:95-101 | The filter passes a level exactly when its position in the enum is at most the configured level's. |
| Logging.FilterIsOrdered | src/core/utils/logger.ts:95-101 | A level that passes lets every more severe level pass. |
| Logging.DefaultConfig | src/core/utils/logger.ts:16-20 | Timestamps are always on. Production is INFO without colour; anything else is DEBUG with colour. |
| Logging.Merge | src/core/utils/logger.ts:35 | Each given field overrides the default, and each absent field keeps it. |
| Logging.MergeKeepsOrReplaces | src/core/utils/logger.ts:35 | Merging nothing keeps the defaults. Merging a full configuration replaces them. |
| Logging.ColorOf | src/core/utils/logger.ts:22-28 | Every level colour code is five characters. |
| Logging.Colorize | src/core/utils/logger.ts:107-120 | Colouring adds nine characters around the text: the five-character code in front and the four-character reset behind. |
| Logging.UncolorizeColorize | src/core/utils/logger.ts:107-120 | The colour codes come off again and name the level they were chosen for. |
| Logging.FormatMessage | src/core/utils/logger.ts:103-105 | "[LEVEL] message" reads back as the level and the message. |
| Logging.Emitted | src/core/utils/logger.ts:59-62 | A call prints a line exactly when the level passes the filter. |
| Logging.Uncoloured | src/core/utils/logger.ts:64-73 | The line before colouring: the timestamp prefix and then the context prefix come off, leaving the level tag, which reads back as the level and the message. |
| Logging.Decorate | src/core/utils/logger.ts:64-77 | A printed line undoes in reverse order (colour, timestamp, context, tag) back to the level and the message. So the tag is innermost and the colour outermost. |
| Logging.Logger.constructor | src/core/utils/logger.ts:34-37 | The configuration is the defaults overridden by the given fields, and the context is kept. |
| Logging.Logger.ForContext | src/core/utils/logger.ts:39-41 | A fresh logger with that context and the merged configuration. |
| Logging.Logger.Log | src/core/utils/logger.ts:59-77 | The message built step by step equals the decorated line when the level passes, and there is none otherwise. It reads back as the level and the message. |
| Logging.Logger.Error | src/core/utils/logger.ts:43-45 | An error message is always printed. |
| Logging.Logger.Warn | src/core/utils/logger.ts:47-49 | A warning is printed exactly when the level is not ERROR. |
| Logging.Logger.Info | src/core/utils/logger.ts:51-53 | An info message is printed exactly at INFO and DEBUG. |
| Logging.Logger.Debug | src/core/utils/logger.ts:55-57 | A debug message is printed exactly at DEBUG. |
| Logging.FinishLevel | src/core/utils/logger.ts:135-141 | A status ≥ 500 is ERROR, 400–499 is WARN, and anything lower is INFO. |
| Logging.StartMessage | src/core/utils/logger.ts:129 | The client's address reads back from the arrival message, after the method and the URL. |
| Logging.FinishMessage | src/core/utils/logger.ts:136-140 | The finish message starts with the method and the URL and ends with the unit "ms". |
| Logging.RequestLog | src/core/utils/logger.ts:125-145 | The arrival line is an INFO "METHOD url - ip". The finish line is "METHOD url status - Nms" at the level the status selects, with N = finish − start. |
| Logging.FinishLinePrinted | src/core/utils/logger.ts:135-141 | A finished request is printed exactly when it is a server error, a client error below level ERROR, or any request at INFO/DEBUG. The production default prints every one. |
| Logging.FinishMessageCarriesStatus | src/core/utils/logger.ts:136-140 | The status code reads back from the finish message, right after the method and the URL. |
| Logging.FinishMessageCarriesDuration | src/core/utils/logger.ts:131-140 | The duration reads back from the finish message, after the status code and the dash, before the "ms". |

## Left out

- I/O is not modelled: console output, the `meta` argument and the `console.error(err)` in the error normaliser. A logging call returns the formatted message instead of passing it to the console. The console prints it followed by a space and the `meta` argument (or an empty string), which the model leaves out.
- Logging.RequestLog: the finish line is produced for every request, as if the response's `'finish'` event always fires. For a connection that is closed before the response is sent, no finish line is printed in the source.
- `Date`, `Date.now()` and `toISOString()` are not modelled. Timestamps and durations are parameters.
- The email check uses the schema library's regular expression, which is not modelled. It is the parameter `isEmail`.
- Numbers are integers. Fractions, floating-point rounding, `Infinity` and digit runs too long for a double are not modelled. `NaN` appears only as the absence of a `parseInt` result.
- `JsonText.ReadString` rejects escapes of lone surrogate code points, which `JSON.stringify` can write. Such strings are outside the read-back lemmas, because a Dafny `char` cannot hold a lone surrogate.
- Stack traces are captured by the runtime. Their text is not modelled: each handler takes the trace as a parameter (`trace`) and gives it to every `AppError` it builds. A database failure carries its own `stack`. The unique-constraint failure the store produces carries none, as only its message reaches the client.
- Logging.Merge: a key passed with the value `undefined` overrides the default with `undefined` in the source. In the model a partial configuration cannot hold that.
- UserController.ListUsers: database failures of `count` and `findMany` are not modelled. Neither is the row order they return: the rows arrive already ordered, and an unknown `sort` column, which the database refuses, is not modelled. A row written between the count and the page read is not modelled either.
- UserController.CreateUser: the handler reads the body after validation. A non-string `email` or `name` is treated like a missing one, which `userCreateSchema` rules out before the handler runs.
- Common.Field: reading a key of `null` reads as `undefined`. In JavaScript it throws. No modelled path reads a key of `null`.
- `AppError` is imported from a file that is not part of this model. Its shape `{message, statusCode}` is fixed by its use (src/__tests__/features/users/userController.test.ts:82-84).
- Out of scope:
  - the rate limiter;
  - the security headers and CORS;
  - server start-up and shutdown;
  - the health and documentation routes;
  - SDK initialisation;
  - route wiring;
  - `authSchemas`.

  These are configuration or framework calls.
