# ajudaki-api, modelled in Dafny

ajudaki-api is the back end of a volunteering platform. Users sign up and
sign in with a JSON Web Token. They publish help *campaigns* (a title, a
description, a contact and the *help methods* — the ways of helping they
accept). They also log *help done*: a record that someone helped a campaign
by one of its methods.

This project models the core of that service:

- **the data mappers for campaigns and help done.** This covers:
  - the search's WHERE clause;
  - folding joined rows into campaigns;
  - the transactional insert and update of a campaign with its method links;
  - the plain deletes;
  - the id-to-string conversions of help-done records.
- **the token helper.** This covers:
  - the sanitiser that strips `Bearer `;
  - the `check` gate in front of protected handlers;
  - `createJWT`.
- **the `Validators` utility** and the validation rules the handlers' chains use.
- **the request handlers** of campaigns, accounts (signup, signin) and help done.

The model is built from pure functions over immutable datatypes:

- **Handlers.** A handler is a function from its validation errors, its
  request fields and the outcome of its data-mapper call to a `Handled`
  value. That value holds the mapper calls made, in order, and what became
  of the request: a response, an error handed to the application's error
  handler, or a promise that rejects with nothing sent.
- **Mapper outcomes and library calls.** Outcomes are injected as `Result`
  values. Library calls (bcrypt, jsonwebtoken, moment, the validation
  library's e-mail and date recognisers) are function-typed parameters.
- **Campaign writes.** These work on an abstract `Store` holding:
  - the campaign rows;
  - the (campaign, help method) link set;
  - the next auto-increment id.

  A transaction takes an optional `Fault`, which names the operation that
  throws: begin is 0, then each statement in order, then commit. The
  connection's trace records `db.end()` in every `finally`.

Each operation has a partner it is proved against:

- The row fold `CampaignFold.Fold`, which mirrors the loop, is proved equal
  to an independent description, `CampaignFold.Grouped`.
- The WHERE builder is proved against the clause the inputs call for, and
  against its placeholder count.
- Help-done records are proved to invert back to their rows.
- The bearer sanitiser round-trips a token.
- A signed token passes `check`.
- Each campaign and help-done handler is composed with its mapper, so that
  the combined behaviour is stated end to end. The account handlers' mapper
  is outside the model, so their lookups stay inputs.

Several behaviours of the code are surprising. The model keeps them as
written and proves each one as a lemma:

- **Help-done `remove` never answers 204.** The mapper resolves to the bare
  affected-row count, which has no `affectedRows`
  (`HelpDoneService.RemoveNeverSucceeds`).
- **Help-done `add` answers 200, never 201**
  (`HelpDoneService.AddAlwaysSucceeds`).
- **The 400 branch of campaign `getByUserId` cannot be reached**
  (`CampaignService.GetByUserIdNeverNotFound`).
- **A signin token's `level` is always undefined.** The user lookup does
  not select `nivel` (`UserService.LevelAlwaysUndefined`).
- **A failed e-mail lookup in signup gets no answer.** Building its error
  body throws inside the handler (`UserService.Signup`).
- **The `expiresIn` signing option is an absolute timestamp, not a
  duration** (`Security.ExpiryOptionIsAbsolute`).
- **Campaign `remove` answers 204 whether or not a row was deleted**
  (`CampaignService.RemoveIgnoresCount`).
- **A single `filters` query value is not an array, so it is ignored**
  (`CampaignService.SingleFilterIgnored`).
- **A help-done `remove` whose mapper resolves to `null` or `undefined` gets
  no answer.** `affectedRows` is read outside the `try`, so the TypeError
  rejects the handler (`HelpDoneService.Remove`).
- **An update whose `helpMethods` is a number, a boolean or a plain object
  without a `length` leaves the campaign with no links.** Its `length`
  reads undefined, so the links are deleted and none inserted
  (`CampaignDao.UpdateOne`).
- **A numeric password passes signup's length rule and then gets no
  answer.** bcrypt rejects it outside any `try`
  (`UserService.NonStringPasswordUnanswered`); a signin against a NULL
  stored hash is likewise unanswered
  (`UserService.NonStringCredentialsUnanswered`).

## Model

| member | source | states |
|---|---|---|
| Validators.IsEmpty | utils/Validators.js:19 | a string is empty exactly when it has no characters; any other value is empty exactly when it is falsy |
| Validators.IsBlank | utils/Validators.js:22 | a string is blank exactly when every character is whitespace; any other value is blank exactly when it is falsy (a truthy number or `true` never reads as blank) |
| Validators.EmptyIsBlank | utils/Validators.js:19-22 | every empty value is blank, and a non-empty run of whitespace is blank without being empty |
| Validators.IsValidUsername | utils/Validators.js:6-12 | a username is valid exactly when it has four to ten characters, all of them `\w` |
| Validators.IsValidPassword | utils/Validators.js:7-14 | a valid password has between three and fifty characters, and any text of six to twenty-five characters is valid |
| Validators.HostnameIsJoinedLabels | utils/Validators.js:8-16 | a hostname is valid exactly when it is a non-empty list of labels joined by dots: inner labels of letters, digits and inner hyphens, and a last label that starts with a letter |
| Validators.HaltOnValidationErrors | utils/Validators.js:29-35 | a 422 response carrying the errors is produced exactly when there are errors |
| Validators.IntegersAreNumeric | services/HelpDoneService.js:37-38 | every integer, written as JavaScript writes it, passes the numeric rule, so its `min`/`max` bounds reject nothing |
| Validators.NumericShape | services/HelpDoneService.js:37-38 | a text that passes the numeric rule holds a digit and nothing but digits, dots and one leading sign |
| Models.NewCampaignModel | models/CampaignModel.js:4-10 | every field is copied; a missing method list becomes the empty list, while an explicit null is kept |
| Security.BearerToken | helpers/SecurityHelper.js:41-43 | the token taken from a `Bearer ` value is the run of non-space characters right after the prefix, ending at the end of the value or at a space |
| Security.BearerRoundTrip | helpers/SecurityHelper.js:20-21 | a space-free token prefixed with `Bearer ` is recovered exactly |
| Security.BearerDropsRest | helpers/SecurityHelper.js:41-43 | whatever follows a further space after the token is discarded |
| Security.SanitizeAuthorization | helpers/SecurityHelper.js:18-24 | body values are never changed; a header value is changed only when it is a `Bearer ` string, and then it becomes a space-free part of it; a truthy non-string header throws |
| Security.HeaderToken | helpers/SecurityHelper.js:38-43 | the verified token is undefined when the header is absent, the stripped token for a `Bearer ` header, and the header itself otherwise |
| Security.Check | helpers/SecurityHelper.js:35-54 | validation errors give 422 and nothing is verified; a rejected token gives 401 "Token inválido" with code "401"; the handler runs only with no errors and an accepted token, with the decoded claims |
| Security.CreateJWT | helpers/SecurityHelper.js:68-85 | the payload is exactly id, name, email and level; the key is the given one when truthy, else the environment's; expiry is thirty days on from now, and the signing option gets that same moment |
| Security.KeyNotInPayload | helpers/SecurityHelper.js:71-78 | the signing key does not influence the signed claims |
| Security.ExpiryOptionIsAbsolute | helpers/SecurityHelper.js:69-81 | the `expiresIn` option is the absolute timestamp of now plus thirty days, not the thirty-day span in milliseconds or in seconds |
| Security.IssuedTokenPassesCheck | helpers/SecurityHelper.js:35-85 | a token issued with the application key, sent as `Bearer <token>`, passes `check` and yields exactly the issued claims |
| CampaignFold.SameKeySameId | dao/CampaignDao.js:63 | grouping by the id's decimal string groups by the numeric id |
| CampaignFold.FindIndex | dao/CampaignDao.js:63 | the position found is the first campaign with the key, and none is found only when no campaign has it |
| CampaignFold.FoldIsGrouped | dao/CampaignDao.js:60-84 | the row loop yields one campaign per distinct id, in first-occurrence order, each with its first row's fields and the methods of all its rows |
| CampaignFold.FoldIds | dao/CampaignDao.js:60-84 | the campaigns' ids are the distinct row ids, in first-occurrence order |
| CampaignFold.FoldDistinctIds | dao/CampaignDao.js:60-84 | no two campaigns share an id |
| CampaignFold.FoldCoversRows | dao/CampaignDao.js:60-84 | every campaign comes from some row, and every row's id has its campaign |
| CampaignFold.FoldFirstOccurrenceOrder | dao/CampaignDao.js:60-84 | campaigns appear in the order their ids first occur among the rows |
| CampaignFold.FoldFields | dao/CampaignDao.js:60-84 | each campaign has the title, description and contact of its first row, and a non-empty method list with one entry per row of its id, in row order |
| CampaignFold.FoldCountsRows | dao/CampaignDao.js:60-84 | the total number of method entries equals the number of rows, so no row is lost or counted twice |
| CampaignDao.BuildWhere | dao/CampaignDao.js:18-38 | the clause has exactly as many placeholders as values; the two LIKE patterns come first, then the filter ids in order; blank text and no filters give no clause; the clause is the one the inputs call for |
| CampaignDao.WhereClause | dao/CampaignDao.js:18-36 | the clause text equals the reference clause for the search text and the filters |
| CampaignDao.AppendFilterTerms | dao/CampaignDao.js:29-35 | the loop appends the filter terms joined by `OR` |
| CampaignDao.ClauseCount | dao/CampaignDao.js:21-37 | the placeholders of the reference clause number two for non-blank text plus one per filter |
| CampaignDao.DisjunctionCount | dao/CampaignDao.js:30-35 | `n` filter terms joined by `OR` hold exactly `n` placeholders |
| CampaignDao.SearchAndFiltersClause | dao/CampaignDao.js:21-37 | with both text and filters, the clause is the search disjunction, then `AND`, then the parenthesised filter disjunction |
| CampaignDao.FindAll | dao/CampaignDao.js:14-87 | the connection is released; the one statement sent is the search with exactly the clause and values the text and filters call for, one value per placeholder; a thrown error propagates; otherwise the result is the folded rows |
| CampaignDao.FindByUser | dao/CampaignDao.js:95-147 | the connection is released; a thrown error propagates; a successful query always yields the folded rows, never null |
| CampaignDao.FindOne | dao/CampaignDao.js:155-207 | null exactly when there are no rows; otherwise the first row's campaign, carrying the methods of every row with its id |
| CampaignDao.FirstCampaign | dao/CampaignDao.js:180-206 | the fold is empty exactly when the rows are; its first campaign belongs to the first row |
| CampaignDao.Abort | dao/CampaignDao.js:240-245 | a failed transaction rolls back and then ends the connection, rethrows the error, and leaves the store unchanged |
| CampaignDao.InsertOne | dao/CampaignDao.js:216-248 | success exactly when the method list is neither null nor missing and no operation up to commit throws; then the campaign gets the next id, is owned by the user, is linked to each listed method (to none when the value is not a list), and its id is returned as a string; on failure it rolls back with the store unchanged, and a null or missing list throws a TypeError; store validity is kept |
| CampaignDao.InsertLinks | dao/CampaignDao.js:230-237 | one link insert per method id, in order, stopping at the first that throws; if none throws, every link is added |
| CampaignDao.LinkAndCommit | dao/CampaignDao.js:230-245 | the shared tail of both writes succeeds exactly when no link insert and not the commit throws; success commits with the links added; failure rolls back to the original store with the thrown error |
| CampaignDao.UpdateFields | dao/CampaignDao.js:264-267 | the UPDATE changes only the matched row's title, description and contact and keeps every row id |
| CampaignDao.UpdateOne | dao/CampaignDao.js:256-294 | success exactly when the method list is neither null nor missing and nothing throws; the campaign's links are replaced by exactly the listed methods (none when the value is not a list), other campaigns and their links are untouched, its text fields are updated, and the result is 1 when it exists else 0; failure rolls back with the store unchanged |
| CampaignDao.ReplaceLinks | dao/CampaignDao.js:269-283 | deleting a campaign's links and then inserting new ones leaves exactly the new ones for it and every other link as it was |
| CampaignDao.DeleteOne | dao/CampaignDao.js:301-315 | outside any transaction; on success the campaign row is gone, the others are unchanged, and the result counts the row removed; a thrown error leaves the store unchanged |
| HelpDoneDao.ToModel | dao/HelpDoneDao.js:39-47 | a record's three ids are decimal digit strings and its texts are the row's |
| HelpDoneDao.RowOfToModel | dao/HelpDoneDao.js:42-44 | reading a record's ids back as numbers recovers the row |
| HelpDoneDao.ToModelInjective | dao/HelpDoneDao.js:42-46 | distinct rows give distinct records |
| HelpDoneDao.MapRows | dao/HelpDoneDao.js:39-48 | one record per row, in row order |
| HelpDoneDao.MapRowsInvertible | dao/HelpDoneDao.js:39-48 | the list of records determines the rows |
| HelpDoneDao.FindAll | dao/HelpDoneDao.js:16-51 | the connection is released; a thrown error propagates; otherwise every row is returned, in order, and nothing is lost |
| HelpDoneDao.FindOne | dao/HelpDoneDao.js:59-93 | null exactly when no row matches; otherwise the first row's record |
| HelpDoneDao.InsertOne | dao/HelpDoneDao.js:101-115 | the result is a non-empty digit string that reads back as the new row's id |
| HelpDoneDao.DeleteOne | dao/HelpDoneDao.js:122-136 | the result is the bare affected-row count, not the driver's packet |
| Validators.Halt | services/CampaignService.js:54-55 | every handler answers a failed validation with 422 and the errors, before any mapper call |
| CampaignService.BodyErrors | services/CampaignService.js:29-31 | the body passes exactly when title, description and contact each have at least three characters, and each failing field is reported |
| CampaignService.SearchText | services/CampaignService.js:57 | the search text is the query's `q` when truthy, else the empty string |
| CampaignService.Filters | services/CampaignService.js:58-60 | the filters are the query's list when it is a list, else an empty list |
| CampaignService.GetAll | services/CampaignService.js:53-74 | a single search call with the defaulted text and filters; 200 with the campaigns exactly when it succeeds, else the error is handed on |
| CampaignService.SingleFilterIgnored | services/CampaignService.js:58-60 | a single `filters` value yields an unfiltered search |
| CampaignService.GetAllSearches | services/CampaignService.js:53-74 | combined with the search mapper: the statement sent carries the clause and values the defaulted text and filters call for (none at all for no text and no list), and a successful query answers 200 with its rows folded |
| CampaignService.GetById | services/CampaignService.js:76-97 | 200 exactly when the mapper finds the campaign; 400 "Nenhum registro encontrado" when it finds none; a thrown error is handed on |
| CampaignService.GetByIdNotFoundIffNoRow | services/CampaignService.js:76-97 | combined with the single-campaign mapper: 400 exactly when no row has the id; otherwise 200 with the first row's campaign carrying the methods of every row |
| CampaignService.GetByUserId | services/CampaignService.js:99-120 | 200 with the campaigns when the mapper answers some, 400 when it answers null or undefined |
| CampaignService.GetByUserIdNeverNotFound | services/CampaignService.js:113-119 | combined with the user finder, a successful query always gives 200 with the folded rows and never 400 |
| CampaignService.Add | services/CampaignService.js:122-150 | the insert's owner is the token's user id and the body fields pass unchanged; the answer is 201 with the new id, or the thrown error handed on |
| CampaignService.AddCreates | services/CampaignService.js:122-150 | combined with the transactional insert: a valid body with a method list answers 201 with the id the stored campaign receives, owned by the token's user and linked to its methods; an invalid body writes nothing; a null list is handed on as an error with the store unchanged |
| CampaignService.Update | services/CampaignService.js:152-179 | the campaign id comes from the path; the answer is 200 whose `id` holds the affected-row count, or the thrown error handed on |
| CampaignService.UpdateReplaces | services/CampaignService.js:152-179 | combined with the transactional update: a valid body answers 200 whose `id` is 1 when the campaign exists and 0 when not; its links become exactly the supplied methods, none for a missing list; its text fields are updated and no other campaign or link changes; an invalid body writes nothing; a null list is handed on with the store unchanged |
| CampaignService.Remove | services/CampaignService.js:181-195 | 204 with no body exactly when the mapper does not throw |
| CampaignService.RemoveIgnoresCount | services/CampaignService.js:187-194 | deleting one row and deleting none give the same answer |
| CampaignService.RemoveDeletes | services/CampaignService.js:181-195 | combined with the delete: 204 exactly when the DELETE does not throw, and then the campaign row is gone; otherwise the error is handed on and the store is unchanged |
| UserService.CommonErrors | services/UserService.js:16-23 | the e-mail and password rules pass exactly when the e-mail is recognised and the password has at least three characters, and each failing field is reported |
| UserService.SigninErrors | services/UserService.js:39-43 | signin passes exactly when the e-mail is recognised and the password has at least three characters, reports each failing one, and checks no other field |
| UserService.SignupErrors | services/UserService.js:28-38 | signup passes exactly when every field's rule passes; the zip code is checked only when given; the zip code and the state are reported exactly when they fail |
| UserService.NewUser | services/UserService.js:72-83 | the user handed to the insert is pending and ordinary, holds the hash in place of the password, and keeps the form's name, last name, date of birth, zip code, city, state and e-mail |
| UserService.Signup | services/UserService.js:47-95 | the e-mail is looked up first; a user is inserted exactly when nobody holds the e-mail, always with the hashed password; a taken e-mail gives 409; 201 with no body exactly when hashing and the insert succeed; a failed insert is handed on with its text and code; a failed lookup or a rejected hash gets no answer |
| UserService.NonStringPasswordUnanswered | services/UserService.js:67-69 | when bcrypt rejects non-string arguments, a non-string password that passes the length rule leaves a signup with a free e-mail unanswered, with nothing inserted |
| UserService.TakenEmailNeverInserted | services/UserService.js:67-94 | when the e-mail is taken, nothing is inserted and the answer is not 201 |
| UserService.PlaintextNeverStored | services/UserService.js:68-80 | the inserted password differs from the plaintext whenever hashing does not resolve to the plaintext |
| UserService.SigninClaims | services/UserService.js:115-121 | the claims are the row's id, `nome` and e-mail, and a level that is undefined when the row has no `nivel` |
| UserService.LevelAlwaysUndefined | services/UserService.js:115-121 | a row with only the lookup's columns gives an undefined level |
| UserService.Signin | services/UserService.js:97-133 | 200 with a token exactly when the lookup finds a user whose stored hash matches; no answer exactly when the comparison with the first row rejects; every other answered case with a successful lookup is the same 401 |
| UserService.NonStringCredentialsUnanswered | services/UserService.js:111-114 | when bcrypt rejects non-string arguments, a non-string password or a stored hash that is not a string (a NULL `senha`) leaves the signin unanswered |
| UserService.FailuresLookAlike | services/UserService.js:111-132 | an unknown e-mail and a wrong password give the same answer |
| UserService.SigninTokenPassesCheck | services/UserService.js:97-133 | the token signin issues passes `check` with the application key and yields the row's id, name and e-mail with an undefined level |
| HelpDoneService.AddErrors | services/HelpDoneService.js:37-39 | the body passes exactly when both ids read as numbers and the log has at least three characters, and each failing field is reported |
| HelpDoneService.AnyIntegerIdPasses | services/HelpDoneService.js:37-38 | zero and negative ids pass the id rules |
| HelpDoneService.RequestId | services/HelpDoneService.js:74 | the id is the path's when truthy, else the query's |
| HelpDoneService.GetAll | services/HelpDoneService.js:53-68 | one lookup for the path's campaign id; 200 with the records exactly when it succeeds |
| HelpDoneService.GetAllListsRows | services/HelpDoneService.js:53-68 | combined with the mapper: 200 with one record per row, in order, each reading back as its row |
| HelpDoneService.GetById | services/HelpDoneService.js:70-91 | 200 exactly when the mapper finds the record; 400 when it finds none |
| HelpDoneService.GetByIdNotFoundIffNoRow | services/HelpDoneService.js:84-90 | combined with the mapper: 400 exactly when no row has the id, 200 exactly when one does |
| HelpDoneService.Add | services/HelpDoneService.js:93-122 | 200 (never 201) with the id when the mapper answers one; 400 when it answers null; a thrown error is handed on |
| HelpDoneService.AddAlwaysSucceeds | services/HelpDoneService.js:114-116 | combined with the mapper, a successful insert always answers 200 with an id that reads back as the new row's id |
| HelpDoneService.AffectedRows | services/HelpDoneService.js:138 | a packet's `affectedRows` is its count; reading it off `null` or `undefined` throws, and any other plain value has none |
| HelpDoneService.Remove | services/HelpDoneService.js:124-148 | 204 exactly when the resolved value has a positive `affectedRows`; no answer at all exactly when it resolved to `null` or `undefined`; otherwise 400, unless the mapper threw, whose error is handed on |
| HelpDoneService.RemoveNeverSucceeds | services/HelpDoneService.js:132-147 | combined with the mapper, which resolves to a bare number, `remove` always answers 400 |

## Left out

- **SQL.** The SQL statements are not evaluated. Queries are named by their parameters, and rows are inputs. `CampaignDao.SearchAndFiltersClause` records the clause's shape, where `AND` binds tighter than the search's `OR`. What the database does with that is not modelled.
- **Connection and rollback failures.** `connect()` is assumed to succeed, and so is `rollback()`. A failing rollback would replace the original error.
- **Validation-library internals.** The rule chains are not modelled: `trim`, the `in: ['params', 'query']` id schemas and `isJWT`. Handlers receive the resulting error list as a parameter. Only the rules whose outcome the handlers' contracts depend on are modelled: `isLength({ min })` and `isNumeric()`.
- **E-mail and date recognisers.** `isEmail()` and `isDate()` are parameters.
- **Library calls.** Hashing and comparison (bcrypt), signing and verifying (jsonwebtoken) and calendar arithmetic (moment) are parameters. Hashing and comparison return a result that may be a rejection; bcrypt's rule that it rejects non-string arguments is a stated assumption (`UserService.HashRejectsNonStrings`, `UserService.CompareRejectsNonStrings`) of the lemmas that use it.
- **`PasswordHelper`.** Its two one-line wrappers around bcrypt are left out for the same reason.
- **`Validators.isFloat` and `Validators.isValidEmail`.** These are left out: they use floating-point remainder and the long e-mail pattern, and no handler in the core calls them.
- **`UserDao`.** The user mapper, the campaign help-method mapper (`dao/CampaignHelpMethodDao.js`) and its service are outside the core. The user lookup appears only as its result rows.
- **`models/CampaignHelpDoneModel.js` and `models/AuthenticationModel.js`** are not part of this model. Their records are taken to copy their constructor arguments.
- **`createError` and the error handler.** The error handler's answer to a handed-on error is not modelled (`Forward`).
- **Number widths.** Ids and counts are unbounded naturals. JavaScript's number precision limits are not modelled.
- **The `q` query parameter** is a single value. An array `q` is not modelled.
- **Length in characters.** `isLength` counts code points and `MinLength` counts characters, which coincide for the model's `char`.
- **Method lists that are strings, or hold entries without an `id`.** `CampaignDao.InsertOne` and `CampaignDao.UpdateOne` take the method list as null, missing, a non-list value (whose `length` reads undefined, so nothing is linked) or a list of numeric ids. A string is iterated by character and an entry without `id` links `undefined`; both would need links to non-numeric values, which the store does not hold. An object with a positive numeric `length` passes the length test and then throws a TypeError in `for…of`, since it is not iterable; that rollback is not modelled either.
- **The campaign DELETE's effect on links.** The database's referential action is not modelled, so `CampaignDao.DeleteOne` leaves the link set unchanged.
- CampaignDao.UpdateOne: takes the row key matched by `WHERE id = ?` as its own parameter rather than converting `campaign.id`; the string-to-number conversion is left to the database.
- Validators.IsValidPassword: bounds the length in characters only between three and fifty, and guarantees validity only up to twenty-five. The pattern counts UTF-16 code units, and a character outside the Basic Multilingual Plane takes two.
- Validators.IsBlank: models JavaScript's `\s` as the whitespace set of `Js.IsWhitespace`.
- Security.CreateJWT: returns the expiry as the moment's timestamp instead of the moment object.
- Security.Check: models `jwt.verify`'s callback as a function returning the decoded claims or nothing; the kind of verification error is not modelled.
- UserService.Signup: models a failed lookup as a reply that never comes. The handler's `new ErrorModel` call with no options throws before `next` is reached.
