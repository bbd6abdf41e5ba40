# Package-tracking reconciliation core, modelled in Dafny

This project models the backend of a package-tracking app. Users register tracking codes.
The backend registers each code with a carrier-aggregation provider (AfterShip) and stores one
package record per owner and code. Status pushes from the provider are applied to every record
that carries the pushed code. A small user store, password login and the bearer-token
strategy sit beside it, and so does the `getInitials` helper of the profile screen.

Modules, one per source component:

- `Common` (`common.dfy`): Option/Result, the ids, the error kinds and a first-index search.
- `AfterShip` (`aftership.dfy`): the provider adapter. It covers the requests it builds, the
  mapping of a successful answer to `{status, timeline}`, and the classification of failures.
  The HTTP exchange is an abstract `RemoteOutcome` value.
- `PackageStore` (`package_store.dfy`): the package table as a class. The rows are a sequence,
  and a counter stands in for the database's id generator. `Valid()` keeps both unique keys:
  the id, and the pair `userId_trackingCode`. The repository's queries are functions and its
  writes are methods.
- `Packages` (`packages_service.dfy`): the package service, as a class over the repository.
  A ghost field `sent` logs the requests sent to the provider. This makes "the provider is
  not called" a checked statement.
- `Webhooks` (`webhooks.dfy`): push decoding, and the bulk update as a loop over the table.
- `UserStore`, `Users` (`user_store.dfy`, `users_service.dfy`): the user table, with email as
  a unique key, and the user service.
- `Auth`, `JwtStrategy` (`auth.dfy`, `jwt_strategy.dfy`): credential check, login payload and
  the mapping from token claims to the request user. bcrypt's `hash`/`compare` and the JWT
  signer are function parameters.
- `Initials` (`initials.dfy`): `getInitials`, with JavaScript's `split(' ')` modelled exactly.
  Empty pieces are kept.
- `Scenarios` (`scenarios.dfy`): client methods that use only the contracts. In them, two owners
  share a code, a duplicate create is refused before the provider is asked, one push updates
  both owners, and a remove drops the shared code.

Behaviours of the code that the model keeps on purpose:

- `remove` always asks the provider to delete the record's code, even when another owner still
  tracks it (`backend/src/packages/packages.service.ts:82`). There is no reference counting.
- The database layer drops a filter or data field whose value is `undefined`. So a push whose
  `msg` has no `tracking_number` updates every package in the table, and
  `Webhooks.MissingCodeSelectsEveryRecord` proves that it counts every row. A push without
  `tag` leaves each record's status as it was.
- A push without `msg` gets no answer body at all (`undefined`), not `{success, ...}`.
- `users.service.ts` passes no third argument to the repository's `create`. It also returns the
  repository's answer, which is the new row's email only. Its test expects more; the model
  follows the code.

## Model

| member | source | states |
|---|---|---|
| `AfterShip.CreateRequest` | backend/src/packages/integrations/aftership.service.ts:37-56 | The create call is a POST to `<base>/trackings` whose body is `{tracking: {tracking_number: code}}` |
| `AfterShip.DeleteRequest` | backend/src/packages/integrations/aftership.service.ts:87-99 | The delete call is a DELETE without a body, to `<base>/trackings/autodetect/` followed by the code |
| `AfterShip.DeletedCode` | backend/src/packages/integrations/aftership.service.ts:93-97 | A code read back from a delete URL is the suffix after `<base>/trackings/autodetect/` |
| `AfterShip.DeleteRequestNamesCode` | backend/src/packages/integrations/aftership.service.ts:93-98 | The delete URL names exactly the code it was built for |
| `AfterShip.DeleteRequestInjective` | backend/src/packages/integrations/aftership.service.ts:93-98 | Two different codes never produce the same delete request |
| `AfterShip.CreateTracking` | backend/src/packages/integrations/aftership.service.ts:32-86 | Success exactly when an answer carries `data.tracking`; then status is its `tag` and timeline its `checkpoints`, or empty when they are missing. Otherwise NotFound exactly for meta code 4004, else InternalServerError |
| `AfterShip.ClassifyRejection` | backend/src/packages/integrations/aftership.service.ts:68-85 | Only meta code 4004 gives NotFound; every other failure, with or without a response, gives InternalServerError |
| `AfterShip.DeleteTracking` | backend/src/packages/integrations/aftership.service.ts:87-109 | Completes normally whatever the provider answers |
| `PackageStore.OwnedBy` | backend/src/packages/packages.repository.ts:37-40 | Holds each row of the owner exactly as often as the table does, and nothing else |
| `PackageStore.InsertByRecency` | backend/src/packages/packages.repository.ts:41-43 | Inserting into a newest-first sequence keeps it newest-first and adds exactly that one element |
| `PackageStore.SortByRecency` | backend/src/packages/packages.repository.ts:41-43 | The result is newest-first and a permutation of the input |
| `PackageStore.PackagesRepository.FindByUserAndCode` | backend/src/packages/packages.repository.ts:50-62 | Returns the owner's record for the code, which is the only one; None exactly when the owner has none |
| `PackageStore.PackagesRepository.FindByIdAndUserId` | backend/src/packages/packages.repository.ts:63-73 | Some exactly when a record with that id belongs to that user; a record of another owner gives None |
| `PackageStore.PackagesRepository.FindAllByUserId` | backend/src/packages/packages.repository.ts:36-45 | Exactly the owner's records, each once, most recently updated first |
| `PackageStore.PackagesRepository.Create` | backend/src/packages/packages.repository.ts:14-32 | Appends one record: name and code from the DTO, status and timeline from the provider, the owner, a fresh id. A second record for the same owner and code is refused and the table is unchanged. Both unique keys are kept |
| `PackageStore.PackagesRepository.UpdateName` | backend/src/packages/packages.repository.ts:74-86 | Changes only the name of the record with that id; every other record and field is unchanged; a missing id is an error with no change |
| `PackageStore.PackagesRepository.Remove` | backend/src/packages/packages.repository.ts:87-93 | Deletes exactly the record with that id and keeps all others; a missing id is an error with no change |
| `Packages.PackagesService.Create` | backend/src/packages/packages.service.ts:15-37 | An existing (owner, code) record gives Conflict, with no provider request and no change. Otherwise one create request goes out. A provider error is passed on unchanged with nothing stored; on success exactly one record is added with the caller's fields and the provider's status and timeline |
| `Packages.PackagesService.FindAll` | backend/src/packages/packages.service.ts:39-41 | Exactly the owner's records, newest first, as the repository lists them |
| `Packages.PackagesService.FindOne` | backend/src/packages/packages.service.ts:43-51 | The owned record, or NotFound. An absent id and a record of another owner both give NotFound |
| `Packages.PackagesService.Update` | backend/src/packages/packages.service.ts:53-71 | NotFound unless owned, with no change. Without a name, or with an empty one, the record comes back as stored and nothing is written. Otherwise only that record's name changes |
| `Packages.PackagesService.Remove` | backend/src/packages/packages.service.ts:73-84 | NotFound unless owned, with no request and no change. Otherwise a delete request for the record's code goes out and the record is deleted, whatever the provider answered; later lookups of the id give NotFound for every user, and other records are kept |
| `Webhooks.Decode` | backend/src/webhooks/webhooks.service.ts:16-25 | No update without `msg`; otherwise the filter is `tracking_number`, the status is `tag`, and the timeline is `checkpoints`, or empty when missing |
| `Webhooks.CountSelectedIsNumberOfRecords` | backend/src/webhooks/webhooks.service.ts:44-48 | The reported count is the number of table rows the update selects |
| `Webhooks.CodeFilterSelectsOnlyThatCode` | backend/src/webhooks/webhooks.service.ts:33-36 | With `tracking_number` present, a record is selected exactly when it carries that code, whatever its owner |
| `Webhooks.MissingCodeSelectsEveryRecord` | backend/src/webhooks/webhooks.service.ts:23-36 | With `tracking_number` missing, the update selects and counts every row of the table |
| `Webhooks.WebhooksService.HandleAfterShipUpdate` | backend/src/webhooks/webhooks.service.ts:13-56 | Without `msg`: no answer and no change. A database failure: `{success: false}`, no change, nothing raised. Otherwise every selected record gets status, timeline and `updatedAt := now` while its id, owner, name and code stay; unselected records are unchanged; the answer is `{success: true, updated: n}` with n the selected count |
| `UserStore.UsersRepository.FindByEmail` | backend/src/users/users.repository.ts:21-27 | Returns the only user with that email, or None when nobody has it |
| `UserStore.UsersRepository.FindById` | backend/src/users/users.repository.ts:28-34 | Returns the only user with that id, or None when there is none |
| `UserStore.UsersRepository.FindAll` | backend/src/users/users.repository.ts:42-44 | Every stored user, in table order |
| `UserStore.UsersRepository.Create` | backend/src/users/users.repository.ts:10-19 | Stores the DTO's fields with the password replaced by the given hash, answers with the email only; an email in use is refused with no change |
| `UserStore.UsersRepository.Delete` | backend/src/users/users.repository.ts:35-41 | Removes exactly the user with that id and answers with it; a missing id is an error with no change |
| `UserStore.UsersRepository.Update` | backend/src/users/users.repository.ts:45-52 | Overwrites only the present DTO fields, on only that user. A missing id, or an email another user has, is refused with no change |
| `Users.UsersService.Create` | backend/src/users/users.service.ts:12-24 | An email in use gives Conflict and nothing is stored; otherwise exactly one user is stored with password `hash(password, 10)` and the repository's answer (the email) is returned |
| `Users.UsersService.FindByEmailForAuth` | backend/src/users/users.service.ts:25-27 | The stored user with that email, hash included, or None when nobody has it |
| `Users.UsersService.FindAll` | backend/src/users/users.service.ts:28-30 | Every stored user |
| `Users.UsersService.FindOne` | backend/src/users/users.service.ts:32-34 | The stored user with that id, or None |
| `Users.UsersService.Update` | backend/src/users/users.service.ts:35-37 | A missing id gives `Storage(RecordNotFound)` and an email another user has gives `Storage(UniqueViolation)`, both with no change; otherwise it succeeds, and only that user's present fields are overwritten |
| `Users.UsersService.Remove` | backend/src/users/users.service.ts:38-40 | The repository's delete: the removed user, or a storage error when the id is missing |
| `Auth.ValidateUser` | backend/src/auth/auth.service.ts:15-24 | Some exactly when a stored user has that email and `compare(password, hash)` holds; the result is that user with id, name and email kept and the password removed |
| `Auth.Login` | backend/src/auth/auth.service.ts:26-42 | Unauthorized exactly when `validateUser` gives nothing. Otherwise the payload is `{sub: id, email, name}` of the matching stored user and the token is `sign(payload)` |
| `JwtStrategy.Validate` | backend/src/auth/strategies/jwt.strategy.ts:23-26 | The request user's id is `sub`; email and name are copied |
| `JwtStrategy.ValidateDropsOtherClaims` | backend/src/auth/strategies/jwt.strategy.ts:23-26 | Claims other than sub, email and name do not affect the request user |
| `JwtStrategy.LoginThenValidate` | backend/src/auth/strategies/jwt.strategy.ts:25 | A token issued by `login` validates to the id, email and name of the stored user whose credentials were checked, and that id looks the same user up again |
| `Initials.Split` | frontend/src/screens/ConfigurationScreen.tsx:24 | There is at least one piece, and no piece contains a space |
| `Initials.JoinSplit` | frontend/src/screens/ConfigurationScreen.tsx:24 | Joining the pieces with single spaces gives the name back, so the split loses nothing |
| `Initials.FirstChars` | frontend/src/screens/ConfigurationScreen.tsx:25-27 | Each piece contributes at most one character |
| `Initials.ToUpper` | frontend/src/screens/ConfigurationScreen.tsx:28 | Same length, every character upper-cased |
| `Initials.GetInitials` | frontend/src/screens/ConfigurationScreen.tsx:22-28 | At most two characters, none in a-z |
| `Initials.InitialsOfFirstTwoPieces` | frontend/src/screens/ConfigurationScreen.tsx:22-28 | The initials are the upper-cased first characters of the first two pieces only; an empty piece adds nothing but uses its slot |
| `Initials.FirstInitialIsFirstLetter` | frontend/src/screens/ConfigurationScreen.tsx:23-28 | A name that does not start with a space has its first character, upper-cased, as its first initial |
| `Initials.BrunoMarinho` | frontend/src/screens/ConfigurationScreen.tsx:9-12 | "Bruno Marinho" gives "BM" |
| `Initials.LeadingSpaceTakesASlot` | frontend/src/screens/ConfigurationScreen.tsx:24-27 | " Bruno Marinho" gives "B": the empty first piece takes one of the two slots |

## Left out

- HTTP transport: `HttpService`, `firstValueFrom` and the `aftership-api-key` and content-type headers. The provider's answer is a `RemoteOutcome` parameter.
- Logging calls, on every path.
- Wall-clock time: `new Date()` and the database's own timestamps come in as a `now` parameter.
- bcrypt and JWT signing are function parameters. Signature and expiry checks on incoming tokens are not modelled. `Claims` stands for a token that has already passed them, so `sub`, `email` and `name` are always present.
- Database failures: in the webhook handler they are a `dbFault` input. Elsewhere only the two failures the model can cause are modelled: a broken unique key, and a missing row on update or delete. The services' branches that pass these on as storage errors cannot be reached after their own pre-checks.
- The check-then-insert race between `findByUserAndCode` and `create`: the model is sequential, and the `userId_trackingCode` key is a table invariant.
- The database schema is not part of this model. Columns other than those shown (createdAt, the user's provider) are not kept. An automatic refresh of `updatedAt` on rename, if the schema declares one, is not modelled.
- `update-user.dto.ts` is not part of this model. `UpdateUserDto` is assumed to carry an optional name, email and password. A password given there is stored as it is, without hashing, just as `users.repository.ts` writes it.
- Validation decorators: only the non-empty checks are preconditions. Email format and password strength are decided by the validation library.
- `PackageStore.PackagesRepository.FindAllByUserId`: records with equal `updatedAt` come out in one fixed order. The database promises no order among them.
- `UserStore.UsersRepository.FindAll`: the users come out in table order. The query has no ordering, so the database promises none.
- `Initials.ToUpper`: only the ASCII letters a-z are mapped. Other case mappings of `toUpperCase`, including ones that change length, are not modelled. Characters stand for UTF-16 code units.
- Controllers, modules, guards, the frontend screens and hooks, and the operations only the tests mention (`findOrCreateGoogleUser`, `loginWithGoogle`, `generateInternalToken`): routing, UI or absent from the code.
