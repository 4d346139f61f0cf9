# Identity records: phone validator, account manager, role claims and signatures

A Dafny model of the identity part of a document-management web application.
Two source files are covered:

- `core/models.py`: the base record. Every role claim and signature gets an
  identifier that is fixed when the record is built, a `created_at` stamped by
  the save that inserts it, and an `updated_at` stamped by every save.
- `users/models.py`: four parts.
  - The E.164 phone validator.
  - The account manager (`_create_user`, `create_user`, `create_superuser`).
    It fills in the `is_staff` / `is_superuser` defaults, enforces the
    superuser flags, refuses an empty phone, and picks a usable or an unusable
    password.
  - The three tables (users, role claims, signatures) with their constraints:
    - phone is unique;
    - the claim key (user, role, department) is unique;
    - a user has at most one signature;
    - every claim and signature belongs to a stored user;
    - deleting a user also deletes its claims and its signature.

Files:

- `wrappers.dfy`: `Option` and `Result`.
- `core_models.dfy` (module `CoreModels`):
  - `BaseRecord`, a class whose `Save(now)` changes the timestamps in place,
    where `now` holds the clock readings of that save;
  - `StampsAfter`, the timestamps as a function of the history of saves.
- `phone_validator.dfy` (module `PhoneValidator`):
  - the regular expression written as data and run by a small backtracking
    matcher;
  - `IsE164`, a direct statement of the phone format, with lemmas linking the
    two.
- `users_models.dfy` (module `UsersModels`):
  - roles, password states, and the manager's flag defaults as functions;
  - `Account`, `RoleClaim` and `Signature` classes;
  - `IdentityStore`, a class whose map fields are the three tables. Its
    methods create and delete records, and its `Valid()` holds the table
    constraints.
- `scenarios.dfy` (module `Scenarios`): client methods, each building a
  fresh store and calling its operations; their contracts state the outcome.

How the model is built:

- Identifiers come from a counter in the store (`nextId`). That counter is the
  fresh-id supply that stands in for `uuid.uuid4`.
- Clock readings are parameters (`now`). A save carries two readings
  (`SaveClock`), because Django reads the clock once for each timestamp field:
  the inserting save reads it for `created_at` and then for `updated_at`, a
  later save only for `updated_at`.
- The password hasher is a function parameter `hash`.

The factories do not check the phone format. Django runs field validators
only during model validation (`full_clean`), not in `save()`. So the
validator is modelled and proved on its own.

## Model

| member | source | states |
|---|---|---|
| `PhoneValidator.PhoneValidatorAsWritten` | users/models.py:10-13 | the validator as written: `search` with `^\+?[1-9]\d{7,14}$`, where the closing `$` accepts the end of the text or a position just before a final `'\n'` |
| `PhoneValidator.IsValidPhone` | users/models.py:10-13 | the validator as intended: the same pattern closed by the end of the text, so nothing may follow the digits |
| `PhoneValidator.IsE164` | users/models.py:9-11 | the E.164 subset stated directly: an optional `+`, then a digit 1-9, then 7 to 14 more digits, and nothing else |
| `PhoneValidator.ValidPhoneIsE164` | users/models.py:10-13 | the validator (with the end anchor read as end of text) accepts a string iff it is an optional `+`, a digit 1-9, then 7 to 14 more digits, with nothing before or after |
| `PhoneValidator.ValidPhoneLength` | users/models.py:11 | every accepted phone has 8 to 16 characters, so it fits `max_length=16` (line 56), and 8 to 15 digits |
| `PhoneValidator.DigitRunMatches` | users/models.py:11 | `\d{lo,hi}` then the end anchor accepts exactly a run of digits of allowed length, or (under `$`) such a run followed by one final newline |
| `PhoneValidator.PhonePatternUnfolds` | users/models.py:11 | the pattern matches iff the text is a lead digit 1-9 and a digit run, optionally after one `+` |
| `PhoneValidator.AsWrittenAcceptsFinalNewline` | users/models.py:10-13 | the validator as written (Python `$`) accepts exactly the valid phones plus every valid phone followed by one `'\n'` |
| `PhoneValidator.NewlineAfterValidPhone` | users/models.py:10-13 | any valid phone followed by `'\n'` passes the validator as written and fails the corrected one |
| `PhoneValidator.AsWrittenNewlineWitness` | users/models.py:10-13 | `"+15551234567\n"` and the 17-character `"+123456789012345\n"` pass the validator as written |
| `PhoneValidator.PhoneExamples` | users/models.py:10-13 | `+15551234567` and `15551234567` are accepted; `12345`, `+0123456789` and `abc123` are refused |
| `CoreModels.StampsAfter` | core/models.py:10-11 | after any non-empty history of saves, `created_at` is the `created_at` reading of the first save and `updated_at` the `updated_at` reading of the last; a record never saved has neither |
| `CoreModels.SaveChangesOnlyUpdatedAt` | core/models.py:9-11 | a later save leaves `created_at` as it was and sets `updated_at` to its own clock reading |
| `CoreModels.CreatedNotAfterUpdated` | core/models.py:10-11 | when the clock never runs backwards, a saved record's `created_at` is never later than its `updated_at` |
| `CoreModels.BaseRecord.constructor` | core/models.py:9 | a record is built with the supplied id, no timestamps yet, and in the adding state; `id` is a `const`, so no later operation can change it |
| `CoreModels.BaseRecord.Save` | core/models.py:10-11 | a save appends its clock readings to the history; `updated_at` becomes its `updated_at` reading; `created_at` becomes its `created_at` reading only on the first save and is otherwise kept; the fields stay equal to `StampsAfter` of the history |
| `UsersModels.RoleValue` | users/models.py:77-86 | each role choice is stored as "admin", "special" or "user", all within `max_length=16` |
| `UsersModels.RoleOfValue` | users/models.py:77-83 | a text names a role iff it is one of the three choice values, and that role's stored value is the text |
| `UsersModels.RoleRoundTrip` | users/models.py:77-83 | storing a role and reading it back gives the same role |
| `UsersModels.InitialPassword` | users/models.py:25-28 | a truthy password leads to a usable password that checks against that raw password; a missing or empty one leads to the unusable state, which no raw password checks against; never the blank (empty) password |
| `UsersModels.CheckPassword` | users/models.py:25-28 | `check_password`: a raw password checks only against a usable password holding the hasher's encoding of that raw password |
| `UsersModels.UnusableRejectsEveryPassword` | users/models.py:27-28 | an account whose password is not usable cannot log in with any password |
| `UsersModels.UserFlags` | users/models.py:32-35 | a flag the caller leaves out is False; a flag the caller gives is kept |
| `UsersModels.SuperuserFlags` | users/models.py:37-44 | succeeds iff neither flag is given as False; then both flags are True; `is_staff` is checked first, then `is_superuser`, each with its own error |
| `UsersModels.Account.constructor` | users/models.py:24 | an account is built with the phone and flags it is given and a blank password |
| `UsersModels.Account.SetPassword` | users/models.py:25-26 | the password becomes the hasher's encoding of the raw password |
| `UsersModels.Account.SetUnusablePassword` | users/models.py:27-28 | the password becomes the unusable state |
| `UsersModels.RoleClaim.constructor` | users/models.py:85-88 | a claim holds its base record, user, role text and optional department |
| `UsersModels.Signature.constructor` | users/models.py:102-103 | a signature holds its base record, user and image key |
| `UsersModels.SqlAdmitsDuplicateUnscopedClaim` | users/models.py:88-94 | under the database's NULL semantics the same unscoped claim key never collides with itself, so it can be stored twice; every collision the index does detect is between equal keys |
| `UsersModels.InsertClaimKeepsKeysUnique` | users/models.py:90-94 | storing a claim with an unused key under a new id keeps the claim keys unique |
| `UsersModels.InsertSignatureKeepsOnePerUser` | users/models.py:102 | storing a signature for a user who has none, under a new id, keeps one signature per user |
| `UsersModels.ClaimsWithoutUser` | users/models.py:85 | after the cascade, exactly the claims of other users remain, each unchanged |
| `UsersModels.SignaturesWithoutUser` | users/models.py:102 | after the cascade, exactly the signatures of other users remain, each unchanged |
| `UsersModels.CascadeKeepsConstraints` | users/models.py:85-102 | deleting a user together with its claims and signature keeps every table constraint, including that every claim and signature belongs to a stored user |
| `UsersModels.DeclaredInsert` | users/models.py:49-64 | as declared, a save succeeds iff no stored row has the same phone or the inherited default username "", and then appends a row with username "" |
| `UsersModels.DeclaredTableHoldsOneAccount` | users/models.py:49-64 | as declared, the first account can be saved, and every second account is refused whatever its phone |
| `UsersModels.IdentityStore.Valid` | users/models.py:54-103 | the table constraints: every record is stored under its own id, below the id supply; phones are unique; claim keys are unique; roles are choice values; one signature per user; every claim and signature belongs to a stored user |
| `UsersModels.IdentityStore.RoleClaimsOf` | users/models.py:85 | the reverse accessor `user.role_claims`: the ids of the stored claims whose user is `user`, all of them ids in the claim table |
| `UsersModels.IdentityStore.SignatureOf` | users/models.py:102 | the reverse accessor `user.signature` finds the user's signature if there is one, and finds none otherwise |
| `UsersModels.IdentityStore.constructor` | users/models.py:49-103 | the store starts with three empty tables and satisfies every table constraint |
| `UsersModels.IdentityStore.CreateAccount` | users/models.py:21-30 | an empty phone fails with nothing stored; a taken phone fails with nothing stored; otherwise exactly one account is added under a fresh id, with the given phone and flags and `InitialPassword` as its password; the other tables are unchanged and the constraints hold |
| `UsersModels.IdentityStore.CreateUser` | users/models.py:32-35 | as `CreateAccount`, with the flags given by `UserFlags` |
| `UsersModels.IdentityStore.CreateSuperuser` | users/models.py:37-46 | a flag given as False fails before the phone is looked at, with nothing stored; otherwise as `CreateAccount` with both flags True |
| `UsersModels.IdentityStore.CreateRoleClaim` | users/models.py:85-94 | succeeds iff the user exists and the key (user, role, department) is unused, where an unscoped key equals an unscoped key; on success one claim is added under a fresh id, stamped with the two readings of `now`; on failure nothing changes |
| `UsersModels.IdentityStore.CreateSignature` | users/models.py:97-103 | succeeds iff the user exists and has no signature; on success one signature is added under a fresh id, with its key and the two readings of `now` as its timestamps; on failure nothing changes |
| `UsersModels.IdentityStore.DeleteUser` | users/models.py:85-102 | removes the user, exactly its claims, and its signature; every other record and the id supply are unchanged; afterwards no claim or signature of the user can be found |
| `Scenarios.TwoAccounts` | users/models.py:21-35 | two accounts with different phones are both created, under different ids |
| `Scenarios.SamePhoneTwice` | users/models.py:57 | a second account with the same phone is refused even though its other fields differ |
| `Scenarios.NoPassword` | users/models.py:27-35 | an account created without a password has the unusable state, is not staff, and accepts no password |
| `Scenarios.Superuser` | users/models.py:37-46 | `create_superuser` with a password gives both flags and a password that checks; `is_staff=False` is refused and stores nothing |
| `Scenarios.ClaimScopes` | users/models.py:85-94 | granting the same unscoped claim twice is refused; the same role in a department is granted |
| `Scenarios.SecondSignature` | users/models.py:102 | a second signature for the same account is refused |
| `Scenarios.CascadeClaims` | users/models.py:85 | deleting account A removes A's claim and keeps B's |
| `Scenarios.CascadeSignature` | users/models.py:102 | deleting account A removes its signature |
| `Scenarios.ResaveClaim` | core/models.py:9-11 | saving a stored claim again keeps `created_at` at the inserting save's reading and moves `updated_at` to the new save's reading |

## Findings

| source | as written | input that shows it | evidently intended | confidence | as-written member | corrected member |
|---|---|---|---|---|---|---|
| users/models.py:11 | the pattern ends in `$`, which in Python also matches just before a final newline, and the validator uses `search` | `"+15551234567\n"` (13 characters) is accepted and fits the column, so `full_clean` lets it through to a stored phone; `"+123456789012345\n"` (17 characters) is also accepted by the pattern but refused by the length check (`max_length=16`, line 56) | nothing after the digits (`\Z`), as the E.164 comment says | not executed; high for the validator itself (form layers that strip whitespace hide it) | `PhoneValidator.AsWrittenNewlineWitness` | `PhoneValidator.ValidPhoneIsE164` |
| users/models.py:88-94 | `unique_together` on a nullable `department_id`; SQL treats NULLs as distinct, and Django's uniqueness validation skips keys that hold a None | two claims (A, "admin", None) can both be stored | one claim per user, role and scope, including the unscoped one, as the doc comment at line 92 says | not executed; high for the default NULL semantics of PostgreSQL and SQLite | `UsersModels.SqlAdmitsDuplicateUnscopedClaim` | `UsersModels.IdentityStore.CreateRoleClaim` |
| users/models.py:49-64 | `User` extends `AbstractUser` and does not remove its `username` column, which is unique and which `_create_user` never fills, so every row gets the default "" | `create_user("+15551234567")` then `create_user("+15550000001")`: the second fails on the username constraint | phone replaces username (`USERNAME_FIELD = "phone"`, the class doc comment), so there is no username column (`username = None`) | not executed; high given Django's `AbstractUser`, which is not part of this model's files | `UsersModels.DeclaredTableHoldsOneAccount` | `UsersModels.IdentityStore.CreateAccount` (with `Scenarios.TwoAccounts`) |

The model uses the corrected behaviour in all three cases.
- The corrected validator is `IsValidPhone`. The factories call no validator (see above).
- Unscoped claim keys are compared with `Option` equality, so None equals None.
- The users table has no username column.

## Left out

- The Django ORM, the database engine, migrations, `use_in_migrations` and the admin. The tables are in-memory maps.
- The password hashing algorithm and its random salt. The hasher is an injected total function, so the same raw password always gets the same encoding. Django's unusable marker is a random string with a `!` prefix; here it is a constructor of its own.
- `uuid.uuid4` randomness. Ids come from a counter, which makes every new id distinct from all ids issued before.
- The wall clock behind `auto_now` / `auto_now_add`. Clock readings are parameters, and nothing forces them forward; `CoreModels.CreatedNotAfterUpdated` takes it as a precondition.
- Atomic enforcement of the unique constraints under concurrent creates. The checks run one after another.
- The object storage behind `image_key`. The key is an opaque string of at most 512 characters.
- `email`: it has no constraint and no logic here.
- `__str__`, `help_text`, `USERNAME_FIELD` / `REQUIRED_FIELDS`, and the index on `created_at`.
- The other fields `AbstractUser` contributes (`first_name`, `last_name`, `is_active`, `date_joined`, `last_login`), and the `groups` and `user_permissions` many-to-many fields of `PermissionsMixin`. Apart from `username` (see Findings) they carry no constraint the core relies on. Deleting a user also removes its rows in those two link tables; the model has no such tables.
- PhoneValidator.PhoneValidatorAsWritten: `\d` is read as ASCII `0`-`9`. Python's `\d` on text also matches the decimal digits of other scripts, and the model does not list them. The same holds for `PhoneValidator.IsValidPhone` and `PhoneValidator.IsE164`.
- UsersModels.IdentityStore.CreateAccount: a phone of None is treated like "", since both are falsy. An over-long phone or image key is excluded by the parameter types (`max_length`) rather than rejected by the database column.
- UsersModels.IdentityStore.CreateRoleClaim: the role is passed as one of the three choices. The source stores any text, because choices are checked only by model validation, so a raw text outside the choices would reach the table; the model does not capture that.
- Edits to stored fields (profile edits, replacing a signature's image key) and deleting single claims or signatures. The source names no operation for them. Record fields other than the password and the timestamps are `const`.
- The difference between an in-memory instance and its row. In Django, saving an instance whose row was deleted inserts it again; here saving a record only restamps its timestamps.
