# Share Your Experience backend: a Dafny model of its service layer

This project models the request-handling core of a Flask backend where users
register and share interview experiences. It covers:

- the input validators: registration input, experience payloads, and the bearer token of the `Authorization` header;
- the Experience record: its derived timeline, its partial-patch update and its dictionary view;
- the experience service: the list query (filters, sort, page), plus create, read, update and delete under an owner check;
- the authentication service: a user table and a process-wide `token -> user id` session map;
- the `require_auth` guard that sits in front of the mutating endpoints.

Layout, one module per source file:

| file | module | models |
|---|---|---|
| `common.dfy` | `Common` | `Option`, the validators' `(is_valid, error)` pair, `(body, status)` responses |
| `config.dfy` | `Config` | the constants of `Config` (page sizes, length bounds, difficulties) |
| `text.dfy` | `Text` | ASCII `lower`, `isalnum`, `replace('_', '')`, substring search |
| `validators.dfy` | `Validators` | `backend/utils/validators.py` |
| `experience_model.dfy` | `ExperienceModel` | `backend/models/experience.py` |
| `user_model.dfy` | `UserModel` | `backend/models/user.py`, with the password digest abstracted |
| `experience_service.dfy` | `ExperienceService`, `ExperienceStore` | `backend/services/experience_service.py`: the pure list query, then the store class `ExperienceTable` |
| `auth_service.dfy` | `AuthService` | `backend/services/auth_service.py` as a class |
| `decorators.dfy` | `Decorators` | the branch logic of `require_auth` |
| `scenario.dfy` | `Scenario` | two verified walks through the services |

Modelling choices:

- **Dates and timestamps.** Dates are integer day numbers, so `(final - application).days` is a subtraction. `created_at` is an integer supplied by the caller in place of `datetime.utcnow`.
- **Date parsing.** `datetime.fromisoformat(...).date()` is a parameter `parse: string -> Option<int>` of the create and update methods. It returns `None` where the source raises `ValueError`.
- **Tokens.** `secrets.token_hex(32)` is a caller-supplied token that must not already be in the session map.
- **Ids.** Database ids come from a counter in each store class and start at 1.
- **Passwords.** The werkzeug password hash is an abstract digest. `CheckPasswordHash(h, p)` holds exactly when `h == GeneratePasswordHash(p)`.
- **Request bodies.** A request body is a `Payload` with one optional entry per key the services read. `offer_received` is a JSON boolean (`Bool`), a JSON number equal to 0 or 1 (`Num01`, covering `0`, `1`, `0.0` and `1.0`), or `NonBool`, standing for any other JSON value, `null` included.
- **The list query.** It is run over the rows of the experience table, given as a sequence in scan order. It is filter, then sort, then slice.
- **Mutating operations.** These are methods of a class over `map<int, Experience>` (experiences) or over `map<int, User>` plus `map<string, int>` (users and sessions). State changes only on success. A failed update leaves the table unchanged: the source changes its loaded object in place and then returns 400, but never commits.
- **`if not user_id`.** Both `get_current_user` and the guard test the id this way. The model keeps that test as written, so an id of 0 is refused as invalid. `AuthService.Valid()` keeps every session id at 1 or more, so the services never reach that case.
- **Update with a non-boolean `offer_received`.** `update_experience` does not type-check this value; it assigns it and leaves the column to judge it at commit. SQLAlchemy's Boolean column accepts exactly the values equal to `None`, `True` or `False`. Python counts 0 and 1 as equal to `False` and `True`, so a `Num01` value is stored as that boolean and the update answers 200, although `validate_experience_data` refuses the same value on create, because it is not a `bool` (validators.py:82). A `null` passes the bind check and then breaks the column's NOT NULL constraint. Any other value is refused by the bind check. In both cases the source catches the error, rolls back and answers 500. The model answers `Err(500, ...)` for `NonBool`, after the date check.

## Model

| member | source | states |
|---|---|---|
| `Text.Contains` | backend/services/experience_service.py:247-255 | the scan answers true exactly when the needle occurs at some position of the text |
| `Text.Lower` | backend/services/experience_service.py:244 | the result has the input's length and holds the ASCII lower-case form of each character at the same position; it is also the case folding of the `ILIKE` search at lines 251-253 |
| `Text.RemoveUnderscores` | backend/utils/validators.py:40 | `replace('_', '')`: the result is no longer than the input, contains no underscore, and contains the same set of non-underscore characters as the input (counts and order are stated by the three lemmas below) |
| `Text.RemoveUnderscoresCount` | backend/utils/validators.py:40 | the result holds each non-underscore character exactly as often as the input does, and no underscore |
| `Text.RemoveUnderscoresAppend` | backend/utils/validators.py:40 | removal distributes over concatenation, so with `Text.RemoveUnderscoresChar` the result is the input with every underscore dropped and the other characters kept in order |
| `Text.RemoveUnderscoresChar` | backend/utils/validators.py:40 | a single underscore is dropped and any other single character is kept |
| `Text.RemoveUnderscoresAlnum` | backend/utils/validators.py:40-41 | `replace('_','').isalnum()` holds exactly when the name has a non-underscore character and every character is a letter, digit or underscore |
| `Validators.ValidateRegistration` | backend/utils/validators.py:16-43 | a missing or empty name or password yields "Username and password are required" whatever else holds; each later message appears exactly when its check fails and all earlier ones pass; `Pass` exactly when 3 <= length <= 80, password length >= 6 and the character rule holds |
| `Validators.AllUnderscoresRejected` | backend/utils/validators.py:40-41 | a username made only of underscores is never accepted |
| `Validators.FirstMissing` | backend/utils/validators.py:56-65 | returns the index of the first required key the payload lacks: all keys before it are present, the key at it is absent |
| `Validators.AllPresentIffNoneMissing` | backend/utils/validators.py:56-65 | every one of the seven listed keys is present exactly when all seven payload entries are given |
| `Validators.ContentCheck` | backend/utils/validators.py:67-85 | with every key present, each of the five messages (difficulty, title, company, description, boolean offer) appears exactly when its rule fails and every earlier rule holds; `Pass` exactly when all hold |
| `Validators.ValidateExperienceData` | backend/utils/validators.py:46-85 | the first absent key in list order is named in "Missing required field: ..."; each content message (difficulty outside Easy/Medium/Hard, title or company shorter than 2, description shorter than 10, `offer_received` not a `bool`) appears exactly when all keys are present, its rule fails and every earlier rule holds; `Pass` exactly when all keys are present and every rule holds |
| `Validators.ExtractToken` | backend/utils/validators.py:88-106 | a token comes back exactly when the header is present and starts with "Bearer ", and the header is then "Bearer " followed by the token |
| `Validators.ExtractTokenRoundTrip` | backend/utils/validators.py:103-106 | `extract_token("Bearer " + t) == t` for every `t`, the empty one included |
| `ExperienceModel.TimelineDays` | backend/models/experience.py:67-76 | the application date plus the timeline is the decision date; the timeline is non-negative exactly when the decision is not before the application |
| `ExperienceModel.ToDict` | backend/models/experience.py:78-99 | the view carries each stored field unchanged plus the author's username and `user_id`, and its timeline spans exactly from its application date to its decision date |
| `ExperienceModel.UpdateFromDict` | backend/models/experience.py:101-122 | each present key overwrites its field, each absent key keeps the prior value, and `id`, `user_id`, `created_at` never change |
| `ExperienceModel.EmptyPatchIsIdentity` | backend/models/experience.py:101-122 | the patch with no keys leaves the record unchanged |
| `ExperienceModel.UpdateFromDictIdempotent` | backend/models/experience.py:101-122 | applying the same patch twice equals applying it once |
| `ExperienceModel.UpdateFromDictCompose` | backend/models/experience.py:101-122 | two successive patches equal one patch in which the later keys win |
| `ExperienceModel.TimelineFollowsUpdate` | backend/models/experience.py:93-95 | after a patch the rendered timeline is computed from the merged dates, not from stored ones |
| `UserModel.GeneratePasswordHash` | backend/models/user.py:46-54 | `generate_password_hash`, as used by registration at auth_service.py:44: the digest is made from exactly one password, that is, digests of different passwords differ |
| `UserModel.CheckPasswordHash` | backend/models/user.py:46-66 | a password check succeeds exactly for the password the digest was generated from |
| `UserModel.ToDict` | backend/models/user.py:68-79 | the public user view is `{id, username}` of the record |
| `ExperienceService.ApplyFilters` | backend/services/experience_service.py:226-257 | the result holds every row that satisfies the AND of the active filters, as often as the input holds it, and no other row |
| `ExperienceService.FilteredMembership` | backend/services/experience_service.py:226-257 | a record is in the filtered result exactly when it is an input row that matches every active filter |
| `ExperienceService.NoFiltersKeepAll` | backend/services/experience_service.py:240-247 | with no active filter (empty difficulty and search count as inactive) every row is kept |
| `ExperienceService.SortOrderOf` | backend/services/experience_service.py:272-288 | "date_asc" and "difficulty" select their own orders; every other value, "date_desc" or unknown, selects newest first |
| `ExperienceService.DifficultyRank` | backend/services/experience_service.py:276-286 | Easy ranks 1, Medium 2, Hard 3, any other value 4, and no other value shares those ranks |
| `ExperienceService.InsertSorted` | backend/services/experience_service.py:272-290 | inserting into a list ordered on the key keeps it ordered, and the new head is either the inserted record or the old head |
| `ExperienceService.InsertPerm` | backend/services/experience_service.py:272-290 | inserting adds exactly that one record and loses none |
| `ExperienceService.SortedOnPairwise` | backend/services/experience_service.py:272-290 | order between neighbours gives order between any two positions |
| `ExperienceService.SortRows` | backend/services/experience_service.py:272-290 | the result is a permutation of the input, non-decreasing in the chosen key |
| `ExperienceService.ApplySorting` | backend/services/experience_service.py:260-290 | the result is a permutation of the input; with "difficulty" the ranks never decrease, with "date_asc" `created_at` never decreases, with anything else `created_at` never increases |
| `ExperienceService.UnknownSortIsDateDesc` | backend/services/experience_service.py:287-288 | an unrecognised sort key gives exactly the "date_desc" order |
| `ExperienceService.DifficultySortGroups` | backend/services/experience_service.py:276-286 | after the difficulty sort a record of lower rank always precedes one of higher rank |
| `ExperienceService.PageCount` | backend/services/experience_service.py:59-67 | `pages` is the least count of pages of `per_page` items that holds all `total` results, 0 for no results |
| `ExperienceService.PageItems` | backend/services/experience_service.py:57-60 | the page holds the records at positions `(page-1)*per_page` up to `page*per_page` in order, clipped at the end, and is empty past the end |
| `ExperienceService.GetExperiences` | backend/services/experience_service.py:19-67 | `page < 1` gives 400 "Page must be >= 1"; otherwise `per_page > 100` gives 400; a missing `per_page` means 10; on success `total` is the filtered count, `pages` its ceiling quotient, `has_prev == page > 1`, `has_next == page < pages`, and the items are the page slice of the sorted filtered rows |
| `ExperienceService.ListedItemsMatch` | backend/services/experience_service.py:45-60 | every listed record is a table row satisfying every active filter |
| `ExperienceService.SecondPageOfTwelve` | backend/services/experience_service.py:57-67 | twelve unfiltered rows, page 2 of 5: five items, total 12, three pages, `has_next` and `has_prev` |
| `ExperienceService.FirstPageOfEmptyTable` | backend/services/experience_service.py:57-67 | page 1 of an empty table: no items, total 0, pages 0, no next and no previous page |
| `ExperienceStore.PreparePatch` | backend/services/experience_service.py:163-175 | an update body fails exactly when a present difficulty is outside the enum (that message first) or a present date does not parse ("Invalid date format. Use YYYY-MM-DD"); otherwise its present keys become a patch with the parsed dates, a boolean or 0/1 `offer_received` becomes that boolean, and exactly a `NonBool` value is flagged for the commit's 500 |
| `ExperienceStore.NumericOfferRefusedThenStored` | backend/utils/validators.py:81-83 | an `offer_received` of 0 or 1 that create refuses with "Offer received must be a boolean" is stored on update as the boolean it equals, with no 500 |
| `ExperienceStore.OneDateAgainstStoredOther` | backend/services/experience_service.py:178-182 | a body that only moves the application date past the stored decision date passes its own checks yet yields a merged record that breaks the date rule |
| `ExperienceStore.ExperienceTable.GetExperienceById` | backend/services/experience_service.py:72-87 | 200 with the stored record exactly when the id is in the table, otherwise 404 "Experience not found" |
| `ExperienceStore.ExperienceTable.CreateExperience` | backend/services/experience_service.py:90-136 | an invalid payload gives 400 with the validator's message, an unparseable date 400 "Invalid date format", a decision before the application 400; each leaves the table unchanged; success exactly otherwise, inserting one new record with the payload's fields, the parsed dates, author `user_id` and time `now`, and answering 201 |
| `ExperienceStore.ExperienceTable.UpdateExperience` | backend/services/experience_service.py:142-190 | unknown id 404, then a caller that is not the author 403, then the body's 400s, then 400 when the merged record's decision precedes its application; every failure leaves the table unchanged; success stores and returns the merged record with 200 |
| `ExperienceStore.ExperienceTable.DeleteExperience` | backend/services/experience_service.py:196-220 | unknown id 404, then a caller that is not the author 403, both leaving the table unchanged; otherwise exactly that id is removed and 200 is returned |
| `AuthService.LookupSession` | backend/services/auth_service.py:152-163 | the session map's entry for the token, or none when the token is unmapped |
| `AuthService.AuthService.UsernameTaken` | backend/services/auth_service.py:39 | `User.query.filter_by(username=...).first()` finds a row: the username is among the names of the stored users |
| `AuthService.AuthService.CreateSession` | backend/services/auth_service.py:136-149 | the fresh token is mapped to the user id, every other session is kept, and the session count grows by one |
| `AuthService.AuthService.RegisterUser` | backend/services/auth_service.py:22-53 | invalid input gives 400 with the validator's message; a taken username gives 409 whatever the password, once the input is valid; both change nothing; otherwise one user and one session for the new id are added, the answer is 201 with `{id, username}` and the token, and that token then resolves to the new user |
| `AuthService.AuthService.LoginUser` | backend/services/auth_service.py:59-83 | a missing or empty field gives 400; an unknown username and a wrong password both give 401 "Invalid username or password"; a matching user gets a new session while every existing session is kept, and 200 |
| `AuthService.AuthService.LogoutUser` | backend/services/auth_service.py:86-97 | exactly the given token is removed (nothing if it is absent) and the answer is always 200 "Logout successful" |
| `AuthService.LogoutIdempotent` | backend/services/auth_service.py:96 | removing a token twice equals removing it once |
| `AuthService.LogoutKeepsOthers` | backend/services/auth_service.py:96 | removing a token leaves every other token's lookup unchanged |
| `AuthService.AuthService.GetCurrentUser` | backend/services/auth_service.py:100-120 | an unmapped (or zero) user id gives 401 "Invalid or expired session", an id missing from the user table 404 "User not found", otherwise 200 with that user's `{id, username}` |
| `AuthService.AuthService.VerifyToken` | backend/services/auth_service.py:123-133 | exactly the session map's entry for the token, or none; reads the state and changes nothing |
| `AuthService.AuthService.ActiveSessionsCount` | backend/services/auth_service.py:166-173 | the number of active sessions is the number of tokens in the map |
| `Decorators.RequireAuth` | backend/utils/decorators.py:31-48 | an absent or empty token gives 401 "Unauthorized - Missing token"; a token that is unmapped (or maps to a falsy id) gives 401 "Unauthorized - Invalid or expired token"; the handler is invoked exactly when the header is "Bearer t" with `t` mapped, and then with `user_id == sessions[t]`; the session map is only read |
| `Decorators.PrefixedTokenUnique` | backend/utils/validators.py:103-106 | a header determines the token after its "Bearer " prefix uniquely |

`Scenario.RegisterThenAuthenticate` and `Scenario.CreateThenMoveApplicationDate` are verified walks through the services; they state nothing of their own and so are not in the table. The first registers `alice`/`secret1` and gets 201. A second registration with another password gets 409. The guard then admits `Bearer T` as user 1, and logging out twice answers 200 both times. The second walk creates an experience from 2025-01-01 to 2025-01-10, with a 9-day timeline. An update moving only the application date to 2025-01-15 then gets 400 and leaves the stored record as it was, and a delete by another user gets 403.

## Left out

- Database failures: rollback and the 500 answers of register, create, update and delete. The one 500 modelled is the commit refusing a non-boolean `offer_received` in an update (see above), and its exception text is abstracted to the prefix "Database error: ".
- Concurrency: concurrent access to the class-level session dictionary, and transaction isolation. The model is sequential.
- HTTP plumbing: the route files (`jsonify`, request parsing, "No data provided"), the app factory, configuration loading and the sample-data scripts.
- The route's `per_page` coercion. `per_page < 1`, which the source passes unchecked to `paginate`, is a precondition of `ExperienceService.GetExperiences`.
- Database scan order: the order of rows with equal sort keys is not promised. The sort in the model is an insertion sort, but none of its contracts fixes a secondary order.
- SQL `ILIKE` wildcards: `%` and `_` inside a search term are wildcards in the source. The model searches for the term literally.
- Case folding and character classes are ASCII only. Python's `str.lower` (the `offer_received` filter) and `str.isalnum` (the username rule) also fold and classify non-ASCII characters. The search's `ILIKE` on the configured SQLite database (config.py:16) is rendered as `lower(x) LIKE lower(y)`, and SQLite's `lower` and `LIKE` fold ASCII only, as the model does. Non-ASCII folding is lost only on engines such as PostgreSQL.
- JSON values of other types in the text and date entries. Payload text and date entries are strings in the model. A `null` or non-string `difficulty` is not a type error in the source: it is not in the list of difficulties, so it gets the difficulty message (validators.py:68, experience_service.py:165). The model gives the same answer to any string outside the list. On create, a `null`, number or boolean title, company or description makes `len()` raise, an uncaught 500. A JSON array or object has a `len()`: validators.py:72-79 judge it by its element count, so it gets the length message or passes. If it passes, writing the record fails at experience_service.py:129-139, which is the caught 500. A non-string date makes `fromisoformat` raise `TypeError`, which is not caught, an uncaught 500. On update, `len()` is never called. A `null` text entry is assigned and then refused by the NOT NULL constraint at commit, which is the caught 500. A non-string date raises the same uncaught `TypeError`. None of these is modelled.
- JSON values of other types in registration and login. `username` and `password` are strings in the model. In the source, a number or boolean `username` that passes the truthiness test makes `len()` raise at validators.py:30, an uncaught 500. Login passes such values on to the database query and the password check. None of this is modelled.
- `author_username`: the service answers carry the stored `Experience` record. `ExperienceModel.ToDict` renders one record given its author's username, which the source reads through the `author` relationship.
- The ISO formatting of dates and timestamps in `to_dict` is left out.
- The list query does not read the store class. `ExperienceService.GetExperiences` takes the table's rows as a sequence.
- Account deletion and its cascade to experiences: no such operation exists in the code.
- Ids: SQLite may reuse the id of a deleted last row. The model's counter never reuses an id.
- UserModel.GeneratePasswordHash: deterministic in the model. werkzeug salts each digest at random, so two hashes of one password differ. The model keeps only what the service relies on: a digest checks against exactly the password it was made from.
- UserModel.CheckPasswordHash: idealised as collision-free. With werkzeug, a different password matching a digest is only negligibly likely, not impossible.
