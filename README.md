# KYC record cache — a Dafny model

The server of the KYC DApp keeps an off-chain cache of customer KYC submissions in one
table, `kyc_records`, keyed by `document_hash`, beside the blockchain contract that holds
the authoritative copy. It answers three requests:

- `POST /api/kyc` (register-or-fetch). It checks that `hash` and `customerData` are
  given, looks the hash up, and answers the stored row with `fromCache: true` when one
  exists. Otherwise it inserts the four identity columns under the hash, reads the row
  back and answers it with `fromCache: false`.
- `POST /api/kyc/verify`. It checks that `hash` and `bankName` are given. It then
  updates the row of that hash: `bank_verified = 1`, `verified_by = bankName` and
  `verified_at = now`. It answers 404 when no row matched, and otherwise reads the row
  back and answers it.
- `GET /api/kyc/:hash`. It answers the row, or 404.

The model has three modules:

- `KycRecords` (`records.dfy`) holds the row and the table as values. It states the
  effect of each handler as a function of the table before the call, with
  `Register`, `Verify` and `Lookup`. Their contracts state the handler's promises. It
  also has lemmas about two calls in a row.
- `KycHistory` (`history.dfy`) covers any sequence of requests served one after
  another. Its lemmas are proved by induction over the sequence: rows are never
  deleted, identity columns never change, a verified row stays verified, the
  verification columns stay in lockstep, and the first writer wins.
- `KycServer` (`server.dfy`) is the server as a class with a `table` field. Its
  handlers work step by step, as the source does: select, branch on the rows found,
  insert or update, count the affected rows, read the row back. Each handler is proved
  to leave the table and give the answer that the matching `KycRecords` function
  specifies.

Modelling decisions:

- Request-body fields are `Option<string>`. `None` stands for a missing or `null`
  field. A field is accepted exactly when it is JavaScript-truthy: present and not `""`.
  A falsy `customerData` is `None`. The server does not look inside `customerData`, so a
  sub-field it lacks is stored as NULL (`None`) rather than rejected.
- The time `new Date()` returns is a parameter of `Verify` (`Timestamp`).
- The INSERT writes only the key and the identity columns. The table schema is not
  part of this model, so verification columns are assumed to start as "not verified,
  no verifier, no time" (`KycRecords.Inserted`).
- The UPDATE's `affectedRows` is taken as the number of rows matched (one or zero),
  so 404 is answered exactly when the hash is absent.
- Verification follows the code: it OVERWRITES the single `verified_by` value
  (server/index.js:68-72). A second bank replaces the first (`VerifyOverwrites`), and
  a repeated verification by the same bank only refreshes `verified_at`
  (`VerifyAgain`). The code keeps no list of verifiers: it has no append-only,
  duplicate-free record of every bank that verified a row.
- Registration does not check the identity sub-fields. An empty or missing name,
  date of birth, address or phone is stored as given.
- The server starts on whatever rows `kyc_records` already holds
  (`KycServer.KycServer.constructor` takes them as a parameter). Those rows are
  assumed to be stored under their own hash, with the three verification columns in
  lockstep.

## Model

| member | source | states |
|---|---|---|
| KycRecords.RegisterStatus | server/index.js:26-27 | POST /api/kyc answers 400 exactly when hash or customerData is missing, and 200 otherwise, whether the row was found or created |
| KycRecords.VerifyStatus | server/index.js:61-82 | POST /api/kyc/verify answers 400 exactly when hash or bankName is missing, 404 exactly when the input is accepted and the hash is unknown, 200 exactly when the input is accepted and the hash is known |
| KycRecords.LookupStatus | server/index.js:100-103 | GET /api/kyc/:hash answers 404 exactly when the hash is unknown and 200 exactly when it is known |
| KycRecords.Inserted | server/index.js:38-44 | the inserted row is keyed by the hash, holds exactly the supplied name/dob/address/phone, and starts unverified with no verifier or time (assumed column defaults) |
| KycRecords.Stamped | server/index.js:67-73 | a verified row keeps its key and identity columns; it has bank_verified set, verified_by equal to the bank and verified_at equal to the supplied time |
| KycRecords.Register | server/index.js:24-56 | 400 with 'hash & customerData required' and no change exactly when hash or customerData is missing; never 404; no existing row is overwritten or removed; fromCache holds exactly when the hash was present, and then the stored row is returned and the table is unchanged; otherwise exactly one key is added, holding the supplied fields, unverified, and that row is returned |
| KycRecords.Verify | server/index.js:59-89 | 400 with 'hash & bankName required' exactly when hash or bankName is missing; 404 with 'No record found for that hash' exactly when the hash is unknown; the key set never changes; a failed call changes nothing; every other row keeps every column; on success the named row keeps its identity columns, is verified by exactly bankName at the supplied time, and is returned with success |
| KycRecords.Lookup | server/index.js:92-110 | answers the stored row exactly when the hash is present, and otherwise 404 with 'No record found' |
| KycRecords.RegisterPreservesValid | server/index.js:24-56 | registration keeps every row stored under its own hash and its verification columns in lockstep |
| KycRecords.VerifyPreservesValid | server/index.js:59-89 | verification keeps every row stored under its own hash and its verification columns in lockstep |
| KycRecords.RegisterTwice | server/index.js:31-49 | registering a new hash twice gives fromCache false then true; both calls return the same row, which holds the first caller's fields, and the second call changes nothing |
| KycRecords.VerifyOverwrites | server/index.js:67-73 | after banks X then Y verify a row, verified_by names only Y and verified_at is Y's time; identity columns are untouched |
| KycRecords.VerifyAgain | server/index.js:67-73 | verifying twice with the same bank leaves the same table as a single verification at the later time |
| KycHistory.Apply | server/index.js:24-110 | no request removes a key or changes the identity columns of an existing row |
| KycHistory.RunKeepsKeys | server/index.js:24-110 | over any sequence of requests, every key present at the start is still present |
| KycHistory.RunKeepsIdentity | server/index.js:24-110 | over any sequence of requests, the identity columns of an existing row never change |
| KycHistory.RunKeepsVerified | server/index.js:67-73 | over any sequence of requests, a verified row stays verified (no un-verify) |
| KycHistory.RunPreservesValid | server/index.js:24-110 | over any sequence of requests, rows stay keyed by their own hash with lockstep verification columns |
| KycHistory.LookupsChangeNothing | server/index.js:92-110 | any sequence of lookups leaves the table unchanged; this follows directly from a lookup reading the table only |
| KycHistory.FirstWriterWins | server/index.js:31-49 | after a hash is registered with fields A, whatever requests follow, a later registration with fields B is answered from the cache with A and changes nothing, and a lookup returns A |
| KycHistory.UnknownVerifyCreatesNothing | server/index.js:67-77 | verifying a hash that is still unknown after any sequence of requests answers 404 and creates no row; the hash was never in the table |
| KycServer.KycServer.constructor | server/index.js:12-21 | the server starts on the rows the existing table already holds, unchanged, and requires only that they are keyed by their own hash with lockstep verification columns |
| KycServer.KycServer.Select | server/index.js:31-34 | a select by hash yields at most one row, exactly one when the hash is present, and that row is the stored one |
| KycServer.KycServer.Register | server/index.js:24-56 | the select, insert and re-read handler leaves the table and gives the answer that KycRecords.Register specifies, and keeps the table valid |
| KycServer.KycServer.Verify | server/index.js:59-89 | the update, affected-rows check and re-read handler leaves the table and gives the answer that KycRecords.Verify specifies, and keeps the table valid |
| KycServer.KycServer.Get | server/index.js:92-110 | changes nothing; answers as KycRecords.Lookup does, and a returned row is keyed by the hash with lockstep verification columns |

## Left out

- The 500 "Database error" answers (server/index.js:50-52, 83-85, 104-106). They arise only from failures of the MySQL driver, which is not part of this model.
- The MySQL pool, acquiring and releasing connections, and the SQL text. The table is an abstract map, and its key comparison is exact string equality; MySQL collation rules (case or trailing-space insensitivity) are not modelled.
- Concurrent callers. The handlers run one at a time, so the window between the SELECT and the INSERT (server/index.js:31-44), and the duplicate-key failure it can cause, are not modelled.
- A `hash` or `bankName` sent as a non-string JSON value. Body fields are strings or absent.
- The value of `new Date()`. It is an opaque parameter.
- KycServer.KycServer.constructor: it requires the rows present at start-up to be stored under their own hash, with the three verification columns in lockstep. Rows written by something other than these handlers that break this are not modelled, because the table schema and its other writers are not part of this model.
- The column types of the identity columns. The schema is not part of this model, so name, dob, address and phone are assumed to be stored and read back exactly as supplied. A DATE-typed `dob`, or a column narrower than the value, which would change the value or fail the INSERT, is not modelled.
- Columns of the table other than the key, the four identity columns and the three verification columns (the schema is not part of this model).
- Express, cors and body-parser setup, environment configuration, `app.listen` and `console` logging (server/index.js:2-21, 112-115).
- The client pages and App.js. They are UI and web3 calls to the blockchain contract, which is not part of this model.
