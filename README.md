# go-serverless users: a Dafny model of the create-user and get-user handlers

The repository implements two AWS Lambda handlers behind an API. `Handler`
(users/create.go) decodes a JSON body into a `UserInput` and archives the raw
body in S3 under `<lastName>,<firstName>.json`. It then draws 12 random bytes
and turns them into an identifier `u_` + (at most 16 base-58 characters). It
writes a `models.User` record under that identifier to DynamoDB and answers
201 with the identifier. `GetHandler` (users/get.go) looks the `id` path
parameter up in the same table and answers 200 with the record. Both use
`RespondWithError` (common/utils.go) for their 400 exits.

The model is split into modules that follow the source:

- `Models`: `models.User` as a datatype of eight strings, and its zero value.
- `Common`: Go errors, the API Gateway request and response shapes, and
  `RespondWithError`.
- `Stores`: the two backends as maps. S3 maps (bucket, key) to a body.
  DynamoDB maps (table, `Id`) to a `User`. `Snapshot` is their value, and the
  class `Backends` holds them as fields that `PutObject` and `PutItem` update
  in place.
- `Create`: `GenerateId`, the archive key, the record, and the workflow. The
  workflow appears twice: `HandlerEffect` is the value-level specification,
  and `Handler` is the step-by-step method with early returns, proved equal
  to it.
- `Get`: the lookup and `GetHandler`, as functions of a snapshot. The handler
  never writes to either store.
- `Lifecycle`: any sequence of invocations of both handlers against the same
  backends, and the round trip from create to get.

Every foreign call is a parameter. `base58.Encode` is an arbitrary total
function `seq<Byte> -> string`. Each backend call and each attribute-map
conversion becomes an `Option<Error>` outcome, supplied in the order the
handler makes those calls. `json.Unmarshal` of the create body is a
`Result<UserInput>` outcome. The get handler's `json.Marshal` is a plain
flag, because its error is never looked at. The decoded input is an
independent input, not derived from the request body, so the model does not
tie the archive key to the names inside the archived body. The random bytes are an input. The two clock readings are two
independent strings. The bucket and table names (the environment variables
`BUCKET_NAME` and `USERS_TABLE_NAME`) are a `Config`. A response body is the
response struct it encodes, not its JSON text.

Behaviour kept as the code has it:

- A failed archive or DynamoDB write answers 400, not a server error.
- A failed `json.Marshal` of the create response answers 404.
- `CreatedAt` and `UpdatedAt` come from two separate clock reads, so the
  model does not assume they are equal.
- An empty lookup answers 200 with a zero-valued user.
- `GetHandler` drops the error of `json.Marshal` (users/get.go:86-90). When
  that call fails, the reply is still 200 with a nil error, and the body is
  empty.

## Model

| member | source | states |
|---|---|---|
| `Common.StatusOnly` | common/utils.go:28 | the bare literal `{StatusCode: n}`: status n, not base64, empty body, no headers (also users/create.go:144 and users/get.go:82) |
| `Common.ReplyHeaders` | users/get.go:98-101 | exactly two headers, `Content-Type: application/json` and `X-MyCompany-Func-Reply` with the handler's name (the same literal as users/create.go:154-157) |
| `Common.RespondWithError` | common/utils.go:27-29 | status 400, the error passed back unchanged, empty body, no headers, not base64 |
| `Create.GenerateId` | users/create.go:46-52 | result starts with `u_` and is at most 18 long; what follows the prefix is a prefix of the encoding, and its length is the smaller of 16 and the encoding's length; an encoding of at most 16 characters is kept whole, a longer one is cut to its first 16 |
| `Create.GenerateIdDeterministic` | users/create.go:46-52 | equal bytes give equal identifiers |
| `Create.GenerateIdAlphabet` | users/create.go:47-51 | if the encoder emits only base-58 characters, every character after the prefix is one |
| `Create.S3Key` | users/create.go:41 | the archive key reads back as (lastName, firstName) whenever the last name has no comma |
| `Create.S3KeyNames` | users/create.go:41 | splitting `<lastName>,<firstName>.json` at its first comma recovers both names when lastName has no comma |
| `Create.S3KeyCollision` | users/create.go:41 | two different inputs (`a` / `b,c` and `a,b` / `c`) share the archive key `a,b,c.json` |
| `Create.ArchiveKey` | users/create.go:40-41 | the object goes to the configured bucket, under a key whose names read back when the last name has no comma |
| `Create.NewRecord` | users/create.go:57-66 | the record's address, email, first name, last name and phone are the input's; its `Id` is the generated id; the timestamps are the two clock readings |
| `Create.PersistErr` | users/create.go:68-81 | `WriteToDynamoDB` fails exactly when MarshalMap or PutItem fails, with MarshalMap's error taking precedence |
| `Create.HandlerEffect` | users/create.go:87-161 | status is one of 201, 400, 404; the error is nil exactly when the status is 201; an error reply has empty body and headers; 201 carries the id, the fixed message and both headers; the archive is written at most once and only at this call's key; the record is written under the generated id exactly when decode, S3, rand.Read, MarshalMap and PutItem all succeed, and the table is unchanged otherwise; the table is written only after the archive; a non-400 reply means both writes happened |
| `Create.DecodeFailureWritesNothing` | users/create.go:93-98 | a decode failure answers `RespondWithError` with that error and changes neither store |
| `Create.ArchiveFailureWritesNothing` | users/create.go:100-105 | an S3 failure answers 400 with that error; the table is never written |
| `Create.EntropyFailureKeepsArchive` | users/create.go:113-118 | a random-source failure answers 400; the body is archived and the table is unchanged |
| `Create.PersistFailureKeepsArchive` | users/create.go:123-127 | a MarshalMap or PutItem failure answers 400; the archive is not rolled back and the table is unchanged |
| `Create.ReplyFailureAfterWrites` | users/create.go:138-145 | a failed response marshal answers bare status 404 with the error, after both stores were written |
| `Create.CreateSucceeds` | users/create.go:150-160 | all steps succeed: 201, not base64, both headers, body with the id and "User created successfully!", nil error, body archived, record stored under its id |
| `Create.ReadRandom` | users/create.go:113-114 | on success the 12-byte buffer is filled in place with the source's bytes; on failure its contents are unconstrained; the error is the source's |
| `Create.WriteToS3` | users/create.go:36-44 | the raw body is stored unchanged under (bucket, `<lastName>,<firstName>.json`) unless PutObject fails; the table is untouched |
| `Create.WriteToDynamoDB` | users/create.go:54-84 | the error comes from MarshalMap, else from PutItem; without one the assembled record is stored under (table, id); S3 is untouched |
| `Create.Handler` | users/create.go:87-161 | the imperative handler leaves the backends and returns the reply exactly as `HandlerEffect` describes |
| `Stores.Backends.PutObject` | users/create.go:43 | stores the body under the key unless the call fails; nothing else changes |
| `Stores.Backends.PutItem` | users/create.go:73-78 | an unconditional write of the item under its key unless the call fails; nothing else changes |
| `Get.PathId` | users/get.go:59 | the `id` path parameter, or "" when it is absent |
| `Get.LookupKey` | users/get.go:31-43 | the GetItem key is the query's `Id` in the configured users table |
| `Get.Unmarshal` | users/get.go:78-79 | unmarshalling a stored item gives that record; an empty item leaves the zero-initialised user with every field empty |
| `Get.GetUserFromDynamoDb` | users/get.go:27-51 | an error exactly when the key marshal or GetItem fails, the key error first; otherwise the item under (table, id), absent when none is stored |
| `Get.GetHandler` | users/get.go:53-105 | status is one of 200, 400, 500; it is 400 exactly when the lookup fails; after a successful lookup it is 500 exactly when unmarshalling fails, so otherwise 200; the error is nil exactly when the status is 200; 200 carries both headers (`ReplyHeaders`), is not base64, and its body is the stored user (the zero user when there is none), or empty only when the response marshal fails |
| `Get.LookupErrorForwarded` | users/get.go:63-67 | a lookup error answers `RespondWithError` with that error |
| `Get.UnmarshalErrorIs500` | users/get.go:78-83 | an unmarshal failure answers bare status 500 and returns the error |
| `Get.EmptyResultIsZeroUser` | users/get.go:74-79 | nothing stored under the id: status 200, nil error, a user all of whose fields are empty |
| `Get.StoredRecordFound` | users/get.go:74-104 | a record already stored under the id, with every call succeeding, answers 200, nil error, both headers and that record |
| `Get.ReplyMarshalFailureIgnored` | users/get.go:85-104 | a failed response marshal still answers 200 with nil error and an empty body |
| `Get.ReplyDependsOnlyOnId` | users/get.go:31-44 | two requests with the same `id` parameter, against tables that agree at that id, get the same reply |
| `Lifecycle.Serve` | users/create.go:36-84 | over any sequence of invocations no S3 object and no record is ever removed, and every record stays stored under its own `Id`, which has the generated shape |
| `Lifecycle.ReadOnlyTrace` | users/get.go:27-51 | a sequence of get invocations leaves both stores exactly as they were; this holds by construction, since `GetHandler` returns no snapshot |
| `Lifecycle.RecordSurvives` | users/create.go:73-78 | a stored record is unchanged by every later invocation, except a create that reaches PutItem under the same identifier; creates that stop earlier never disturb it |
| `Lifecycle.CreateThenGet` | users/get.go:53-105 | after a 201 create, a get of the returned id answers 200 with the record just written |
| `Lifecycle.CreatedRecordRetrievable` | users/create.go:73-78 | the round trip also holds with any invocations in between, as long as none of them puts a record under the same identifier |

## Left out

- AWS SDK calls (`session.New`, `PutObject`, `PutItem`, `GetItem`) are network I/O. They are replaced by maps and ok/fail outcomes. A failed call is assumed to write nothing.
- `json.Unmarshal`, `json.Marshal`, `json.HTMLEscape`, `dynamodbattribute.MarshalMap` and `UnmarshalMap` are foreign encodings. They are modelled as possibly-failing conversions whose successful result is the structured value itself, not JSON text or attribute maps.
- `base58.Encode` is not part of this model. Its alphabet is only an assumption of `Create.GenerateIdAlphabet`. Go's `len` and slicing count bytes; the model counts characters, which agree for the ASCII output of a base-58 encoder.
- `crypto/rand.Read` is a foreign call. Its outcome is an input: an error, or the 12 bytes.
- `time.Now`, `time.Since` and the elapsed durations are clock reads. The timestamps are inputs, and the durations feed only logging.
- `os.Getenv` is configuration. `BUCKET_NAME` and `USERS_TABLE_NAME` become a `Config`, and `PRETTY_LOGS` only affects logging.
- `GetLogger` and every zerolog call are global logger mutation and output only. They have no effect on replies or stores.
- `main` and `lambda.Start` are runtime bootstrap.
- Lifecycle.CreateThenGet and Lifecycle.CreatedRecordRetrievable assume a strongly consistent `GetItem`: the table returns the latest write. The code does not set `ConsistentRead` (users/get.go:40-43), so DynamoDB serves an eventually consistent read. A get soon after a create can then find no item and answer 200 with the zero user.
- Create.ReadRandom assumes nothing about the buffer when `rand.Read` fails; the handler returns at once in that case (users/create.go:115-117).
- Concurrent invocations are not modelled. `Lifecycle` runs invocations one after another.
- The request's method and path are only read for logging, so no member reads them.
