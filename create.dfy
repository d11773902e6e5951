/**
 * The create-user handler (users/create.go): decode the body, archive it to
 * S3, draw 12 random bytes, derive the identifier, write the record to
 * DynamoDB, answer with the identifier. Every step either aborts or advances.
 */
module Create {
  import opened Models
  import opened Common
  import opened Stores

  type Byte = bv8

  /** `make([]byte, 12)`: the number of random bytes behind an identifier. */
  const RandomLength := 12

  type RandomBytes = s: seq<Byte> | |s| == RandomLength witness [0, 0, 0, 0, 0, 0, 0, 0, 0, 0, 0, 0]

  /** `base58.Encode`, whose definition is not part of this model. */
  type Encoder = seq<Byte> -> string

  const IdPrefix := "u_"
  const MaxEncodedLength := 16
  const MaxIdLength := |IdPrefix| + MaxEncodedLength

  /** The Bitcoin base-58 alphabet, for stating what an encoder is assumed to emit. */
  const Base58Alphabet := "123456789ABCDEFGHJKLMNPQRSTUVWXYZabcdefghijkmnopqrstuvwxyz"

  const CreatedMessage := "User created successfully!"
  const CreateFuncReply := "users-create-handler"

  /** The decoded request body (`UserInput`). */
  datatype UserInput = UserInput(
    address: string,
    email: string,
    firstName: string,
    lastName: string,
    phoneNumber: string)

  /** What `crypto/rand` would deliver: an error, or 12 bytes. */
  datatype Entropy = Entropy(failure: Option<Error>, bytes: RandomBytes)

  /**
   * The outcome of every foreign call the handler makes, in the order it
   * makes them: `json.Unmarshal`, `PutObject`, `rand.Read`, the two clock
   * reads for the timestamps, `MarshalMap`, `PutItem`, `json.Marshal`.
   */
  datatype CreateOutcomes = CreateOutcomes(
    decoded: Result<UserInput>,
    s3Err: Option<Error>,
    entropy: Entropy,
    createdAt: string,
    updatedAt: string,
    marshalErr: Option<Error>,
    putErr: Option<Error>,
    replyErr: Option<Error>)

  /** The backends after one invocation, and what it answered. */
  datatype Step = Step(after: Snapshot, reply: Reply)

  function Min(a: int, b: int): int {
    if a <= b then a else b
  }

  /** An identifier as `GenerateId` shapes them: `u_` and at most 16 more characters. */
  predicate IsGeneratedId(id: string) {
    IdPrefix <= id && |id| <= MaxIdLength
  }

  // ---------------------------------------------------------------- identifiers

  /**
   * `GenerateId`: the base-58 encoding of the bytes, cut to its first 16
   * characters, behind the prefix `u_`.
   */
  function GenerateId(encode: Encoder, randBytes: seq<Byte>): (userId: string)
    ensures IsGeneratedId(userId)
    ensures userId[|IdPrefix|..] <= encode(randBytes)
    ensures |userId| == |IdPrefix| + Min(|encode(randBytes)|, MaxEncodedLength)
    ensures |encode(randBytes)| <= MaxEncodedLength ==> userId == IdPrefix + encode(randBytes)
    ensures |encode(randBytes)| > MaxEncodedLength ==>
              userId == IdPrefix + encode(randBytes)[..MaxEncodedLength]
  {
    var encoded := encode(randBytes);
    var kept := if |encoded| > MaxEncodedLength then encoded[..MaxEncodedLength] else encoded;
    IdPrefix + kept
  }

  /** Randomness enters only through the bytes: the same bytes give the same identifier. */
  lemma GenerateIdDeterministic(encode: Encoder, a: seq<Byte>, b: seq<Byte>)
    requires a == b
    ensures GenerateId(encode, a) == GenerateId(encode, b)
  {
  }

  /** If the encoder keeps to the base-58 alphabet, so does everything after the prefix. */
  lemma GenerateIdAlphabet(encode: Encoder, randBytes: seq<Byte>)
    requires forall i :: 0 <= i < |encode(randBytes)| ==> encode(randBytes)[i] in Base58Alphabet
    ensures forall i :: |IdPrefix| <= i < |GenerateId(encode, randBytes)| ==>
              GenerateId(encode, randBytes)[i] in Base58Alphabet
  {
  }

  // ---------------------------------------------------------------- the archive key

  /** The first position of `c` in `s`, or `|s|` when there is none. */
  function IndexOf(s: string, c: char): (i: nat)
    ensures i <= |s|
    ensures i < |s| ==> s[i] == c
    ensures forall j :: 0 <= j < i ==> s[j] != c
  {
    if s == [] then 0
    else if s[0] == c then 0
    else 1 + IndexOf(s[1..], c)
  }

  /**
   * Reads `(lastName, firstName)` back from an archive key, splitting at the
   * first comma; `None` when the key is not of the form `<a>,<b>.json`.
   */
  function ParseS3Key(key: string): Option<(string, string)> {
    if |key| < 5 || key[|key| - 5..] != ".json" then None
    else
      var stem := key[..|key| - 5];
      var comma := IndexOf(stem, ',');
      if comma == |stem| then None else Some((stem[..comma], stem[comma + 1..]))
  }

  /**
   * The S3 key of the archived body (`WriteToS3`): last name, a comma, first
   * name, `.json`. The names can be read back whenever the last name has no
   * comma of its own.
   */
  function S3Key(user: UserInput): (key: string)
    ensures ',' !in user.lastName ==> ParseS3Key(key) == Some((user.lastName, user.firstName))
  {
    var key := user.lastName + "," + user.firstName + ".json";
    if ',' !in user.lastName then
      S3KeyNames(user.lastName, user.firstName, key);
      key
    else key
  }

  lemma S3KeyNames(lastName: string, firstName: string, key: string)
    requires ',' !in lastName
    requires key == lastName + "," + firstName + ".json"
    ensures ParseS3Key(key) == Some((lastName, firstName))
  {
    var stem := key[..|key| - 5];
    assert key[|key| - 5..] == ".json";
    assert stem == lastName + "," + firstName;
    assert stem[|lastName|] == ',';
    assert forall j :: 0 <= j < |lastName| ==> stem[j] == lastName[j];
    assert IndexOf(stem, ',') == |lastName|;
    assert stem[..|lastName|] == lastName;
    assert stem[|lastName| + 1..] == firstName;
  }

  /** Two different users can share one archive key, so one archive overwrites the other. */
  lemma S3KeyCollision()
    ensures var a := UserInput("", "", "b,c", "a", "");
            var b := UserInput("", "", "c", "a,b", "");
            a != b && S3Key(a) == S3Key(b)
  {
  }

  /** Bucket and key of `PutObjectInput`: the configured bucket, the names of the user. */
  function ArchiveKey(cfg: Config, user: UserInput): (k: ObjectKey)
    ensures k.bucket == cfg.bucketName
    ensures ',' !in user.lastName ==> ParseS3Key(k.key) == Some((user.lastName, user.firstName))
  {
    ObjectKey(cfg.bucketName, S3Key(user))
  }

  // ---------------------------------------------------------------- the record

  /** The fields a record keeps from the request body. */
  function InputOf(u: User): UserInput {
    UserInput(u.address, u.email, u.firstName, u.lastName, u.phoneNumber)
  }

  /**
   * The record `WriteToDynamoDB` assembles: the request's fields unchanged,
   * the generated identifier, and two clock readings.
   */
  function NewRecord(input: UserInput, userId: string, createdAt: string, updatedAt: string): (u: User)
    ensures InputOf(u) == input
    ensures u.id == userId && u.createdAt == createdAt && u.updatedAt == updatedAt
  {
    User(input.address, createdAt, input.email, input.firstName, userId,
         input.lastName, input.phoneNumber, updatedAt)
  }

  /** Where the record of this invocation goes: its identifier in the users table. */
  function RecordKey(cfg: Config, encode: Encoder, o: CreateOutcomes): ItemKey {
    ItemKey(cfg.usersTableName, GenerateId(encode, o.entropy.bytes))
  }

  /** `WriteToDynamoDB`'s error: from `MarshalMap` first, else from `PutItem`. */
  function PersistErr(o: CreateOutcomes): (err: Option<Error>)
    ensures err.None? <==> o.marshalErr.None? && o.putErr.None?
    ensures o.marshalErr.Some? ==> err == o.marshalErr
    ensures o.marshalErr.None? ==> err == o.putErr
  {
    if o.marshalErr.Some? then o.marshalErr else o.putErr
  }

  /** Every step up to and including `PutItem` succeeds, so the record is written. */
  predicate Persists(o: CreateOutcomes) {
    o.decoded.Ok? && o.s3Err.None? && o.entropy.failure.None? && PersistErr(o).None?
  }

  // ---------------------------------------------------------------- the workflow

  /**
   * The create handler at the level of values: the backends afterwards and
   * the reply, for given backends and outcomes.
   */
  function HandlerEffect(s: Snapshot, cfg: Config, encode: Encoder, req: Request, o: CreateOutcomes): (step: Step)
    ensures step.reply.response.statusCode in {201, 400, 404}
    ensures step.reply.err.None? <==> step.reply.response.statusCode == 201
    ensures step.reply.err.Some? ==> step.reply.response.body == Empty && step.reply.response.headers == map[]
    ensures step.reply.response.statusCode == 201 ==>
              && step.reply.response.body == Created(RecordKey(cfg, encode, o).id, CreatedMessage)
              && step.reply.response.headers == ReplyHeaders(CreateFuncReply)
              && !step.reply.response.isBase64Encoded
    // each store is written at most once, and only at this invocation's key
    ensures step.after.objects == s.objects ||
            (o.decoded.Ok? && step.after.objects == s.objects[ArchiveKey(cfg, o.decoded.value) := req.body])
    ensures !Persists(o) ==> step.after.items == s.items
    ensures Persists(o) ==>
              step.after.items == s.items[RecordKey(cfg, encode, o) :=
                                   NewRecord(o.decoded.value, RecordKey(cfg, encode, o).id, o.createdAt, o.updatedAt)]
    // the table is written only once the archive is
    ensures step.after.items != s.items ==>
              o.decoded.Ok? && step.after.objects == s.objects[ArchiveKey(cfg, o.decoded.value) := req.body]
    // a reply other than 400 means both writes happened
    ensures step.reply.response.statusCode != 400 ==>
              && o.decoded.Ok?
              && step.after.objects == s.objects[ArchiveKey(cfg, o.decoded.value) := req.body]
              && step.after.items == s.items[RecordKey(cfg, encode, o) :=
                                      NewRecord(o.decoded.value, RecordKey(cfg, encode, o).id, o.createdAt, o.updatedAt)]
  {
    match o.decoded
    case Err(e) => Step(s, RespondWithError(e))
    case Ok(input) =>
      if o.s3Err.Some? then Step(s, RespondWithError(o.s3Err.value))
      else
        var archived := s.(objects := s.objects[ArchiveKey(cfg, input) := req.body]);
        if o.entropy.failure.Some? then Step(archived, RespondWithError(o.entropy.failure.value))
        else
          var userId := GenerateId(encode, o.entropy.bytes);
          if PersistErr(o).Some? then Step(archived, RespondWithError(PersistErr(o).value))
          else
            var record := NewRecord(input, userId, o.createdAt, o.updatedAt);
            var persisted := archived.(items := s.items[ItemKey(cfg.usersTableName, userId) := record]);
            if o.replyErr.Some? then Step(persisted, Reply(StatusOnly(404), o.replyErr))
            else
              Step(persisted, Reply(Response(201, false, Created(userId, CreatedMessage), ReplyHeaders(CreateFuncReply)), None))
  }

  /** A body that does not decode: 400, and neither store is touched. */
  lemma DecodeFailureWritesNothing(s: Snapshot, cfg: Config, encode: Encoder, req: Request, o: CreateOutcomes)
    requires o.decoded.Err?
    ensures HandlerEffect(s, cfg, encode, req, o) == Step(s, RespondWithError(o.decoded.error))
  {
  }

  /** A failed archive: 400, and the table is never written. */
  lemma ArchiveFailureWritesNothing(s: Snapshot, cfg: Config, encode: Encoder, req: Request, o: CreateOutcomes)
    requires o.decoded.Ok? && o.s3Err.Some?
    ensures HandlerEffect(s, cfg, encode, req, o) == Step(s, RespondWithError(o.s3Err.value))
  {
  }

  /** A failed random source: 400, the archive stays, the table is untouched. */
  lemma EntropyFailureKeepsArchive(s: Snapshot, cfg: Config, encode: Encoder, req: Request, o: CreateOutcomes)
    requires o.decoded.Ok? && o.s3Err.None? && o.entropy.failure.Some?
    ensures var step := HandlerEffect(s, cfg, encode, req, o);
            && step.reply == RespondWithError(o.entropy.failure.value)
            && step.after.objects == s.objects[ArchiveKey(cfg, o.decoded.value) := req.body]
            && step.after.items == s.items
  {
  }

  /** A failed DynamoDB write: 400, and the archived body is not rolled back. */
  lemma PersistFailureKeepsArchive(s: Snapshot, cfg: Config, encode: Encoder, req: Request, o: CreateOutcomes)
    requires o.decoded.Ok? && o.s3Err.None? && o.entropy.failure.None? && PersistErr(o).Some?
    ensures var step := HandlerEffect(s, cfg, encode, req, o);
            && step.reply == RespondWithError(PersistErr(o).value)
            && step.after.objects == s.objects[ArchiveKey(cfg, o.decoded.value) := req.body]
            && step.after.items == s.items
  {
  }

  /** A response that does not marshal: 404 with the error, after both writes. */
  lemma ReplyFailureAfterWrites(s: Snapshot, cfg: Config, encode: Encoder, req: Request, o: CreateOutcomes)
    requires o.decoded.Ok? && o.s3Err.None? && o.entropy.failure.None? && PersistErr(o).None?
    requires o.replyErr.Some?
    ensures var step := HandlerEffect(s, cfg, encode, req, o);
            && step.reply == Reply(StatusOnly(404), o.replyErr)
            && RecordKey(cfg, encode, o) in step.after.items
            && ArchiveKey(cfg, o.decoded.value) in step.after.objects
  {
  }

  /** Every step succeeds: 201, the identifier and the fixed message, both stores written. */
  lemma CreateSucceeds(s: Snapshot, cfg: Config, encode: Encoder, req: Request, o: CreateOutcomes)
    requires o.decoded.Ok? && o.s3Err.None? && o.entropy.failure.None? && PersistErr(o).None?
    requires o.replyErr.None?
    ensures var step := HandlerEffect(s, cfg, encode, req, o);
            var id := GenerateId(encode, o.entropy.bytes);
            && step.reply.response == Response(201, false, Created(id, CreatedMessage), ReplyHeaders(CreateFuncReply))
            && step.reply.err == None
            && step.after.objects[ArchiveKey(cfg, o.decoded.value)] == req.body
            && step.after.items[ItemKey(cfg.usersTableName, id)] == NewRecord(o.decoded.value, id, o.createdAt, o.updatedAt)
  {
  }

  // ---------------------------------------------------------------- the imperative handler

  /** `rand.Read`: fills `buf` in place unless the source fails. */
  method ReadRandom(buf: array<Byte>, source: Entropy) returns (err: Option<Error>)
    requires buf.Length == |source.bytes|
    modifies buf
    ensures err == source.failure
    ensures err.None? ==> buf[..] == source.bytes
  {
    err := source.failure;
    if err.None? {
      forall i | 0 <= i < buf.Length {
        buf[i] := source.bytes[i];
      }
    }
  }

  /** `WriteToS3`: the raw body, unchanged, under `<lastName>,<firstName>.json`. */
  method WriteToS3(b: Backends, cfg: Config, req: Request, user: UserInput, failure: Option<Error>)
    returns (err: Option<Error>)
    modifies b
    ensures err == failure
    ensures b.objects == if failure.None? then old(b.objects)[ArchiveKey(cfg, user) := req.body] else old(b.objects)
    ensures b.items == old(b.items)
  {
    err := b.PutObject(ArchiveKey(cfg, user), req.body, failure);
  }

  /** `WriteToDynamoDB`: assemble the record, marshal it, put it under its identifier. */
  method WriteToDynamoDB(b: Backends, cfg: Config, userInput: UserInput, userId: string, o: CreateOutcomes)
    returns (err: Option<Error>)
    modifies b
    ensures err == PersistErr(o)
    ensures b.items == if err.None?
                       then old(b.items)[ItemKey(cfg.usersTableName, userId) :=
                                           NewRecord(userInput, userId, o.createdAt, o.updatedAt)]
                       else old(b.items)
    ensures b.objects == old(b.objects)
  {
    var user := NewRecord(userInput, userId, o.createdAt, o.updatedAt);
    if o.marshalErr.Some? {
      return o.marshalErr;
    }
    err := b.PutItem(ItemKey(cfg.usersTableName, user.id), user, o.putErr);
  }

  /** `Handler`: the steps in order, returning at the first failure. */
  method Handler(b: Backends, cfg: Config, encode: Encoder, req: Request, o: CreateOutcomes)
    returns (reply: Reply)
    modifies b
    ensures HandlerEffect(old(b.State()), cfg, encode, req, o) == Step(b.State(), reply)
  {
    if o.decoded.Err? {
      return RespondWithError(o.decoded.error);
    }
    var userInput := o.decoded.value;

    var err := WriteToS3(b, cfg, req, userInput, o.s3Err);
    if err.Some? {
      return RespondWithError(err.value);
    }

    var randBytes := new Byte[RandomLength];
    err := ReadRandom(randBytes, o.entropy);
    if err.Some? {
      return RespondWithError(err.value);
    }

    var userId := GenerateId(encode, randBytes[..]);

    err := WriteToDynamoDB(b, cfg, userInput, userId, o);
    if err.Some? {
      return RespondWithError(err.value);
    }

    if o.replyErr.Some? {
      return Reply(StatusOnly(404), o.replyErr);
    }
    reply := Reply(Response(201, false, Created(userId, CreatedMessage), ReplyHeaders(CreateFuncReply)), None);
  }
}
