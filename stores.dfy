/**
 * The two backends, abstracted to maps: the S3 objects (raw request bodies)
 * and the DynamoDB items (user records). Bucket and table names come from
 * the environment and are passed in as a `Config`.
 */
module Stores {
  import opened Models
  import opened Common

  /** `BUCKET_NAME` and `USERS_TABLE_NAME`. */
  datatype Config = Config(bucketName: string, usersTableName: string)

  datatype ObjectKey = ObjectKey(bucket: string, key: string)

  /** A DynamoDB item is addressed by its table and its `Id` attribute. */
  datatype ItemKey = ItemKey(table: string, id: string)

  /** The contents of both backends at one moment. */
  datatype Snapshot = Snapshot(objects: map<ObjectKey, string>, items: map<ItemKey, User>)

  /** The backends as the create handler writes them, one call at a time. */
  class Backends {
    var objects: map<ObjectKey, string>
    var items: map<ItemKey, User>

    constructor (initial: Snapshot)
      ensures State() == initial
    {
      objects := initial.objects;
      items := initial.items;
    }

    function State(): Snapshot
      reads this
    {
      Snapshot(objects, items)
    }

    /** `s3.PutObject`: stores `body` under `key` unless the call fails. */
    method PutObject(key: ObjectKey, body: string, failure: Option<Error>) returns (err: Option<Error>)
      modifies this
      ensures err == failure
      ensures objects == if failure.None? then old(objects)[key := body] else old(objects)
      ensures items == old(items)
    {
      err := failure;
      if failure.None? {
        objects := objects[key := body];
      }
    }

    /** `dynamodb.PutItem`: an unconditional write, the last writer wins. */
    method PutItem(key: ItemKey, item: User, failure: Option<Error>) returns (err: Option<Error>)
      modifies this
      ensures err == failure
      ensures items == if failure.None? then old(items)[key := item] else old(items)
      ensures objects == old(objects)
    {
      err := failure;
      if failure.None? {
        items := items[key := item];
      }
    }
  }
}
