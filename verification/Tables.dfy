/** The cache's tables as one value (`Db`), and the open transaction that changes them in place
    (`Tx`). Every operation of the cache is a method on a `Tx` proved against a function on `Db`.

    Ids are opaque keys. Message ids are UUIDv7 (section 5.7 of RFC 9562): the only ids that are
    ordered, and their order is the order of creation. */
module Tables {

  datatype Option<+T> = None | Some(value: T)

  type ChannelId = int
  type UserId = int
  type MessageId = int
  type FileId = int
  /** A row's `seq`: the stamp of its latest change on the server. */
  type Stamp = int
  /** A row's JSON where nothing reads into it. */
  type Json = string

  /** `reply_to`: what a reply shows of the message it quotes. */
  datatype Quote = Quote(body: string, deleted: bool, attachments: nat)

  const DELETED_QUOTE := Quote("(deleted)", true, 0)

  /** The parts of a message's JSON the cache reads or rewrites. `deletedAt`: `deleted_at` is set
      (the server's own tombstone). `deleted` and `partial`: the marks of a tombstone made here
      from a live delete. `files`: the ids under `attachments`. */
  datatype Content = Content(
    body: string, deletedAt: bool, deleted: bool, partial: bool,
    replyTo: Option<MessageId>, quote: Option<Quote>, files: seq<FileId>)

  predicate Gone(c: Content) {
    c.deleted || c.deletedAt
  }

  datatype Row = Row(stamp: Stamp, json: Json)
  datatype Member = Member(stamp: Stamp, left: bool, json: Json)
  datatype Message = Message(channel: ChannelId, stamp: Stamp, content: Content)
  datatype Removal = Removal(stamp: Stamp, active: bool)
  /** `newest` and `oldest` are both absent for a channel covered and empty. */
  datatype Range = Range(newest: Option<MessageId>, oldest: Option<MessageId>, complete: bool)
  datatype Listing = Listing(message: MessageId, channel: ChannelId)
  datatype FileRow = FileRow(sha256: Json, size: nat, complete: bool, done: nat, pinned: bool, lastUsed: nat)

  datatype Seat = Seat(channel: ChannelId, user: UserId)

  /** The file index, the file cache's rows, and the journal of blobs to unlink. */
  datatype FileTables = FileTables(listings: map<FileId, Listing>, files: map<FileId, FileRow>, deletions: set<FileId>)

  datatype Db = Db(
    channels: map<ChannelId, Row>,
    members: map<Seat, Member>,
    users: map<UserId, Row>,
    messages: map<MessageId, Message>,
    removed: map<ChannelId, Removal>,
    coverage: map<ChannelId, Range>,
    fileTables: FileTables,
    cursor: nat,
    generation: nat)

  const EMPTY := Db(map[], map[], map[], map[], map[], map[], FileTables(map[], map[], {}), 0, 0)

  lemma Inhabited(s: set<int>)
    ensures s == {} || exists x :: x in s
  {
    if forall x :: x !in s {
      assert s == {};
    }
  }

  /** A transaction on the cache store: the tables, changed row by row. */
  class Tx {
    var channels: map<ChannelId, Row>
    var members: map<Seat, Member>
    var users: map<UserId, Row>
    var messages: map<MessageId, Message>
    var removed: map<ChannelId, Removal>
    var coverage: map<ChannelId, Range>
    var listings: map<FileId, Listing>
    var files: map<FileId, FileRow>
    var deletions: set<FileId>
    var cursor: nat
    var generation: nat

    ghost function Files(): FileTables
      reads this`listings, this`files, this`deletions
    {
      FileTables(listings, files, deletions)
    }

    ghost function View(): Db
      reads this
    {
      Db(channels, members, users, messages, removed, coverage, Files(), cursor, generation)
    }

    constructor ()
      ensures View() == EMPTY
    {
      channels, members, users, messages := map[], map[], map[], map[];
      removed, coverage, listings, files := map[], map[], map[], map[];
      deletions, cursor, generation := {}, 0, 0;
    }
  }
}
