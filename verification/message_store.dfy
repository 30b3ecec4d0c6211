/** The per-user message log of `src/database.py`: an append-only sequence of
    `{user_sid, role, content}` records kept by an embedded document store.
    Every storage error is logged and swallowed; reads report it as `None`. */
module MessageStore {

  import opened Wrappers

  /** One stored document. */
  datatype Record = Record(userSid: string, role: string, content: string)

  /** The `{role, content}` projection a read hands back. */
  datatype Message = Message(role: string, content: string)

  /** `Unconnected` is a store whose constructor failed: the backing store
      attribute was never set, so every later operation fails. */
  datatype Database = Connected(records: seq<Record>) | Unconnected

  function ToMessage(rec: Record): Message {
    Message(rec.role, rec.content)
  }

  /** The constructor: `load` is what opening the backing file produced. */
  function Open(load: Result<seq<Record>, string>): (db: Database)
    ensures db.Connected? <==> load.Success?
    ensures load.Success? ==> db.records == load.value
  {
    match load
    case Success(records) => Connected(records)
    case Failure(_) => Unconnected
  }

  /** Appends one record; `fault` is an I/O error of the backing store, which
      is swallowed. Nothing is returned, so the caller learns nothing either way. */
  function InsertMessage(db: Database, userSid: string, role: string, content: string, fault: bool): (db': Database)
    ensures db.Connected? && !fault ==>
      && db'.Connected?
      && |db'.records| == |db.records| + 1
      && db'.records[..|db.records|] == db.records
      && db'.records[|db.records|] == Record(userSid, role, content)
    ensures db.Unconnected? || fault ==> db' == db
  {
    if db.Unconnected? || fault then db
    else Connected(db.records + [Record(userSid, role, content)])
  }

  // ---------------------------------------------------------------------------
  // Reading: `getBy({"user_sid": …})` followed by the `{role, content}` map
  // ---------------------------------------------------------------------------

  /** Number of records that belong to `userSid`; an independent count that
      the filter is checked against. */
  function Count(records: seq<Record>, userSid: string): nat {
    if records == [] then 0
    else Count(records[..|records| - 1], userSid) + (if records[|records| - 1].userSid == userSid then 1 else 0)
  }

  /** The records of `userSid`, in store order. */
  function Filter(records: seq<Record>, userSid: string): (r: seq<Record>)
    ensures |r| == Count(records, userSid)
    ensures forall k :: 0 <= k < |r| ==> r[k].userSid == userSid && r[k] in records
  {
    if records == [] then []
    else
      var init := records[..|records| - 1];
      var last := records[|records| - 1];
      Filter(init, userSid) + (if last.userSid == userSid then [last] else [])
  }

  function Project(records: seq<Record>): (r: seq<Message>)
    ensures |r| == |records|
    ensures forall k :: 0 <= k < |records| ==> r[k] == ToMessage(records[k])
  {
    seq(|records|, k requires 0 <= k < |records| => ToMessage(records[k]))
  }

  /** `m` is the projection of some record of `userSid`. */
  predicate StoredFor(records: seq<Record>, userSid: string, m: Message) {
    exists rec :: rec in records && rec.userSid == userSid && m == ToMessage(rec)
  }

  /** What a successful read returns for `userSid`. */
  function History(records: seq<Record>, userSid: string): seq<Message> {
    Project(Filter(records, userSid))
  }

  /** `get_messages_by_user_sid`; `fault` is a read error of the backing store. */
  function GetMessagesByUserSid(db: Database, userSid: string, fault: bool): (r: Option<seq<Message>>)
    ensures r.None? <==> db.Unconnected? || fault
    ensures r.Some? ==>
      && |r.value| == Count(db.records, userSid)
      && forall k :: 0 <= k < |r.value| ==> StoredFor(db.records, userSid, r.value[k])
  {
    if db.Unconnected? || fault then None
    else
      var owned := Filter(db.records, userSid);
      assert forall k :: 0 <= k < |owned| ==> Project(owned)[k] == ToMessage(owned[k]) && StoredFor(db.records, userSid, ToMessage(owned[k]));
      Some(Project(owned))
  }

  // ---------------------------------------------------------------------------
  // Properties
  // ---------------------------------------------------------------------------

  /** Every record of `userSid` is returned, at the position given by the
      number of that user's records before it: no record is dropped, none is
      reordered, and there is no retention window. */
  lemma {:induction false} FilterKeepsEveryOwnedRecord(records: seq<Record>, userSid: string, i: nat)
    requires i < |records| && records[i].userSid == userSid
    ensures Count(records[..i], userSid) < |Filter(records, userSid)|
    ensures Filter(records, userSid)[Count(records[..i], userSid)] == records[i]
    decreases |records|
  {
    var init := records[..|records| - 1];
    if i == |records| - 1 {
      assert records[..i] == init;
    } else {
      assert records[..i] == init[..i];
      FilterKeepsEveryOwnedRecord(init, userSid, i);
    }
  }

  /** The history of a log extended by one record. */
  lemma HistoryOfAppend(records: seq<Record>, rec: Record, userSid: string)
    ensures History(records + [rec], userSid)
         == History(records, userSid) + (if rec.userSid == userSid then [ToMessage(rec)] else [])
  {
    assert (records + [rec])[..|records|] == records;
  }

  /** A successful read returns, for each record of the user, its role and
      content at that record's place among the user's records. */
  lemma ReadReturnsEveryMessageInOrder(db: Database, userSid: string, i: nat)
    requires db.Connected? && i < |db.records| && db.records[i].userSid == userSid
    ensures GetMessagesByUserSid(db, userSid, false).Some?
    ensures Count(db.records[..i], userSid) < |GetMessagesByUserSid(db, userSid, false).value|
    ensures GetMessagesByUserSid(db, userSid, false).value[Count(db.records[..i], userSid)]
         == Message(db.records[i].role, db.records[i].content)
  {
    FilterKeepsEveryOwnedRecord(db.records, userSid, i);
  }

  /** Inserting for a user extends that user's history by exactly the new
      message. */
  lemma InsertExtendsOwnHistory(db: Database, userSid: string, role: string, content: string)
    requires db.Connected?
    ensures GetMessagesByUserSid(InsertMessage(db, userSid, role, content, false), userSid, false)
         == Some(History(db.records, userSid) + [Message(role, content)])
  {
    HistoryOfAppend(db.records, Record(userSid, role, content), userSid);
  }

  /** Inserting for one user, successfully or not, leaves every other user's
      reads unchanged. */
  lemma InsertLeavesOtherUsers(db: Database, userSid: string, role: string, content: string,
                               writeFault: bool, other: string, readFault: bool)
    requires other != userSid
    ensures GetMessagesByUserSid(InsertMessage(db, userSid, role, content, writeFault), other, readFault)
         == GetMessagesByUserSid(db, other, readFault)
  {
    if db.Connected? && !writeFault {
      var rec := Record(userSid, role, content);
      HistoryOfAppend(db.records, rec, other);
      assert History(db.records + [rec], other) == History(db.records, other);
    }
  }

  /** After a failed constructor every insert is a no-op and every read is
      `None`. */
  lemma FailedOpenDisablesStore(load: Result<seq<Record>, string>, userSid: string, role: string,
                                content: string, writeFault: bool, readFault: bool)
    requires load.Failure?
    ensures InsertMessage(Open(load), userSid, role, content, writeFault) == Open(load)
    ensures GetMessagesByUserSid(Open(load), userSid, readFault) == None
  {
  }
}
