/**
 * The conversation store of `internal/history/store.go` over an abstract
 * database: the two tables as row sequences in insertion order, the
 * AUTOINCREMENT counters, and a clock standing in for `time.Now()`.
 * A transaction is one all-or-nothing transition; where it fails is an input.
 */
module HistoryStore {
  import opened Wrappers
  import opened Strings
  import Truncate
  import Provider

  /** A message as the caller holds it; `id == 0` marks one that was never saved. */
  datatype Message = Message(id: int, convId: int, role: string, content: string, createdAt: nat)

  /** A conversation as the caller holds it; `id == 0` marks a new one. */
  datatype Conversation = Conversation(id: int, title: string, model: string, provider: string,
                                       createdAt: nat, messages: seq<Message>)

  datatype ConvRow = ConvRow(id: int, title: string, model: string, provider: string, createdAt: nat)
  datatype MsgRow = MsgRow(id: nat, convId: int, role: string, content: string, createdAt: nat)

  /**
   * The persisted state. `nextConvId` and `nextMsgId` are the AUTOINCREMENT
   * sequences (rolled back with the transaction); `clock` is the next value
   * `time.Now()` returns.
   */
  datatype Db = Db(convs: seq<ConvRow>, msgs: seq<MsgRow>, nextConvId: nat, nextMsgId: nat, clock: nat)

  /** A freshly migrated database. */
  const Empty: Db := Db([], [], 1, 1, 0)

  /** Ids are positive, handed out in increasing order, and rows are stamped with an increasing clock. */
  predicate Valid(db: Db) {
    0 < db.nextConvId && 0 < db.nextMsgId
    && (forall i :: 0 <= i < |db.convs| ==> 0 < db.convs[i].id < db.nextConvId && db.convs[i].createdAt < db.clock)
    && (forall i, j :: 0 <= i < j < |db.convs| ==>
          db.convs[i].id < db.convs[j].id && db.convs[i].createdAt < db.convs[j].createdAt)
    && (forall i :: 0 <= i < |db.msgs| ==> 0 < db.msgs[i].id < db.nextMsgId && db.msgs[i].createdAt < db.clock)
    && (forall i, j :: 0 <= i < j < |db.msgs| ==>
          db.msgs[i].id < db.msgs[j].id && db.msgs[i].createdAt < db.msgs[j].createdAt)
  }

  /** A conversation row with this id exists. */
  predicate HasConv(db: Db, id: int) {
    exists c :: c in db.convs && c.id == id
  }

  /** Every message row belongs to an existing conversation row. */
  predicate Linked(db: Db) {
    forall m :: m in db.msgs ==> HasConv(db, m.convId)
  }

  // ---------------------------------------------------------------------
  // Saving
  // ---------------------------------------------------------------------

  /** Exactly the id-less messages are selected. */
  lemma {:induction false} UnsavedMembers(msgs: seq<Message>)
    ensures forall m :: m in Unsaved(msgs) <==> m in msgs && m.id == 0
  {
    if msgs != [] {
      UnsavedMembers(msgs[1..]);
      assert msgs == [msgs[0]] + msgs[1..];
    }
  }

  /** The messages the insert loop writes: those without an id, in list order. */
  function Unsaved(msgs: seq<Message>): (r: seq<Message>)
    ensures |r| <= |msgs|
    ensures forall i :: 0 <= i < |r| ==> r[i].id == 0
  {
    if msgs == [] then []
    else (if msgs[0].id == 0 then [msgs[0]] else []) + Unsaved(msgs[1..])
  }

  /** A list of messages none of which has an id is inserted whole. */
  lemma {:induction false} UnsavedAllNew(msgs: seq<Message>)
    requires forall i :: 0 <= i < |msgs| ==> msgs[i].id == 0
    ensures Unsaved(msgs) == msgs
  {
    if msgs != [] {
      UnsavedAllNew(msgs[1..]);
    }
  }

  /** `row` is the stored form of `m` under conversation `convId`. */
  predicate Stores(row: MsgRow, convId: int, m: Message) {
    row.convId == convId && row.role == m.role && row.content == m.content
  }

  /** `rows` are the stored forms of `msgs`, one for one and in order. */
  predicate StoresAll(rows: seq<MsgRow>, convId: int, msgs: seq<Message>) {
    |rows| == |msgs| && forall i :: 0 <= i < |rows| ==> Stores(rows[i], convId, msgs[i])
  }

  /** One `INSERT INTO messages`. */
  function AddMessage(db: Db, convId: int, m: Message): (r: Db)
    ensures r.convs == db.convs && r.nextConvId == db.nextConvId
    ensures |r.msgs| == |db.msgs| + 1 && r.msgs[..|db.msgs|] == db.msgs && Stores(r.msgs[|db.msgs|], convId, m)
    ensures Valid(db) ==> Valid(r)
  {
    db.(msgs := db.msgs + [MsgRow(db.nextMsgId, convId, m.role, m.content, db.clock)],
        nextMsgId := db.nextMsgId + 1, clock := db.clock + 1)
  }

  /** The insert loop (store.go:98-108): exactly the id-less messages, in order, attached to `convId`. */
  function InsertAll(db: Db, convId: int, msgs: seq<Message>): (r: Db)
    ensures r.convs == db.convs && r.nextConvId == db.nextConvId
    ensures |db.msgs| <= |r.msgs| && r.msgs[..|db.msgs|] == db.msgs
    ensures StoresAll(r.msgs[|db.msgs|..], convId, Unsaved(msgs))
    ensures Valid(db) ==> Valid(r)
    decreases |msgs|
  {
    if msgs == [] then db
    else
      var db1 := if msgs[0].id == 0 then AddMessage(db, convId, msgs[0]) else db;
      var r := InsertAll(db1, convId, msgs[1..]);
      InsertAllStep(db.msgs, db1.msgs, r.msgs, convId, msgs);
      r
  }

  lemma {:induction false} InsertAllStep(before: seq<MsgRow>, mid: seq<MsgRow>, after: seq<MsgRow>, convId: int, msgs: seq<Message>)
    requires msgs != []
    requires msgs[0].id == 0 ==>
      |mid| == |before| + 1 && mid[..|before|] == before && Stores(mid[|before|], convId, msgs[0])
    requires msgs[0].id != 0 ==> mid == before
    requires |mid| <= |after| && after[..|mid|] == mid
    requires StoresAll(after[|mid|..], convId, Unsaved(msgs[1..]))
    ensures |before| <= |after| && after[..|before|] == before
    ensures StoresAll(after[|before|..], convId, Unsaved(msgs))
  {
    assert after[..|before|] == mid[..|before|];
    if msgs[0].id == 0 {
      assert mid == before + [mid[|before|]];
      assert Unsaved(msgs) == [msgs[0]] + Unsaved(msgs[1..]);
      assert after[|before|..] == [after[|before|]] + after[|mid|..];
    }
  }

  /** How long an auto-generated title may be. */
  const TitleLength: int := 50

  /** The index of the first user message, if any. */
  function FirstUser(msgs: seq<Message>): (r: Option<nat>)
    ensures r.None? <==> forall j :: 0 <= j < |msgs| ==> msgs[j].role != Provider.UserRole
    ensures r.Some? ==> r.value < |msgs| && msgs[r.value].role == Provider.UserRole
                        && forall j :: 0 <= j < r.value ==> msgs[j].role != Provider.UserRole
  {
    if msgs == [] then None
    else if msgs[0].role == Provider.UserRole then Some(0)
    else match FirstUser(msgs[1..])
      case None => None
      case Some(i) => Some(i + 1)
  }

  /** The title a new conversation is stored with (store.go:72-81). */
  function Title(conv: Conversation): (t: string)
    ensures conv.title != "" ==> t == conv.title
    ensures conv.title == "" && FirstUser(conv.messages).None? ==> t == ""
    ensures conv.title == "" && FirstUser(conv.messages).Some? ==>
      t == Truncate.Truncate(conv.messages[FirstUser(conv.messages).value].content, TitleLength)
      && |t| <= TitleLength && Normalized(t)
  {
    if conv.title == "" && |conv.messages| > 0 then
      match FirstUser(conv.messages)
      case None => conv.title
      case Some(i) => Truncate.Truncate(conv.messages[i].content, TitleLength)
    else conv.title
  }

  /** Where the transaction can break. `MsgInsertFails(k)` breaks the k-th message insert, if there is one. */
  datatype Fault = NoFault | BeginFails | ConvInsertFails | MsgInsertFails(attempt: nat) | CommitFails

  datatype SaveError = BeginFailed | ConvInsertFailed | MsgInsertFailed | CommitFailed

  /** The database after the call, the caller's conversation after the call, and the result. */
  datatype Saved = Saved(db: Db, conv: Conversation, result: Result<int, SaveError>)

  /** The error the transaction ends with, if any. */
  function FailurePoint(conv: Conversation, fault: Fault): Option<SaveError> {
    match fault
    case NoFault => None
    case BeginFails => Some(BeginFailed)
    case ConvInsertFails => if conv.id == 0 then Some(ConvInsertFailed) else None
    case MsgInsertFails(k) => if k < |Unsaved(conv.messages)| then Some(MsgInsertFailed) else None
    case CommitFails => Some(CommitFailed)
  }

  /** The conversation row a new conversation gets. */
  function NewRow(db: Db, conv: Conversation): ConvRow {
    ConvRow(db.nextConvId, Title(conv), conv.model, conv.provider, db.clock)
  }

  /** The caller's conversation once `conv.ID` has been assigned (store.go:91). */
  function WithId(db: Db, conv: Conversation): Conversation {
    if conv.id == 0 then conv.(id := db.nextConvId) else conv
  }

  /** The state the transaction commits. */
  function Committed(db: Db, conv: Conversation): Db {
    var db1 := if conv.id == 0
      then db.(convs := db.convs + [NewRow(db, conv)], nextConvId := db.nextConvId + 1, clock := db.clock + 1)
      else db;
    InsertAll(db1, WithId(db, conv).id, conv.messages)
  }

  /**
   * `SaveConversation` as written: `conv.ID` is assigned as soon as the
   * conversation row is inserted, and stays assigned when a later message
   * insert or the commit fails and the row is rolled back.
   */
  function SaveConversationAsWritten(db: Db, conv: Conversation, fault: Fault): (r: Saved)
    ensures r.result.Err? ==> r.db == db
    ensures r.result.Ok? ==> r == SaveConversation(db, conv, fault)
  {
    match FailurePoint(conv, fault)
    case None => Saved(Committed(db, conv), WithId(db, conv), Ok(WithId(db, conv).id))
    case Some(e) =>
      Saved(db, if e == MsgInsertFailed || e == CommitFailed then WithId(db, conv) else conv, Err(e))
  }

  /**
   * `SaveConversation` with `conv.ID` written back only once the
   * transaction has committed.
   */
  function SaveConversation(db: Db, conv: Conversation, fault: Fault): (r: Saved)
    ensures r.result.Ok? <==> FailurePoint(conv, fault).None?
    ensures r.result.Err? ==> r.db == db && r.conv == conv
    ensures r.conv.messages == conv.messages
    ensures r.result.Ok? ==> r.result.value == r.conv.id && (conv.id != 0 ==> r.conv == conv)
    ensures r.result.Ok? && conv.id == 0 ==>
      r.conv == conv.(id := db.nextConvId)
      && r.db.convs == db.convs + [ConvRow(r.conv.id, Title(conv), conv.model, conv.provider, db.clock)]
      && r.db.nextConvId == r.conv.id + 1
    ensures r.result.Ok? && conv.id != 0 ==> r.db.convs == db.convs
    ensures r.result.Ok? ==>
      |db.msgs| <= |r.db.msgs| && r.db.msgs[..|db.msgs|] == db.msgs
      && StoresAll(r.db.msgs[|db.msgs|..], r.conv.id, Unsaved(conv.messages))
    ensures Valid(db) ==> Valid(r.db)
    ensures Valid(db) && r.result.Ok? && conv.id == 0 ==> r.conv.id > 0 && !HasConv(db, r.conv.id)
  {
    match FailurePoint(conv, fault)
    case None =>
      var r := Saved(Committed(db, conv), WithId(db, conv), Ok(WithId(db, conv).id));
      if conv.id == 0 && Valid(db) then NewRowKeepsValid(db, conv); r else r
    case Some(e) => Saved(db, conv, Err(e))
  }

  /** Appending the new conversation row keeps the database valid, and its id is fresh. */
  lemma NewRowKeepsValid(db: Db, conv: Conversation)
    requires Valid(db)
    ensures Valid(db.(convs := db.convs + [NewRow(db, conv)], nextConvId := db.nextConvId + 1, clock := db.clock + 1))
    ensures !HasConv(db, db.nextConvId)
  {
    forall c | c in db.convs ensures c.id < db.nextConvId {
      var i :| 0 <= i < |db.convs| && db.convs[i] == c;
    }
  }

  /** Saving the same id-less list twice stores it twice: assigned message ids are never written back. */
  lemma ResaveInsertsAgain(db: Db, conv: Conversation)
    requires Valid(db)
    ensures var r1 := SaveConversation(db, conv, NoFault);
            var r2 := SaveConversation(r1.db, r1.conv, NoFault);
            r2.result.Ok? && r2.conv == r1.conv
            && |r2.db.msgs| == |db.msgs| + 2 * |Unsaved(conv.messages)|
  {
    var r1 := SaveConversation(db, conv, NoFault);
    var r2 := SaveConversation(r1.db, r1.conv, NoFault);
    assert |r1.db.msgs[|db.msgs|..]| == |Unsaved(conv.messages)|;
    assert |r2.db.msgs[|r1.db.msgs|..]| == |Unsaved(conv.messages)|;
  }

  /** The corrected save never leaves a message pointing at a missing conversation, given a caller id that exists. */
  lemma {:induction false} SaveKeepsLinked(db: Db, conv: Conversation, fault: Fault)
    requires Valid(db) && Linked(db)
    requires conv.id == 0 || HasConv(db, conv.id)
    ensures Linked(SaveConversation(db, conv, fault).db)
  {
    var r := SaveConversation(db, conv, fault);
    if r.result.Ok? {
      assert HasConv(r.db, r.conv.id) by {
        if conv.id == 0 {
          assert r.db.convs[|db.convs|] in r.db.convs;
        } else {
          var c :| c in db.convs && c.id == conv.id;
          assert c in r.db.convs;
        }
      }
      forall m | m in r.db.msgs ensures HasConv(r.db, m.convId) {
        var i :| 0 <= i < |r.db.msgs| && r.db.msgs[i] == m;
        if i < |db.msgs| {
          assert m == r.db.msgs[..|db.msgs|][i];
          assert m in db.msgs;
          var c :| c in db.convs && c.id == m.convId;
          assert c in r.db.convs;
        } else {
          assert m == r.db.msgs[|db.msgs|..][i - |db.msgs|];
        }
      }
    }
  }

  /**
   * As written, a save that fails after the conversation row was inserted
   * returns with `conv.ID` set to an id that was rolled back and that the
   * AUTOINCREMENT sequence will hand out again.
   */
  lemma RolledBackIdKept(db: Db, conv: Conversation, k: nat)
    requires Valid(db) && conv.id == 0 && k < |Unsaved(conv.messages)|
    ensures var r := SaveConversationAsWritten(db, conv, MsgInsertFails(k));
            r.result.Err? && r.db == db && r.conv.id == db.nextConvId && !HasConv(r.db, r.conv.id)
  {
    NewRowKeepsValid(db, conv);
    assert FailurePoint(conv, MsgInsertFails(k)) == Some(MsgInsertFailed);
  }

  /**
   * The interactive loop keeps the conversation after such a failure, so the
   * next save takes the "existing conversation" branch and stores messages
   * under a conversation row that does not exist.
   */
  lemma NextSaveOrphansMessages(db: Db, conv: Conversation, k: nat, next: seq<Message>)
    requires Valid(db) && conv.id == 0 && k < |Unsaved(conv.messages)| && Unsaved(next) != []
    ensures var r1 := SaveConversationAsWritten(db, conv, MsgInsertFails(k));
            var r2 := SaveConversationAsWritten(r1.db, r1.conv.(messages := next), NoFault);
            r2.result.Ok? && !Linked(r2.db)
  {
    var r1 := SaveConversationAsWritten(db, conv, MsgInsertFails(k));
    RolledBackIdKept(db, conv, k);
    var r2 := SaveConversationAsWritten(r1.db, r1.conv.(messages := next), NoFault);
    var m := r2.db.msgs[|db.msgs|..][0];
    assert m == r2.db.msgs[|db.msgs|];
    assert m in r2.db.msgs && m.convId == db.nextConvId;
  }

  /** With the corrected save, the same failure leaves the caller's conversation new, and the next save creates its row. */
  lemma FailedSaveStaysNew(db: Db, conv: Conversation, fault: Fault, next: seq<Message>)
    requires Valid(db) && conv.id == 0 && FailurePoint(conv, fault).Some?
    ensures var r1 := SaveConversation(db, conv, fault);
            var r2 := SaveConversation(r1.db, r1.conv.(messages := next), NoFault);
            r1.conv.id == 0 && r2.result.Ok? && |r2.db.convs| == |db.convs| + 1 && HasConv(r2.db, r2.conv.id)
  {
    var r1 := SaveConversation(db, conv, fault);
    var r2 := SaveConversation(r1.db, r1.conv.(messages := next), NoFault);
    assert r2.db.convs[|db.convs|] in r2.db.convs;
  }

  // ---------------------------------------------------------------------
  // Queries
  // ---------------------------------------------------------------------

  datatype GetError = NotFound(id: int)

  /** The conversation row with this id, if any. */
  function FindConv(convs: seq<ConvRow>, id: int): (r: Option<ConvRow>)
    ensures r.None? <==> forall c :: c in convs ==> c.id != id
    ensures r.Some? ==> r.value in convs && r.value.id == id
  {
    if convs == [] then None
    else if convs[0].id == id then Some(convs[0])
    else FindConv(convs[1..], id)
  }

  /** A message row as `GetConversation` scans it. */
  function AsMessage(row: MsgRow): Message {
    Message(row.id, row.convId, row.role, row.content, row.createdAt)
  }

  predicate RowsAscending(rows: seq<MsgRow>) {
    forall i, j :: 0 <= i < j < |rows| ==> rows[i].createdAt < rows[j].createdAt
  }

  predicate MessagesAscending(msgs: seq<Message>) {
    forall i, j :: 0 <= i < j < |msgs| ==> msgs[i].createdAt < msgs[j].createdAt
  }

  /** The messages of conversation `id`, in stored order. */
  function MessagesOf(rows: seq<MsgRow>, id: int): (r: seq<Message>)
    ensures forall row :: row in rows && row.convId == id ==> AsMessage(row) in r
    ensures forall i :: 0 <= i < |r| ==> r[i].convId == id && exists row :: row in rows && AsMessage(row) == r[i]
  {
    if rows == [] then []
    else
      var rest := MessagesOf(rows[1..], id);
      if rows[0].convId == id then [AsMessage(rows[0])] + rest else rest
  }

  /** Rows stored in clock order yield messages in ascending creation time (`ORDER BY created_at ASC`). */
  lemma {:induction false} MessagesOfAscending(rows: seq<MsgRow>, id: int)
    requires RowsAscending(rows)
    ensures MessagesAscending(MessagesOf(rows, id))
  {
    if rows != [] {
      var rest := MessagesOf(rows[1..], id);
      assert RowsAscending(rows[1..]);
      MessagesOfAscending(rows[1..], id);
      if rows[0].convId == id {
        forall i | 0 <= i < |rest| ensures rows[0].createdAt < rest[i].createdAt {
          assert exists row :: row in rows[1..] && AsMessage(row) == rest[i];
          var row :| row in rows[1..] && AsMessage(row) == rest[i];
          var j :| 0 <= j < |rows[1..]| && rows[1..][j] == row;
          assert rows[j + 1] == row;
        }
        PrependAscending(AsMessage(rows[0]), rest);
      }
    }
  }

  lemma PrependAscending(m: Message, rest: seq<Message>)
    requires MessagesAscending(rest)
    requires forall i :: 0 <= i < |rest| ==> m.createdAt < rest[i].createdAt
    ensures MessagesAscending([m] + rest)
  {
    var r := [m] + rest;
    forall i, j | 0 <= i < j < |r| ensures r[i].createdAt < r[j].createdAt {
      assert r[j] == rest[j - 1];
      if i > 0 {
        assert r[i] == rest[i - 1];
      }
    }
  }

  /** `GetConversation` (store.go:159-195). */
  function GetConversation(db: Db, id: int): (r: Result<Conversation, GetError>)
    ensures r.Err? <==> !HasConv(db, id)
    ensures r.Err? ==> r.error == NotFound(id)
    ensures r.Ok? ==>
      r.value.id == id && Row(r.value) in db.convs
    ensures r.Ok? ==> forall row :: row in db.msgs ==> (row.convId == id <==> AsMessage(row) in r.value.messages)
    ensures r.Ok? ==> forall i :: 0 <= i < |r.value.messages| ==> r.value.messages[i].convId == id
    ensures r.Ok? && Valid(db) ==> MessagesAscending(r.value.messages)
  {
    match FindConv(db.convs, id)
    case None => Err(NotFound(id))
    case Some(c) =>
      var msgs := MessagesOf(db.msgs, id);
      assert forall row :: row in db.msgs && AsMessage(row) in msgs ==> row.convId == id by {
        forall row | row in db.msgs && AsMessage(row) in msgs ensures row.convId == id {
          var i :| 0 <= i < |msgs| && msgs[i] == AsMessage(row);
        }
      }
      var conv := Conversation(c.id, c.title, c.model, c.provider, c.createdAt, msgs);
      if Valid(db) then
        assert RowsAscending(db.msgs);
        MessagesOfAscending(db.msgs, id);
        Ok(conv)
      else Ok(conv)
  }

  /**
   * The search condition of store.go:122-131: the title, or the content of
   * one of the conversation's messages, contains `search` ignoring ASCII
   * case. An empty search selects every conversation.
   */
  predicate Mentions(db: Db, c: ConvRow, search: string) {
    search == "" || ContainsFold(c.title, search) || SomeMessageMentions(db.msgs, c.id, search)
  }

  /** Some row in `rows` belongs to conversation `id` and contains `search` ignoring ASCII case. */
  predicate SomeMessageMentions(rows: seq<MsgRow>, id: int, search: string) {
    rows != [] && ((rows[0].convId == id && ContainsFold(rows[0].content, search))
                   || SomeMessageMentions(rows[1..], id, search))
  }

  lemma {:induction false} SomeMessageMentionsMeans(rows: seq<MsgRow>, id: int, search: string)
    ensures SomeMessageMentions(rows, id, search) <==>
      exists m :: m in rows && m.convId == id && ContainsFold(m.content, search)
  {
    if rows != [] {
      SomeMessageMentionsMeans(rows[1..], id, search);
      if exists m :: m in rows && m.convId == id && ContainsFold(m.content, search) {
        var m :| m in rows && m.convId == id && ContainsFold(m.content, search);
        if m != rows[0] {
          assert m in rows[1..];
        }
      }
    }
  }

  predicate ConvsAscending(rows: seq<ConvRow>) {
    forall i, j :: 0 <= i < j < |rows| ==> rows[i].createdAt < rows[j].createdAt
  }

  /** The conversations `search` selects, in stored order. */
  function Select(db: Db, rows: seq<ConvRow>, search: string): (r: seq<ConvRow>)
    ensures forall c :: c in r <==> c in rows && Mentions(db, c, search)
  {
    if rows == [] then []
    else
      var rest := Select(db, rows[1..], search);
      if Mentions(db, rows[0], search) then [rows[0]] + rest else rest
  }

  lemma {:induction false} SelectAscending(db: Db, rows: seq<ConvRow>, search: string)
    requires ConvsAscending(rows)
    ensures ConvsAscending(Select(db, rows, search))
  {
    if rows != [] {
      var rest := Select(db, rows[1..], search);
      assert ConvsAscending(rows[1..]);
      SelectAscending(db, rows[1..], search);
      if Mentions(db, rows[0], search) {
        var r := [rows[0]] + rest;
        forall i, j | 0 <= i < j < |r| ensures r[i].createdAt < r[j].createdAt {
          assert r[j] == rest[j - 1] && r[j] in rows[1..];
          var k :| 0 <= k < |rows[1..]| && rows[1..][k] == r[j];
          assert rows[k + 1] == r[j];
          if i > 0 {
            assert r[i] == rest[i - 1];
          }
        }
      }
    }
  }

  /** `ORDER BY created_at DESC` over rows stored in clock order. */
  function Reverse<T>(s: seq<T>): (r: seq<T>)
    ensures |r| == |s| && forall i :: 0 <= i < |s| ==> r[i] == s[|s| - 1 - i]
  {
    if s == [] then [] else Reverse(s[1..]) + [s[0]]
  }

  /** SQLite's `LIMIT`: a negative limit means no limit. */
  function Limit<T>(s: seq<T>, limit: int): (r: seq<T>)
    ensures limit < 0 || |s| <= limit ==> r == s
    ensures 0 <= limit < |s| ==> r == s[..limit]
  {
    if 0 <= limit < |s| then s[..limit] else s
  }

  /** The columns `ListConversations` scans; messages are not loaded. */
  function Summary(c: ConvRow): Conversation {
    Conversation(c.id, c.title, c.model, c.provider, c.createdAt, [])
  }

  /** Each scanned row as a conversation without messages. */
  function Summaries(rows: seq<ConvRow>): (r: seq<Conversation>)
    ensures |r| == |rows| && forall i :: 0 <= i < |rows| ==> r[i] == Summary(rows[i])
  {
    if rows == [] then [] else [Summary(rows[0])] + Summaries(rows[1..])
  }

  /** The row a scanned conversation was read from. */
  function Row(conv: Conversation): ConvRow {
    ConvRow(conv.id, conv.title, conv.model, conv.provider, conv.createdAt)
  }

  /** `ListConversations` (store.go:118-155). */
  function ListConversations(db: Db, limit: int, search: string): (r: seq<Conversation>)
    ensures limit >= 0 ==> |r| <= limit
    ensures forall i :: 0 <= i < |r| ==> r[i].messages == [] && Row(r[i]) in db.convs && Mentions(db, Row(r[i]), search)
    ensures limit < 0 || |r| < limit ==>
      forall c :: c in db.convs && Mentions(db, c, search) ==> Summary(c) in r
    ensures Valid(db) ==> forall i, j :: 0 <= i < j < |r| ==> r[i].createdAt > r[j].createdAt
    ensures Valid(db) ==> forall c, i :: c in db.convs && Mentions(db, c, search) && Summary(c) !in r && 0 <= i < |r| ==>
      c.createdAt < r[i].createdAt
  {
    var newest := Reverse(Select(db, db.convs, search));
    var kept := Limit(newest, limit);
    var r := Summaries(kept);
    ListSound(db, search, kept, r);
    if kept == newest then
      ListComplete(db, search, r);
      ListOrder(db, search, kept, r)
    else ListOrder(db, search, kept, r)
  }

  function ListOrder(db: Db, search: string, kept: seq<ConvRow>, r: seq<Conversation>): (r': seq<Conversation>)
    requires kept <= Reverse(Select(db, db.convs, search))
    requires |r| == |kept| && forall i :: 0 <= i < |kept| ==> r[i] == Summary(kept[i])
    ensures r' == r
    ensures Valid(db) ==> forall i, j :: 0 <= i < j < |r| ==> r[i].createdAt > r[j].createdAt
    ensures Valid(db) ==> forall c, i :: c in db.convs && Mentions(db, c, search) && Summary(c) !in r && 0 <= i < |r| ==>
      c.createdAt < r[i].createdAt
  {
    if Valid(db) then
      ListDescending(db, search, kept, r);
      ListKeepsNewest(db, search, kept, r);
      r
    else r
  }

  lemma ListSound(db: Db, search: string, kept: seq<ConvRow>, r: seq<Conversation>)
    requires kept <= Reverse(Select(db, db.convs, search))
    requires |r| == |kept| && forall i :: 0 <= i < |kept| ==> r[i] == Summary(kept[i])
    ensures forall i :: 0 <= i < |r| ==> r[i].messages == [] && Row(r[i]) in db.convs && Mentions(db, Row(r[i]), search)
  {
    var sel := Select(db, db.convs, search);
    forall i | 0 <= i < |r| ensures Row(r[i]) in db.convs && Mentions(db, Row(r[i]), search) {
      assert kept[i] == Reverse(sel)[i] == sel[|sel| - 1 - i];
      assert kept[i] in sel;
      assert Row(r[i]) == kept[i];
    }
  }

  lemma ListComplete(db: Db, search: string, r: seq<Conversation>)
    requires var newest := Reverse(Select(db, db.convs, search));
             |r| == |newest| && forall i :: 0 <= i < |newest| ==> r[i] == Summary(newest[i])
    ensures forall c :: c in db.convs && Mentions(db, c, search) ==> Summary(c) in r
  {
    var sel := Select(db, db.convs, search);
    forall c | c in db.convs && Mentions(db, c, search) ensures Summary(c) in r {
      var k :| 0 <= k < |sel| && sel[k] == c;
      assert Reverse(sel)[|sel| - 1 - k] == c;
      assert r[|sel| - 1 - k] == Summary(c);
    }
  }

  /** Newest first: reversing rows stored in clock order gives strictly decreasing creation times. */
  lemma ReverseDescending(sel: seq<ConvRow>)
    requires ConvsAscending(sel)
    ensures forall i, j :: 0 <= i < j < |sel| ==> Reverse(sel)[i].createdAt > Reverse(sel)[j].createdAt
  {
    var newest := Reverse(sel);
    forall i, j | 0 <= i < j < |sel| ensures newest[i].createdAt > newest[j].createdAt {
      assert newest[i] == sel[|sel| - 1 - i] && newest[j] == sel[|sel| - 1 - j];
    }
  }

  lemma ListDescending(db: Db, search: string, kept: seq<ConvRow>, r: seq<Conversation>)
    requires Valid(db)
    requires kept <= Reverse(Select(db, db.convs, search))
    requires |r| == |kept| && forall i :: 0 <= i < |kept| ==> r[i] == Summary(kept[i])
    ensures forall i, j :: 0 <= i < j < |r| ==> r[i].createdAt > r[j].createdAt
  {
    var sel := Select(db, db.convs, search);
    assert ConvsAscending(db.convs);
    SelectAscending(db, db.convs, search);
    ReverseDescending(sel);
    forall i, j | 0 <= i < j < |r| ensures r[i].createdAt > r[j].createdAt {
      assert kept[i] == Reverse(sel)[i] && kept[j] == Reverse(sel)[j];
    }
  }

  lemma ListKeepsNewest(db: Db, search: string, kept: seq<ConvRow>, r: seq<Conversation>)
    requires Valid(db)
    requires kept <= Reverse(Select(db, db.convs, search))
    requires |r| == |kept| && forall i :: 0 <= i < |kept| ==> r[i] == Summary(kept[i])
    ensures forall c, i :: c in db.convs && Mentions(db, c, search) && Summary(c) !in r && 0 <= i < |r| ==>
      c.createdAt < r[i].createdAt
  {
    var sel := Select(db, db.convs, search);
    var newest := Reverse(sel);
    assert ConvsAscending(db.convs);
    SelectAscending(db, db.convs, search);
    ReverseDescending(sel);
    forall c, i | c in db.convs && Mentions(db, c, search) && Summary(c) !in r && 0 <= i < |r|
      ensures c.createdAt < r[i].createdAt
    {
      var j := Dropped(sel, kept, r, c);
      assert kept[i] == newest[i];
    }
  }

  /** Where a selected row that did not make the cut sits in the newest-first order: past the kept prefix. */
  lemma Dropped(sel: seq<ConvRow>, kept: seq<ConvRow>, r: seq<Conversation>, c: ConvRow) returns (j: nat)
    requires kept <= Reverse(sel) && c in sel
    requires |r| == |kept| && forall i :: 0 <= i < |kept| ==> r[i] == Summary(kept[i])
    requires Summary(c) !in r
    ensures |kept| <= j < |sel| && Reverse(sel)[j] == c
  {
    var k :| 0 <= k < |sel| && sel[k] == c;
    j := |sel| - 1 - k;
    forall x | 0 <= x < |kept| ensures kept[x] != c {
      assert r[x] == Summary(kept[x]) && r[x] in r;
    }
    assert Reverse(sel)[j] == c;
  }
}
