/**
 * The five leave-request tools and the collection they work on.
 *
 * The MongoDB collection becomes a value `Db`: the stored documents in insertion
 * order and a counter that supplies fresh ids. MongoDB promises no order for a `find`
 * without a sort; the model chooses insertion order for the documents a query lists.
 * The database's nondeterministic answers (a failed ping or query, the outcome of an
 * insert or an update) and the clock are the `Effects` of one tool call; the date parser is a
 * parameter. `LeaveRequestStore` is the collection as an object that the two writing
 * tools update in place; its methods are proved equal to the functions on `Db`.
 */
module LeaveTools {
  import opened Wrappers
  import opened ObjectIds
  import opened Filtering

  /** An instant, as the date parser or the clock yields it; no date arithmetic is modelled. */
  datatype DateTime = DateTime(ticks: int)

  /** `dateutil.parser.parse`: a date, or the text of the exception it raises. */
  type DateParser = string -> Result<DateTime, string>

  const PendingSupervisorApproval: string := "pending_supervisor_approval"
  const ApprovedBySupervisor: string := "approved_by_supervisor"

  /** The pair of fields `<role>_action_by` and `<role>_action_at`. */
  datatype Action = Action(actor: string, time: DateTime)

  /** One leave request as stored. `actions` holds the role-keyed audit fields, keyed by the role. */
  datatype LeaveRecord = LeaveRecord(
    employeeId: string,
    supervisorId: string,
    leaveType: string,
    startDate: DateTime,
    endDate: DateTime,
    reason: Option<string>,
    status: string,
    requestedAt: DateTime,
    actions: map<string, Action>,
    rejectionReason: Option<string>)

  datatype Document = Document(id: nat, record: LeaveRecord)

  /** A document as the query tools return it: `_id` replaced by its text. */
  datatype DocumentView = DocumentView(id: string, record: LeaveRecord)

  datatype Db = Db(docs: seq<Document>, nextId: nat) {
    /** Ids are distinct and all below the counter, so the counter is always fresh. */
    predicate Valid() {
      && (forall i :: 0 <= i < |docs| ==> docs[i].id < nextId)
      && (forall i, j :: 0 <= i < j < |docs| ==> docs[i].id != docs[j].id)
    }
  }

  function Ids(docs: seq<Document>): set<nat> {
    set d | d in docs :: d.id
  }

  /** What `insert_one` did: acknowledged, sent without acknowledgement (and perhaps applied), or raised. */
  datatype InsertOutcome = Acknowledged | Unacknowledged(applied: bool) | InsertRaised(error: string)

  /** What `update_one` did when it did not raise: acknowledged, or sent without acknowledgement (and perhaps applied). */
  datatype UpdateOutcome = UpdateAcknowledged | UpdateUnacknowledged(applied: bool) {
    /** The `$set` reached the stored document. */
    predicate Applied() {
      UpdateAcknowledged? || applied
    }
  }

  /**
   * The environment of one tool call: the clock, an exception raised by the database
   * before any write (the ping of create, the `find` of a query, the `update_one` of an
   * update), and the outcomes of an insert and of an update. Which outcome a call reads
   * depends on the tool; whether writes are acknowledged is set by the connection string.
   */
  datatype Effects = Effects(now: DateTime, dbError: Option<string>, insert: InsertOutcome, update: UpdateOutcome)

  datatype CreateArgs = CreateArgs(
    employeeId: string, supervisorId: string, leaveType: string,
    startDate: string, endDate: string, reason: Option<string>)

  datatype ApproveArgs = ApproveArgs(
    requestId: string, newStatus: string, approverId: string, approverRole: string,
    rejectionReason: Option<string>)

  /** The store after create, and the text the tool returned. */
  datatype Updated = Updated(db: Db, message: string)

  /** The store after an update, and the text the tool returned or the exception it raised. */
  datatype Approval = Approval(db: Db, outcome: Result<string, string>)

  // ---------------------------------------------------------------- messages

  // The two texts of a completed create are written with a short first piece, so that proofs
  // telling the messages apart can read their first character.

  function InternalError(e: string): string {
    "An internal error occurred: " + e + "."
  }

  function CreatedMessage(id: string): string {
    "Successfully " + "created the leave request. The request ID is " + id + "."
  }

  const NotConfirmedMessage: string :=
    "There was a problem " + "creating the request. The database did not confirm the entry."

  function UpdatedMessage(requestId: string, newStatus: string): string {
    "Request " + requestId + " has been successfully updated to " + newStatus + "."
  }

  function FailedUpdateMessage(requestId: string): string {
    "Failed to update request " + requestId + "."
  }

  /** The text of the exception pymongo raises when `modified_count` is read after an unacknowledged write. */
  const ModifiedCountUnavailable: string :=
    "A value for modified_count is not available when the write is unacknowledged. "
    + "Check the acknowledged attribute to avoid this error."

  /** The text of bson's InvalidId exception. */
  function InvalidIdError(s: string): string {
    "'" + s + "' is not a valid ObjectId, it must be a 12-byte input or a 24-character hex string"
  }

  // ---------------------------------------------------------------- create_leave_request

  function NewRecord(a: CreateArgs, start: DateTime, end: DateTime, now: DateTime): LeaveRecord {
    LeaveRecord(a.employeeId, a.supervisorId, a.leaveType, start, end, a.reason,
                PendingSupervisorApproval, now, map[], None)
  }

  function Insert(db: Db, rec: LeaveRecord): Db {
    Db(db.docs + [Document(db.nextId, rec)], db.nextId + 1)
  }

  lemma CreateMessagesDiffer(id: string)
    ensures forall e :: InternalError(e) != CreatedMessage(id)
    ensures NotConfirmedMessage != CreatedMessage(id)
  {
    var success := "Successfully ";
    assert success[0] == 'S' && CreatedMessage(id)[0] == success[0];
    forall e ensures InternalError(e) != CreatedMessage(id) {
      var prefix := "An internal error occurred: ";
      assert prefix[0] == 'A' && InternalError(e)[0] == prefix[0];
    }
    assert NotConfirmedMessage[0] == "There was a problem "[0] == 'T';
  }

  /** `create_leave_request`: parse both dates, build the record, ping, insert. Every exception is caught. */
  function CreateRequest(db: Db, a: CreateArgs, parse: DateParser, fx: Effects): (r: Updated)
    // at most one document is written, after the stored ones, under a fresh counter value
    ensures r.db == db || (&& |r.db.docs| == |db.docs| + 1 && r.db.docs[..|db.docs|] == db.docs
                           && r.db.nextId == db.nextId + 1)
  {
    match parse(a.startDate)
    case Failure(e) => Updated(db, InternalError(e))
    case Success(start) =>
      match parse(a.endDate)
      case Failure(e) => Updated(db, InternalError(e))
      case Success(end) =>
        var rec := NewRecord(a, start, end, fx.now);
        if fx.dbError.Some? then Updated(db, InternalError(fx.dbError.value))
        else
          match fx.insert
          case InsertRaised(e) => Updated(db, InternalError(e))
          case Acknowledged => Updated(Insert(db, rec), CreatedMessage(RenderId(db.nextId)))
          case Unacknowledged(applied) =>
            Updated(if applied then Insert(db, rec) else db, NotConfirmedMessage)
  }

  /** A date that does not parse, a failed ping or a raising insert: nothing is written, the exception text is reported. */
  lemma CreateErrorsWriteNothing(db: Db, a: CreateArgs, parse: DateParser, fx: Effects)
    ensures var r := CreateRequest(db, a, parse, fx);
            && (parse(a.startDate).Failure? ==> r == Updated(db, InternalError(parse(a.startDate).error)))
            && (parse(a.startDate).Success? && parse(a.endDate).Failure? ==>
                  r == Updated(db, InternalError(parse(a.endDate).error)))
            && (parse(a.startDate).Success? && parse(a.endDate).Success? && fx.dbError.Some? ==>
                  r == Updated(db, InternalError(fx.dbError.value)))
            && ((parse(a.startDate).Success? && parse(a.endDate).Success? && fx.dbError.None? &&
                 fx.insert.InsertRaised?) ==> r == Updated(db, InternalError(fx.insert.error)))
  {
  }

  /** At most one document is added, at the end, under the counter's id, holding a pending request; nothing else changes. */
  lemma CreateAppendsOneRecord(db: Db, a: CreateArgs, parse: DateParser, fx: Effects)
    ensures var r := CreateRequest(db, a, parse, fx);
            r.db == db || (
              && parse(a.startDate).Success? && parse(a.endDate).Success?
              && fx.dbError.None? && !fx.insert.InsertRaised?
              && r.db.nextId == db.nextId + 1
              && |r.db.docs| == |db.docs| + 1
              && r.db.docs[..|db.docs|] == db.docs
              && var d := r.db.docs[|db.docs|];
              && d.id == db.nextId
              && (db.Valid() ==> d.id !in Ids(db.docs))
              && d.record.status == PendingSupervisorApproval
              && d.record.employeeId == a.employeeId
              && d.record.supervisorId == a.supervisorId
              && d.record.leaveType == a.leaveType
              && d.record.reason == a.reason
              && d.record.startDate == parse(a.startDate).value
              && d.record.endDate == parse(a.endDate).value
              && d.record.requestedAt == fx.now
              && d.record.actions == map[] && d.record.rejectionReason.None?)
  {
    var r := CreateRequest(db, a, parse, fx);
    if r.db != db {
      assert r.db.docs[..|db.docs|] == db.docs;
      if db.Valid() {
        assert forall d | d in db.docs :: d.id < db.nextId;
      }
    }
  }

  /** The success text names the new id, and is given exactly when the insert was acknowledged; then a document was added. */
  lemma CreateConfirmsOnlyAcknowledged(db: Db, a: CreateArgs, parse: DateParser, fx: Effects)
    ensures var r := CreateRequest(db, a, parse, fx);
            && (r.message == CreatedMessage(RenderId(db.nextId)) <==>
                  parse(a.startDate).Success? && parse(a.endDate).Success? &&
                  fx.dbError.None? && fx.insert.Acknowledged?)
            && (r.message == CreatedMessage(RenderId(db.nextId)) ==> |r.db.docs| == |db.docs| + 1)
  {
    var r := CreateRequest(db, a, parse, fx);
    CreateMessagesDiffer(RenderId(db.nextId));
    if parse(a.startDate).Failure? {
      assert r.message == InternalError(parse(a.startDate).error);
    } else if parse(a.endDate).Failure? {
      assert r.message == InternalError(parse(a.endDate).error);
    } else if fx.dbError.Some? {
      assert r.message == InternalError(fx.dbError.value);
    } else {
      var rec := NewRecord(a, parse(a.startDate).value, parse(a.endDate).value, fx.now);
      match fx.insert
      case Acknowledged =>
        assert CreateRequest(db, a, parse, fx) == Updated(Insert(db, rec), CreatedMessage(RenderId(db.nextId)));
      case Unacknowledged(applied) =>
        assert CreateRequest(db, a, parse, fx).message == NotConfirmedMessage;
      case InsertRaised(e) =>
        assert CreateRequest(db, a, parse, fx).message == InternalError(e);
    }
  }

  /** No create can make two documents share an id or hand out a used id. */
  lemma CreateKeepsValid(db: Db, a: CreateArgs, parse: DateParser, fx: Effects)
    requires db.Valid()
    ensures CreateRequest(db, a, parse, fx).db.Valid()
  {
    var r := CreateRequest(db, a, parse, fx);
    if r.db != db {
      var d := Document(db.nextId, NewRecord(a, parse(a.startDate).value, parse(a.endDate).value, fx.now));
      assert r.db == Db(db.docs + [d], db.nextId + 1);
    }
  }

  // ---------------------------------------------------------------- approve_or_reject_request

  /** The `$set` document of an update. `rejectionReason` is `None` when the field is not set. */
  datatype SetDoc = SetDoc(status: string, role: string, actionBy: string, actionAt: DateTime,
                           rejectionReason: Option<string>)

  /** The `$set` document the tool builds: `rejection_reason` only when one was given and is non-empty. */
  function BuildSetDoc(a: ApproveArgs, now: DateTime): (u: SetDoc)
    ensures u.status == a.newStatus && u.role == a.approverRole
    ensures u.actionBy == a.approverId && u.actionAt == now
    ensures u.rejectionReason.Some? <==> a.rejectionReason.Some? && a.rejectionReason.value != ""
    ensures u.rejectionReason.Some? ==> u.rejectionReason == a.rejectionReason
  {
    SetDoc(a.newStatus, a.approverRole, a.approverId, now,
           if a.rejectionReason.Some? && a.rejectionReason.value != "" then a.rejectionReason else None)
  }

  /** MongoDB's `$set`: the named fields take the new values, every other field is kept. */
  function ApplySet(rec: LeaveRecord, u: SetDoc): (r: LeaveRecord)
    ensures r.status == u.status
    ensures u.role in r.actions && r.actions[u.role] == Action(u.actionBy, u.actionAt)
    ensures forall role | role in rec.actions && role != u.role :: role in r.actions && r.actions[role] == rec.actions[role]
    ensures r.actions.Keys == rec.actions.Keys + {u.role}
    ensures r.rejectionReason == (if u.rejectionReason.Some? then u.rejectionReason else rec.rejectionReason)
    // no field outside the `$set` changes
    ensures r.(status := rec.status, actions := rec.actions, rejectionReason := rec.rejectionReason) == rec
  {
    rec.(status := u.status,
         actions := rec.actions[u.role := Action(u.actionBy, u.actionAt)],
         rejectionReason := if u.rejectionReason.Some? then u.rejectionReason else rec.rejectionReason)
  }

  /** The effect an update has on the record it matches. No guard on the old status or on the approver. */
  ghost predicate UpdatedBy(before: LeaveRecord, after: LeaveRecord, a: ApproveArgs, now: DateTime) {
    && after.status == a.newStatus
    && after.actions == before.actions[a.approverRole := Action(a.approverId, now)]
    && after.rejectionReason ==
         (if a.rejectionReason.Some? && a.rejectionReason.value != "" then a.rejectionReason
          else before.rejectionReason)
    && after.employeeId == before.employeeId && after.supervisorId == before.supervisorId
    && after.leaveType == before.leaveType && after.startDate == before.startDate
    && after.endDate == before.endDate && after.reason == before.reason
    && after.requestedAt == before.requestedAt
  }

  /** The position of the first document with id `id` (the one `update_one` matches). */
  function IndexOf(docs: seq<Document>, id: nat): (r: Option<nat>)
    ensures r.Some? ==> r.value < |docs| && docs[r.value].id == id
    ensures r.Some? ==> forall j :: 0 <= j < r.value ==> docs[j].id != id
    ensures r.None? <==> id !in Ids(docs)
  {
    if docs == [] then None
    else if docs[0].id == id then Some(0)
    else
      var k := IndexOf(docs[1..], id);
      assert Ids(docs) == {docs[0].id} + Ids(docs[1..]) by {
        assert docs == [docs[0]] + docs[1..];
      }
      if k.Some? then Some(k.value + 1) else None
  }

  /**
   * `approve_or_reject_request`. A `Failure` outcome is an exception escaping the tool: an id
   * that is not 24 hexadecimal digits or a database error, neither of which writes anything, or
   * the read of `modified_count` after an unacknowledged update, which comes after the write.
   */
  function ApproveOrReject(db: Db, a: ApproveArgs, fx: Effects): (r: Approval)
    ensures r.outcome.Failure? <==>
              ParseObjectId(a.requestId).None? || fx.dbError.Some? || fx.update.UpdateUnacknowledged?
    // an update never adds or removes a document, nor uses an id
    ensures |r.db.docs| == |db.docs| && r.db.nextId == db.nextId
  {
    match ParseObjectId(a.requestId)
    case None => Approval(db, Failure(InvalidIdError(a.requestId)))
    case Some(id) =>
      if fx.dbError.Some? then Approval(db, Failure(fx.dbError.value))
      else
        match IndexOf(db.docs, id)
        case None =>
          Approval(db, if fx.update.UpdateUnacknowledged? then Failure(ModifiedCountUnavailable)
                       else Success(FailedUpdateMessage(a.requestId)))
        case Some(i) =>
          var before := db.docs[i].record;
          var after := ApplySet(before, BuildSetDoc(a, fx.now));
          var db' := db.(docs := db.docs[i := Document(id, after)]);
          match fx.update
          case UpdateUnacknowledged(applied) =>
            Approval(if applied then db' else db, Failure(ModifiedCountUnavailable))
          case UpdateAcknowledged =>
            Approval(db', Success(if after != before then UpdatedMessage(a.requestId, a.newStatus)
                                  else FailedUpdateMessage(a.requestId)))
  }

  /**
   * An invalid id or a database error raises and writes nothing; an unacknowledged update raises
   * after its write, which may or may not have landed. Otherwise the store changes exactly when
   * the tool reports a successful update. An id that no document has changes nothing.
   */
  lemma ApproveReportsItsEffect(db: Db, a: ApproveArgs, fx: Effects)
    ensures var r := ApproveOrReject(db, a, fx);
            var id := ParseObjectId(a.requestId);
            && (id.None? ==> r == Approval(db, Failure(InvalidIdError(a.requestId))))
            && (id.Some? && fx.dbError.Some? ==> r == Approval(db, Failure(fx.dbError.value)))
            && (r.outcome.Failure? <==> id.None? || fx.dbError.Some? || fx.update.UpdateUnacknowledged?)
            && (id.Some? && fx.dbError.None? && fx.update.UpdateUnacknowledged? ==>
                  r.outcome == Failure(ModifiedCountUnavailable))
            && (!fx.update.Applied() ==> r.db == db)
            && (r.outcome.Success? ==> (r.db != db <==> r.outcome.value == UpdatedMessage(a.requestId, a.newStatus)))
            && (r.outcome.Success? && r.db == db ==> r.outcome.value == FailedUpdateMessage(a.requestId))
            && (id.Some? && id.value !in Ids(db.docs) ==>
                  r.db == db && (r.outcome.Success? ==> r.outcome.value == FailedUpdateMessage(a.requestId)))
  {
    var id := ParseObjectId(a.requestId);
    if id.Some? && fx.dbError.None? {
      if IndexOf(db.docs, id.value).None? {
      } else {
        var i := IndexOf(db.docs, id.value).value;
        var before := db.docs[i].record;
        var after := ApplySet(before, BuildSetDoc(a, fx.now));
        var db' := db.(docs := db.docs[i := Document(id.value, after)]);
        assert db' == db <==> after == before by {
          if after == before { assert db'.docs == db.docs; }
          if db' == db { assert db'.docs[i] == db.docs[i]; }
        }
        assert UpdatedMessage(a.requestId, a.newStatus)[0] != FailedUpdateMessage(a.requestId)[0];
      }
    }
  }

  /**
   * An update of the document at `i`, the first with the id: when the `$set` lands it replaces
   * that record, and the ids and the counter stay.
   */
  lemma ApproveFound(db: Db, a: ApproveArgs, fx: Effects, i: nat)
    requires db.Valid() && ParseObjectId(a.requestId).Some? && fx.dbError.None?
    requires IndexOf(db.docs, ParseObjectId(a.requestId).value) == Some(i)
    ensures var before := db.docs[i].record;
            var after := ApplySet(before, BuildSetDoc(a, fx.now));
            var db' := Db(db.docs[i := Document(db.docs[i].id, after)], db.nextId);
            && db'.Valid()
            && ApproveOrReject(db, a, fx) ==
                 Approval(if fx.update.Applied() then db' else db,
                          if fx.update.UpdateUnacknowledged? then Failure(ModifiedCountUnavailable)
                          else if after != before then Success(UpdatedMessage(a.requestId, a.newStatus))
                          else Success(FailedUpdateMessage(a.requestId)))
  {
    var db' := Db(db.docs[i := Document(db.docs[i].id, ApplySet(db.docs[i].record, BuildSetDoc(a, fx.now)))], db.nextId);
    assert forall j :: 0 <= j < |db.docs| ==> db'.docs[j].id == db.docs[j].id;
  }

  /**
   * An update of an id some document has, whose `$set` lands: the first document with that id
   * takes the `$set` and no other document changes.
   */
  lemma ApproveUpdatesOneDocument(db: Db, a: ApproveArgs, fx: Effects)
    ensures var r := ApproveOrReject(db, a, fx);
            var id := ParseObjectId(a.requestId);
            id.Some? && fx.dbError.None? && fx.update.Applied() && id.value in Ids(db.docs) ==>
              var i := IndexOf(db.docs, id.value).value;
              && r.db.docs[i].id == db.docs[i].id
              && UpdatedBy(db.docs[i].record, r.db.docs[i].record, a, fx.now)
              && forall j :: 0 <= j < |db.docs| && j != i ==> r.db.docs[j] == db.docs[j]
  {
    var id := ParseObjectId(a.requestId);
    if id.Some? && fx.dbError.None? && fx.update.Applied() && IndexOf(db.docs, id.value).Some? {
      var i := IndexOf(db.docs, id.value).value;
      var r := ApproveOrReject(db, a, fx);
      assert r.db.docs == db.docs[i := Document(id.value, ApplySet(db.docs[i].record, BuildSetDoc(a, fx.now)))];
    }
  }

  /** No update can make two documents share an id or hand out a used id. */
  lemma ApproveKeepsValid(db: Db, a: ApproveArgs, fx: Effects)
    requires db.Valid()
    ensures ApproveOrReject(db, a, fx).db.Valid()
  {
    var id := ParseObjectId(a.requestId);
    if id.Some? && fx.dbError.None? && IndexOf(db.docs, id.value).Some? {
      ApproveFound(db, a, fx, IndexOf(db.docs, id.value).value);
    }
  }

  // ---------------------------------------------------------------- the three queries

  function View(d: Document): DocumentView {
    DocumentView(RenderId(d.id), d.record)
  }

  /**
   * `find(filter)` followed by the `_id` to text rewrite: the documents the filter accepts,
   * each exactly once, in insertion order.
   */
  function Select(docs: seq<Document>, keep: Document -> bool): (r: seq<DocumentView>)
    ensures forall d :: d in docs && keep(d) ==> View(d) in r
    ensures forall v :: v in r ==> exists d :: d in docs && keep(d) && View(d) == v
  {
    if docs == [] then []
    else
      var n := |docs| - 1;
      var rest := Select(docs[..n], keep);
      var last := docs[n];
      assert forall d :: d in docs ==> d in docs[..n] || d == last;
      if keep(last) then rest + [View(last)] else rest
  }

  /** `Select` lists the accepted documents each exactly once, in insertion order. */
  lemma {:induction false} SelectListsEachOnce(docs: seq<Document>, keep: Document -> bool)
    ensures FilterMaps(Select(docs, keep), docs, keep, View)
    decreases |docs|
  {
    if docs != [] {
      var n := |docs| - 1;
      SelectListsEachOnce(docs[..n], keep);
      FilterMapsSnoc(Select(docs[..n], keep), docs, keep, View);
    }
  }

  /** The filter of `get_my_leave_requests`. */
  function OfEmployee(employeeId: string): Document -> bool {
    (d: Document) => d.record.employeeId == employeeId
  }

  /** The filter of `get_pending_supervisor_requests`. */
  function AwaitingSupervisor(supervisorId: string): Document -> bool {
    (d: Document) => d.record.supervisorId == supervisorId && d.record.status == PendingSupervisorApproval
  }

  /** The filter of `get_pending_hr_requests`. */
  function AwaitingHr(): Document -> bool {
    (d: Document) => d.record.status == ApprovedBySupervisor
  }

  /** `get_my_leave_requests(e)`: exactly the documents whose employee is `e`, each once, in insertion order. */
  function GetMyLeaveRequests(db: Db, employeeId: string): (r: seq<DocumentView>)
    ensures FilterMaps(r, db.docs, OfEmployee(employeeId), View)
    ensures forall d :: d in db.docs ==> (View(d) in r <==> d.record.employeeId == employeeId)
    ensures forall v :: v in r ==> v.record.employeeId == employeeId && exists d :: d in db.docs && View(d) == v
  {
    SelectListsEachOnce(db.docs, OfEmployee(employeeId));
    Select(db.docs, OfEmployee(employeeId))
  }

  /** `get_pending_supervisor_requests(s)`: exactly the documents of supervisor `s` still awaiting them, each once, in insertion order. */
  function GetPendingSupervisorRequests(db: Db, supervisorId: string): (r: seq<DocumentView>)
    ensures FilterMaps(r, db.docs, AwaitingSupervisor(supervisorId), View)
    ensures forall d :: d in db.docs ==>
              (View(d) in r <==> d.record.supervisorId == supervisorId && d.record.status == PendingSupervisorApproval)
    ensures forall v :: v in r ==>
              && v.record.supervisorId == supervisorId && v.record.status == PendingSupervisorApproval
              && exists d :: d in db.docs && View(d) == v
  {
    SelectListsEachOnce(db.docs, AwaitingSupervisor(supervisorId));
    Select(db.docs, AwaitingSupervisor(supervisorId))
  }

  /** `get_pending_hr_requests()`: exactly the documents approved by a supervisor, whoever the supervisor, each once, in insertion order. */
  function GetPendingHrRequests(db: Db): (r: seq<DocumentView>)
    ensures FilterMaps(r, db.docs, AwaitingHr(), View)
    ensures forall d :: d in db.docs ==> (View(d) in r <==> d.record.status == ApprovedBySupervisor)
    ensures forall v :: v in r ==> v.record.status == ApprovedBySupervisor && exists d :: d in db.docs && View(d) == v
  {
    SelectListsEachOnce(db.docs, AwaitingHr());
    Select(db.docs, AwaitingHr())
  }

  // ---------------------------------------------------------------- the tools and their argument schemas

  datatype Tool =
    | CreateLeaveRequestTool
    | GetMyLeaveRequestsTool
    | GetPendingSupervisorRequestsTool
    | GetPendingHrRequestsTool
    | ApproveOrRejectRequestTool

  /** The name each tool is registered under. */
  function Name(t: Tool): string {
    match t
    case CreateLeaveRequestTool => "create_leave_request"
    case GetMyLeaveRequestsTool => "get_my_leave_requests"
    case GetPendingSupervisorRequestsTool => "get_pending_supervisor_requests"
    case GetPendingHrRequestsTool => "get_pending_hr_requests"
    case ApproveOrRejectRequestTool => "approve_or_reject_request"
  }

  /** Arguments of a tool call as the language model sends them: field name to text. */
  type Args = map<string, string>

  /** What a tool returns: a text, or a list of documents. */
  datatype ToolOutput = Text(text: string) | RecordList(records: seq<DocumentView>)

  /** The text of the validation error for a required field that is missing. */
  function MissingField(schema: string, field: string): string {
    "1 validation error for " + schema + "\n" + field + "\n  field required (type=value_error.missing)"
  }

  function Required(args: Args, schema: string, field: string): (r: Result<string, string>)
    ensures r.Success? <==> field in args
    ensures r.Success? ==> r.value == args[field]
    ensures r.Failure? ==> r.error == MissingField(schema, field)
  {
    if field in args then Success(args[field]) else Failure(MissingField(schema, field))
  }

  function Optional(args: Args, field: string): Option<string> {
    if field in args then Some(args[field]) else None
  }

  /** Validation against `CreateLeaveRequestInput`: five required fields, `reason` optional. */
  function BindCreate(args: Args): (r: Result<CreateArgs, string>)
    ensures r.Success? <==>
              "employee_id" in args && "supervisor_id" in args && "leave_type" in args &&
              "start_date" in args && "end_date" in args
    ensures r.Success? ==>
              r.value == CreateArgs(args["employee_id"], args["supervisor_id"], args["leave_type"],
                                    args["start_date"], args["end_date"], Optional(args, "reason"))
  {
    var schema := "CreateLeaveRequestInput";
    match Required(args, schema, "employee_id")
    case Failure(e) => Failure(e)
    case Success(employeeId) =>
      match Required(args, schema, "supervisor_id")
      case Failure(e) => Failure(e)
      case Success(supervisorId) =>
        match Required(args, schema, "leave_type")
        case Failure(e) => Failure(e)
        case Success(leaveType) =>
          match Required(args, schema, "start_date")
          case Failure(e) => Failure(e)
          case Success(startDate) =>
            match Required(args, schema, "end_date")
            case Failure(e) => Failure(e)
            case Success(endDate) =>
              Success(CreateArgs(employeeId, supervisorId, leaveType, startDate, endDate, Optional(args, "reason")))
  }

  /** Validation against `ApproveRejectRequestInput`: four required fields, `rejection_reason` optional. */
  function BindApprove(args: Args): (r: Result<ApproveArgs, string>)
    ensures r.Success? <==>
              "request_id" in args && "new_status" in args && "approver_id" in args && "approver_role" in args
    ensures r.Success? ==>
              r.value == ApproveArgs(args["request_id"], args["new_status"], args["approver_id"],
                                     args["approver_role"], Optional(args, "rejection_reason"))
  {
    var schema := "ApproveRejectRequestInput";
    match Required(args, schema, "request_id")
    case Failure(e) => Failure(e)
    case Success(requestId) =>
      match Required(args, schema, "new_status")
      case Failure(e) => Failure(e)
      case Success(newStatus) =>
        match Required(args, schema, "approver_id")
        case Failure(e) => Failure(e)
        case Success(approverId) =>
          match Required(args, schema, "approver_role")
          case Failure(e) => Failure(e)
          case Success(approverRole) =>
            Success(ApproveArgs(requestId, newStatus, approverId, approverRole, Optional(args, "rejection_reason")))
  }

  /** The store after a tool call and what the call returned or raised. */
  datatype Invocation = Invocation(db: Db, outcome: Result<ToolOutput, string>)

  /** `tool.invoke(args)`: validate the arguments against the tool's schema, then run the tool. */
  function InvokeTool(db: Db, tool: Tool, args: Args, parse: DateParser, fx: Effects): (r: Invocation)
    // a call that raises writes nothing, unless it is an update sent without acknowledgement;
    // the query tools never write
    ensures r.outcome.Failure? && (tool != ApproveOrRejectRequestTool || fx.update.UpdateAcknowledged?) ==> r.db == db
    ensures tool != CreateLeaveRequestTool && tool != ApproveOrRejectRequestTool ==> r.db == db
  {
    match tool
    case CreateLeaveRequestTool =>
      (match BindCreate(args)
       case Failure(e) => Invocation(db, Failure(e))
       case Success(a) =>
         var u := CreateRequest(db, a, parse, fx);
         Invocation(u.db, Success(Text(u.message))))
    case GetMyLeaveRequestsTool =>
      (match Required(args, "GetMyLeaveRequestsInput", "employee_id")
       case Failure(e) => Invocation(db, Failure(e))
       case Success(employeeId) =>
         if fx.dbError.Some? then Invocation(db, Failure(fx.dbError.value))
         else Invocation(db, Success(RecordList(GetMyLeaveRequests(db, employeeId)))))
    case GetPendingSupervisorRequestsTool =>
      (match Required(args, "GetPendingSupervisorRequestsInput", "supervisor_id")
       case Failure(e) => Invocation(db, Failure(e))
       case Success(supervisorId) =>
         if fx.dbError.Some? then Invocation(db, Failure(fx.dbError.value))
         else Invocation(db, Success(RecordList(GetPendingSupervisorRequests(db, supervisorId)))))
    case GetPendingHrRequestsTool =>
      if fx.dbError.Some? then Invocation(db, Failure(fx.dbError.value))
      else Invocation(db, Success(RecordList(GetPendingHrRequests(db))))
    case ApproveOrRejectRequestTool =>
      (match BindApprove(args)
       case Failure(e) => Invocation(db, Failure(e))
       case Success(a) =>
         var u := ApproveOrReject(db, a, fx);
         Invocation(u.db, if u.outcome.Success? then Success(Text(u.outcome.value)) else Failure(u.outcome.error)))
  }

  // ---------------------------------------------------------------- properties relating several operations

  /**
   * A call that raises writes nothing, except an unacknowledged update, which raises after its
   * write; only the two writing tools change the store, and create catches every exception of
   * its own: only a validation error escapes it.
   */
  lemma InvokeToolWrites(db: Db, tool: Tool, args: Args, parse: DateParser, fx: Effects)
    ensures var r := InvokeTool(db, tool, args, parse, fx);
            && (r.outcome.Failure? && (tool != ApproveOrRejectRequestTool || fx.update.UpdateAcknowledged?) ==> r.db == db)
            && (tool == ApproveOrRejectRequestTool && r.outcome.Failure? && r.db != db ==>
                  BindApprove(args).Success? && fx.dbError.None? && fx.update.UpdateUnacknowledged?)
            && (tool != CreateLeaveRequestTool && tool != ApproveOrRejectRequestTool ==> r.db == db)
            && (tool == CreateLeaveRequestTool && BindCreate(args).Success? ==> r.outcome.Success?)
  {
  }

  /** No tool call can make two documents share an id or hand out a used id. */
  lemma InvokeToolKeepsValid(db: Db, tool: Tool, args: Args, parse: DateParser, fx: Effects)
    requires db.Valid()
    ensures InvokeTool(db, tool, args, parse, fx).db.Valid()
  {
    match tool
    case CreateLeaveRequestTool =>
      if BindCreate(args).Success? {
        CreateKeepsValid(db, BindCreate(args).value, parse, fx);
      }
    case ApproveOrRejectRequestTool =>
      if BindApprove(args).Success? {
        ApproveKeepsValid(db, BindApprove(args).value, fx);
      }
    case _ =>
  }

  /** A request just created is what its employee sees, and what its supervisor sees as pending. */
  lemma CreatedRequestIsVisible(db: Db, a: CreateArgs, parse: DateParser, fx: Effects)
    requires CreateRequest(db, a, parse, fx).message == CreatedMessage(RenderId(db.nextId))
    ensures |CreateRequest(db, a, parse, fx).db.docs| == |db.docs| + 1
    ensures var db' := CreateRequest(db, a, parse, fx).db;
            var v := View(db'.docs[|db.docs|]);
            && v.id == RenderId(db.nextId)
            && v in GetMyLeaveRequests(db', a.employeeId)
            && v in GetPendingSupervisorRequests(db', a.supervisorId)
            && v !in GetPendingHrRequests(db')
  {
    CreateConfirmsOnlyAcknowledged(db, a, parse, fx);
    CreateAppendsOneRecord(db, a, parse, fx);
    var db' := CreateRequest(db, a, parse, fx).db;
    assert db'.docs[|db.docs|] in db'.docs;
  }

  /** An update to `approved_by_supervisor` that lands puts the record on HR's list, whatever its status was before. */
  lemma ApprovedRequestReachesHr(db: Db, a: ApproveArgs, fx: Effects)
    requires a.newStatus == ApprovedBySupervisor
    requires ParseObjectId(a.requestId).Some? && fx.dbError.None? && fx.update.Applied()
    requires ParseObjectId(a.requestId).value in Ids(db.docs)
    ensures var db' := ApproveOrReject(db, a, fx).db;
            var i := IndexOf(db.docs, ParseObjectId(a.requestId).value).value;
            && View(db'.docs[i]) in GetPendingHrRequests(db')
            && View(db'.docs[i]) !in GetPendingSupervisorRequests(db', db.docs[i].record.supervisorId)
  {
    ApproveUpdatesOneDocument(db, a, fx);
    var db' := ApproveOrReject(db, a, fx).db;
    var i := IndexOf(db.docs, ParseObjectId(a.requestId).value).value;
    assert db'.docs[i] in db'.docs;
  }

  /**
   * No transition guard: a record in any status, approved by anyone, takes any new status. The
   * tool raises only when the update is not acknowledged.
   */
  lemma AnyStatusCanBeOverwritten(db: Db, i: nat, newStatus: string, approverId: string, role: string, fx: Effects)
    requires db.Valid() && i < |db.docs| && db.docs[i].id < IdSpace && fx.dbError.None?
    ensures var a := ApproveArgs(RenderId(db.docs[i].id), newStatus, approverId, role, None);
            var r := ApproveOrReject(db, a, fx);
            && (r.outcome.Success? <==> fx.update.UpdateAcknowledged?)
            && (fx.update.Applied() ==>
                  && r.db.docs[i].record.status == newStatus
                  && role in r.db.docs[i].record.actions
                  && r.db.docs[i].record.actions[role] == Action(approverId, fx.now))
  {
    var id := db.docs[i].id;
    IdRoundTrip(id);
    assert db.docs[i] in db.docs;
    assert IndexOf(db.docs, id).value == i;
    ApproveUpdatesOneDocument(db, ApproveArgs(RenderId(id), newStatus, approverId, role, None), fx);
  }

  /** Two updates of one record: the later status wins, and the earlier role's audit fields stay. */
  lemma LaterUpdateWins(db: Db, a1: ApproveArgs, a2: ApproveArgs, fx1: Effects, fx2: Effects)
    requires db.Valid()
    requires a1.requestId == a2.requestId && a1.approverRole != a2.approverRole
    requires ParseObjectId(a1.requestId).Some? && ParseObjectId(a1.requestId).value in Ids(db.docs)
    requires fx1.dbError.None? && fx1.update.Applied() && fx2.dbError.None? && fx2.update.Applied()
    ensures var db1 := ApproveOrReject(db, a1, fx1).db;
            var db2 := ApproveOrReject(db1, a2, fx2).db;
            var i := IndexOf(db.docs, ParseObjectId(a1.requestId).value).value;
            && db2.docs[i].record.status == a2.newStatus
            && a1.approverRole in db2.docs[i].record.actions && a2.approverRole in db2.docs[i].record.actions
            && db2.docs[i].record.actions[a1.approverRole] == Action(a1.approverId, fx1.now)
            && db2.docs[i].record.actions[a2.approverRole] == Action(a2.approverId, fx2.now)
  {
    var id := ParseObjectId(a1.requestId).value;
    var db1 := ApproveOrReject(db, a1, fx1).db;
    ApproveUpdatesOneDocument(db, a1, fx1);
    var i := IndexOf(db.docs, id).value;
    assert db1.docs[i].id == id;
    assert db1.docs[i] in db1.docs;
    assert IndexOf(db1.docs, id).value == i;
    ApproveUpdatesOneDocument(db1, a2, fx2);
  }

  // ---------------------------------------------------------------- the collection as an object

  /** The `leave_requests` collection, updated in place by the two writing tools. */
  class LeaveRequestStore {
    var docs: seq<Document>
    var nextId: nat

    function Value(): Db
      reads this
    {
      Db(docs, nextId)
    }

    ghost predicate Valid()
      reads this
    {
      Value().Valid()
    }

    constructor ()
      ensures Valid() && Value() == Db([], 0)
    {
      docs := [];
      nextId := 0;
    }

    method CreateLeaveRequest(a: CreateArgs, parse: DateParser, fx: Effects) returns (message: string)
      requires Valid()
      modifies this
      ensures Valid()
      ensures Updated(Value(), message) == CreateRequest(old(Value()), a, parse, fx)
    {
      var start := parse(a.startDate);
      if start.Failure? {
        return InternalError(start.error);
      }
      var end := parse(a.endDate);
      if end.Failure? {
        return InternalError(end.error);
      }
      var rec := NewRecord(a, start.value, end.value, fx.now);
      if fx.dbError.Some? {
        return InternalError(fx.dbError.value);
      }
      match fx.insert
      case InsertRaised(e) =>
        message := InternalError(e);
      case Acknowledged =>
        var id := nextId;
        docs := docs + [Document(id, rec)];
        nextId := nextId + 1;
        message := CreatedMessage(RenderId(id));
      case Unacknowledged(applied) =>
        if applied {
          docs := docs + [Document(nextId, rec)];
          nextId := nextId + 1;
        }
        message := NotConfirmedMessage;
    }

    method ApproveOrRejectRequest(a: ApproveArgs, fx: Effects) returns (r: Result<string, string>)
      requires Valid()
      modifies this
      ensures Valid()
      ensures Approval(Value(), r) == ApproveOrReject(old(Value()), a, fx)
    {
      var update := SetDoc(a.newStatus, a.approverRole, a.approverId, fx.now, None);
      if a.rejectionReason.Some? && a.rejectionReason.value != "" {
        update := update.(rejectionReason := a.rejectionReason);
      }
      assert update == BuildSetDoc(a, fx.now);
      var id := ParseObjectId(a.requestId);
      if id.None? {
        return Failure(InvalidIdError(a.requestId));
      }
      if fx.dbError.Some? {
        return Failure(fx.dbError.value);
      }
      var i := IndexOf(docs, id.value);
      if i.None? {
        if fx.update.UpdateUnacknowledged? {
          return Failure(ModifiedCountUnavailable);
        }
        return Success(FailedUpdateMessage(a.requestId));
      }
      var before := docs[i.value].record;
      var after := ApplySet(before, update);
      ApproveFound(Value(), a, fx, i.value);
      if fx.update.Applied() {
        docs := docs[i.value := Document(id.value, after)];
      }
      if fx.update.UpdateUnacknowledged? {
        r := Failure(ModifiedCountUnavailable);
      } else if after != before {
        r := Success(UpdatedMessage(a.requestId, a.newStatus));
      } else {
        r := Success(FailedUpdateMessage(a.requestId));
      }
    }

    /** `tool.invoke(args)` on this collection. */
    method Invoke(tool: Tool, args: Args, parse: DateParser, fx: Effects) returns (outcome: Result<ToolOutput, string>)
      requires Valid()
      modifies this
      ensures Valid()
      ensures Invocation(Value(), outcome) == InvokeTool(old(Value()), tool, args, parse, fx)
    {
      match tool
      case CreateLeaveRequestTool =>
        var a := BindCreate(args);
        if a.Failure? {
          return Failure(a.error);
        }
        var message := CreateLeaveRequest(a.value, parse, fx);
        outcome := Success(Text(message));
      case ApproveOrRejectRequestTool =>
        var a := BindApprove(args);
        if a.Failure? {
          return Failure(a.error);
        }
        var r := ApproveOrRejectRequest(a.value, fx);
        outcome := if r.Success? then Success(Text(r.value)) else Failure(r.error);
      case _ =>
        outcome := InvokeTool(Value(), tool, args, parse, fx).outcome;
    }
  }
}
