/**
 * The audit recorder: the SQLAlchemy `after_insert`/`after_update`/`after_delete`
 * listeners that turn persistence events of the audited classes into rows of
 * the `audit_logs` table.
 *
 * A target is the flushed object: its class, its primary key and its column
 * attributes as held in memory. The `details` column is the JSON text of a
 * dictionary; the model keeps the dictionary itself.
 */
module Audit {
  import opened Wrappers
  import opened Text
  import opened Models

  datatype Action = Insert | Update | Delete

  function ActionName(a: Action): string {
    match a
    case Insert => "INSERT"
    case Update => "UPDATE"
    case Delete => "DELETE"
  }

  /** Where the event happens: outside any request, or in one with its logged-in user and remote address. */
  datatype Context = NoRequest | InRequest(principal: Option<Id>, remoteAddr: string)

  /** `get_current_user_id()`. */
  function CurrentUserId(ctx: Context): Option<Id> {
    if ctx.InRequest? && ctx.principal.Some? then ctx.principal else None
  }

  /** `get_ip_address()`. */
  function IpAddress(ctx: Context): string {
    if ctx.InRequest? then ctx.remoteAddr else "system"
  }

  /** The flushed object. */
  datatype Target = Target(kind: ModelKind, id: Id, row: Row)

  /** The attribute history of one column: values added, unchanged and deleted in this flush. */
  datatype History = History(added: seq<Value>, unchangedValues: seq<Value>, deleted: seq<Value>)

  /** `History.has_changes()`. */
  predicate HasChanges(h: History) {
    |h.added| > 0 || |h.deleted| > 0
  }

  /** The `{'old': …, 'new': …}` pair. */
  datatype Change = Change(oldValue: Value, newValue: Value)

  /** `{'old': hist.deleted[0] if hist.deleted else None, 'new': hist.added[0] if hist.added else None}`. */
  function ChangeOf(h: History): Change {
    Change(if |h.deleted| > 0 then h.deleted[0] else Null, if |h.added| > 0 then h.added[0] else Null)
  }

  /** The `details` dictionary: a full snapshot, or a per-column diff. */
  datatype Details = Snapshot(row: Row) | Changes(diff: map<Column, Change>)

  /** Python truthiness of the dictionary. */
  predicate NonEmpty(d: Details) {
    match d
    case Snapshot(row) => row != map[]
    case Changes(diff) => diff != map[]
  }

  /** A row of `audit_logs` (its own `id` left out). */
  datatype Entry = Entry(
    userId: Option<Id>,
    action: string,
    resourceType: string,
    resourceId: string,
    details: Option<Details>,
    ipAddress: string,
    timestamp: int)

  /** The `log_data` dictionary `create_audit_log` builds. */
  function LogData(action: Action, target: Target, details: Option<Details>, ctx: Context, now: int): Entry {
    Entry(
      CurrentUserId(ctx),
      ActionName(action),
      ClassName(target.kind),
      IntToDecimal(target.id),
      if details.Some? && NonEmpty(details.value) then details else None,
      IpAddress(ctx),
      now)
  }

  /** The rows one call of `create_audit_log` adds, when it has a connection and the insert does not fail. */
  function NewEntries(action: Action, target: Target, details: Option<Details>, ctx: Context, now: int): (r: seq<Entry>)
    ensures |r| <= 1
    ensures target.kind == AuditLogModel ==> r == []
  {
    if target.kind == AuditLogModel then [] else [LogData(action, target, details, ctx, now)]
  }

  /** The per-column diff `after_update_listener` builds. */
  function Diff(columns: seq<Column>, hist: map<Column, History>): map<Column, Change>
    requires forall c :: c in columns ==> c in hist
  {
    map c | c in columns && HasChanges(hist[c]) :: ChangeOf(hist[c])
  }

  /** The rows an update event adds: none when no column changed. */
  function UpdateEntries(target: Target, columns: seq<Column>, hist: map<Column, History>, ctx: Context, now: int): seq<Entry>
    requires forall c :: c in columns ==> c in hist
  {
    var d := Diff(columns, hist);
    if d == map[] then [] else NewEntries(Update, target, Some(Changes(d)), ctx, now)
  }

  /** The `audit_logs` table, which the listeners only ever append to. */
  class AuditTable {
    var rows: seq<Entry>

    constructor ()
      ensures rows == []
    {
      rows := [];
    }
  }

  /**
   * `create_audit_log(action, target, details, connection)`. `connection` is
   * `null` when none is given; `fails` says whether the insert raises, which the
   * `except` clause swallows, so the call always returns normally.
   */
  method CreateAuditLog(action: Action, target: Target, details: Option<Details>, connection: AuditTable?,
                        ctx: Context, now: int, fails: bool)
    modifies connection
    ensures connection != null ==>
      connection.rows == old(connection.rows) + (if fails then [] else NewEntries(action, target, details, ctx, now))
  {
    if target.kind == AuditLogModel {
      return;
    }
    var entry := LogData(action, target, details, ctx, now);
    if connection != null && !fails {
      connection.rows := connection.rows + [entry];
    }
  }

  /** `after_insert_listener`: a snapshot of every column attribute. */
  method AfterInsert(connection: AuditTable?, target: Target, ctx: Context, now: int, fails: bool)
    modifies connection
    ensures connection != null ==>
      connection.rows == old(connection.rows) + (if fails then [] else NewEntries(Insert, target, Some(Snapshot(target.row)), ctx, now))
  {
    CreateAuditLog(Insert, target, Some(Snapshot(target.row)), connection, ctx, now, fails);
  }

  /** `after_delete_listener`: a snapshot of every column attribute. */
  method AfterDelete(connection: AuditTable?, target: Target, ctx: Context, now: int, fails: bool)
    modifies connection
    ensures connection != null ==>
      connection.rows == old(connection.rows) + (if fails then [] else NewEntries(Delete, target, Some(Snapshot(target.row)), ctx, now))
  {
    CreateAuditLog(Delete, target, Some(Snapshot(target.row)), connection, ctx, now, fails);
  }

  /** The loop of `after_update_listener` over `mapper.column_attrs`. */
  method CollectChanges(columns: seq<Column>, hist: map<Column, History>) returns (changes: map<Column, Change>)
    requires forall c :: c in columns ==> c in hist
    ensures forall c :: c in changes <==> c in columns && HasChanges(hist[c])
    ensures forall c :: c in changes ==> changes[c] == ChangeOf(hist[c])
  {
    changes := map[];
    var i := 0;
    while i < |columns|
      invariant 0 <= i <= |columns|
      invariant forall c :: c in changes <==> c in columns[..i] && HasChanges(hist[c])
      invariant forall c :: c in changes ==> changes[c] == ChangeOf(hist[c])
    {
      var c := columns[i];
      if HasChanges(hist[c]) {
        changes := changes[c := ChangeOf(hist[c])];
      }
      assert columns[..i + 1] == columns[..i] + [c];
      i := i + 1;
    }
    assert columns[..i] == columns;
  }

  /** `after_update_listener`: the diff of the changed columns, and no entry at all when none changed. */
  method AfterUpdate(connection: AuditTable?, target: Target, columns: seq<Column>, hist: map<Column, History>,
                     ctx: Context, now: int, fails: bool)
    requires forall c :: c in columns ==> c in hist
    modifies connection
    ensures connection != null ==>
      connection.rows == old(connection.rows) + (if fails then [] else UpdateEntries(target, columns, hist, ctx, now))
  {
    var changes := CollectChanges(columns, hist);
    assert changes == Diff(columns, hist);
    if changes != map[] {
      CreateAuditLog(Update, target, Some(Changes(changes)), connection, ctx, now, fails);
    }
  }

  /** The listeners SQLAlchemy holds: which (class, event) pairs have an audit listener. */
  class Registry {
    var listeners: set<(ModelKind, Action)>

    constructor ()
      ensures listeners == {}
    {
      listeners := {};
    }

    predicate Listens(m: ModelKind, a: Action)
      reads this
    {
      (m, a) in listeners
    }

    /** `register_audit_listeners(models)`: all three events of every given class. */
    method RegisterAuditListeners(models: seq<ModelKind>)
      modifies this
      ensures forall m, a :: Listens(m, a) <==> old(Listens(m, a)) || m in models
    {
      var i := 0;
      while i < |models|
        invariant 0 <= i <= |models|
        invariant forall m, a :: Listens(m, a) <==> old(Listens(m, a)) || m in models[..i]
      {
        var m := models[i];
        listeners := listeners + {(m, Insert), (m, Update), (m, Delete)};
        forall a: Action ensures (m, a) in listeners {
          if a.Insert? { } else if a.Update? { } else { }
        }
        assert models[..i + 1] == models[..i] + [m];
        i := i + 1;
      }
      assert models[..i] == models;
    }
  }

  // ---------------------------------------------------------------------------
  // Properties

  /** Audit rows are never themselves audited, whatever the event. */
  lemma AuditLogNeverAudited(action: Action, target: Target, columns: seq<Column>, hist: map<Column, History>,
                             details: Option<Details>, ctx: Context, now: int)
    requires target.kind == AuditLogModel
    requires forall c :: c in columns ==> c in hist
    ensures NewEntries(action, target, details, ctx, now) == []
    ensures UpdateEntries(target, columns, hist, ctx, now) == []
  {
  }

  /** The entry of an insert or delete names its resource and carries every column attribute with its current value. */
  lemma SnapshotEntry(action: Action, target: Target, ctx: Context, now: int)
    requires target.kind != AuditLogModel && target.row != map[]
    ensures var es := NewEntries(action, target, Some(Snapshot(target.row)), ctx, now);
            && |es| == 1
            && es[0].action == ActionName(action)
            && es[0].resourceType == ClassName(target.kind)
            && ParseIntOfDecimalText(es[0].resourceId) == target.id
            && es[0].details == Some(Snapshot(target.row))
  {
    ParseIntOfDecimal(target.id);
  }

  /** Reads `str(n)` back; used to say that `resource_id` identifies the object. */
  function ParseIntOfDecimalText(s: string): int {
    if (|s| > 0 && s[0] == '-' && AllDigits(s[1..])) || AllDigits(s) then ParseInt(s) else 0
  }

  /** `user_id` is set exactly inside a request with a logged-in user; `ip_address` is `'system'` outside a request. */
  lemma EntryAttribution(action: Action, target: Target, details: Option<Details>, ctx: Context, now: int)
    requires target.kind != AuditLogModel
    ensures var e := NewEntries(action, target, details, ctx, now)[0];
            && (e.userId.Some? <==> ctx.InRequest? && ctx.principal.Some?)
            && (e.userId.Some? ==> e.userId == ctx.principal)
            && (ctx.NoRequest? ==> e.ipAddress == "system")
            && (ctx.InRequest? ==> e.ipAddress == ctx.remoteAddr)
  {
  }

  /** An empty dictionary is stored as `None`. */
  lemma EmptyDetailsStoredAsNone(action: Action, target: Target, d: Details, ctx: Context, now: int)
    requires target.kind != AuditLogModel && !NonEmpty(d)
    ensures NewEntries(action, target, Some(d), ctx, now)[0].details == None
  {
  }

  /** An update is logged exactly when some column has history changes, and the logged diff has exactly those columns. */
  lemma UpdateLoggedIffChanged(target: Target, columns: seq<Column>, hist: map<Column, History>, ctx: Context, now: int)
    requires target.kind != AuditLogModel
    requires forall c :: c in columns ==> c in hist
    ensures |UpdateEntries(target, columns, hist, ctx, now)| == 1 <==> exists c :: c in columns && HasChanges(hist[c])
    ensures UpdateEntries(target, columns, hist, ctx, now) == [] <==> forall c :: c in columns ==> !HasChanges(hist[c])
    ensures var es := UpdateEntries(target, columns, hist, ctx, now);
            |es| == 1 ==>
              (&& es[0].action == "UPDATE" && es[0].details.Some? && es[0].details.value.Changes?
               && (forall c :: c in es[0].details.value.diff <==> c in columns && HasChanges(hist[c])))
  {
    var d := Diff(columns, hist);
    if exists c :: c in columns && HasChanges(hist[c]) {
      var c :| c in columns && HasChanges(hist[c]);
      assert c in d;
    } else {
      assert d == map[];
    }
  }

  /** The snapshot of a `User` is not empty and holds its `phone` attribute. */
  lemma UserRowPhone(id: Id, u: User)
    ensures "id" in UserRow(id, u) && UserRow(id, u)["phone"] == OptStr(u.phone)
  {
  }

  /**
   * The snapshot of a `User` holds the in-memory, decrypted values of its
   * `EncryptedString` columns, and it lands in `details`, which is not an
   * encrypted column: the phone number is written to the audit table in
   * the clear while the `users` table stores a token that differs from it.
   */
  lemma AuditDetailsHoldPlaintext(c: Encryption.Cipher, aead: Encryption.Aead, id: Id, u: User, phone: string,
                                  nonce: Bytes, ctx: Context, now: int)
    requires Encryption.Sound(aead) && |nonce| == Encryption.NonceLength
    requires u.phone == Some(phone)
    ensures var e := NewEntries(Insert, Target(UserModel, id, UserRow(id, u)), Some(Snapshot(UserRow(id, u))), ctx, now)[0];
            && e.details.Some? && e.details.value.Snapshot?
            && e.details.value.row["phone"] == Str(phone)
            && "phone" in EncryptedColumns(UserModel)
            && "details" !in EncryptedColumns(AuditLogModel)
            && BindParam(c, aead, u.phone, nonce) != Some(phone)
  {
    WriteThenRead(c, aead, phone, nonce);
    UserRowPhone(id, u);
  }
}
