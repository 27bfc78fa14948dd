/**
 The two message data sources: which cell kind renders a message type, the
 iOS cell provider's class check, and the macOS table data source that holds
 a snapshot and builds row views.
 */
module DataSource {
  import opened Wrappers
  import opened MessageModel
  import opened Snapshot

  /** The three cell classes: user message, chatbot message, loading. */
  datatype CellKind = UserCell | BotCell | LoadingCell

  /** The switch over `message.type` both data sources share. */
  function CellKindFor(t: MessageType): (k: CellKind)
    ensures k == UserCell <==> (t == User || t == Placeholder(ForUser))
    ensures k == BotCell <==> (t == Bot || t == Placeholder(ForBot))
    ensures k == LoadingCell <==> t == Placeholder(ForLoading)
  {
    match t
    case User => UserCell
    case Placeholder(ForUser) => UserCell
    case Bot => BotCell
    case Placeholder(ForBot) => BotCell
    case Placeholder(ForLoading) => LoadingCell
  }

  /**
   The iOS cell provider: the table view dequeues a cell of class `dequeued`
   for the message type's identifier; a cell that is not of the expected class
   gives no cell.
   */
  function IOSCellFor(m: UIMessage, dequeued: CellKind): (r: Option<CellKind>)
    ensures r.Some? <==> dequeued == CellKindFor(m.messageType)
    ensures r.Some? ==> r.value == CellKindFor(m.messageType)
  {
    if dequeued == CellKindFor(m.messageType) then Some(dequeued) else None
  }

  /** The reuse identifiers of the three cell classes the macOS data source is given. */
  datatype CellIdentifiers = CellIdentifiers(user: string, bot: string, loading: string)

  function IdentifierOf(ids: CellIdentifiers, k: CellKind): string
  {
    match k
    case UserCell => ids.user
    case BotCell => ids.bot
    case LoadingCell => ids.loading
  }

  /** A row view: its class and its identifier, if it has one. */
  datatype CellView = CellView(kind: CellKind, identifier: Option<string>)

  /** The macOS data source state: the snapshot last applied. */
  datatype MacDataSource = MacDataSource(snapshot: MessageSnapshot)

  /** `applySnapshot(_:animatingDifferences:)`: the stored snapshot is replaced wholesale (either way the table reloads). */
  function ApplySnapshot(ds: MacDataSource, s: MessageSnapshot, animatingDifferences: bool): (r: MacDataSource)
    ensures r.snapshot == s
  {
    MacDataSource(s)
  }

  /** `numberOfRows(in:)`. */
  function NumberOfRows(ds: MacDataSource): (n: nat)
    ensures n == |ds.snapshot.items|
    ensures n == 0 <==> ds.snapshot.items == []
  {
    |ds.snapshot.items|
  }

  /**
   `tableView(_:viewFor:row:)`. `made` is what `makeView(withIdentifier:)`
   returned. A row past the end gives no view; a made view of the wrong class
   is replaced by a fresh cell of the right class; a view without an
   identifier is given the one the message type chose.
   */
  function MacViewFor(ds: MacDataSource, ids: CellIdentifiers, row: nat, made: Option<CellView>): (r: Option<CellView>)
    ensures r.None? <==> row >= NumberOfRows(ds)
    ensures r.Some? ==> r.value.kind == CellKindFor(ds.snapshot.items[row].messageType)
    ensures r.Some? ==> r.value.identifier.Some?
    ensures r.Some? && !(made.Some? && made.value.kind == r.value.kind && made.value.identifier.Some?) ==>
              r.value.identifier == Some(IdentifierOf(ids, r.value.kind))
    ensures r.Some? && made.Some? && made.value.kind == r.value.kind && made.value.identifier.Some? ==>
              r.value.identifier == made.value.identifier
  {
    if row >= |ds.snapshot.items| then None
    else
      var kind := CellKindFor(ds.snapshot.items[row].messageType);
      var identifier := IdentifierOf(ids, kind);
      var cell := if made.Some? && made.value.kind == kind then made.value else CellView(kind, None);
      Some(if cell.identifier.None? then cell.(identifier := Some(identifier)) else cell)
  }

  /** Both platforms pick the same cell class for a message: whenever iOS gives a cell, macOS gives one of the same class. */
  lemma PlatformsAgreeOnCellKind(ds: MacDataSource, ids: CellIdentifiers, row: nat, made: Option<CellView>, dequeued: CellKind)
    requires row < NumberOfRows(ds)
    ensures MacViewFor(ds, ids, row, made).Some?
    ensures IOSCellFor(ds.snapshot.items[row], dequeued).Some? ==>
              IOSCellFor(ds.snapshot.items[row], dequeued).value == MacViewFor(ds, ids, row, made).value.kind
  {
  }

  /** After applying the snapshot built from `ms`, the table has one row per message and row `i` renders `ms[i]`'s cell class. */
  lemma AppliedSnapshotRows(ds: MacDataSource, ms: seq<UIMessage>, ids: CellIdentifiers, row: nat)
    ensures NumberOfRows(ApplySnapshot(ds, SnapshotOf(ms), true)) == |ms|
    ensures row < |ms| ==>
      var kind := CellKindFor(ms[row].messageType);
      MacViewFor(ApplySnapshot(ds, SnapshotOf(ms), true), ids, row, None) == Some(CellView(kind, Some(IdentifierOf(ids, kind))))
  {
  }
}
