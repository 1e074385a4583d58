/** The pure merge rules: last write wins, tombstones that block live items, immutable SOS rows. */
module MergePolicy {
  import opened Options
  import opened Reports

  datatype MergeAction = Insert | Update | Noop

  datatype Decision = Decision(
    action: MergeAction,
    rowId: Id,
    status: string,
    payload: Payload,
    createdAt: Time,
    updatedAt: Time,
    deletedAt: Option<Time>,
    kind: Kind,
    segmentKey: Option<string>,
    isTombstone: bool)

  /** What the policy may look at of the row an item is merged with. */
  datatype Snapshot = Snapshot(id: Id, updatedAt: Time, gateway: Option<Id>, isTombstone: bool, seqId: int)

  predicate IncomingIsTombstone(item: Item) {
    item.isTombstone == Some(true) || item.deletedAt.Some?
  }

  function TombstoneDeletedAt(item: Item): (at: Option<Time>)
    ensures at.Some? <==> IncomingIsTombstone(item)
    ensures item.deletedAt.Some? ==> at == item.deletedAt
    ensures at.Some? && item.deletedAt.None? ==> at.value == item.updatedAt
  {
    if item.deletedAt.Some? then item.deletedAt
    else if item.isTombstone == Some(true) then Some(item.updatedAt)
    else None
  }

  datatype WinnerTuple = WinnerTuple(updatedAt: Time, gateway: int, id: Id)

  predicate Greater(a: WinnerTuple, b: WinnerTuple) {
    || a.updatedAt > b.updatedAt
    || (a.updatedAt == b.updatedAt && a.gateway > b.gateway)
    || (a.updatedAt == b.updatedAt && a.gateway == b.gateway && a.id > b.id)
  }

  predicate IncomingBeatsExisting(item: Item, gateway: Id, ex: Snapshot) {
    Greater(WinnerTuple(item.updatedAt, gateway, item.id),
            WinnerTuple(ex.updatedAt, GatewayRank(ex.gateway), ex.id))
  }

  function DecideRoadLike(item: Item, gateway: Id, existing: Option<Snapshot>): Decision {
    var tombstone := IncomingIsTombstone(item);
    var deletedAt := if tombstone then TombstoneDeletedAt(item) else item.deletedAt;
    if existing.None? then
      Decision(Insert, item.id, item.status, item.payload, item.createdAt, item.updatedAt, deletedAt,
               item.kind, item.segmentKey, tombstone)
    else
      var ex := existing.value;
      if ex.isTombstone && !tombstone then
        Decision(Noop, ex.id, item.status, item.payload, item.createdAt, item.updatedAt, item.deletedAt,
                 item.kind, item.segmentKey, tombstone)
      else if IncomingBeatsExisting(item, gateway, ex) then
        Decision(Update, ex.id, item.status, item.payload, item.createdAt, item.updatedAt, deletedAt,
                 item.kind, item.segmentKey, tombstone)
      else
        Decision(Noop, ex.id, item.status, item.payload, item.createdAt, item.updatedAt, item.deletedAt,
                 item.kind, item.segmentKey, tombstone)
  }

  function DecideSos(existing: Option<Snapshot>): MergeAction {
    if existing.Some? then Noop else Insert
  }
}
