/**
 * The history archive of App.tsx (`History[]`, stored under `history_v3`): archiving
 * a session either appends a new entry or, when the session is bound to an entry
 * it was restored from, overwrites that entry's data in place.
 */
module HistoryArchive {
  import opened Wrappers
  import opened LineItems

  /** A creation time (`new Date()`); the value is supplied by the caller. */
  type Timestamp = int

  /** The session data an entry holds: the lines, the cash amount and the three form drafts. */
  datatype Snapshot = Snapshot(fullData: seq<FullData>, moneyAmount: real, quantity: real, price: real, product: string)

  /** `History`: one archived session under its id, its name (`historyName`) and its creation date. */
  datatype History = History(id: string, historyName: string, data: Snapshot, date: Timestamp)

  /**
   * `historyId` is truthy: the session was restored from the entry with that id.
   * Both `null` and the empty id are falsy, so either leaves the session unbound.
   */
  predicate IsBound(historyId: Option<string>) {
    historyId.Some? && historyId.value != ""
  }

  function Ids(list: seq<History>): (ids: seq<string>)
    ensures |ids| == |list|
    ensures forall k :: 0 <= k < |list| ==> ids[k] == list[k].id
  {
    seq(|list|, k requires 0 <= k < |list| => list[k].id)
  }

  predicate UniqueIds(list: seq<History>) {
    forall j, k :: 0 <= j < k < |list| ==> list[j].id != list[k].id
  }

  /** Every archived entry's line totals are current. */
  predicate AllConsistent(list: seq<History>) {
    forall k :: 0 <= k < |list| ==> Consistent(list[k].data.fullData)
  }

  /**
   * `editHistory`'s list: every entry whose id is `id` takes the session's data and
   * keeps its id, its name and its date; every other entry is kept as it is.
   */
  function EditHistory(list: seq<History>, id: string, snap: Snapshot): (r: seq<History>)
    ensures |r| == |list|
    ensures forall k :: 0 <= k < |list| && list[k].id != id ==> r[k] == list[k]
    ensures forall k :: 0 <= k < |list| && list[k].id == id ==>
      r[k].id == id && r[k].historyName == list[k].historyName && r[k].date == list[k].date && r[k].data == snap
  {
    seq(|list|, k requires 0 <= k < |list| => if list[k].id != id then list[k] else list[k].(data := snap))
  }

  /**
   * `saveInHistory`: an unbound session (`historyId` is `null` or the empty id, both
   * falsy) is appended as a new entry under a fresh id, the current name and the
   * current date; a bound session overwrites its own entry in place.
   */
  function SaveInHistory(list: seq<History>, historyId: Option<string>, historyName: string,
                         snap: Snapshot, freshId: string, date: Timestamp): (r: seq<History>)
    ensures historyId == None || historyId == Some("") ==>
      |r| == |list| + 1 && r[..|list|] == list && r[|list|] == History(freshId, historyName, snap, date)
    ensures historyId.Some? && historyId.value != "" ==>
      |r| == |list| && Ids(r) == Ids(list) &&
      (forall k :: 0 <= k < |list| && list[k].id != historyId.value ==> r[k] == list[k]) &&
      (forall k :: 0 <= k < |list| && list[k].id == historyId.value ==> r[k] == list[k].(data := snap))
  {
    if !IsBound(historyId) then list + [History(freshId, historyName, snap, date)]
    else EditHistory(list, historyId.value, snap)
  }

  /** With unique ids, editing replaces exactly the one entry that has the id. */
  lemma EditHistoryReplacesOne(list: seq<History>, k: int, snap: Snapshot)
    requires UniqueIds(list) && 0 <= k < |list|
    ensures EditHistory(list, list[k].id, snap) == list[k := list[k].(data := snap)]
  {
  }

  /** Editing under an id that no entry has changes nothing. */
  lemma EditHistoryAbsent(list: seq<History>, id: string, snap: Snapshot)
    requires id !in Ids(list)
    ensures EditHistory(list, id, snap) == list
  {
  }

  /** The last edit wins: an entry holds the latest session data, not an older one. */
  lemma EditHistoryLastWins(list: seq<History>, id: string, first: Snapshot, second: Snapshot)
    ensures EditHistory(EditHistory(list, id, first), id, second) == EditHistory(list, id, second)
  {
  }

  /**
   * Archiving loses nothing: every entry other than the one being overwritten is
   * still there, and so is every id.
   */
  lemma SaveInHistoryKeepsEntries(list: seq<History>, historyId: Option<string>, historyName: string,
                                  snap: Snapshot, freshId: string, date: Timestamp, k: int)
    requires 0 <= k < |list|
    requires !IsBound(historyId) || list[k].id != historyId.value
    ensures list[k] in SaveInHistory(list, historyId, historyName, snap, freshId, date)
    ensures list[k].id in Ids(SaveInHistory(list, historyId, historyName, snap, freshId, date))
  {
  }

  /** Archiving under an id not yet in use keeps the ids unique. */
  lemma SaveInHistoryUnique(list: seq<History>, historyId: Option<string>, historyName: string,
                            snap: Snapshot, freshId: string, date: Timestamp)
    requires UniqueIds(list)
    requires freshId !in Ids(list)
    ensures UniqueIds(SaveInHistory(list, historyId, historyName, snap, freshId, date))
  {
  }

  /** Archiving a session whose lines are current keeps every entry's lines current. */
  lemma SaveInHistoryConsistent(list: seq<History>, historyId: Option<string>, historyName: string,
                                snap: Snapshot, freshId: string, date: Timestamp)
    requires AllConsistent(list) && Consistent(snap.fullData)
    ensures AllConsistent(SaveInHistory(list, historyId, historyName, snap, freshId, date))
  {
  }

  /**
   * A session restored from entry `k` and archived again overwrites that entry in
   * place: the list keeps its length, and that entry keeps its id, name and date.
   */
  lemma ArchiveAfterRestore(list: seq<History>, k: int, historyName: string,
                            snap: Snapshot, freshId: string, date: Timestamp)
    requires UniqueIds(list) && 0 <= k < |list| && list[k].id != ""
    ensures SaveInHistory(list, Some(list[k].id), historyName, snap, freshId, date)
         == list[k := History(list[k].id, list[k].historyName, snap, list[k].date)]
  {
  }

  // ---------------------------------------------------------------- as written

  /**
   * `saveInHistory` exactly as App.tsx has it: the append path reads the stored list
   * (`stored`), but `editHistory` maps over `historyData` (`cache`), the copy that
   * was loaded when the history view was last opened, and writes that back.
   */
  function SaveInHistoryAsWritten(stored: seq<History>, cache: seq<History>, historyId: Option<string>,
                                  historyName: string, snap: Snapshot, freshId: string, date: Timestamp): (r: seq<History>)
    ensures !IsBound(historyId) ==> r == stored + [History(freshId, historyName, snap, date)]
    ensures IsBound(historyId) ==> |r| == |cache|
  {
    if !IsBound(historyId) then stored + [History(freshId, historyName, snap, date)]
    else EditHistory(cache, historyId.value, snap)
  }

  /** While the cache matches the stored list, the code as written does what was intended. */
  lemma AsWrittenAgreesWhenCacheCurrent(stored: seq<History>, historyId: Option<string>, historyName: string,
                                        snap: Snapshot, freshId: string, date: Timestamp)
    ensures SaveInHistoryAsWritten(stored, stored, historyId, historyName, snap, freshId, date)
         == SaveInHistory(stored, historyId, historyName, snap, freshId, date)
  {
  }

  /**
   * The discrepancy. The history view is opened (cache = stored = [a]) and entry `a`
   * is tapped: `deleteAll` archives the unbound session as a new entry, then the
   * session is bound to `a`. The next archive (deleting a line, say) writes the
   * edited cache back, and the entry just appended is gone from the stored list.
   */
  lemma StaleCacheLosesEntry(a: History, current: Snapshot, later: Snapshot, name: string,
                             freshId: string, d1: Timestamp, d2: Timestamp)
    requires a.id != "" && freshId != a.id
    ensures var cache := [a];
            var stored := SaveInHistoryAsWritten([a], cache, None, name, current, freshId, d1);
            var written := SaveInHistoryAsWritten(stored, cache, Some(a.id), name, later, freshId, d2);
            |stored| == 2 && stored[1].id == freshId &&
            |written| == 1 && freshId !in Ids(written)
  {
  }

  /** The corrected archive keeps that entry in the same scenario. */
  lemma CorrectedKeepsEntry(a: History, current: Snapshot, later: Snapshot, name: string,
                            freshId: string, d1: Timestamp, d2: Timestamp)
    requires a.id != "" && freshId != a.id
    ensures var stored := SaveInHistory([a], None, name, current, freshId, d1);
            var written := SaveInHistory(stored, Some(a.id), name, later, freshId, d2);
            |written| == 2 && written[1] == stored[1] && written[1].id == freshId
  {
  }
}
