/** libkg/tgclient: the tables of the client that are keyed by request ids, and what becomes of
    them when a request goes out again under another id. */
module ClientTables {
  import opened Integers
  import opened UpdateAsks
  import opened MtTransport

  /** Which file a request carries a part of, which data centre it exports to, and for each file
      in progress the requests it waits for. */
  datatype Files = Files(
    packets: map<int64, int64>,
    exports: map<int64, int32>,
    uploads: map<int64, seq<int64>>,
    downloads: map<int64, seq<int64>>)

  /** QHash::value: zero for a key that is not there. */
  function FileOf(f: Files, id: int64): int64 {
    if id in f.packets then f.packets[id] else 0
  }

  function ExportOf(f: Files, id: int64): int32 {
    if id in f.exports then f.exports[id] else 0
  }

  /** QList::removeOne: the first occurrence. */
  function RemoveOne(q: seq<int64>, id: int64): (r: seq<int64>)
    ensures multiset(r) == multiset(q) - multiset{id}
  {
    if q == [] then []
    else if q[0] == id then (assert q == [q[0]] + q[1..]; q[1..])
    else (assert q == [q[0]] + q[1..]; [q[0]] + RemoveOne(q[1..], id))
  }

  function Requeue(queues: map<int64, seq<int64>>, file: int64, oldId: int64, newId: int64): map<int64, seq<int64>> {
    if file in queues then queues[file := RemoveOne(queues[file], oldId) + [newId]] else queues
  }

  function Renamed(f: Files, oldId: int64, newId: int64): Files {
    var file := FileOf(f, oldId);
    var moved := f.(exports := (f.exports - {oldId})[newId := ExportOf(f, oldId)], packets := f.packets - {oldId});
    if file == 0 then moved
    else moved.(packets := moved.packets[newId := file],
                uploads := Requeue(f.uploads, file, oldId, newId),
                downloads := Requeue(f.downloads, file, oldId, newId))
  }

  class Client {
    var filePackets: map<int64, int64>
    var migrationForDc: map<int64, int32>
    var processedFiles: map<int64, seq<int64>>
    var processedDownloadFiles: map<int64, seq<int64>>

    ghost function View(): Files reads this {
      Files(filePackets, migrationForDc, processedFiles, processedDownloadFiles)
    }

    constructor ()
      ensures View() == Files(map[], map[], map[], map[])
    {
      filePackets, migrationForDc, processedFiles, processedDownloadFiles := map[], map[], map[], map[];
    }

    method TakeExport(id: int64) returns (dc: int32)
      modifies this`migrationForDc
      ensures dc == ExportOf(old(View()), id) && migrationForDc == old(migrationForDc) - {id}
    {
      dc := if id in migrationForDc then migrationForDc[id] else 0;
      migrationForDc := migrationForDc - {id};
    }

    method TakePacket(id: int64) returns (file: int64)
      modifies this`filePackets
      ensures file == FileOf(old(View()), id) && filePackets == old(filePackets) - {id}
    {
      file := if id in filePackets then filePackets[id] else 0;
      filePackets := filePackets - {id};
    }

    method HandleMessageChanged(oldMsg: int64, newMsg: int64)
      modifies this
      ensures View() == Renamed(old(View()), oldMsg, newMsg)
    {
      hide RemoveOne;
      var dc := TakeExport(oldMsg);
      migrationForDc := migrationForDc[newMsg := dc];
      var fileId := TakePacket(oldMsg);
      if fileId != 0 {
        filePackets := filePackets[newMsg := fileId];
        if fileId in processedFiles {
          var queue := RemoveOne(processedFiles[fileId], oldMsg);
          processedFiles := processedFiles[fileId := queue + [newMsg]];
        }
        if fileId in processedDownloadFiles {
          var queue := RemoveOne(processedDownloadFiles[fileId], oldMsg);
          processedDownloadFiles := processedDownloadFiles[fileId := queue + [newMsg]];
        }
      }
    }
  }

  // --- queues and packets agree -------------------------------------------------------------

  /** How many parts of a file a request carries. */
  function Parts(packets: map<int64, int64>, id: int64, file: int64): nat {
    if id in packets && packets[id] == file then 1 else 0
  }

  /** A file in progress waits for exactly the requests that carry its parts, each once. */
  ghost predicate Agrees(queues: map<int64, seq<int64>>, packets: map<int64, int64>) {
    forall file, id :: file in queues && file != 0 ==>
      multiset(queues[file])[id] == Parts(packets, id, file)
  }

  /** A rename onto a fresh id keeps the queues and the packets in agreement. */
  lemma RenameKeepsAgreement(queues: map<int64, seq<int64>>, f: Files, oldId: int64, newId: int64)
    requires Agrees(queues, f.packets) && newId !in f.packets && oldId != newId
    ensures var file := FileOf(f, oldId);
            Agrees(if file == 0 then queues else Requeue(queues, file, oldId, newId), Renamed(f, oldId, newId).packets)
  {
    hide RemoveOne, Renamed;
    var file, after := FileOf(f, oldId), Renamed(f, oldId, newId).packets;
    var kept := if file == 0 then queues else Requeue(queues, file, oldId, newId);
    forall other, id | other in kept && other != 0 ensures multiset(kept[other])[id] == Parts(after, id, other) {
      PartsMoved(f, oldId, newId, id, other);
      assert multiset(queues[other])[id] == Parts(f.packets, id, other);
      assert multiset(queues[other])[oldId] == Parts(f.packets, oldId, other);
      if other == file { OneReplaced(queues[file], oldId, newId, id); }
    }
  }

  lemma PartsMoved(f: Files, oldId: int64, newId: int64, id: int64, other: int64)
    requires newId !in f.packets && oldId != newId && other != 0
    ensures Parts(Renamed(f, oldId, newId).packets, id, other)
              == if id == oldId then 0
                 else if id == newId then Parts(f.packets, oldId, other)
                 else Parts(f.packets, id, other)
  {
  }

  lemma OneReplaced(queue: seq<int64>, oldId: int64, newId: int64, id: int64)
    requires oldId != newId && multiset(queue)[oldId] == 1
    ensures multiset(RemoveOne(queue, oldId) + [newId])[id]
              == if id == oldId then 0 else multiset(queue)[id] + if id == newId then 1 else 0
  {
    hide RemoveOne;
    assert multiset(RemoveOne(queue, oldId) + [newId]) == multiset(queue) - multiset{oldId} + multiset{newId};
  }

  /** Not so the table of exports: every rename leaves an entry in it, and the table grows
      exactly when neither id was in it, which is every rename of some other request. */
  lemma RenameGrowsExportsIff(f: Files, oldId: int64, newId: int64)
    ensures newId in Renamed(f, oldId, newId).exports
    ensures |Renamed(f, oldId, newId).exports| > |f.exports| <==> oldId !in f.exports && newId !in f.exports
  {
    KeysMoved(f.exports, oldId, newId, ExportOf(f, oldId));
  }

  lemma KeysMoved(m: map<int64, int32>, oldId: int64, newId: int64, value: int32)
    ensures |(m - {oldId})[newId := value]| > |m| <==> oldId !in m && newId !in m
  {
    var left := m - {oldId};
    assert left.Keys == m.Keys - {oldId};
    assert left[newId := value].Keys == left.Keys + {newId};
    assert |left[newId := value]| == |left.Keys + {newId}| && |left| == |m.Keys - {oldId}| && |m| == |m.Keys|;
    Sizes(m.Keys, oldId, newId);
  }

  lemma Sizes(keys: set<int64>, oldId: int64, newId: int64)
    ensures |keys - {oldId} + {newId}| > |keys| <==> oldId !in keys && newId !in keys
  {
    if newId in keys - {oldId} { assert keys - {oldId} + {newId} == keys - {oldId}; }
  }

  // --- what a request is for ----------------------------------------------------------------

  /** Everything that the client and the transport know a request by its id for. */
  datatype Purpose = Purpose(
    authorization: bool, state: bool, difference: bool, poll: bool, channel: int, file: int64, dc: int32)

  function PurposeOf(t: Transport, a: Asks, f: Files, id: int64): Purpose {
    Purpose(t.authCheck == id, a.stateRequest == id, a.differenceRequest == id,
            id in a.inFlight, if id in a.inFlight then a.inFlight[id] else 0, FileOf(f, id), ExportOf(f, id))
  }

  /** No table knows the id. */
  predicate Unknown(t: Transport, a: Asks, f: Files, id: int64) {
    PurposeOf(t, a, f, id) == Purpose(false, false, false, false, 0, 0, 0)
  }

  /** A request sent again is for what it was for before; nothing is for the old id any more; and
      no other request is any different. */
  lemma RenameKeepsPurpose(t: Transport, a: Asks, f: Files, oldId: int64, newId: int64, other: int64)
    requires oldId != 0 && oldId != newId && Unknown(t, a, f, newId)
    requires other != oldId && other != newId
    ensures var (t', a', f') := (Rename(t, oldId, newId), a.MessageChanged(oldId, newId), Renamed(f, oldId, newId));
            && PurposeOf(t', a', f', newId) == PurposeOf(t, a, f, oldId)
            && Unknown(t', a', f', oldId)
            && PurposeOf(t', a', f', other) == PurposeOf(t, a, f, other)
  {
    hide Renamed, FileOf, ExportOf, Rename;
    AuthorizationMoves(t, oldId, newId);
    FilesMove(f, oldId, newId, other);
    AsksMove(a, oldId, newId, other);
  }

  lemma AuthorizationMoves(t: Transport, oldId: int64, newId: int64)
    requires oldId != 0
    ensures Rename(t, oldId, newId).authCheck == if t.authCheck == oldId then newId else t.authCheck
  {
  }

  lemma FilesMove(f: Files, oldId: int64, newId: int64, other: int64)
    requires oldId != newId && FileOf(f, newId) == 0 && other != oldId && other != newId
    ensures var after := Renamed(f, oldId, newId);
            && FileOf(after, newId) == FileOf(f, oldId) && ExportOf(after, newId) == ExportOf(f, oldId)
            && FileOf(after, oldId) == 0 && ExportOf(after, oldId) == 0
            && FileOf(after, other) == FileOf(f, other) && ExportOf(after, other) == ExportOf(f, other)
  {
    hide Requeue;
  }

  lemma AsksMove(a: Asks, oldId: int, newId: int, other: int)
    requires oldId != newId && other != oldId && other != newId
    requires newId !in a.inFlight && newId != a.stateRequest && newId != a.differenceRequest
    ensures var after := a.MessageChanged(oldId, newId);
            && (newId in after.inFlight <==> oldId in a.inFlight)
            && (oldId in a.inFlight ==> after.inFlight[newId] == a.inFlight[oldId])
            && oldId !in after.inFlight
            && (other in after.inFlight <==> other in a.inFlight)
            && (other in a.inFlight ==> after.inFlight[other] == a.inFlight[other])
            && (after.stateRequest == newId <==> a.stateRequest == oldId)
            && (after.differenceRequest == newId <==> a.differenceRequest == oldId)
            && after.stateRequest != oldId && after.differenceRequest != oldId
            && (after.stateRequest == other <==> a.stateRequest == other)
            && (after.differenceRequest == other <==> a.differenceRequest == other)
  {
  }

  // --- any number of renames ----------------------------------------------------------------

  function RenamedAll(f: Files, renames: seq<(int64, int64)>): Files
    decreases |renames|
  {
    if renames == [] then f else RenamedAll(Renamed(f, renames[0].0, renames[0].1), renames[1..])
  }

  /** The id a request ends up under. */
  function Follow(id: int64, renames: seq<(int64, int64)>): int64
    decreases |renames|
  {
    if renames == [] then id else Follow(if id == renames[0].0 then renames[0].1 else id, renames[1..])
  }

  /** Each new id is one that carries no part, as ids newly drawn in an epoch are. */
  predicate Fresh(f: Files, renames: seq<(int64, int64)>)
    decreases |renames|
  {
    renames == [] || (
      && renames[0].1 !in f.packets && renames[0].0 != renames[0].1
      && Fresh(Renamed(f, renames[0].0, renames[0].1), renames[1..]))
  }

  /** However often requests are sent again, each still carries its part of the same file, and
      the queues still wait for exactly the requests under way. */
  lemma {:induction false} FilesFollow(f: Files, renames: seq<(int64, int64)>, id: int64)
    requires Fresh(f, renames) && FileOf(f, id) != 0
    requires Agrees(f.uploads, f.packets) && Agrees(f.downloads, f.packets)
    ensures var after := RenamedAll(f, renames);
            && FileOf(after, Follow(id, renames)) == FileOf(f, id)
            && Agrees(after.uploads, after.packets) && Agrees(after.downloads, after.packets)
    decreases |renames|
  {
    hide Agrees;
    if renames != [] {
      var (oldId, newId) := renames[0];
      RenameKeepsAgreement(f.uploads, f, oldId, newId);
      RenameKeepsAgreement(f.downloads, f, oldId, newId);
      FilesFollow(Renamed(f, oldId, newId), renames[1..], if id == oldId then newId else id);
    }
  }
}
