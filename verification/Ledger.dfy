/** libkg/tgtransport: the tables that hold a request until it is answered. */
module RequestLedger {
  import opened Integers
  import opened Bytes

  type Table = map<int64, bytes>

  /** The three tables and the set of ids not to be replayed; and, beside them, the bodies ever
      asked for, those a decision disposed of, and those that another body overwrote. */
  datatype Desk = Desk(
    pending: Table,
    migration: Table,
    flood: Table,
    noReplay: set<int64>,
    asked: multiset<bytes>,
    settled: multiset<bytes>,
    lost: multiset<bytes>)

  /** QHash::take and QHash::value: the empty array for a key that is not there. */
  function Take(m: Table, id: int64): bytes {
    if id in m then m[id] else []
  }

  function Body(b: bytes): multiset<bytes> {
    if b == [] then multiset{} else multiset{b}
  }

  /** The bodies a table holds. An empty one is an entry but not a request. */
  ghost function Bodies(m: Table): multiset<bytes> {
    if m == map[] then multiset{}
    else
      var id :| id in m;
      Body(m[id]) + Bodies(m - {id})
  }

  lemma Picked(m: Table) returns (id: int64)
    requires m != map[]
    ensures id in m && Bodies(m) == Body(m[id]) + Bodies(m - {id})
  {
    hide Body;
    id :| id in m && Bodies(m) == Body(m[id]) + Bodies(m - {id});
  }

  lemma TakeElsewhere(m: Table, id: int64, other: int64)
    requires id != other
    ensures Take(m - {id}, other) == Take(m, other) && m - {id} - {other} == m - {other} - {id}
  {
  }

  /** Whichever entry is looked at first. */
  lemma {:induction false} BodiesWithout(m: Table, id: int64)
    ensures Bodies(m) == Bodies(m - {id}) + Body(Take(m, id))
    decreases |m|
  {
    hide Bodies, Body;
    if id !in m {
      NothingTaken(m, id);
    } else {
      var first := Picked(m);
      if first != id {
        TakeElsewhere(m, first, id);
        TakeElsewhere(m, id, first);
        BodiesWithout(m - {first}, id);
        BodiesWithout(m - {id}, first);
      }
    }
  }

  lemma NothingTaken(m: Table, id: int64)
    requires id !in m
    ensures m - {id} == m && Body(Take(m, id)) == multiset{}
  {
  }

  lemma BodiesWith(m: Table, id: int64, b: bytes)
    ensures Bodies(m[id := b]) == Bodies(m) - Body(Take(m, id)) + Body(b)
  {
    hide Bodies, Body;
    BodiesWithout(m, id);
    BodiesWithout(m[id := b], id);
    assert m[id := b] - {id} == m - {id};
  }

  ghost function Held(d: Desk): multiset<bytes> {
    Bodies(d.pending) + Bodies(d.migration) + Bodies(d.flood)
  }

  /** Every body asked for is held, disposed of or lost, and none of them twice. */
  ghost predicate Balanced(d: Desk) {
    d.asked == Held(d) + d.settled + d.lost
  }

  // --- operations ---------------------------------------------------------------------------

  function Ask(d: Desk, body: bytes): Desk {
    d.(asked := d.asked + Body(body))
  }

  function Settle(d: Desk, body: bytes): Desk {
    d.(settled := d.settled + Body(body))
  }

  /** Into the pending table, over whatever is there under the id. */
  function Hold(d: Desk, id: int64, body: bytes): Desk {
    d.(pending := d.pending[id := body], lost := d.lost + Body(Take(d.pending, id)))
  }

  function Remove(d: Desk, id: int64): Desk {
    Settle(d.(pending := d.pending - {id}), Take(d.pending, id))
  }

  datatype Shelf = Flood | Migration

  function On(d: Desk, shelf: Shelf): Table {
    if shelf.Flood? then d.flood else d.migration
  }

  function With(d: Desk, shelf: Shelf, m: Table): Desk {
    if shelf.Flood? then d.(flood := m) else d.(migration := m)
  }

  /** From the pending table onto a shelf, over whatever is there under the id. */
  function Shelve(d: Desk, shelf: Shelf, id: int64): Desk {
    With(d, shelf, On(d, shelf)[id := Take(d.pending, id)])
      .(pending := d.pending - {id}, lost := d.lost + Body(Take(On(d, shelf), id)))
  }

  function Unshelve(d: Desk, shelf: Shelf, id: int64): Desk {
    With(d, shelf, On(d, shelf) - {id})
  }

  ghost function Forget(d: Desk): Desk {
    d.(pending := map[], noReplay := {}, settled := d.settled + Bodies(d.pending))
  }

  ghost function ForgetAll(d: Desk): Desk {
    Forget(d).(migration := map[], settled := Forget(d).settled + Bodies(d.migration))
  }

  // --- conservation -------------------------------------------------------------------------

  lemma HoldKeepsBalance(d: Desk, id: int64, body: bytes)
    requires d.asked == Held(d) + Body(body) + d.settled + d.lost
    ensures Balanced(Hold(d, id, body))
  {
    hide Body, Take;
    BodiesWithout(d.pending, id);
    BodiesWith(d.pending, id, body);
  }

  lemma RemoveKeepsBalance(d: Desk, id: int64)
    requires Balanced(d)
    ensures Balanced(Remove(d, id))
  {
    hide Body, Take;
    BodiesWithout(d.pending, id);
  }

  lemma ShelveKeepsBalance(d: Desk, shelf: Shelf, id: int64)
    requires Balanced(d)
    ensures Balanced(Shelve(d, shelf, id))
  {
    hide Body, Take;
    BodiesWithout(d.pending, id);
    BodiesWithout(On(d, shelf), id);
    BodiesWith(On(d, shelf), id, Take(d.pending, id));
  }

  lemma UnshelveFreesBody(d: Desk, shelf: Shelf, id: int64)
    requires Balanced(d)
    ensures var u := Unshelve(d, shelf, id);
            u.asked == Held(u) + Body(Take(On(d, shelf), id)) + u.settled + u.lost
  {
    hide Body, Take;
    BodiesWithout(On(d, shelf), id);
  }

  lemma ForgetKeepsBalance(d: Desk)
    requires Balanced(d)
    ensures Balanced(Forget(d)) && Balanced(ForgetAll(d))
  {
    assert Bodies(map[]) == multiset{};
  }

  /** A new request overwrites another exactly when its id is one a request is pending under. */
  lemma HoldLosesIff(d: Desk, id: int64, body: bytes)
    ensures Hold(d, id, body).lost == d.lost <==> Take(d.pending, id) == []
  {
    var b := Take(d.pending, id);
    if b != [] { assert (d.lost + multiset{b})[b] == d.lost[b] + 1; }
  }

  /** Shelving overwrites exactly when the id is on the shelf already: a second FLOOD_WAIT for
      one request puts an empty body over the one that waits. */
  lemma ShelveLosesIff(d: Desk, shelf: Shelf, id: int64)
    ensures Shelve(d, shelf, id).lost == d.lost <==> Take(On(d, shelf), id) == []
  {
    var b := Take(On(d, shelf), id);
    if b != [] { assert (d.lost + multiset{b})[b] == d.lost[b] + 1; }
  }

  // --- errors -------------------------------------------------------------------------------

  predicate Contains(s: string, part: string) {
    exists i :: 0 <= i <= |s| - |part| && StartsWith(s[i..], part)
  }

  predicate StartsWith(s: string, part: string) {
    |part| <= |s| && s[..|part|] == part
  }

  datatype Verdict = FileMoved | AccountMoved | MustWait | PasswordNeeded | Unauthorized | Failed

  /** What an error is, by the first of the tests that it meets. */
  function Classify(code: int32, message: string): Verdict {
    if Contains(message, "_MIGRATE_") then
      if StartsWith(message, "FILE_") then FileMoved else AccountMoved
    else if Contains(message, "FLOOD_WAIT_") then MustWait
    else if message == "SESSION_PASSWORD_NEEDED" then PasswordNeeded
    else if code == 401 then Unauthorized
    else Failed
  }

  lemma PartIsContained(before: string, part: string, after: string)
    ensures Contains(before + part + after, part)
  {
    var s := before + part + after;
    assert s[|before|..] == part + after;
    assert StartsWith(s[|before|..], part);
  }

  /** Any text with _MIGRATE_ in it moves the account, or a file if it starts so; any other with
      FLOOD_WAIT_ in it asks to wait; and only then does the code count. */
  lemma TextDecides(code: int32, before: string, after: string)
    ensures Classify(code, before + "_MIGRATE_" + after)
            == if |before| >= 5 && before[..5] == "FILE_" then FileMoved
               else if before == "FILE" then FileMoved else AccountMoved
    ensures !Contains(before + "FLOOD_WAIT_" + after, "_MIGRATE_") ==>
              Classify(code, before + "FLOOD_WAIT_" + after) == MustWait
    ensures !Contains(before, "_MIGRATE_") && !Contains(before, "FLOOD_WAIT_")
            && before != "SESSION_PASSWORD_NEEDED" ==>
              Classify(code, before) == if code == 401 then Unauthorized else Failed
  {
    PartIsContained(before, "_MIGRATE_", after);
    PartIsContained(before, "FLOOD_WAIT_", after);
    hide Contains;
    var s := before + "_MIGRATE_" + after;
    FileText(before, after);
  }

  lemma FileText(before: string, after: string)
    ensures StartsWith(before + "_MIGRATE_" + after, "FILE_") <==>
              (|before| >= 5 && before[..5] == "FILE_") || before == "FILE"
  {
    var s := before + "_MIGRATE_" + after;
    if |before| >= 5 {
      assert s[..5] == before[..5];
    } else {
      assert s[|before|] == '_';
      assert "FILE_"[|before|] == '_' <==> |before| == 4;
      assert s[..|before|] == before;
      if |before| == 4 { assert s[..5] == before + "_"; assert s[..5][..4] == before && "FILE_"[..4] == "FILE"; }
      if s[..5] == "FILE_" { assert s[..5][|before|] == '_'; }
    }
  }

  /** The tables after an error that leaves the session standing. */
  function OnError(d: Desk, verdict: Verdict, isMain: bool, id: int64): Desk {
    match verdict
    case AccountMoved => if isMain then Shelve(d, Migration, id) else Remove(d, id)
    case MustWait =>
      if id in d.noReplay then Remove(d, id).(noReplay := d.noReplay - {id}) else Shelve(d, Flood, id)
    case Unauthorized => d
    case _ => Remove(d, id)
  }

  lemma ErrorKeepsBalance(d: Desk, verdict: Verdict, isMain: bool, id: int64)
    requires Balanced(d)
    ensures Balanced(OnError(d, verdict, isMain, id))
  {
    RemoveKeepsBalance(d, id);
    ShelveKeepsBalance(d, Flood, id);
    ShelveKeepsBalance(d, Migration, id);
  }

  /** A migration of the account moves the request to the shelf where it waits for the new data
      centre, on the main connection; on another it disposes of it; and no other request is
      touched. */
  lemma MigrationMovesRequest(d: Desk, isMain: bool, id: int64)
    requires id in d.pending
    ensures var after := OnError(d, AccountMoved, isMain, id);
            && id !in after.pending && after.flood == d.flood
            && (isMain ==> after.migration == d.migration[id := d.pending[id]] && after.settled == d.settled)
            && (!isMain ==> after.migration == d.migration && after.settled == d.settled + Body(d.pending[id]))
            && forall other :: other in d.pending && other != id ==>
                 other in after.pending && after.pending[other] == d.pending[other]
  {
  }

  /** The error moves a request to the shelf where it waits, and no other request at all. */
  lemma WaitMovesRequest(d: Desk, isMain: bool, id: int64)
    requires id in d.pending
    ensures var after := OnError(d, MustWait, isMain, id);
            && id !in after.pending
            && (id !in d.noReplay ==> after.flood == d.flood[id := d.pending[id]])
            && (id in d.noReplay ==> after.flood == d.flood && after.settled == d.settled + Body(d.pending[id]))
            && forall other :: other in d.pending && other != id ==>
                 other in after.pending && after.pending[other] == d.pending[other]
  {
  }
}
