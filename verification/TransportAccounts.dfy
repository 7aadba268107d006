/** The account of every request, over any run whatever. */
module TransportAccounts {
  import opened Integers
  import opened Bytes
  import opened WireTrace
  import opened RequestLedger
  import opened MtTransport
  import opened TransportSafety
  import opened TransportReplay

  /** The account balances with one body in hand. */
  ghost predicate BalancedWith(d: Desk, hand: bytes) {
    d.asked == Held(d) + Body(hand) + d.settled + d.lost
  }

  lemma EmptyHand(d: Desk)
    ensures BalancedWith(d, []) <==> Balanced(d)
  {
  }

  lemma PlainKeepsDesk(w: World, t: Transport, data: bytes, oldId: int64)
    ensures SendPlain(w, t, data, oldId).1.desk == t.desk
  {
    hide Issue;
  }

  lemma ServiceKeepsDesk(w: World, t: Transport, data: bytes)
    ensures SendService(w, t, data).1.desk == t.desk
  {
    hide Issue, Count;
  }

  lemma SendBalances(w: World, t: Transport, data: bytes, oldId: int64)
    requires BalancedWith(t.desk, data)
    ensures Balanced(SendContent(w, t, data, oldId).1.desk)
  {
    hide SendPlain, Hold, Held, Body;
    if !t.keyed {
      PlainKeepsDesk(w, t, data, oldId);
      SettleKeepsBalance(t.desk, data);
    } else if data == [] {
      EmptyHand(t.desk);
    } else {
      SentIsHeld(w, t, data, oldId);
      HoldKeepsBalance(t.desk, SendContent(w, t, data, oldId).1.line.last, data);
    }
  }

  lemma SettleKeepsBalance(d: Desk, data: bytes)
    requires BalancedWith(d, data)
    ensures Balanced(Settle(d, data))
  {
    hide Bodies, Body;
  }

  lemma SubmitBalances(w: World, t: Transport, data: bytes)
    requires Balanced(t.desk)
    ensures Balanced(Submit(w, t, data).1.desk)
  {
    hide SendContent, Bodies, Body;
    SendBalances(w, t.(desk := Ask(t.desk, data)), data, 0);
  }

  lemma {:induction false} ResendBalances(w: World, t: Transport, shelf: Shelf, keys: seq<int64>)
    requires Balanced(t.desk)
    ensures Balanced(Resend(w, t, shelf, keys).desk)
    decreases |keys|
  {
    hide SendContent, Held, Body, Unshelve;
    if keys != [] {
      UnshelveFreesBody(t.desk, shelf, keys[0]);
      SendBalances(w, t.(desk := Unshelve(t.desk, shelf, keys[0])), Take(On(t.desk, shelf), keys[0]), keys[0]);
      ResendBalances(w, ResendOne(w, t, shelf, keys[0]), shelf, keys[1..]);
    }
  }

  lemma CheckBalances(w: World, t: Transport)
    requires Balanced(t.desk)
    ensures Balanced(CheckAuthorization(w, t).desk)
  {
    hide Submit, Held;
    SubmitBalances(w, t, w.getUsers);
  }

  lemma TickBalances(w: World, t: Transport, keys: seq<int64>, ping: bytes)
    requires Balanced(t.desk)
    ensures Balanced(Tick(w, t, keys, ping).desk)
  {
    hide Resend, Flush, SendService, Held, Forget;
    var kept := if |t.desk.pending| >= FORGET_AT then t.(desk := Forget(t.desk)) else t;
    ForgetKeepsBalance(t.desk);
    ResendBalances(w, kept, Flood, keys);
    var resent := Resend(w, kept, Flood, keys);
    FlushFrame(w, resent);
    ServiceKeepsDesk(w, Save(Flush(w, resent)), ping);
  }

  lemma BadMsgBalances(w: World, t: Transport, code: int32, badId: int64, serverId: int64, session: int64, salt: int64)
    requires Balanced(t.desk)
    ensures Balanced(BadMsg(w, t, code, badId, serverId, session, salt).desk)
  {
    hide SendContent, Correct, Bodies, Body, Take;
    CorrectFrame(w, t, code, serverId, session, salt);
    var c := Save(Correct(w, t, code, serverId, session, salt));
    BodiesWithout(c.desk.pending, badId);
    SendBalances(w, c.(desk := c.desk.(pending := c.desk.pending - {badId})), Take(c.desk.pending, badId), badId);
  }

  lemma ResetBalances(w: World, t: Transport, connected: bool)
    requires Balanced(t.desk)
    ensures Balanced(Reset(w, t, connected).desk)
  {
    hide Flush, Held, ForgetAll;
    FlushFrame(w, Save(t));
    ForgetKeepsBalance(t.desk);
  }

  lemma ErrorBalances(w: World, t: Transport, code: int32, message: string, id: int64, connected: bool)
    requires Balanced(t.desk)
    ensures Balanced(AfterError(w, t, code, message, id, connected).desk)
  {
    hide Held, Reset, Classify, OnError;
    ResetBalances(w, t, connected);
    ErrorKeepsBalance(t.desk, Classify(code, message), t.isMain, id);
  }

  lemma MarkBalances(t: Transport, id: int64)
    requires Balanced(t.desk)
    ensures Balanced(Exclude(t, id).desk) && Balanced(Answered(t, id).desk) && Balanced(Heard(t, id).desk)
  {
    hide Bodies;
    RemoveKeepsBalance(t.desk, id);
  }

  lemma SettingsKeepDesk(t: Transport)
    ensures Save(t).desk == t.desk && Load(t).desk == t.desk
  {
  }

  lemma KeyKeepsDesk(w: World, t: Transport, session: int64, salt: int64, offset: int32, reply: bytes)
    ensures KeyDerived(w, t, session, salt, offset, reply).desk == t.desk
  {
    hide SendPlain, WireTrace.Restart;
    PlainKeepsDesk(w, t.(keyed := true,
                         line := WireTrace.Restart(t.line, session).(salt := salt, offset := offset)), reply, 0);
  }

  lemma AuthorizedBalances(w: World, t: Transport, user: int64)
    requires Balanced(t.desk)
    ensures Balanced(Authorized(w, t, user).desk)
  {
    hide CheckAuthorization, Held;
    CheckBalances(w, Save(t.(user := user)));
  }

  lemma ConfiguredBalances(w: World, t: Transport, keys: seq<int64>)
    requires Balanced(t.desk)
    ensures Balanced(Configured(w, t, keys).desk)
  {
    hide CheckAuthorization, Resend, Held;
    ResendBalances(w, Save(t), Migration, keys);
    CheckBalances(w, Resend(w, Save(t), Migration, keys).(initialized := true));
  }

  lemma StepBalances(w: World, t: Transport, e: Event)
    requires Balanced(t.desk)
    ensures Balanced(Step(w, t, e).desk)
  {
    hide Submit, SendService, SendPlain, BadMsg, Configured, Authorized, Tick, Flush, KeyDerived, Reset, AfterError;
    hide Exclude, Answered, Heard, Save, Load, Held;
    match e
    case Request(body) => SubmitBalances(w, t, body);
    case Service(body) => ServiceKeepsDesk(w, t, body);
    case Handshake(body) => PlainKeepsDesk(w, t, body, 0);
    case Reply(id) => MarkBalances(t, id);
    case Received(id) => MarkBalances(t, id);
    case Error(code, message, id, connected) => ErrorBalances(w, t, code, message, id, connected);
    case Rejection(code, badId, serverId, session, salt) => BadMsgBalances(w, t, code, badId, serverId, session, salt);
    case Config(keys) => ConfiguredBalances(w, t, keys);
    case Login(user) => AuthorizedBalances(w, t, user);
    case Timer(keys, ping) => TickBalances(w, t, keys, ping);
    case Acknowledge => FlushFrame(w, t);
    case NewKey(session, salt, offset, reply) => KeyKeepsDesk(w, t, session, salt, offset, reply);
    case Stopped(connected) => ResetBalances(w, t, connected);
    case Excluded(id) => MarkBalances(t, id);
    case Dropped =>
    case Stored => SettingsKeepDesk(t);
    case Reloaded => SettingsKeepDesk(t);
  }

  lemma {:induction false} StepsBalance(w: World, t: Transport, events: seq<Event>)
    requires Balanced(t.desk)
    ensures Balanced(Steps(w, t, events).desk)
    decreases |events|
  {
    hide Balanced, Step;
    if events != [] {
      var n := |events| - 1;
      StepsBalance(w, t, events[..n]);
      StepBalances(w, Steps(w, t, events[..n]), events[n]);
    }
  }

  // --- what is asked for, and what disposes of it -------------------------------------------

  /** The body of the transport's own request, where it makes one. */
  function OwnRequest(w: World, isMain: bool, user: int64): multiset<bytes> {
    if user != 0 && isMain then Body(w.getUsers) else multiset{}
  }

  /** The requests that an event makes. */
  function AskedBy(w: World, t: Transport, e: Event): multiset<bytes> {
    match e
    case Request(body) => Body(body)
    case Config(_) => OwnRequest(w, t.isMain, t.user)
    case Login(user) => OwnRequest(w, t.isMain, user)
    case _ => multiset{}
  }

  /** What a replay of the keys takes off a shelf. */
  function TakenOff(m: Table, keys: seq<int64>): multiset<bytes>
    decreases |keys|
  {
    if keys == [] then multiset{} else Body(Take(m, keys[0])) + TakenOff(m - {keys[0]}, keys[1..])
  }

  /** A request sent while there is no key is written in the clear and not held. */
  function Unheld(t: Transport, bodies: multiset<bytes>): multiset<bytes> {
    if t.keyed then multiset{} else bodies
  }

  /** What an event disposes of: an answer or a final error its own request, a reset everything
      pending or awaiting migration, a keepalive everything pending once that is forty; and
      nothing else, except what is sent without a key. */
  ghost function DisposedBy(w: World, t: Transport, e: Event): multiset<bytes> {
    match e
    case Request(body) => Unheld(t, Body(body))
    case Reply(id) => Body(Take(t.desk.pending, id))
    case Error(code, message, id, _) =>
      (match Classify(code, message)
       case Unauthorized => Bodies(t.desk.pending) + Bodies(t.desk.migration)
       case AccountMoved => if t.isMain then multiset{} else Body(Take(t.desk.pending, id))
       case MustWait => if id in t.desk.noReplay then Body(Take(t.desk.pending, id)) else multiset{}
       case _ => Body(Take(t.desk.pending, id)))
    case Rejection(_, badId, _, _, _) => Unheld(t, Body(Take(t.desk.pending, badId)))
    case Config(keys) => Unheld(t, TakenOff(t.desk.migration, keys) + OwnRequest(w, t.isMain, t.user))
    case Login(user) => Unheld(t, OwnRequest(w, t.isMain, user))
    case Timer(keys, _) =>
      (if |t.desk.pending| >= FORGET_AT then Bodies(t.desk.pending) else multiset{})
      + Unheld(t, TakenOff(t.desk.flood, keys))
    case Stopped(_) => Bodies(t.desk.pending) + Bodies(t.desk.migration)
    case _ => multiset{}
  }

  /** The two accounts after an event. */
  ghost predicate Booked(before: Desk, after: Desk, asked: multiset<bytes>, settled: multiset<bytes>) {
    after.asked == before.asked + asked && after.settled == before.settled + settled
  }

  lemma SendBooks(w: World, t: Transport, data: bytes, oldId: int64)
    ensures var after := SendContent(w, t, data, oldId).1;
            && Booked(t.desk, after.desk, multiset{}, Unheld(t, Body(data)))
            && after.keyed == t.keyed && after.isMain == t.isMain && after.user == t.user
            && after.desk.flood == t.desk.flood && after.desk.migration == t.desk.migration
  {
    hide SendPlain, Body, SendSealed, Flush, Take;
    SendFrame(w, t, data, oldId);
    if t.keyed && data != [] { SentIsHeld(w, t, data, oldId); }
  }

  lemma SendFrame(w: World, t: Transport, data: bytes, oldId: int64)
    ensures var after := SendContent(w, t, data, oldId).1;
            after.keyed == t.keyed && after.isMain == t.isMain && after.user == t.user
    ensures SendPlain(w, t, data, oldId).1.desk == t.desk
  {
    hide Issue, Count, AckBody, Hold, Settle, Packed;
  }

  lemma SubmitBooks(w: World, t: Transport, data: bytes)
    ensures Booked(t.desk, Submit(w, t, data).1.desk, Body(data), Unheld(t, Body(data)))
  {
    hide SendContent, Body;
    SendBooks(w, t.(desk := Ask(t.desk, data)), data, 0);
  }

  lemma {:induction false} ResendBooks(w: World, t: Transport, shelf: Shelf, keys: seq<int64>)
    ensures var after := Resend(w, t, shelf, keys);
            && Booked(t.desk, after.desk, multiset{}, Unheld(t, TakenOff(On(t.desk, shelf), keys)))
            && after.keyed == t.keyed && after.isMain == t.isMain && after.user == t.user
    decreases |keys|
  {
    hide ResendOne, On, Body, Take, Booked;
    if keys == [] {
      NothingBooked(t.desk, t.desk);
    } else {
      var after := ResendOne(w, t, shelf, keys[0]);
      ResendOneBooks(w, t, shelf, keys[0]);
      ResendBooks(w, after, shelf, keys[1..]);
      BothBooked(t.desk, after.desk, Resend(w, after, shelf, keys[1..]).desk,
                 Unheld(t, Body(Take(On(t.desk, shelf), keys[0]))),
                 Unheld(t, TakenOff(On(after.desk, shelf), keys[1..])));
      assert Unheld(t, Body(Take(On(t.desk, shelf), keys[0]))) + Unheld(t, TakenOff(On(after.desk, shelf), keys[1..]))
             == Unheld(t, TakenOff(On(t.desk, shelf), keys));
    }
  }

  lemma ResendOneBooks(w: World, t: Transport, shelf: Shelf, key: int64)
    ensures var after := ResendOne(w, t, shelf, key);
            && Booked(t.desk, after.desk, multiset{}, Unheld(t, Body(Take(On(t.desk, shelf), key))))
            && On(after.desk, shelf) == On(t.desk, shelf) - {key}
            && after.keyed == t.keyed && after.isMain == t.isMain && after.user == t.user
  {
    hide SendContent, Body, Take;
    SendBooks(w, t.(desk := Unshelve(t.desk, shelf, key)), Take(On(t.desk, shelf), key), key);
  }

  lemma BothBooked(a: Desk, b: Desk, c: Desk, first: multiset<bytes>, second: multiset<bytes>)
    requires Booked(a, b, multiset{}, first) && Booked(b, c, multiset{}, second)
    ensures Booked(a, c, multiset{}, first + second)
  {
    assert a.settled + first + second == a.settled + (first + second);
  }

  lemma CheckBooks(w: World, t: Transport)
    ensures Booked(t.desk, CheckAuthorization(w, t).desk, OwnRequest(w, t.isMain, t.user),
                   Unheld(t, OwnRequest(w, t.isMain, t.user)))
  {
    hide Submit, Body;
    SubmitBooks(w, t, w.getUsers);
  }

  lemma LoginBooks(w: World, t: Transport, user: int64)
    ensures Booked(t.desk, Authorized(w, t, user).desk, OwnRequest(w, t.isMain, user),
                   Unheld(t, OwnRequest(w, t.isMain, user)))
  {
    hide CheckAuthorization, OwnRequest;
    CheckBooks(w, Save(t.(user := user)));
  }

  lemma ConfiguredBooks(w: World, t: Transport, keys: seq<int64>)
    ensures Booked(t.desk, Configured(w, t, keys).desk, OwnRequest(w, t.isMain, t.user),
                   Unheld(t, TakenOff(t.desk.migration, keys) + OwnRequest(w, t.isMain, t.user)))
  {
    hide Resend, CheckAuthorization, OwnRequest, TakenOff;
    ResendBooks(w, Save(t), Migration, keys);
    CheckBooks(w, Resend(w, Save(t), Migration, keys).(initialized := true));
  }

  lemma TickBooks(w: World, t: Transport, keys: seq<int64>, ping: bytes)
    ensures Booked(t.desk, Tick(w, t, keys, ping).desk, multiset{}, DisposedBy(w, t, Timer(keys, ping)))
  {
    hide Resend, Flush, SendService, Bodies, TakenOff;
    var kept := if |t.desk.pending| >= FORGET_AT then t.(desk := Forget(t.desk)) else t;
    ResendBooks(w, kept, Flood, keys);
    var resent := Resend(w, kept, Flood, keys);
    FlushFrame(w, resent);
    ServiceKeepsDesk(w, Save(Flush(w, resent)), ping);
  }

  lemma RejectionBooks(w: World, t: Transport, code: int32, badId: int64, serverId: int64, session: int64, salt: int64)
    ensures Booked(t.desk, BadMsg(w, t, code, badId, serverId, session, salt).desk, multiset{},
                   Unheld(t, Body(Take(t.desk.pending, badId))))
  {
    hide SendContent, Correct, Body, Take;
    CorrectFrame(w, t, code, serverId, session, salt);
    var c := Save(Correct(w, t, code, serverId, session, salt));
    SendBooks(w, c.(desk := c.desk.(pending := c.desk.pending - {badId})), Take(c.desk.pending, badId), badId);
  }

  lemma ResetBooks(w: World, t: Transport, connected: bool)
    ensures Booked(t.desk, Reset(w, t, connected).desk, multiset{}, Bodies(t.desk.pending) + Bodies(t.desk.migration))
  {
    hide Flush, Bodies;
    FlushFrame(w, Save(t));
  }

  lemma ErrorBooks(w: World, t: Transport, code: int32, message: string, id: int64, connected: bool)
    ensures Booked(t.desk, AfterError(w, t, code, message, id, connected).desk, multiset{},
                   DisposedBy(w, t, Error(code, message, id, connected)))
  {
    hide Reset, Bodies, Body, Take, Classify;
    ResetBooks(w, t, connected);
  }

  lemma ReplyBooks(t: Transport, id: int64)
    ensures Booked(t.desk, Answered(t, id).desk, multiset{}, Body(Take(t.desk.pending, id)))
  {
  }

  lemma NothingBooked(before: Desk, after: Desk)
    requires after.asked == before.asked && after.settled == before.settled
    ensures Booked(before, after, multiset{}, multiset{})
  {
  }

  /** What every event makes and disposes of, from its inputs and the state before it. */
  lemma StepBooks(w: World, t: Transport, e: Event)
    ensures Booked(t.desk, Step(w, t, e).desk, AskedBy(w, t, e), DisposedBy(w, t, e))
  {
    hide Submit, SendService, SendPlain, BadMsg, Configured, CheckAuthorization, Tick, Flush, KeyDerived, Reset,
         AfterError, Answered;
    hide Bodies, Body, Take, OwnRequest, TakenOff, Classify, Unheld, Authorized, Booked;
    match e
    case Request(body) => SubmitBooks(w, t, body);
    case Reply(id) => ReplyBooks(t, id);
    case Error(code, message, id, connected) => ErrorBooks(w, t, code, message, id, connected);
    case Rejection(code, badId, serverId, session, salt) => RejectionBooks(w, t, code, badId, serverId, session, salt);
    case Config(keys) => ConfiguredBooks(w, t, keys);
    case Login(user) => LoginBooks(w, t, user);
    case Timer(keys, ping) => TickBooks(w, t, keys, ping);
    case Stopped(connected) => ResetBooks(w, t, connected);
    case _ =>
      QuietKeepsAccounts(w, t, e);
      NothingBooked(t.desk, Step(w, t, e).desk);
  }

  /** The other events make no request and dispose of none. */
  lemma QuietKeepsAccounts(w: World, t: Transport, e: Event)
    requires e.Service? || e.Handshake? || e.Excluded? || e.Received? || e.Acknowledge? || e.NewKey?
             || e.Dropped? || e.Stored? || e.Reloaded?
    ensures Step(w, t, e).desk.asked == t.desk.asked && Step(w, t, e).desk.settled == t.desk.settled
  {
    hide SendService, SendPlain, Flush, KeyDerived;
    match e
    case Service(body) => ServiceKeepsDesk(w, t, body);
    case Handshake(body) => PlainKeepsDesk(w, t, body, 0);
    case Acknowledge => FlushFrame(w, t);
    case NewKey(session, salt, offset, reply) => KeyKeepsDesk(w, t, session, salt, offset, reply);
    case _ =>
  }

  ghost function AllAsked(w: World, t: Transport, events: seq<Event>): multiset<bytes> {
    if events == [] then multiset{}
    else
      var before := events[..|events| - 1];
      AllAsked(w, t, before) + AskedBy(w, Steps(w, t, before), events[|events| - 1])
  }

  ghost function AllDisposed(w: World, t: Transport, events: seq<Event>): multiset<bytes> {
    if events == [] then multiset{}
    else
      var before := events[..|events| - 1];
      AllDisposed(w, t, before) + DisposedBy(w, Steps(w, t, before), events[|events| - 1])
  }

  lemma {:induction false} StepsBook(w: World, t: Transport, events: seq<Event>)
    ensures Booked(t.desk, Steps(w, t, events).desk, AllAsked(w, t, events), AllDisposed(w, t, events))
    decreases |events|
  {
    hide Step, AskedBy, DisposedBy;
    if events != [] {
      var before := events[..|events| - 1];
      StepsBook(w, t, before);
      StepBooks(w, Steps(w, t, before), events[|events| - 1]);
    }
  }

  /** Over every run whatever, each request made is on one of the three tables, or was disposed of
      by one of the events that do so, or was overwritten; and is so once. */
  lemma RequestsAreAccountedFor(w: World, saved: Saved, isMain: bool, events: seq<Event>)
    ensures var d := Steps(w, Fresh(saved, isMain), events).desk;
            AllAsked(w, Fresh(saved, isMain), events)
              == Bodies(d.pending) + Bodies(d.migration) + Bodies(d.flood)
                 + AllDisposed(w, Fresh(saved, isMain), events) + d.lost
  {
    hide Step, Bodies, AllAsked, AllDisposed;
    NothingYet(saved, isMain);
    StepsBalance(w, Fresh(saved, isMain), events);
    StepsBook(w, Fresh(saved, isMain), events);
  }

  lemma NothingYet(saved: Saved, isMain: bool)
    ensures Balanced(Fresh(saved, isMain).desk)
    ensures Fresh(saved, isMain).desk.asked == Fresh(saved, isMain).desk.settled == multiset{}
  {
  }

  /** And none is overwritten where ids are not used twice and no error names a request that waits
      already: each request made is then on one of the tables until one of those events names it. */
  lemma RequestsWaitUntilNamed(w: World, saved: Saved, isMain: bool, events: seq<Event>)
    requires Plausible(saved) && OrderlyRun(w, Fresh(saved, isMain), events)
    requires Distinct(Steps(w, Fresh(saved, isMain), events).line.wire)
    ensures AllAsked(w, Fresh(saved, isMain), events)
              == Held(Steps(w, Fresh(saved, isMain), events).desk) + AllDisposed(w, Fresh(saved, isMain), events)
  {
    hide Steps, Bodies, AllAsked, AllDisposed, OrderlyRun, Distinct;
    RequestsAreAccountedFor(w, saved, isMain, events);
    NothingIsOverwritten(w, saved, isMain, events);
  }

  /** With a key in use, rejections, replays, migrations, new keys and reconnections dispose of
      nothing, nor does a keepalive before forty requests are pending. */
  lemma MovingDisposesOfNone(w: World, t: Transport, e: Event)
    requires t.keyed
    requires e.Rejection? || e.Config? || e.NewKey? || e.Reloaded? || e.Dropped? || e.Stored? || e.Acknowledge?
             || (e.Timer? && |t.desk.pending| < FORGET_AT)
             || (e.Error? && Classify(e.code, e.message) == AccountMoved && t.isMain)
             || (e.Error? && Classify(e.code, e.message) == MustWait && e.id !in t.desk.noReplay)
    ensures Step(w, t, e).desk.settled == t.desk.settled
  {
    hide Step, Classify;
    StepBooks(w, t, e);
  }

  /** A keepalive forgets every pending request exactly when there are forty of them. */
  lemma KeepaliveForgetsIff(w: World, t: Transport, keys: seq<int64>, ping: bytes)
    requires t.keyed && Bodies(t.desk.pending) != multiset{}
    ensures Step(w, t, Timer(keys, ping)).desk.settled == t.desk.settled + Bodies(t.desk.pending)
            <==> |t.desk.pending| >= FORGET_AT
  {
    hide Step, Bodies;
    StepBooks(w, t, Timer(keys, ping));
    var more := Bodies(t.desk.pending);
    var b :| b in more;
    assert (t.desk.settled + more)[b] > t.desk.settled[b];
  }
}
