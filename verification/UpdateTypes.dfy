/** The objects that reach the update pipeline, and what it hands on.
    A TL object is a map whose absent keys read as zero or empty; each record below keeps
    the keys the pipeline looks at, and an Option where absence itself is looked at. */
module UpdateTypes {
  import opened Integers
  import opened Options

  datatype Peer = OtherPeer | ChannelPeer(channelId: int)

  datatype Message = Message(peer: Peer, content: int)

  /** `tooLong` is the updateChannelTooLong constructor; `content` stands for everything the
      pipeline passes on unread. */
  datatype Update = Update(
    tooLong: bool,
    channel: Option<int>,
    message: Option<Message>,
    pts: Option<int32>,
    ptsCount: int32,
    content: int)

  datatype Chat = Chat(isChannel: bool, id: int, accessHash: Option<int>)

  datatype ContainerKind = TooLong | Short | Batch | ShortForm | UnknownContainer

  /** The Updates type. `body` is the single update of updateShort, or the short-message
      container read as its own update. */
  datatype Container = Container(
    kind: ContainerKind,
    body: Update,
    list: seq<Update>,
    users: seq<int>,
    chats: seq<Chat>,
    date: int32,
    seqStart: int32,
    seqEnd: int32)

  datatype StateValues = StateValues(pts: int32, qts: int32, date: int32, seqNo: int32)

  datatype DifferenceKind =
    DifferenceUnreadable | DifferenceEmpty | DifferenceFull | DifferenceSlice | DifferenceTooLong | DifferenceUnknown

  datatype Difference = Difference(
    kind: DifferenceKind,
    pts: int32,
    date: int32,
    seqNo: int32,
    newMessages: seq<Message>,
    otherUpdates: seq<Update>,
    users: seq<int>,
    chats: seq<Chat>,
    state: StateValues,
    intermediate: Option<StateValues>)

  datatype ChannelDifferenceKind =
    ChannelUnreadable | ChannelEmpty | ChannelFull | ChannelTooLong | ChannelUnknown

  datatype ChannelDifference = ChannelDifference(
    kind: ChannelDifferenceKind,
    pts: int32,
    dialogPts: int32,
    final: bool,
    newMessages: seq<Message>,
    otherUpdates: seq<Update>,
    users: seq<int>,
    chats: seq<Chat>)

  datatype RpcError = PersistentTimestamp | ChannelUnreachable | OtherError

  /** One pts-carrying update with the envelope it arrived in. */
  datatype Item = Item(
    update: Update,
    users: seq<int>,
    chats: seq<Chat>,
    messageId: int,
    channelId: int,
    pts: int32,
    ptsCount: int32,
    date: int32,
    shortForm: bool)

  datatype Parked = Parked(item: Item, parkedAt: nat)

  /** What the client is told, in order. What a difference recovered goes out on the same signal
      as a pushed update; it is told apart here because no sequence was consulted for it. */
  datatype Dispatch =
    | UpdateOut(update: Update, users: seq<int>, chats: seq<Chat>, date: int32)
    | RecoveredOut(update: Update, users: seq<int>, chats: seq<Chat>, date: int32)
    | MessageOut(message: Update, messageId: int)
    | StateOut(pts: int32, qts: int32, date: int32, seqNo: int32)
    | ResetOut
    | ChannelResetOut(channelId: int)

  /** What the client is asked to send. */
  datatype Request =
    | GetState
    | GetDifference(pts: int32, date: int32, qts: int32)
    | GetChannelDifference(channelId: int, accessHash: int, channelPts: int32, limit: int)

  datatype Sent = Sent(id: int, request: Request)

  const MAX_CHANNEL_POLLS := 10
  const MAX_PENDING := 64
  const DIFFERENCE_LIMIT := 100

  /** Which sequence an update belongs to; 0 is the common one. */
  function ChannelIdOf(u: Update): int {
    if u.channel.Some? then u.channel.value
    else if u.message.Some? && u.message.value.peer.ChannelPeer? then u.message.value.peer.channelId
    else 0
  }

  function Emission(i: Item): Dispatch {
    if i.shortForm then MessageOut(i.update, i.messageId)
    else UpdateOut(i.update, i.users, i.chats, i.date)
  }

  function Emissions(items: seq<Item>): seq<Dispatch> {
    if items == [] then [] else [Emission(items[0])] + Emissions(items[1..])
  }

  lemma {:induction false} EmissionsAppend(items: seq<Item>, i: Item)
    ensures Emissions(items + [i]) == Emissions(items) + [Emission(i)]
  {
    if items == [] {
      assert items + [i] == [i];
    } else {
      assert (items + [i])[1..] == items[1..] + [i];
      EmissionsAppend(items[1..], i);
    }
  }

  /** A pushed update that carries a pts. */
  predicate InTurn(d: Dispatch) {
    (d.UpdateOut? && d.update.pts.Some?) || (d.MessageOut? && d.message.pts.Some?)
  }

  /** The pushed updates with a pts among what the client was told, in the order told. */
  function HandedOn(out: seq<Dispatch>): seq<Dispatch> {
    if out == [] then []
    else
      var last := out[|out| - 1];
      HandedOn(out[..|out| - 1]) + (if InTurn(last) then [last] else [])
  }

  function Carried(d: Dispatch): Update
    requires d.UpdateOut? || d.RecoveredOut? || d.MessageOut?
  {
    if d.MessageOut? then d.message else d.update
  }

  /** The updates of one sequence that dispatches carry. */
  function UpdatesOn(ds: seq<Dispatch>, c: int): seq<Update>
    requires forall k :: 0 <= k < |ds| ==> InTurn(ds[k])
  {
    if ds == [] then []
    else
      assert InTurn(ds[|ds| - 1]);
      var u := Carried(ds[|ds| - 1]);
      UpdatesOn(ds[..|ds| - 1], c) + (if ChannelIdOf(u) == c then [u] else [])
  }

  /** A message out of a difference travels as an update without pts. */
  function WrapNewMessage(m: Message): Update {
    Update(false, None, Some(m), None, 0, m.content)
  }

  function ItemsOf(ps: seq<Parked>): multiset<Item> {
    if ps == [] then multiset{} else multiset{ps[0].item} + ItemsOf(ps[1..])
  }
}
