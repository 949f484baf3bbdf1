/**
 * What one broadcast does on the wire (app/api/ws.py, ConnectionManager.broadcast): one
 * send attempt per member of the room snapshot, all carrying the same serialised text.
 * The sends are started together by `asyncio.gather(..., return_exceptions=True)`, so
 * they are a set of independent attempts; a failed one is recorded, not raised.
 */
module Fanout {
  import opened Rooms

  /** One send attempt: the socket, the text sent, and whether `send_text` succeeded. */
  datatype Delivery = Delivery(to: Socket, data: string, delivered: bool)

  /** The sockets a list of attempts went to. */
  function Recipients(sends: seq<Delivery>): set<Socket>
  {
    set i | 0 <= i < |sends| :: sends[i].to
  }

  /** The sockets whose send succeeded. */
  function Delivered(sends: seq<Delivery>): set<Socket>
  {
    set i | 0 <= i < |sends| && sends[i].delivered :: sends[i].to
  }

  /** How many attempts went to one socket. */
  function CountTo(sends: seq<Delivery>, ws: Socket): nat
  {
    if sends == [] then 0 else (if sends[0].to == ws then 1 else 0) + CountTo(sends[1..], ws)
  }

  /** No socket is sent to twice. */
  predicate NoRepeats(sends: seq<Delivery>)
  {
    forall i, j :: 0 <= i < j < |sends| ==> sends[i].to != sends[j].to
  }

  /**
   * `sends` is a correct fan-out of `data` to `members` when some sockets in `failing`
   * reject the write: every member is sent to, nobody else is, nobody twice, always the
   * same text, and an attempt fails exactly when its socket is one that fails.
   */
  predicate FanOut(sends: seq<Delivery>, members: set<Socket>, data: string, failing: set<Socket>)
  {
    && Recipients(sends) == members
    && NoRepeats(sends)
    && (forall i :: 0 <= i < |sends| ==> sends[i].data == data)
    && (forall i :: 0 <= i < |sends| ==> (sends[i].delivered <==> sends[i].to !in failing))
  }

  lemma RecipientsCons(sends: seq<Delivery>)
    requires sends != []
    ensures Recipients(sends) == {sends[0].to} + Recipients(sends[1..])
  {
  }

  lemma RecipientsSnoc(sends: seq<Delivery>, d: Delivery)
    ensures Recipients(sends + [d]) == Recipients(sends) + {d.to}
  {
    assert (sends + [d])[|sends|] == d;
    assert forall i :: 0 <= i < |sends| ==> (sends + [d])[i] == sends[i];
  }

  lemma NoRepeatsCons(sends: seq<Delivery>)
    requires sends != [] && NoRepeats(sends)
    ensures sends[0].to !in Recipients(sends[1..]) && NoRepeats(sends[1..])
  {
  }

  /** Each member receives exactly one attempt, and no other socket receives any. */
  lemma {:induction false} FanOutExactlyOnce(sends: seq<Delivery>, members: set<Socket>, data: string,
                                             failing: set<Socket>, ws: Socket)
    requires FanOut(sends, members, data, failing)
    ensures CountTo(sends, ws) == if ws in members then 1 else 0
    decreases |sends|
  {
    if sends != [] {
      var first, rest := sends[0], sends[1..];
      RecipientsCons(sends);
      NoRepeatsCons(sends);
      FanOutExactlyOnce(rest, members - {first.to}, data, failing, ws);
    }
  }

  /** One attempt per member: the number of sends is the size of the snapshot. */
  lemma {:induction false} FanOutSize(sends: seq<Delivery>, members: set<Socket>, data: string,
                                      failing: set<Socket>)
    requires FanOut(sends, members, data, failing)
    ensures |sends| == |members|
    decreases |sends|
  {
    if sends != [] {
      var first, rest := sends[0], sends[1..];
      RecipientsCons(sends);
      NoRepeatsCons(sends);
      FanOutSize(rest, members - {first.to}, data, failing);
    }
  }

  /** A room with no members gets no send at all. */
  lemma EmptyRoomNoSends(sends: seq<Delivery>, data: string, failing: set<Socket>)
    requires FanOut(sends, {}, data, failing)
    ensures sends == []
  {
    FanOutSize(sends, {}, data, failing);
  }

  /**
   * Failures are isolated: whatever subset of members rejects the write, every other
   * member receives the message.
   */
  lemma FailureIsolation(sends: seq<Delivery>, members: set<Socket>, data: string, failing: set<Socket>)
    requires FanOut(sends, members, data, failing)
    ensures Delivered(sends) == members - failing
  {
  }
}
