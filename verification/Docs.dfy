/**
 * How the hub answers one document frame: packages/relay/src/hub/docs.ts. Each answer is a value:
 * the row it leaves, the followers it leaves, and the frames for the sender and for each other follower.
 */
module Docs {
  import opened Common
  import opened Payloads
  import opened Rows

  /** A socket's number and its grant; `subs` is how many documents it follows by now. */
  datatype Sender = Sender(tag: nat, readOnly: bool, who: string, name: string, subs: nat)

  /**
   * What handling a frame leaves: the document's row, who follows it, the one frame each socket is sent, the payload
   * added to this log, and the payload the mover's target is seeded with.
   */
  datatype Answer = Answer(
    row: Option<Row>,
    followers: set<nat>,
    mail: map<nat, ServerFrame>,
    logged: Option<Payload>,
    seeded: Option<Payload>)

  function ToFollowers(followers: set<nat>, except: nat, f: ServerFrame): map<nat, ServerFrame>
  {
    map t | t in followers && t != except :: f
  }

  function Reply(row: Option<Row>, followers: set<nat>, tag: nat, f: ServerFrame): Answer
  {
    Answer(row, followers, map[tag := f], None, None)
  }

  function Silence(row: Option<Row>, followers: set<nat>): Answer { Answer(row, followers, map[], None, None) }

  function MovedFrame(p: Pointer): ServerFrame { Frames.Moved(p.target, p.note) }

  /** A write that is taken: one more delta, an Echo(n) for `tag`, a Fanout for each other follower. */
  function Logged(row: Option<Row>, followers: set<nat>, tag: nat, n: nat, payload: Payload, drawn: string): Answer
  {
    var grown := Appended(row, payload, drawn);
    Answer(Some(grown), followers,
           ToFollowers(followers, tag, Frames.Fanout(grown.Head(), tag, payload))[tag := Frames.Echo(grown.Head(), n)],
           Some(payload), None)
  }

  function Subscribe(doc: Frames.DocId, row: Option<Row>, followers: set<nat>, sender: Sender, since: nat): Answer
  {
    if |doc| > Frames.MAX_DOC_ID_LENGTH then Silence(row, followers)
    else if PointerOf(row).Some? then Reply(row, followers, sender.tag, MovedFrame(PointerOf(row).value))
    else if sender.tag !in followers && sender.subs >= Frames.MAX_DOC_SUBS then
      Reply(row, followers, sender.tag, Frames.Refused(Frames.TooManyDocs))
    else
      var joined := if sender.tag in followers then map[]
                    else ToFollowers(followers, sender.tag, Frames.Join(sender.tag, sender.who, sender.name));
      Answer(row, followers + {sender.tag}, joined[sender.tag := StateFrom(row, since)], None, None)
  }

  predicate WellAddressed(doc: Frames.DocId, target: Frames.DocId, note: bytes)
  {
    && target != "" && target != doc && |target| <= Frames.MAX_DOC_ID_LENGTH
    && |note| <= Frames.MAX_MOVE_NOTE_BYTES
  }

  /** Seeds the target and leaves a pointer, or tells the mover what the room is. */
  function RotateRoom(doc: Frames.DocId, row: Option<Row>, followers: set<nat>, tag: nat, target: Option<Row>, f: ClientFrame): Answer
    requires f.Rotate?
  {
    if !WellAddressed(doc, f.target, f.note) then Silence(row, followers)
    else if !MayRotate(row, f.upto, target) then Reply(row, followers, tag, StateFrom(row, f.upto))
    else
      var pointer := Pointer(f.target, f.note);
      Answer(Some(MovedRow(row, pointer)), followers, map t | t in followers :: MovedFrame(pointer), None, Some(f.payload))
  }

  function Followed(doc: Frames.DocId, row: Option<Row>, followers: set<nat>, sender: Sender, target: Option<Row>, drawn: string, f: ClientFrame): Answer
    requires !f.Sub?
  {
    var tag := sender.tag;
    if f.Unsub? then
      Answer(row, followers - {tag}, ToFollowers(followers, tag, Frames.Leave(tag)), None, None)
    else if PointerOf(row).Some? then Reply(row, followers, tag, MovedFrame(PointerOf(row).value))
    else if f.Awareness? then
      Answer(row, followers, ToFollowers(followers, tag, Frames.Peer(tag, f.payload)), None, None)
    else if sender.readOnly then Reply(row, followers, tag, Frames.Refused(Frames.ReadOnly))
    else match f
      case Update(n, payload) => Logged(row, followers, tag, n, payload, drawn)
      case Seed(n, payload) =>
        if row.Some? then Reply(row, followers, tag, StateFrom(row, 0))
        else Logged(row, followers, tag, n, payload, drawn)
      case Snapshot(upto, payload) =>
        Silence(if row.Some? then Some(Compacted(row.value, payload, upto)) else None, followers)
      case Rotate(_, _, _, _) => RotateRoom(doc, row, followers, tag, target, f)
      case _ => Silence(row, followers)
  }

  /** `target` is the row of the document a Rotate names; a frame from a socket that does not follow is ignored. */
  function Handle(doc: Frames.DocId, row: Option<Row>, followers: set<nat>, sender: Sender, target: Option<Row>, drawn: string, f: ClientFrame): Answer
  {
    if f.Sub? then Subscribe(doc, row, followers, sender, f.since)
    else if sender.tag in followers then Followed(doc, row, followers, sender, target, drawn, f)
    else Silence(row, followers)
  }
}
