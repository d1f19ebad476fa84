/** What the hub's answers promise each side of a document: packages/relay/src/hub/docs.ts, one frame at a time. */
module Answers {
  import opened Common
  import opened Payloads
  import opened Rows
  import opened Docs

  /** A frame that would change the room. */
  predicate Writes(f: ClientFrame) { f.Update? || f.Seed? || f.Snapshot? || f.Rotate? }

  /** The sender alone hears `f`. */
  ghost predicate OnlyTo(mail: map<nat, ServerFrame>, tag: nat, f: ServerFrame)
  {
    tag in mail && mail[tag] == f && forall t :: t in mail ==> t == tag
  }

  /** Every other follower hears `f`, and nobody but the sender hears anything else. */
  ghost predicate OthersGet(mail: map<nat, ServerFrame>, followers: set<nat>, tag: nat, f: ServerFrame)
  {
    && (forall t :: t in followers && t != tag ==> t in mail && mail[t] == f)
    && forall t :: t in mail && t != tag ==> t in followers
  }

  ghost predicate Untouched(row: Option<Row>, ans: Answer) { ans.row == row && ans.logged == None && ans.seeded == None }

  /** Whatever a read-only socket sends, the room stays as it is; a write is refused. */
  lemma {:induction false} ReadersWriteNothing(doc: Frames.DocId, row: Option<Row>, followers: set<nat>, sender: Sender, target: Option<Row>, drawn: string, f: ClientFrame)
    requires sender.readOnly
    ensures var ans := Handle(doc, row, followers, sender, target, drawn, f);
      && Untouched(row, ans)
      && (Writes(f) && sender.tag in followers && PointerOf(row) == None ==>
            OnlyTo(ans.mail, sender.tag, Frames.Refused(Frames.ReadOnly)) && ans.followers == followers)
  {
  }

  /** The log gets `payload` as its next entry: the sender its echo, every other follower the entry. */
  ghost predicate TakesIn(row: Option<Row>, followers: set<nat>, sender: Sender, ans: Answer, n: nat, payload: Payload)
  {
    var head := HeadOf(row) + 1;
    && ans.logged == Some(payload) && ans.seeded == None && ans.followers == followers
    && HeadOf(ans.row) == head && PointerOf(ans.row) == None
    && sender.tag in ans.mail && ans.mail[sender.tag] == Frames.Echo(head, n)
    && OthersGet(ans.mail, followers, sender.tag, Frames.Fanout(head, sender.tag, payload))
  }

  /** A following writer's update of a room that has not moved is always logged. */
  lemma {:induction false} WritersAreLogged(doc: Frames.DocId, row: Option<Row>, followers: set<nat>, sender: Sender, target: Option<Row>, drawn: string, f: ClientFrame)
    requires f.Update? && !sender.readOnly && sender.tag in followers && PointerOf(row) == None
    ensures TakesIn(row, followers, sender, Handle(doc, row, followers, sender, target, drawn, f), f.n, f.payload)
  {
  }

  /** A seed is logged where the room has no row, and answered the whole room where it has. */
  lemma {:induction false} FirstSeedIsLogged(doc: Frames.DocId, row: Option<Row>, followers: set<nat>, sender: Sender, target: Option<Row>, drawn: string, f: ClientFrame)
    requires f.Seed? && !sender.readOnly && sender.tag in followers && PointerOf(row) == None
    ensures var ans := Handle(doc, row, followers, sender, target, drawn, f);
      if row.None? then TakesIn(row, followers, sender, ans, f.n, f.payload)
      else Untouched(row, ans) && OnlyTo(ans.mail, sender.tag, StateFrom(row, 0))
  {
  }

  /** A following writer's snapshot goes into the row and nobody hears of it. */
  lemma {:induction false} SnapshotsCompact(doc: Frames.DocId, row: Option<Row>, followers: set<nat>, sender: Sender, target: Option<Row>, drawn: string, f: ClientFrame)
    requires f.Snapshot? && !sender.readOnly && sender.tag in followers && row.Some? && PointerOf(row) == None
    requires row.value.snapSeq < f.upto <= HeadOf(row) && f.payload.size > 0
    ensures var ans := Handle(doc, row, followers, sender, target, drawn, f);
      && ans.mail == map[] && ans.logged == None && ans.seeded == None && ans.followers == followers && HeadOf(ans.row) == HeadOf(row)
      && ans.row.Some? && ans.row.value.snap == Some(f.payload) && ans.row.value.snapSeq == f.upto
  {
    SnapshotReplaces(row.value, f.payload, f.upto);
  }

  /** Every frame but an Unsub tells its sender where the room went and by whose note, and does nothing else. */
  lemma {:induction false} MovedTellsWhere(doc: Frames.DocId, row: Option<Row>, followers: set<nat>, sender: Sender, target: Option<Row>, drawn: string, f: ClientFrame)
    requires PointerOf(row).Some? && !f.Unsub?
    requires if f.Sub? then |doc| <= Frames.MAX_DOC_ID_LENGTH else sender.tag in followers
    ensures var ans, p := Handle(doc, row, followers, sender, target, drawn, f), PointerOf(row).value;
      && Untouched(row, ans) && ans.followers == followers
      && sender.tag in ans.mail && ans.mail[sender.tag].Moved?
      && ans.mail[sender.tag].target == p.target && ans.mail[sender.tag].note == p.note
      && forall t :: t in ans.mail ==> t == sender.tag
  {
  }

  /** What a rotation asks of the room it leaves and of the one it goes to. */
  ghost predicate MayMove(doc: Frames.DocId, row: Option<Row>, sender: Sender, followers: set<nat>, target: Option<Row>, f: ClientFrame)
    requires f.Rotate?
  {
    && sender.tag in followers && !sender.readOnly
    && 0 < |f.target| <= Frames.MAX_DOC_ID_LENGTH && f.target != doc && |f.note| <= Frames.MAX_MOVE_NOTE_BYTES
    && PointerOf(row) == None && f.upto == HeadOf(row) && target == None
  }

  /** A room moves exactly when its head is where the mover saw it, to a room with no row; all followers hear where. */
  lemma {:induction false} MovesExactly(doc: Frames.DocId, row: Option<Row>, followers: set<nat>, sender: Sender, target: Option<Row>, drawn: string, f: ClientFrame)
    requires f.Rotate?
    ensures var ans := Handle(doc, row, followers, sender, target, drawn, f);
      && (ans.seeded.Some? <==> MayMove(doc, row, sender, followers, target, f))
      && (ans.seeded.None? ==> Untouched(row, ans))
      && (ans.seeded.Some? ==>
            && ans.seeded.value == f.payload && ans.logged == None && ans.followers == followers
            && PointerOf(ans.row).Some? && PointerOf(ans.row).value.target == f.target && PointerOf(ans.row).value.note == f.note
            && ans.mail.Keys == followers
            && forall t :: t in ans.mail ==> ans.mail[t] == Frames.Moved(f.target, f.note))
  {
  }

  /** A mover that is refused is told the room from where it stood; one that addressed nothing hears nothing. */
  lemma {:induction false} RefusedMoverCatchesUp(doc: Frames.DocId, row: Option<Row>, followers: set<nat>, sender: Sender, target: Option<Row>, drawn: string, f: ClientFrame)
    requires f.Rotate? && sender.tag in followers && !sender.readOnly && PointerOf(row) == None
    requires !MayMove(doc, row, sender, followers, target, f)
    ensures var ans := Handle(doc, row, followers, sender, target, drawn, f);
      if 0 < |f.target| <= Frames.MAX_DOC_ID_LENGTH && f.target != doc && |f.note| <= Frames.MAX_MOVE_NOTE_BYTES
      then OnlyTo(ans.mail, sender.tag, StateFrom(row, f.upto)) else ans.mail == map[]
  {
  }

  /** A newcomer follows and hears the room from where it asked, the others hear of it; 64 documents are enough. */
  lemma {:induction false} NewcomersFollow(doc: Frames.DocId, row: Option<Row>, followers: set<nat>, sender: Sender, target: Option<Row>, drawn: string, f: ClientFrame)
    requires f.Sub? && |doc| <= Frames.MAX_DOC_ID_LENGTH && PointerOf(row) == None
    ensures var ans := Handle(doc, row, followers, sender, target, drawn, f);
      && Untouched(row, ans)
      && (sender.tag in followers || sender.subs < 64 ==>
            && ans.followers == followers + {sender.tag}
            && sender.tag in ans.mail && ans.mail[sender.tag] == StateFrom(row, f.since))
      && (sender.tag !in followers && sender.subs < 64 ==>
            OthersGet(ans.mail, followers, sender.tag, Frames.Join(sender.tag, sender.who, sender.name)))
      && (sender.tag !in followers && sender.subs >= 64 ==>
            ans.followers == followers && OnlyTo(ans.mail, sender.tag, Frames.Refused(Frames.TooManyDocs)))
      && (sender.tag in followers ==> forall t :: t in ans.mail ==> t == sender.tag)
  {
  }

  /** Cursors and departures go to every other follower, a reader's too, and touch nothing. */
  lemma {:induction false} PresenceGoesRound(doc: Frames.DocId, row: Option<Row>, followers: set<nat>, sender: Sender, target: Option<Row>, drawn: string, f: ClientFrame)
    requires sender.tag in followers && (f.Unsub? || (f.Awareness? && PointerOf(row) == None))
    ensures var ans := Handle(doc, row, followers, sender, target, drawn, f);
      && Untouched(row, ans) && sender.tag !in ans.mail
      && ans.followers == (if f.Unsub? then followers - {sender.tag} else followers)
      && OthersGet(ans.mail, followers, sender.tag, if f.Unsub? then Frames.Leave(sender.tag) else Frames.Peer(sender.tag, f.payload))
  {
  }

  /** Nobody hears of a document it does not follow, and only a follower is heard; none follows a document with too long a name. */
  lemma {:induction false} StrangersHearNothing(doc: Frames.DocId, row: Option<Row>, followers: set<nat>, sender: Sender, target: Option<Row>, drawn: string, f: ClientFrame)
    ensures var ans := Handle(doc, row, followers, sender, target, drawn, f);
      && ans.mail.Keys <= followers + {sender.tag}
      && (f.Sub? && |doc| > 64 ==> Untouched(row, ans) && ans.mail == map[] && ans.followers == followers)
      && (sender.tag !in followers && !f.Sub? ==> Untouched(row, ans) && ans.mail == map[] && ans.followers == followers)
  {
  }
}
