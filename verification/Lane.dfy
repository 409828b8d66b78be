/** One direction of one stream: a sending window, the frames in flight, the receiver's inbox and
    the acknowledgements travelling back. The two directions of a stream are two independent lanes. */
module Lane {
  import opened Prelude
  import opened Window

  datatype Item = Chunk(offset: nat, data: bytes) | FinMark

  datatype Note = AckNote(offset: nat) | RewindNote(offset: nat)

  /** held: what the sender has taken from its window but not yet put on the wire. */
  datatype Lane = Lane(tx: Window, held: seq<Item>, wire: seq<Item>, got: bytes, notes: seq<Note>) {
    function Queue(): seq<Item> { wire + held }
  }

  datatype LaneStep =
    | Push(data: bytes)
    | Take(max: nat)
    | Send
    | Deliver
    | SendFin
    | EmitAck(offset: nat)
    | EmitRewind
    | RecvNote
    | LoseItem(k: nat)
    | RepeatItem(k: nat, at: nat)
    | LoseNote(k: nat)
    | RepeatNote(k: nat, at: nat)
    | Cut

  predicate Enabled(l: Lane, st: LaneStep)
    requires l.tx.Valid()
  {
    match st
    case Push(_) => !l.tx.fin
    case Take(_) => l.held == []
    case Send => l.held != []
    case Deliver => l.wire != []
    case SendFin => l.held == []
    case EmitAck(offset) => offset <= |l.got|
    case EmitRewind => true
    case RecvNote => l.notes != []
    case LoseItem(k) => k < |l.wire|
    case RepeatItem(k, at) => k < |l.wire| && at <= |l.wire|
    case LoseNote(k) => k < |l.notes|
    case RepeatNote(k, at) => k < |l.notes| && at <= |l.notes|
    case Cut => true
  }

  /** What the sender does with a note; an error leaves the window as it was. */
  function ApplyNote(w: Window, n: Note): (r: Result<Window, ResumeError>)
    requires w.Valid()
  {
    match n
    case AckNote(offset) => w.Ack(offset)
    case RewindNote(offset) => w.Rewind(offset)
  }

  function Receive(got: bytes, x: Item): (r: Result<bytes, ResumeError>)
  {
    match x
    case FinMark => Ok(got)
    case Chunk(offset, data) =>
      match Inbox(got, None).Accept(offset, data)
      case Ok((inbox, _)) => Ok(inbox.got)
      case Err(e) => Err(e)
  }

  /** A queue that lost its k-th element, and one in which a copy of it turns up elsewhere. */
  function Without<T>(s: seq<T>, k: nat): seq<T>
    requires k < |s|
  {
    s[..k] + s[k + 1..]
  }

  function WithCopy<T>(s: seq<T>, k: nat, at: nat): seq<T>
    requires k < |s| && at <= |s|
  {
    s[..at] + [s[k]] + s[at..]
  }

  function Step(l: Lane, st: LaneStep): (l': Lane)
    requires l.tx.Valid() && Enabled(l, st)
  {
    match st
    case Push(data) => l.(tx := l.tx.Push(data))
    case Take(max) =>
      var (w, s) := l.tx.NextUnsent(max);
      l.(tx := w, held := if s.Some? then [Chunk(s.value.offset, s.value.data)] else [])
    case Send => l.(wire := l.wire + l.held, held := [])
    case SendFin => l.(tx := l.tx.(fin := true), wire := l.wire + [FinMark])
    case Deliver =>
      var r := Receive(l.got, l.wire[0]);
      l.(wire := l.wire[1..], got := if r.Ok? then r.value else l.got)
    case EmitAck(offset) => l.(notes := l.notes + [AckNote(offset)])
    case EmitRewind => l.(notes := l.notes + [RewindNote(|l.got|)])
    case RecvNote =>
      var r := ApplyNote(l.tx, l.notes[0]);
      l.(notes := l.notes[1..], tx := if r.Ok? then r.value else l.tx)
    case LoseItem(k) => l.(wire := Without(l.wire, k))
    case RepeatItem(k, at) => l.(wire := WithCopy(l.wire, k, at))
    case LoseNote(k) => l.(notes := Without(l.notes, k))
    case RepeatNote(k, at) => l.(notes := WithCopy(l.notes, k, at))
    case Cut => l.(wire := [], notes := [])
  }

  // ---- Safety: what every step keeps ----

  predicate Matches(x: Item, hist: bytes)
  {
    x.FinMark? || (x.offset + |x.data| <= |hist| && x.data == hist[x.offset..x.offset + |x.data|])
  }

  predicate AllMatch(xs: seq<Item>, hist: bytes)
  {
    forall i :: 0 <= i < |xs| ==> Matches(xs[i], hist)
  }

  predicate NotesBounded(notes: seq<Note>, bound: nat)
  {
    forall i :: 0 <= i < |notes| ==> notes[i].offset <= bound
  }

  /** What holds whatever the channel does to the frames in flight: everything sent matches the history,
      what was received is a prefix of it, and no note claims more than was received. */
  predicate Sound(l: Lane)
  {
    && l.tx.Valid()
    && AllMatch(l.held, l.tx.hist)
    && AllMatch(l.wire, l.tx.hist)
    && l.got <= l.tx.hist
    && l.tx.acked <= |l.got|
    && NotesBounded(l.notes, |l.got|)
  }

  /** No rewind in flight lies below an earlier note or the released bytes: true as long as notes arrive
      in the order in which they were sent. */
  predicate Ordered(acked: nat, notes: seq<Note>)
  {
    && (forall i :: 0 <= i < |notes| && notes[i].RewindNote? ==> acked <= notes[i].offset)
    && (forall i, j :: 0 <= i < j < |notes| && notes[j].RewindNote? ==> notes[i].offset <= notes[j].offset)
  }

  predicate Safe(l: Lane) { Sound(l) && Ordered(l.tx.acked, l.notes) }

  function NewLane(capacity: nat): (l: Lane)
    requires 0 < capacity
    ensures Safe(l)
  {
    Lane(NewWindow(capacity), [], [], [], [])
  }

  lemma MatchesGrow(xs: seq<Item>, hist: bytes, more: bytes)
    requires AllMatch(xs, hist)
    ensures AllMatch(xs, hist + more)
  {
    forall i | 0 <= i < |xs| && xs[i].Chunk? ensures Matches(xs[i], hist + more) {
      var x := xs[i];
      assert (hist + more)[x.offset..x.offset + |x.data|] == hist[x.offset..x.offset + |x.data|];
    }
  }

  /** Whatever matching frame arrives, in whatever order, the inbox stays a prefix of the history. */
  lemma ReceiveKeepsPrefix(got: bytes, x: Item, hist: bytes)
    requires got <= hist && Matches(x, hist)
    ensures Receive(got, x).Ok? ==> got <= Receive(got, x).value <= hist
    ensures x.Chunk? && Receive(got, x).Ok? ==> |Receive(got, x).value| == Max(|got|, x.offset + |x.data|)
    ensures Receive(got, x).Err? <==> x.Chunk? && |got| < x.offset && |got| < x.offset + |x.data|
  {
    if x.Chunk? && x.offset <= |got| < x.offset + |x.data| {
      assert got + x.data[|got| - x.offset..] == hist[..x.offset + |x.data|];
    }
  }

  /** Honest notes that arrive in order are never refused, and a rewind reports a gap of at most the window. */
  lemma HonestNotesAccepted(l: Lane)
    requires Safe(l) && l.notes != []
    ensures ApplyNote(l.tx, l.notes[0]).Ok?
    ensures var w := ApplyNote(l.tx, l.notes[0]).value;
            && w.Valid() && w.hist == l.tx.hist && w.Pending() <= w.capacity == l.tx.capacity
            && w.acked <= |l.got| && Ordered(w.acked, l.notes[1..])
  {
  }

  /** A note that arrives late or twice may be refused, and then changes nothing. */
  lemma NoteHeard(l: Lane)
    requires Sound(l) && l.notes != []
    ensures var r := ApplyNote(l.tx, l.notes[0]);
            r.Ok? ==> r.value.Valid() && r.value.hist == l.tx.hist && r.value.acked <= |l.got|
    ensures Sound(Step(l, RecvNote))
  {
  }

  /** A repeated or dropped frame is still one of those that were sent. */
  lemma SoundThroughMess(l: Lane, st: LaneStep)
    requires Sound(l) && Enabled(l, st)
    requires st.LoseItem? || st.RepeatItem? || st.LoseNote? || st.RepeatNote?
    ensures Sound(Step(l, st))
  {
    match st {
      case LoseItem(k) => assert forall i :: 0 <= i < |Without(l.wire, k)| ==> Without(l.wire, k)[i] in l.wire;
      case RepeatItem(k, at) =>
        assert forall i :: 0 <= i < |WithCopy(l.wire, k, at)| ==> WithCopy(l.wire, k, at)[i] in l.wire;
      case LoseNote(k) => assert forall i :: 0 <= i < |Without(l.notes, k)| ==> Without(l.notes, k)[i] in l.notes;
      case RepeatNote(k, at) =>
        assert forall i :: 0 <= i < |WithCopy(l.notes, k, at)| ==> WithCopy(l.notes, k, at)[i] in l.notes;
    }
  }

  /** Every step keeps the lane sound, whatever is lost, repeated or overtaken. */
  lemma SoundStep(l: Lane, st: LaneStep)
    requires Sound(l) && Enabled(l, st)
    ensures Sound(Step(l, st))
    ensures l.got <= Step(l, st).got && l.tx.hist <= Step(l, st).tx.hist
  {
    match st {
      case Push(data) =>
        MatchesGrow(l.held, l.tx.hist, data[..Min(l.tx.Writable(), |data|)]);
        MatchesGrow(l.wire, l.tx.hist, data[..Min(l.tx.Writable(), |data|)]);
      case Deliver => ReceiveKeepsPrefix(l.got, l.wire[0], l.tx.hist);
      case RecvNote => NoteHeard(l);
      case LoseItem(_) => SoundThroughMess(l, st);
      case RepeatItem(_, _) => SoundThroughMess(l, st);
      case LoseNote(_) => SoundThroughMess(l, st);
      case RepeatNote(_, _) => SoundThroughMess(l, st);
      case Take(_) =>
      case Send =>
      case SendFin =>
      case EmitAck(_) =>
      case EmitRewind =>
      case Cut =>
    }
  }

  lemma OrderedWithout(acked: nat, notes: seq<Note>, k: nat)
    requires k < |notes| && Ordered(acked, notes)
    ensures Ordered(acked, Without(notes, k))
  {
    var r := Without(notes, k);
    forall i, j | 0 <= i < j < |r| && r[j].RewindNote? ensures r[i].offset <= r[j].offset {
      assert r[i] == notes[if i < k then i else i + 1] && r[j] == notes[if j < k then j else j + 1];
    }
  }

  /** Notes stay in order unless one is repeated. */
  lemma SafeStep(l: Lane, st: LaneStep)
    requires Safe(l) && Enabled(l, st) && !st.RepeatNote?
    ensures Safe(Step(l, st))
    ensures l.got <= Step(l, st).got && l.tx.hist <= Step(l, st).tx.hist
  {
    SoundStep(l, st);
    match st {
      case RecvNote => HonestNotesAccepted(l);
      case LoseNote(k) => OrderedWithout(l.tx.acked, l.notes, k);
      case _ =>
    }
  }

  // ---- The same moves, several steps at once ----

  /** The sender may extend its history, advance its cursor and put matching frames on the wire. */
  lemma SenderMoves(l: Lane, tx: Window, held: seq<Item>, news: seq<Item>)
    requires Sound(l) && tx.Valid()
    requires l.tx.hist <= tx.hist && tx.acked == l.tx.acked
    requires AllMatch(held, tx.hist) && AllMatch(news, tx.hist)
    ensures Sound(l.(tx := tx, held := held, wire := l.wire + news))
  {
    MatchesGrow(l.wire, l.tx.hist, tx.hist[|l.tx.hist|..]);
    assert tx.hist == l.tx.hist + tx.hist[|l.tx.hist|..];
  }

  /** What a receiver that has got bytes may say. */
  predicate HonestNews(news: seq<Note>, got: nat)
  {
    forall i :: 0 <= i < |news| ==> news[i].offset <= got && (news[i].RewindNote? ==> news[i].offset == got)
  }

  /** The receiver may consume frames, extend its inbox within the history, and answer honestly. */
  lemma ReceiverMoves(l: Lane, got: bytes, drop: nat, news: seq<Note>)
    requires Sound(l) && l.got <= got <= l.tx.hist && drop <= |l.wire| && HonestNews(news, |got|)
    ensures Sound(l.(got := got, wire := l.wire[drop..], notes := l.notes + news))
  {
  }

  /** Honest answers keep the notes in order. */
  lemma OrderedNews(acked: nat, notes: seq<Note>, news: seq<Note>, got: nat)
    requires Ordered(acked, notes) && acked <= got && NotesBounded(notes, got) && HonestNews(news, got)
    ensures Ordered(acked, notes + news)
  {
  }

  lemma ItemsLost(l: Lane, drop: nat)
    requires Sound(l) && drop <= |l.wire|
    ensures Sound(l.(wire := l.wire[drop..]))
  {
  }

  lemma NotesLost(l: Lane, drop: nat)
    requires Sound(l) && drop <= |l.notes|
    ensures Sound(l.(notes := l.notes[drop..]))
    ensures Ordered(l.tx.acked, l.notes) ==> Ordered(l.tx.acked, l.notes[drop..])
  {
  }
}
