/** The sequencer as a state machine over its locked sections (ceremony/sequencer.go).

    A Lobby is the memory of one sequencer process and its functions are the bodies
    of the sections between Lock and Unlock, each reading the clock once. A World
    adds the disk, the clock, the requests between their two sections, and a
    history that no step reads.  */
module Protocol {
  import opened Basics
  import opened Crypto
  import opened Names
  import opened Transcripts
  import opened Storage
  import Average

  const MINUTE: Time := 60 * 1_000_000_000

  datatype Config = Config(be: Backend, slotTimeout: Time, challengeTTL: Time) {
    /** NewSequencer replaces durations that are not positive: by ten minutes for the
        slot timeout and five for the lifetime of a challenge.  */
    function WithDefaults(): (c: Config)
      ensures c.Valid() && c.be == be
      ensures c.slotTimeout == (if slotTimeout > 0 then slotTimeout else 10 * MINUTE)
      ensures c.challengeTTL == (if challengeTTL > 0 then challengeTTL else 5 * MINUTE)
    {
      Config(be,
             if slotTimeout <= 0 then 600_000_000_000 else slotTimeout,
             if challengeTTL <= 0 then 300_000_000_000 else challengeTTL)
    }

    predicate Valid() {
      slotTimeout > 0 && challengeTTL > 0
    }
  }

  datatype Session = Session(id: string, who: Identity, joined: Time)

  datatype Lobby = Lobby(
    head: Blob,
    doc: Document,
    queue: seq<Session>,
    active: Option<Session>,
    activeSince: Option<Time>,
    deadline: Time,
    avgContrib: Time,
    closed: bool,
    chals: map<string, Time>)
  {
    predicate Holds(id: string) {
      active.Some? && active.value.id == id
    }

    function Promoted(now: Time, timeout: Time): Lobby {
      if active.None? && !closed && |queue| > 0 then
        this.(active := Some(queue[0]), queue := queue[1..],
              activeSince := Some(now), deadline := now + timeout)
      else this
    }

    /** One tick of the expiry loop. */
    function Expired(now: Time, timeout: Time): Lobby {
      if active.Some? && now > deadline then this.(active := None).Promoted(now, timeout) else this
    }

    /** The second section of a join. */
    function Joined(s: Session, now: Time, timeout: Time): Lobby {
      this.(queue := queue + [s]).Promoted(now, timeout)
    }

    /** A heartbeat, or the first section of an upload. */
    function Refreshed(now: Time, timeout: Time): Lobby {
      this.(deadline := now + timeout)
    }

    /** Issues a challenge and prunes the expired ones. */
    function Challenged(c: string, now: Time, ttl: Time): Lobby {
      this.(chals := (map k | k in chals && now <= chals[k] :: chals[k])[c := now + ttl])
    }

    /** The test of the first section of a join. */
    predicate Admits(c: string, now: Time) {
      !closed && c in chals && now <= chals[c]
    }

    /** A challenge is used once. */
    function Consumed(c: string): Lobby {
      this.(chals := chals - {c})
    }

    /** Appended, with the new average and head; the slot is still held. */
    function Advanced(doc': Document, next: Blob, now: Time): Lobby {
      this.(doc := doc', head := next,
            avgContrib := match activeSince
                          case None => avgContrib
                          case Some(t) => Average.Update(avgContrib, now - t))
    }

    function Released(now: Time, timeout: Time): Lobby {
      this.(active := None).Promoted(now, timeout)
    }
  }

  /** 1-based place in a queue, or -1. */
  function Place(queue: seq<Session>, id: string): int {
    if queue == [] then -1
    else if queue[0].id == id then 1
    else
      var p := Place(queue[1..], id);
      if p < 0 then -1 else p + 1
  }

  /** 0 for the holder of the slot, the place in the queue for a waiting session, or -1. */
  function Position(lobby: Lobby, id: string): int {
    if lobby.Holds(id) then 0 else Place(lobby.queue, id)
  }

  // ---- the second section of an upload ----

  /** An upload between its two sections. */
  datatype Upload = Upload(session: Session, prevHead: Blob, next: Blob)

  datatype Receipt = Receipt(index: nat, prevSha: string, newSha: string, blobRef: string)

  datatype Reply = Accepted(receipt: Receipt) | Unverified | SlotLost | WriteFailed | ChainBroken | Died

  /** How the three writes of a commit end. */
  datatype CommitIo = CommitIo(blob: Io, head: Io, doc: Io)

  /** What a section leaves: the disk, the memory unless the process died, the reply. */
  datatype Outcome = Outcome(disk: Disk, lobby: Option<Lobby>, reply: Reply)

  function NewEntry(be: Backend, lobby: Lobby, up: Upload, now: Time): Entry {
    Entry(0, up.session.who, be.Sha(up.prevHead), be.Sha(up.next),
          BlobName(|lobby.doc.entries|, be.hash(up.next)), now)
  }

  function ReceiptFor(be: Backend, lobby: Lobby, up: Upload): Receipt {
    Receipt(|lobby.doc.entries|, be.Sha(up.prevHead), be.Sha(up.next),
            BlobName(|lobby.doc.entries|, be.hash(up.next)))
  }

  /** Verify, re-check the slot, then SaveBlob, Append, SaveHead, SaveTranscript. */
  function Commit(cfg: Config, lobby: Lobby, disk: Disk, up: Upload, now: Time, io: CommitIo): Outcome {
    if !cfg.be.stepOK(up.prevHead, up.next) then Outcome(disk, Some(lobby), Unverified)
    else if !lobby.Holds(up.session.id) then Outcome(disk, Some(lobby), SlotLost)
    else
      var entry := NewEntry(cfg.be, lobby, up, now);
      var disk1 := SaveBlob(disk, entry.blobRef, up.next, io.blob);
      if io.blob.Bad? then Outcome(disk1, Some(lobby), WriteFailed)
      else if io.blob.GoodThenCrash? then Outcome(disk1, None, Died)
      else Record(cfg, lobby, disk1, up, now, io)
  }

  function Record(cfg: Config, lobby: Lobby, disk: Disk, up: Upload, now: Time, io: CommitIo): Outcome {
    match lobby.doc.Append(NewEntry(cfg.be, lobby, up, now))
    case None => Outcome(disk, Some(lobby), ChainBroken)
    case Some(doc) =>
      Persist(cfg, lobby.Advanced(doc, up.next, now), disk, ReceiptFor(cfg.be, lobby, up), now, io)
  }

  function Persist(cfg: Config, lobby: Lobby, disk: Disk, receipt: Receipt, now: Time, io: CommitIo): Outcome {
    var disk2 := SaveHead(disk, lobby.head, io.head);
    if io.head.Bad? then Outcome(disk2, Some(lobby), WriteFailed)
    else if io.head.GoodThenCrash? then Outcome(disk2, None, Died)
    else
      var disk3 := SaveTranscript(disk2, lobby.doc, io.doc);
      if io.doc.Bad? then Outcome(disk3, Some(lobby), WriteFailed)
      else if io.doc.GoodThenCrash? then Outcome(disk3, None, Died)
      else Outcome(disk3, Some(lobby.Released(now, cfg.slotTimeout)), Accepted(receipt))
  }

  // ---- start: fresh or resumed ----

  /** Whether the two reads of a start succeed, and how its two writes end. */
  datatype StartIo = StartIo(readDoc: bool, readHead: bool, head: Io, doc: Io)

  function FreshLobby(head: Blob, doc: Document): Lobby {
    Lobby(head, doc, [], None, None, 0, 0, false, map[])
  }

  function EmptyDocument(be: Backend, init: Blob, circuit: string): Document {
    Document(be.curveName, circuit, be.Sha(init), [])
  }

  /** A start resumes exactly when it can read a transcript: any failure to read one
      counts as a fresh start.  */
  predicate Resumes(disk: Disk, io: StartIo) {
    io.readDoc && disk.doc.Some?
  }

  function Start(cfg: Config, disk: Disk, init: Blob, circuit: string, io: StartIo): (Disk, Option<Lobby>) {
    if Resumes(disk, io) then
      if disk.doc.value.circuit != circuit || !io.readHead || disk.head.None? then (disk, None)
      else (disk, Some(FreshLobby(disk.head.value, disk.doc.value)))
    else
      var doc := EmptyDocument(cfg.be, init, circuit);
      var disk1 := SaveHead(disk, init, io.head);
      if !io.head.Good? then (disk1, None)
      else
        var disk2 := SaveTranscript(disk1, doc, io.doc);
        if !io.doc.Good? then (disk2, None) else (disk2, Some(FreshLobby(init, doc)))
  }

  // ---- the world ----

  /** A join between its two sections; the provider accepted this identity. */
  datatype Pending = Pending(challenge: string, who: Identity)

  /** An upload the sequencer answered with a receipt. */
  datatype Ack = Ack(session: Session, next: Blob, at: Time, receipt: Receipt)

  /** The use of a challenge: when, until when it was good, and by whom. */
  datatype Use = Use(challenge: string, at: Time, expiry: Time, who: Identity)

  datatype Log = Log(
    origin: Blob,                 // the init head of the durable transcript
    acks: seq<Ack>,               // receipts given, oldest first
    tokens: set<string>,          // session tokens handed out
    issued: map<string, Time>,    // challenges handed out, with expiry
    uses: seq<Use>,               // challenges consumed, oldest first
    entered: map<string, string>, // session token -> the challenge it entered with
    // of the running process only:
    joined: seq<Session>,         // sessions enqueued, oldest first
    admitted: seq<Session>,       // sessions that got the slot, oldest first
    departed: nat,                // sessions that left the slot
    refreshed: Time,              // last promotion, heartbeat or capture
    refreshes: nat,               // heartbeats and captures of the active session
    samples: seq<Time>,           // slot-open to append, for every append
    ticked: Time)                 // last tick of the expiry loop

  datatype World = World(
    disk: Disk,
    lobby: Option<Lobby>,
    now: Time,
    uploads: map<nat, Upload>,
    joins: map<nat, Pending>,
    log: Log)

  datatype Event =
    | Advance(to: Time)
    | IssueChallenge(challenge: string)
    | JoinBegin(req: nat, challenge: string, who: Identity)
    | JoinEnd(req: nat, id: string)
    | JoinReject(req: nat)
    | Heartbeat(id: string)
    | UploadBegin(req: nat, id: string, next: Blob)
    | UploadEnd(req: nat, io: CommitIo)
    | UploadDrop(req: nat)
    | Tick
    | Close
    | Crash
    | StartUp(init: Blob, circuit: string, startIo: StartIo)

  /** What the environment can do next: time does not go back, tokens and challenges
      are fresh, requests are numbered apart, and a process starts when none runs.  */
  predicate Enabled(w: World, e: Event) {
    match e
    case Advance(to) => w.now <= to
    case IssueChallenge(c) => w.lobby.Some? && c !in w.log.issued
    case JoinBegin(r, _, _) => w.lobby.Some? && r !in w.joins
    case JoinEnd(r, id) => w.lobby.Some? && r in w.joins && id !in w.log.tokens
    case JoinReject(r) => r in w.joins
    case Heartbeat(_) => w.lobby.Some?
    case UploadBegin(r, _, _) => w.lobby.Some? && r !in w.uploads
    case UploadEnd(r, _) => w.lobby.Some? && r in w.uploads
    case UploadDrop(r) => r in w.uploads
    case Tick => w.lobby.Some?
    case Close => w.lobby.Some?
    case Crash => true
    case StartUp(_, _, _) => w.lobby.None?
  }

  /** Records what a step did to the slot. */
  function Track(log: Log, before: Lobby, after: Lobby, now: Time): Log {
    if before.active == after.active then log
    else
      var log1 := if before.active.Some? then log.(departed := log.departed + 1) else log;
      if after.active.Some? then
        log1.(admitted := log1.admitted + [after.active.value], refreshed := now, refreshes := 0)
      else log1
  }

  function Moved(w: World, after: Lobby): World
    requires w.lobby.Some?
  {
    w.(lobby := Some(after), log := Track(w.log, w.lobby.value, after, w.now))
  }

  /** A process that dies takes its memory and its requests along. */
  function Killed(w: World): World {
    w.(lobby := None, uploads := map[], joins := map[])
  }

  function Next(cfg: Config, w: World, e: Event): World
    requires Enabled(w, e)
  {
    match e
    case Advance(to) => w.(now := to)
    case IssueChallenge(c) =>
      w.(lobby := Some(w.lobby.value.Challenged(c, w.now, cfg.challengeTTL)),
         log := w.log.(issued := w.log.issued[c := w.now + cfg.challengeTTL]))
    case JoinBegin(r, c, who) => BeginJoin(w, r, c, who)
    case JoinEnd(r, id) => EndJoin(cfg, w, r, id)
    case JoinReject(r) => w.(joins := w.joins - {r})
    case Heartbeat(id) => if w.lobby.value.Holds(id) then Refresh(cfg, w) else w
    case UploadBegin(r, id, next) => BeginUpload(cfg, w, r, id, next)
    case UploadEnd(r, io) => EndUpload(cfg, w, r, io)
    case UploadDrop(r) => w.(uploads := w.uploads - {r})
    case Tick =>
      var w' := Moved(w, w.lobby.value.Expired(w.now, cfg.slotTimeout));
      w'.(log := w'.log.(ticked := w.now))
    case Close => w.(lobby := Some(w.lobby.value.(closed := true)))
    case Crash => Killed(w)
    case StartUp(init, circuit, io) => DoStart(cfg, w, init, circuit, io)
  }

  function BeginJoin(w: World, r: nat, c: string, who: Identity): World
    requires w.lobby.Some?
  {
    var lobby := w.lobby.value;
    if lobby.Admits(c, w.now) then
      w.(lobby := Some(lobby.Consumed(c)), joins := w.joins[r := Pending(c, who)],
         log := w.log.(uses := w.log.uses + [Use(c, w.now, lobby.chals[c], who)]))
    else w
  }

  function EndJoin(cfg: Config, w: World, r: nat, id: string): World
    requires w.lobby.Some? && r in w.joins
  {
    var s := Session(id, w.joins[r].who, w.now);
    var w' := Moved(w, w.lobby.value.Joined(s, w.now, cfg.slotTimeout));
    w'.(joins := w.joins - {r},
        log := w'.log.(joined := w.log.joined + [s], tokens := w.log.tokens + {id},
                       entered := w.log.entered[id := w.joins[r].challenge]))
  }

  function Refresh(cfg: Config, w: World): World
    requires w.lobby.Some?
  {
    w.(lobby := Some(w.lobby.value.Refreshed(w.now, cfg.slotTimeout)),
       log := w.log.(refreshed := w.now, refreshes := w.log.refreshes + 1))
  }

  function BeginUpload(cfg: Config, w: World, r: nat, id: string, next: Blob): World
    requires w.lobby.Some?
  {
    var lobby := w.lobby.value;
    if lobby.Holds(id) then
      Refresh(cfg, w).(uploads := w.uploads[r := Upload(lobby.active.value, lobby.head, next)])
    else w
  }

  function UploadOutcome(cfg: Config, w: World, r: nat, io: CommitIo): Outcome
    requires w.lobby.Some? && r in w.uploads
  {
    Commit(cfg, w.lobby.value, w.disk, w.uploads[r], w.now, io)
  }

  /** An append adds the time since its slot was opened to the samples. */
  function Sampled(w: World, after: Lobby): seq<Time>
    requires w.lobby.Some?
  {
    var before := w.lobby.value;
    if after.doc != before.doc && before.activeSince.Some? then w.log.samples + [w.now - before.activeSince.value]
    else w.log.samples
  }

  function EndUpload(cfg: Config, w: World, r: nat, io: CommitIo): World
    requires w.lobby.Some? && r in w.uploads
  {
    var up, o := w.uploads[r], UploadOutcome(cfg, w, r, io);
    if o.lobby.None? then Killed(w).(disk := o.disk)
    else
      var w1 := w.(disk := o.disk, uploads := w.uploads - {r},
                   log := w.log.(samples := Sampled(w, o.lobby.value)));
      var w' := Moved(w1, o.lobby.value);
      if o.reply.Accepted? then
        w'.(log := w'.log.(acks := w.log.acks + [Ack(up.session, up.next, w.now, o.reply.receipt)]))
      else w'
  }

  function DoStart(cfg: Config, w: World, init: Blob, circuit: string, io: StartIo): World {
    var (disk, lobby) := Start(cfg, w.disk, init, circuit, io);
    var rewrote := !Resumes(w.disk, io) && io.head.Good? && !io.doc.Bad?;
    var log := if rewrote then w.log.(origin := init) else w.log;
    w.(disk := disk, lobby := lobby, uploads := map[], joins := map[],
       log := log.(joined := [], admitted := [], departed := 0, refreshes := 0, samples := [],
                   refreshed := w.now, ticked := w.now))
  }

  // ---- runs ----

  predicate Legal(cfg: Config, w: World, es: seq<Event>)
    decreases |es|, 0
  {
    var n := |es| - 1;
    es == [] || (Legal(cfg, w, es[..n]) && Enabled(Run(cfg, w, es[..n]), es[n]))
  }

  /** The world after the events. */
  function Run(cfg: Config, w: World, es: seq<Event>): World
    requires Legal(cfg, w, es)
    decreases |es|, 1
  {
    var n := |es| - 1;
    if es == [] then w else Next(cfg, Run(cfg, w, es[..n]), es[n])
  }

  lemma {:induction false} PrefixLegal(cfg: Config, w: World, es: seq<Event>, k: nat)
    requires Legal(cfg, w, es) && k <= |es|
    ensures Legal(cfg, w, es[..k])
    decreases |es|
  {
    var n := |es| - 1;
    if k <= n {
      PrefixLegal(cfg, w, es[..n], k);
      assert es[..n][..k] == es[..k];
    } else {
      assert es[..k] == es;
    }
  }

  /** The world before event k of a run. */
  function Before(cfg: Config, w: World, es: seq<Event>, k: nat): (v: World)
    requires Legal(cfg, w, es) && k <= |es|
    ensures k < |es| ==> Enabled(v, es[k])
  {
    PrefixLegal(cfg, w, es, k);
    if k < |es| then
      PrefixLegal(cfg, w, es, k + 1);
      assert es[..k + 1][..k] == es[..k];
      Run(cfg, w, es[..k])
    else Run(cfg, w, es[..k])
  }

  lemma BeforeInPrefix(cfg: Config, w: World, es: seq<Event>, n: nat, k: nat)
    requires Legal(cfg, w, es) && k <= n <= |es|
    ensures Legal(cfg, w, es[..n]) && Before(cfg, w, es[..n], k) == Before(cfg, w, es, k)
    ensures Before(cfg, w, es, n) == Run(cfg, w, es[..n])
  {
    PrefixLegal(cfg, w, es, n);
    assert es[..n][..k] == es[..k];
  }

  lemma BeforeNext(cfg: Config, w: World, es: seq<Event>, k: nat)
    requires Legal(cfg, w, es) && k < |es|
    ensures Before(cfg, w, es, k + 1) == Next(cfg, Before(cfg, w, es, k), es[k])
  {
    PrefixLegal(cfg, w, es, k + 1);
    assert es[..k + 1][..k] == es[..k];
  }

  /** An empty directory and no process. */
  predicate Blank(w: World) {
    && w.disk == Disk(None, None, map[]) && w.lobby == None
    && w.uploads == map[] && w.joins == map[]
    && w.log.acks == [] && w.log.tokens == {} && w.log.issued == map[]
    && w.log.uses == [] && w.log.entered == map[]
  }
}
