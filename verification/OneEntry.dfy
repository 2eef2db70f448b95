/** How often one session can write into the transcript. */
module OneEntry {
  import opened Basics
  import opened Crypto
  import opened Transcripts
  import opened Storage
  import opened Protocol
  import opened Safety
  import opened Queue

  /** After the append, one of the two later writes fails and the process lives on. */
  predicate Unsaved(io: CommitIo) {
    io.head.Bad? || (io.head.Good? && io.doc.Bad?)
  }

  /** After a commit that appended, its session still holds the slot exactly when
      SaveHead or SaveTranscript failed.  */
  lemma SlotKept(cfg: Config, w: World, r: nat, io: CommitIo)
    requires InLine(w) && w.lobby.Some? && r in w.uploads
    requires CommitAppends(cfg, w.lobby.value, w.uploads[r], io)
    ensures var w' := EndUpload(cfg, w, r, io);
            w'.lobby.Some? && w'.lobby.value.Holds(w.uploads[r].session.id) <==> Unsaved(io)
  {
    var w', d := EndUpload(cfg, w, r, io), w.log.departed;
    CommitShape(cfg, w.lobby.value, w.disk, w.uploads[r], w.now, io);
    InLineUpload(cfg, w, r, io);
    HolderJoined(w);
    if w'.lobby.Some? && w'.lobby.value.active.Some? && w'.log.departed == d + 1 {
      HolderJoined(w');
      assert w'.log.joined[d] == w.log.joined[d];
    }
  }

  /** While one session holds the slot the head moves exactly by a commit that appends,
      and such a commit leaves it the slot only if SaveHead or SaveTranscript failed.  */
  lemma HeadMoves(cfg: Config, w: World, e: Event)
    requires InLine(w) && Enabled(w, e) && w.lobby.Some? && Next(cfg, w, e).lobby.Some?
    requires w.lobby.value.active.Some? && Next(cfg, w, e).lobby.value.active == w.lobby.value.active
    ensures var appends := e.UploadEnd? && CommitAppends(cfg, w.lobby.value, w.uploads[e.req], e.io);
            && Next(cfg, w, e).lobby.value.head == (if appends then w.uploads[e.req].next else w.lobby.value.head)
            && (appends ==> Unsaved(e.io))
  {
    if e.UploadEnd? {
      CommitShape(cfg, w.lobby.value, w.disk, w.uploads[e.req], w.now, e.io);
      if CommitAppends(cfg, w.lobby.value, w.uploads[e.req], e.io) {
        SlotKept(cfg, w, e.req, e.io);
      }
    } else {
      OthersKeepRecord(cfg, w, e);
    }
  }

  // ---- the contributions of a run ----

  /** A commit whose entry was appended: by whom, how its writes ended, and the entry. */
  datatype Contribution = Contribution(id: string, io: CommitIo, entry: Entry)

  function Contributes(cfg: Config, w: World, e: Event): seq<Contribution>
    requires Enabled(w, e)
  {
    if e.UploadEnd? && CommitAppends(cfg, w.lobby.value, w.uploads[e.req], e.io) then
      var lobby, up := w.lobby.value, w.uploads[e.req];
      [Contribution(up.session.id, e.io, NewEntry(cfg.be, lobby, up, w.now).(index := |lobby.doc.entries|))]
    else []
  }

  /** The commits of the run that appended, oldest first. */
  function Contributed(cfg: Config, w: World, es: seq<Event>): seq<Contribution>
    requires Legal(cfg, w, es)
    decreases |es|
  {
    var n := |es| - 1;
    if es == [] then [] else Contributed(cfg, w, es[..n]) + Contributes(cfg, Run(cfg, w, es[..n]), es[n])
  }

  lemma Continues(cfg: Config, w: World, es: seq<Event>, e: Event)
    requires Legal(cfg, w, es) && Enabled(Run(cfg, w, es), e)
    ensures Legal(cfg, w, es + [e]) && Run(cfg, w, es + [e]) == Next(cfg, Run(cfg, w, es), e)
    ensures Contributed(cfg, w, es + [e]) == Contributed(cfg, w, es) + Contributes(cfg, Run(cfg, w, es), e)
  {
    assert (es + [e])[..|es|] == es;
  }

  /** Every contribution was made at some event of the run. */
  lemma {:induction false} ContributedAt(cfg: Config, w: World, es: seq<Event>, c: Contribution) returns (k: nat)
    requires Legal(cfg, w, es) && c in Contributed(cfg, w, es)
    ensures k < |es| && c in Contributes(cfg, Before(cfg, w, es, k), es[k])
    decreases |es|
  {
    var n := |es| - 1;
    BeforeInPrefix(cfg, w, es, n, n);
    if c in Contributed(cfg, w, es[..n]) {
      k := ContributedAt(cfg, w, es[..n], c);
      BeforeInPrefix(cfg, w, es, n, k);
    } else {
      k := n;
    }
  }

  // ---- a session contributes again only after a failed save ----

  /** Whoever contributes again failed to save before. */
  ghost predicate RepeatsUnsaved(made: seq<Contribution>) {
    forall i, j :: 0 <= i < j < |made| && made[i].id == made[j].id ==> Unsaved(made[i].io)
  }

  /** Who contributed has a token that no join can get again; and unless the save
      failed, it neither holds nor awaits the slot.  */
  ghost predicate Spent(w: World, made: seq<Contribution>) {
    && RepeatsUnsaved(made)
    && forall c :: c in made ==> Spends(w, c)
  }

  ghost predicate Spends(w: World, c: Contribution) {
    && c.id in w.log.tokens
    && (w.lobby.Some? && !Unsaved(c.io) ==>
          forall k :: w.log.departed <= k < |w.log.joined| ==> w.log.joined[k].id != c.id)
  }

  lemma SpendsNext(cfg: Config, w: World, e: Event, c: Contribution)
    requires InLine(w) && Enabled(w, e) && Spends(w, c)
    ensures Spends(Next(cfg, w, e), c)
  {
    var w' := Next(cfg, w, e);
    if w.lobby.Some? && w'.lobby.Some? {
      if e.JoinEnd? {
        InLineJoin(cfg, w, e.req, e.id);
      } else if e.UploadEnd? {
        InLineUpload(cfg, w, e.req, e.io);
      } else if e.Tick? {
        InLineTick(cfg, w);
      } else {
        OthersKeepLine(cfg, w, e);
      }
    }
  }

  lemma ContributionSpends(cfg: Config, w: World, r: nat, io: CommitIo)
    requires InLine(w) && w.lobby.Some? && r in w.uploads
    requires CommitAppends(cfg, w.lobby.value, w.uploads[r], io)
    ensures Spends(EndUpload(cfg, w, r, io), Contributes(cfg, w, UploadEnd(r, io))[0])
  {
    var w', d := EndUpload(cfg, w, r, io), w.log.departed;
    CommitShape(cfg, w.lobby.value, w.disk, w.uploads[r], w.now, io);
    InLineUpload(cfg, w, r, io);
    HolderJoined(w);
    if w'.lobby.Some? && !Unsaved(io) {
      assert w'.log.joined == w.log.joined && w'.log.departed == d + 1;
    }
  }

  lemma SpentNext(cfg: Config, w: World, e: Event, made: seq<Contribution>)
    requires InLine(w) && Enabled(w, e) && Spent(w, made)
    ensures Spent(Next(cfg, w, e), made + Contributes(cfg, w, e))
  {
    forall c | c in made ensures Spends(Next(cfg, w, e), c) {
      SpendsNext(cfg, w, e, c);
    }
    if Contributes(cfg, w, e) != [] {
      ContributionSpends(cfg, w, e.req, e.io);
      HolderJoined(w);
      forall i | 0 <= i < |made| && made[i].id == w.uploads[e.req].session.id ensures Unsaved(made[i].io) {
        assert Spends(w, made[i]);
      }
    }
  }

  lemma {:induction false} AlwaysSpent(cfg: Config, w: World, es: seq<Event>)
    requires InLine(w) && Legal(cfg, w, es)
    ensures Spent(Run(cfg, w, es), Contributed(cfg, w, es))
    decreases |es|
  {
    var n := |es| - 1;
    if es != [] {
      AlwaysSpent(cfg, w, es[..n]);
      AlwaysInLine(cfg, w, es[..n]);
      SpentNext(cfg, Run(cfg, w, es[..n]), es[n], Contributed(cfg, w, es[..n]));
    }
  }

  /** In every run, with any failed writes, crashes and restarts: a session contributes
      again only if SaveHead or SaveTranscript failed in its earlier commits.  */
  lemma OnlyUnsavedRepeat(cfg: Config, w: World, es: seq<Event>)
    requires InLine(w) && Legal(cfg, w, es)
    ensures RepeatsUnsaved(Contributed(cfg, w, es))
  {
    AlwaysSpent(cfg, w, es);
  }

  // ---- after a failed save it can contribute again ----

  /** The live transcript got an entry and the head moved, but nobody got a receipt. */
  ghost predicate EntryWithoutReceipt(cfg: Config, w: World, w1: World, up: Upload)
    requires w.lobby.Some?
  {
    && w1.lobby.Some? && w1.lobby.value.Holds(up.session.id) && w1.log.acks == w.log.acks
    && |w1.lobby.value.doc.entries| == |w.lobby.value.doc.entries| + 1
    && w1.lobby.value.head == up.next && w1.lobby.value.doc.Tail() == cfg.be.Sha(up.next)
  }

  lemma FirstEntry(cfg: Config, w: World, r: nat, io: CommitIo)
    requires w.lobby.Some? && r in w.uploads
    requires CommitAppends(cfg, w.lobby.value, w.uploads[r], io) && Unsaved(io)
    ensures EntryWithoutReceipt(cfg, w, EndUpload(cfg, w, r, io), w.uploads[r])
    ensures EndUpload(cfg, w, r, io).uploads == w.uploads - {r}
  {
    CommitShape(cfg, w.lobby.value, w.disk, w.uploads[r], w.now, io);
    var freed := CommitSlot(cfg, w.lobby.value, w.disk, w.uploads[r], w.now, io);
  }

  /** The holder uploads and the writes succeed. */
  lemma SecondEntry(cfg: Config, w1: World, r: nat, id: string, again: Blob)
    requires w1.lobby.Some? && w1.lobby.value.Holds(id) && r !in w1.uploads
    requires w1.lobby.value.doc.Tail() == cfg.be.Sha(w1.lobby.value.head) && cfg.be.stepOK(w1.lobby.value.head, again)
    ensures var w2, io := BeginUpload(cfg, w1, r, id, again), CommitIo(Good, Good, Good);
            && w2.lobby.Some? && r in w2.uploads && w2.uploads[r].session.id == id
            && CommitAppends(cfg, w2.lobby.value, w2.uploads[r], io)
            && var w3 := EndUpload(cfg, w2, r, io);
            && w3.disk.doc.Some? && |w3.disk.doc.value.entries| == |w1.lobby.value.doc.entries| + 1
            && |w3.log.acks| == |w1.log.acks| + 1
  {
    var w2 := BeginUpload(cfg, w1, r, id, again);
    CommitShape(cfg, w2.lobby.value, w2.disk, w2.uploads[r], w2.now, CommitIo(Good, Good, Good));
  }

  /** The commit, and then a second upload of its session that succeeds. */
  function Twice(w: World, r: nat, io: CommitIo, again: Blob): seq<Event>
    requires r in w.uploads
  {
    [UploadEnd(r, io), UploadBegin(r, w.uploads[r].session.id, again), UploadEnd(r, CommitIo(Good, Good, Good))]
  }

  lemma OneStep(cfg: Config, w: World, e: Event)
    requires Enabled(w, e)
    ensures Legal(cfg, w, [e]) && Run(cfg, w, [e]) == Next(cfg, w, e)
    ensures Contributed(cfg, w, [e]) == Contributes(cfg, w, e)
  {
    Continues(cfg, w, [], e);
    assert [] + [e] == [e];
  }

  lemma ThreeSteps(cfg: Config, w: World, a: Event, b: Event, c: Event)
    requires Enabled(w, a) && Enabled(Next(cfg, w, a), b) && Enabled(Next(cfg, Next(cfg, w, a), b), c)
    ensures Legal(cfg, w, [a, b, c])
    ensures var w1 := Next(cfg, w, a);
            var w2 := Next(cfg, w1, b);
            && Run(cfg, w, [a, b, c]) == Next(cfg, w2, c)
            && Contributed(cfg, w, [a, b, c])
                 == Contributes(cfg, w, a) + Contributes(cfg, w1, b) + Contributes(cfg, w2, c)
  {
    OneStep(cfg, w, a);
    Continues(cfg, w, [a], b);
    assert [a] + [b] == [a, b];
    Continues(cfg, w, [a, b], c);
    assert [a, b] + [c] == [a, b, c];
  }

  /** When SaveHead or SaveTranscript fails, the entry is in the live transcript but the
      session still holds the slot, and its next verified upload becomes a second entry,
      durable like the first, with one receipt for the two.  */
  lemma FailedSaveAllowsSecondEntry(cfg: Config, w: World, r: nat, io: CommitIo, again: Blob)
    requires w.lobby.Some? && r in w.uploads && cfg.be.stepOK(w.uploads[r].next, again)
    requires CommitAppends(cfg, w.lobby.value, w.uploads[r], io) && Unsaved(io)
    ensures var es, id := Twice(w, r, io, again), w.uploads[r].session.id;
            && Legal(cfg, w, es)
            && var made, w' := Contributed(cfg, w, es), Run(cfg, w, es);
            && |made| == 2 && made[0].id == id && made[1].id == id
            && w'.disk.doc.Some? && |w'.disk.doc.value.entries| == |w.lobby.value.doc.entries| + 2
            && |w'.log.acks| == |w.log.acks| + 1
  {
    var es, id, w1 := Twice(w, r, io, again), w.uploads[r].session.id, EndUpload(cfg, w, r, io);
    FirstEntry(cfg, w, r, io);
    SecondEntry(cfg, w1, r, id, again);
    ThreeSteps(cfg, w, es[0], es[1], es[2]);
  }

  /** The session contributes at least twice in this run. */
  ghost predicate EntersTwice(cfg: Config, w: World, es: seq<Event>, id: string) {
    && Legal(cfg, w, es)
    && exists i, j :: 0 <= i < j < |Contributed(cfg, w, es)|
                      && Contributed(cfg, w, es)[i].id == id && Contributed(cfg, w, es)[j].id == id
  }

  lemma {:induction false} FirstContribution(cfg: Config, w: World, es: seq<Event>)
    requires Legal(cfg, w, es) && es != [] && Enabled(w, es[0])
    ensures Contributes(cfg, w, es[0]) <= Contributed(cfg, w, es)
    decreases |es|
  {
    var n := |es| - 1;
    if n > 0 {
      FirstContribution(cfg, w, es[..n]);
    }
  }

  /** A session whose commit appended can contribute again in some continuation exactly
      when SaveHead or SaveTranscript failed, as long as its blob can be extended.  */
  lemma WhoEntersTwice(cfg: Config, w: World, r: nat, io: CommitIo, again: Blob)
    requires InLine(w) && w.lobby.Some? && r in w.uploads && cfg.be.stepOK(w.uploads[r].next, again)
    requires CommitAppends(cfg, w.lobby.value, w.uploads[r], io)
    ensures Unsaved(io) <==>
      exists es :: EntersTwice(cfg, w, es, w.uploads[r].session.id) && es != [] && es[0] == UploadEnd(r, io)
  {
    var id := w.uploads[r].session.id;
    if Unsaved(io) {
      var es := Twice(w, r, io, again);
      FailedSaveAllowsSecondEntry(cfg, w, r, io, again);
      assert Contributed(cfg, w, es)[0].id == id && Contributed(cfg, w, es)[1].id == id;
      assert EntersTwice(cfg, w, es, id);
    }
    forall es | EntersTwice(cfg, w, es, id) && es != [] && es[0] == UploadEnd(r, io) ensures Unsaved(io) {
      FirstContribution(cfg, w, es);
      OnlyUnsavedRepeat(cfg, w, es);
      assert Contributed(cfg, w, es)[0] == Contributes(cfg, w, es[0])[0];
    }
  }

  // ---- uploads captured before the failed save ----

  lemma RefusedAtAppend(cfg: Config, lobby: Lobby, disk: Disk, up: Upload, now: Time, io: CommitIo)
    requires lobby.Holds(up.session.id) && cfg.be.stepOK(up.prevHead, up.next) && io.blob.Good?
    ensures Commit(cfg, lobby, disk, up, now, io).reply == ChainBroken <==> cfg.be.Sha(up.prevHead) != lobby.doc.Tail()
  {
  }

  /** An upload of the same session that was captured before that save failed still
      passes the slot check; the check in Append is what refuses it, unless it started
      from the blob that was just appended.  */
  lemma StaleUploadIsRefused(cfg: Config, w: World, r: nat, io: CommitIo, dup: nat, io': CommitIo)
    requires cfg.be.CollisionFree() && w.lobby.Some? && r in w.uploads && dup in w.uploads && r != dup
    requires CommitAppends(cfg, w.lobby.value, w.uploads[r], io) && Unsaved(io)
    requires w.uploads[dup].session.id == w.uploads[r].session.id && io'.blob.Good?
    requires cfg.be.stepOK(w.uploads[dup].prevHead, w.uploads[dup].next)
    ensures var w1 := EndUpload(cfg, w, r, io);
            && w1.lobby.Some? && dup in w1.uploads && w1.lobby.value.Holds(w1.uploads[dup].session.id)
            && (UploadOutcome(cfg, w1, dup, io').reply == ChainBroken <==> w.uploads[dup].prevHead != w.uploads[r].next)
  {
    FirstEntry(cfg, w, r, io);
    var w1 := EndUpload(cfg, w, r, io);
    RefusedAtAppend(cfg, w1.lobby.value, w1.disk, w.uploads[dup], w1.now, io');
    if cfg.be.Sha(w.uploads[dup].prevHead) == cfg.be.Sha(w.uploads[r].next) {
      cfg.be.SameSha(w.uploads[dup].prevHead, w.uploads[r].next);
    }
  }

  // ---- the entries of a transcript are contributions ----

  /** The entries are those of the contributions at these places, in order. */
  ghost predicate DrawnFrom(entries: seq<Entry>, made: seq<Contribution>, at: seq<nat>) {
    && |at| == |entries|
    && (forall i, j :: 0 <= i < j < |at| ==> at[i] < at[j])
    && forall i :: 0 <= i < |at| ==> at[i] < |made| && made[at[i]].entry == entries[i]
  }

  lemma DrawnLater(entries: seq<Entry>, made: seq<Contribution>, more: seq<Contribution>, at: seq<nat>)
    requires DrawnFrom(entries, made, at)
    ensures DrawnFrom(entries, made + more, at)
  {
  }

  lemma DrawnMore(entries: seq<Entry>, made: seq<Contribution>, c: Contribution, at: seq<nat>)
    requires DrawnFrom(entries, made, at)
    ensures DrawnFrom(entries + [c.entry], made + [c], at + [|made|])
  {
  }

  /** Where the entries of the live and of the durable transcript come from. */
  ghost predicate Drawn(w: World, made: seq<Contribution>, live: seq<nat>, durable: seq<nat>) {
    && (w.lobby.Some? ==> w.disk.doc.Some? && DrawnFrom(w.lobby.value.doc.entries, made, live))
    && (w.disk.doc.Some? ==> DrawnFrom(w.disk.doc.value.entries, made, durable))
  }

  lemma DrawnUpload(cfg: Config, w: World, r: nat, io: CommitIo, made: seq<Contribution>,
                    live: seq<nat>, durable: seq<nat>) returns (live': seq<nat>, durable': seq<nat>)
    requires Drawn(w, made, live, durable) && w.lobby.Some? && r in w.uploads
    ensures Drawn(EndUpload(cfg, w, r, io), made + Contributes(cfg, w, UploadEnd(r, io)), live', durable')
  {
    live', durable' := live, durable;
    var more := Contributes(cfg, w, UploadEnd(r, io));
    CommitShape(cfg, w.lobby.value, w.disk, w.uploads[r], w.now, io);
    DrawnLater(w.disk.doc.value.entries, made, more, durable);
    if more == [] {
      assert made + more == made;
    } else {
      DrawnMore(w.lobby.value.doc.entries, made, more[0], live);
      live' := live + [|made|];
      if io.head.Good? && !io.doc.Bad? {
        durable' := live';
      }
    }
  }

  lemma DrawnNext(cfg: Config, w: World, e: Event, made: seq<Contribution>,
                  live: seq<nat>, durable: seq<nat>) returns (live': seq<nat>, durable': seq<nat>)
    requires Drawn(w, made, live, durable) && Enabled(w, e)
    ensures Drawn(Next(cfg, w, e), made + Contributes(cfg, w, e), live', durable')
  {
    live', durable' := live, durable;
    if e.UploadEnd? {
      live', durable' := DrawnUpload(cfg, w, e.req, e.io, made, live, durable);
    } else {
      assert made + [] == made;
      if e.StartUp? {
        var resumed := Resumes(w.disk, e.startIo);
        live' := if resumed then durable else [];
        durable' := if resumed || e.startIo.doc.Bad? || !e.startIo.head.Good? then durable else [];
      } else {
        OthersKeepRecord(cfg, w, e);
      }
    }
  }

  lemma {:induction false} AlwaysDrawn(cfg: Config, w: World, es: seq<Event>)
    returns (live: seq<nat>, durable: seq<nat>)
    requires w.disk.doc.None? && w.lobby.None? && Legal(cfg, w, es)
    ensures Drawn(Run(cfg, w, es), Contributed(cfg, w, es), live, durable)
    decreases |es|
  {
    live, durable := [], [];
    var n := |es| - 1;
    if es != [] {
      live, durable := AlwaysDrawn(cfg, w, es[..n]);
      live, durable := DrawnNext(cfg, Run(cfg, w, es[..n]), es[n], Contributed(cfg, w, es[..n]), live, durable);
    }
  }

  /** Entries i < j were written by one session only if the commit of entry i failed to
      save: otherwise they come from contributions of different sessions.  */
  ghost predicate OneEntryEach(entries: seq<Entry>, made: seq<Contribution>) {
    exists at :: DrawnFrom(entries, made, at) && ApartUnlessUnsaved(made, at)
  }

  ghost predicate ApartUnlessUnsaved(made: seq<Contribution>, at: seq<nat>) {
    forall i, j :: 0 <= i < j < |at| && at[i] < |made| && at[j] < |made| ==>
      made[at[i]].id == made[at[j]].id ==> Unsaved(made[at[i]].io)
  }

  lemma DrawnApart(entries: seq<Entry>, made: seq<Contribution>, at: seq<nat>)
    requires DrawnFrom(entries, made, at)
    requires RepeatsUnsaved(made)
    ensures OneEntryEach(entries, made)
  {
    assert ApartUnlessUnsaved(made, at);
  }

  /** One entry a session: in every run from an empty directory, with any crashes,
      restarts and failures to save a blob, the entries of the live and of the durable
      transcript come from different sessions, except after a commit of that session
      in which SaveHead or SaveTranscript failed.  */
  lemma AtMostOneEntry(cfg: Config, w: World, es: seq<Event>)
    requires Blank(w) && Legal(cfg, w, es)
    ensures var w', made := Run(cfg, w, es), Contributed(cfg, w, es);
            && (w'.lobby.Some? ==> OneEntryEach(w'.lobby.value.doc.entries, made))
            && (w'.disk.doc.Some? ==> OneEntryEach(w'.disk.doc.value.entries, made))
  {
    var live, durable := AlwaysDrawn(cfg, w, es);
    OnlyUnsavedRepeat(cfg, w, es);
    var w', made := Run(cfg, w, es), Contributed(cfg, w, es);
    if w'.lobby.Some? {
      DrawnApart(w'.lobby.value.doc.entries, made, live);
    }
    if w'.disk.doc.Some? {
      DrawnApart(w'.disk.doc.value.entries, made, durable);
    }
  }
}
