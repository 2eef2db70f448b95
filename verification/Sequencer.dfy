/** The Sequencer object (ceremony/sequencer.go): its fields, and one method for each
    section between Lock and Unlock, proved to do what the protocol's functions say.
    The clock, fresh tokens and the outcomes of reads and writes are parameters.  */
module Sequencers {
  import opened Basics
  import opened Crypto
  import opened Names
  import opened Transcripts
  import opened Storage
  import opened Protocol
  import Average

  class Sequencer {
    const cfg: Config
    const store: LocalStorage
    const tr: Transcript
    var head: Blob
    var queue: seq<Session>
    var active: Option<Session>
    var activeSince: Option<Time>
    var deadline: Time
    var avgContrib: Time
    var closed: bool
    var chals: map<string, Time>

    /** The fields as a value of the protocol. */
    function State(): Lobby
      reads this, tr
    {
      Lobby(head, tr.Doc(), queue, active, activeSince, deadline, avgContrib, closed, chals)
    }

    constructor (cfg: Config, store: LocalStorage, tr: Transcript, head: Blob)
      ensures State() == FreshLobby(head, tr.Doc())
      ensures this.cfg == cfg && this.store == store && this.tr == tr
    {
      this.cfg, this.store, this.tr, this.head := cfg, store, tr, head;
      queue, active, activeSince, deadline := [], None, None, 0;
      avgContrib, closed, chals := 0, false, map[];
    }

    /** Resumes from the store if a transcript can be read, else starts afresh. */
    static method NewSequencer(config: Config, store: LocalStorage, initHead: Blob, circuit: string, io: StartIo)
      returns (s: Sequencer?)
      modifies store
      ensures var (disk, lobby) := Start(config.WithDefaults(), old(store.Contents()), initHead, circuit, io);
              && store.Contents() == disk
              && (s != null <==> lobby.Some?)
              && (s != null ==> && fresh(s) && fresh(s.tr) && s.store == store && s.cfg == config.WithDefaults()
                                && s.State() == lobby.value)
    {
      var cfg := config.WithDefaults();
      var doc: Document;
      var head := initHead;
      if io.readDoc && store.transcript.Some? {
        doc := store.transcript.value;
        if doc.circuit != circuit {
          return null;
        }
        if !io.readHead || store.head.None? {
          return null;
        }
        head := store.head.value;
      } else {
        doc := Document(cfg.be.curveName, circuit, cfg.be.Sha(initHead), []);
        var err := store.WriteHead(initHead, io.head);
        if err || io.head.GoodThenCrash? {
          return null;
        }
        err := store.WriteTranscript(doc, io.doc);
        if err || io.doc.GoodThenCrash? {
          return null;
        }
      }
      var tr := new Transcript(doc);
      s := new Sequencer(cfg, store, tr, head);
    }

    method Close()
      modifies this
      ensures State() == old(State()).(closed := true)
    {
      if !closed {
        closed := true;
      }
    }

    method PromoteLocked(now: Time)
      modifies this
      ensures State() == old(State()).Promoted(now, cfg.slotTimeout)
    {
      if active.None? && !closed && |queue| > 0 {
        active := Some(queue[0]);
        queue := queue[1..];
        activeSince := Some(now);
        deadline := now + cfg.slotTimeout;
      }
    }

    /** One tick of the expiry loop: an overdue session is dropped, the head stays. */
    method ExpiryTick(now: Time)
      modifies this
      ensures State() == old(State()).Expired(now, cfg.slotTimeout)
    {
      if active.Some? && now > deadline {
        active := None;
        PromoteLocked(now);
      }
    }

    method PositionLocked(id: string) returns (pos: int)
      ensures pos == Position(State(), id)
    {
      if active.Some? && active.value.id == id {
        return 0;
      }
      var i := 0;
      while i < |queue|
        invariant 0 <= i <= |queue|
        invariant Place(queue, id) == (var p := Place(queue[i..], id); if p < 0 then -1 else p + i)
      {
        if queue[i].id == id {
          return i + 1;
        }
        i := i + 1;
      }
      return -1;
    }

    /** Hands out a challenge and prunes those that have expired. */
    method HandleChallenge(c: string, now: Time)
      modifies this
      ensures State() == old(State()).Challenged(c, now, cfg.challengeTTL)
    {
      ghost var before := chals;
      var rest := chals.Keys;
      while rest != {}
        invariant rest <= before.Keys && chals.Keys <= before.Keys
        invariant forall k :: k in chals ==> chals[k] == before[k]
        invariant forall k :: k in before ==> (k in chals <==> k in rest || now <= before[k])
        invariant State() == old(State()).(chals := chals)
        decreases |rest|
      {
        var k :| k in rest;
        rest := rest - {k};
        if now > chals[k] {
          chals := chals - {k};
        }
      }
      assert chals == map k | k in before && now <= before[k] :: before[k];
      chals := chals[c := now + cfg.challengeTTL];
    }

    /** First section of a join: consumes the challenge, or refuses. */
    method BeginJoin(c: string, now: Time) returns (ok: bool)
      modifies this
      ensures ok <==> old(State()).Admits(c, now)
      ensures State() == if ok then old(State()).Consumed(c) else old(State())
    {
      if closed {
        return false;
      }
      if c !in chals || now > chals[c] {
        return false;
      }
      chals := chals - {c};
      return true;
    }

    /** Second section of a join: a session with a fresh token for the identity that the
        provider accepted.  */
    method EndJoin(id: string, identity: Identity, now: Time) returns (pos: int)
      modifies this
      ensures State() == old(State()).Joined(Session(id, identity, now), now, cfg.slotTimeout)
      ensures pos == Position(State(), id)
    {
      var sess := Session(id, identity, now);
      queue := queue + [sess];
      PromoteLocked(now);
      pos := PositionLocked(sess.id);
    }

    /** The position, and the deadline for the holder; an unknown session gets -1. */
    method HandleStatus(id: string) returns (pos: int, until: Option<Time>)
      ensures pos == Position(State(), id)
      ensures until == if State().Holds(id) then Some(deadline) else None
    {
      pos := PositionLocked(id);
      if active.Some? && active.value.id == id {
        until := Some(deadline);
      } else {
        until := None;
      }
    }

    method HandleHeartbeat(id: string, now: Time) returns (ok: bool)
      modifies this
      ensures ok <==> old(State()).Holds(id)
      ensures State() == if ok then old(State()).Refreshed(now, cfg.slotTimeout) else old(State())
    {
      if active.None? || active.value.id != id {
        return false;
      }
      deadline := now + cfg.slotTimeout;
      return true;
    }

    /** Only the holder of the slot gets the head. */
    method HandleHead(id: string) returns (h: Option<Blob>)
      ensures h == if State().Holds(id) then Some(State().head) else None
    {
      if active.None? || active.value.id != id {
        return None;
      }
      return Some(head);
    }

    /** First section of an upload: captures session and head. */
    method BeginUpload(id: string, now: Time, next: Blob) returns (up: Option<Upload>)
      modifies this
      ensures up.Some? <==> old(State()).Holds(id)
      ensures up.Some? ==> up.value == Upload(old(State()).active.value, old(State()).head, next)
      ensures State() == if up.Some? then old(State()).Refreshed(now, cfg.slotTimeout) else old(State())
    {
      if active.None? || active.value.id != id {
        return None;
      }
      var sess, prevHead := active.value, head;
      deadline := now + cfg.slotTimeout;
      return Some(Upload(sess, prevHead, next));
    }

    /** Verification and second section of an upload. After Died the object is gone
        and only the store counts.  */
    method EndUpload(up: Upload, now: Time, io: CommitIo) returns (reply: Reply)
      modifies this, tr, store
      ensures var o := Commit(cfg, old(State()), old(store.Contents()), up, now, io);
              && reply == o.reply
              && store.Contents() == o.disk
              && (reply.Died? <==> o.lobby.None?)
              && (o.lobby.Some? ==> State() == o.lobby.value)
    {
      if !cfg.be.stepOK(up.prevHead, up.next) {
        return Unverified;
      }
      if active.None? || active.value.id != up.session.id {
        return SlotLost;
      }
      var index := tr.Len();
      var ref := store.WriteBlob(cfg.be, index, up.next, io.blob);
      if ref.None? {
        return WriteFailed;
      }
      if io.blob.GoodThenCrash? {
        return Died;
      }
      reply := AppendAndSave(up, index, ref.value, now, io);
    }

    method AppendAndSave(up: Upload, index: nat, ref: string, now: Time, io: CommitIo) returns (reply: Reply)
      requires index == |State().doc.entries| && ref == BlobName(index, cfg.be.hash(up.next))
      modifies this, tr, store
      ensures var o := Record(cfg, old(State()), old(store.Contents()), up, now, io);
              && reply == o.reply
              && store.Contents() == o.disk
              && (reply.Died? <==> o.lobby.None?)
              && (o.lobby.Some? ==> State() == o.lobby.value)
    {
      ghost var before := State();
      var entry := Entry(0, up.session.who, cfg.be.Sha(up.prevHead), cfg.be.Sha(up.next), ref, now);
      assert entry == NewEntry(cfg.be, before, up, now);
      var ok := tr.Append(entry);
      if !ok {
        return ChainBroken;
      }
      if activeSince.Some? {
        avgContrib := Average.Update(avgContrib, now - activeSince.value);
      }
      head := up.next;
      assert State() == before.Advanced(before.doc.Append(entry).value, up.next, now);
      reply := SaveAndRelease(Receipt(index, entry.prevSha, entry.newSha, ref), now, io);
    }

    method SaveAndRelease(receipt: Receipt, now: Time, io: CommitIo) returns (reply: Reply)
      modifies this, store
      ensures var o := Persist(cfg, old(State()), old(store.Contents()), receipt, now, io);
              && reply == o.reply
              && store.Contents() == o.disk
              && (reply.Died? <==> o.lobby.None?)
              && (o.lobby.Some? ==> State() == o.lobby.value)
    {
      var err := store.WriteHead(head, io.head);
      if err {
        return WriteFailed;
      }
      if io.head.GoodThenCrash? {
        return Died;
      }
      err := store.WriteTranscript(tr.Doc(), io.doc);
      if err {
        return WriteFailed;
      }
      if io.doc.GoodThenCrash? {
        return Died;
      }
      active := None;
      PromoteLocked(now);
      return Accepted(receipt);
    }
  }
}
