/** The participant's loops over a lossy channel (ceremony/client.go). */
module Client {
  import opened Basics
  import opened Crypto
  import opened Protocol
  import opened Queue
  import opened OneEntry
  import opened Recovery
  import opened Safety
  import opened Timing

  const SECOND: Time := 1_000_000_000

  // ---- the upload loop ----

  /** What an attempt brings back: a receipt, or an error, which may also mean that the
      reply to a commit was lost.  */
  type Attempt = Result<Receipt, string>

  /** Uploads up to four times and stops at the first receipt; attempt k > 1 is made
      after a pause of 2k seconds.  */
  method UploadWithRetry(attempts: seq<Attempt>) returns (r: Attempt, tried: nat, paused: Time)
    requires |attempts| == 4
    ensures 1 <= tried <= 4 && r == attempts[tried - 1]
    ensures forall i :: 0 <= i < tried - 1 ==> attempts[i].Err?
    ensures r.Err? ==> tried == 4
    ensures paused == (tried * (tried + 1) - 2) * SECOND
  {
    var attempt := 1;
    paused := 0;
    while true
      invariant 1 <= attempt <= 4 && paused == ((attempt - 1) * attempt - (if attempt > 1 then 2 else 0)) * SECOND
      invariant forall i :: 0 <= i < attempt - 1 ==> attempts[i].Err?
      decreases 4 - attempt
    {
      if attempt > 1 {
        paused := paused + attempt * 2 * SECOND;
      }
      r := attempts[attempt - 1];
      if r.Ok? || attempt == 4 {
        return r, attempt, paused;
      }
      attempt := attempt + 1;
    }
  }

  /** An attempt: its request never got to the end of its upload, or the upload ended at
      that event of the run and the reply was delivered or not.  */
  datatype Try = NeverDone | Done(at: nat, delivered: bool)

  /** The attempt is an upload of session `id`. */
  predicate IsTry(cfg: Config, w: World, es: seq<Event>, id: string, t: Try)
    requires Legal(cfg, w, es)
  {
    t.Done? ==>
      && t.at < |es| && es[t.at].UploadEnd?
      && Before(cfg, w, es, t.at).uploads[es[t.at].req].session.id == id
  }

  function ReplyAt(cfg: Config, w: World, es: seq<Event>, k: nat): Reply
    requires Legal(cfg, w, es) && k < |es| && es[k].UploadEnd?
  {
    UploadOutcome(cfg, Before(cfg, w, es, k), es[k].req, es[k].io).reply
  }

  /** The sequencer accepted the contribution and gave its receipt. */
  predicate Commits(cfg: Config, w: World, es: seq<Event>, t: Try)
    requires Legal(cfg, w, es)
  {
    t.Done? && t.at < |es| && es[t.at].UploadEnd? && ReplyAt(cfg, w, es, t.at).Accepted?
  }

  /** What the client sees of an attempt. */
  function ResultOf(cfg: Config, w: World, es: seq<Event>, t: Try): Attempt
    requires Legal(cfg, w, es)
  {
    if Commits(cfg, w, es, t) && t.delivered then Ok(ReplyAt(cfg, w, es, t.at).receipt)
    else Err("upload failed")
  }

  lemma {:induction false} AcksKept(cfg: Config, w: World, es: seq<Event>, k: nat)
    requires Legal(cfg, w, es) && k <= |es|
    ensures Before(cfg, w, es, k).log.acks <= Run(cfg, w, es).log.acks
    decreases |es|
  {
    var n := |es| - 1;
    if k <= n {
      AcksKept(cfg, w, es[..n], k);
      BeforeInPrefix(cfg, w, es, n, k);
      AcksNext(cfg, Run(cfg, w, es[..n]), es[n]);
    } else {
      assert es[..k] == es;
    }
  }

  lemma AcceptedIsAcked(cfg: Config, v: World, r: nat, io: CommitIo)
    requires v.lobby.Some? && r in v.uploads && UploadOutcome(cfg, v, r, io).reply.Accepted?
    ensures var v', n := EndUpload(cfg, v, r, io), |v.log.acks|;
            && |v'.log.acks| == n + 1 && v'.log.acks[n].session == v.uploads[r].session
            && v'.log.acks[n].receipt == UploadOutcome(cfg, v, r, io).reply.receipt
  {
    CommitShape(cfg, v.lobby.value, v.disk, v.uploads[r], v.now, io);
  }

  lemma CommitIsAcked(cfg: Config, w: World, es: seq<Event>, id: string, t: Try)
    requires Legal(cfg, w, es) && IsTry(cfg, w, es, id, t) && Commits(cfg, w, es, t)
    ensures var n, acks := |Before(cfg, w, es, t.at).log.acks|, Before(cfg, w, es, t.at + 1).log.acks;
            && |acks| == n + 1 && acks[n].session.id == id && acks[n].receipt == ReplyAt(cfg, w, es, t.at).receipt
  {
    AcceptedIsAcked(cfg, Before(cfg, w, es, t.at), es[t.at].req, es[t.at].io);
    BeforeNext(cfg, w, es, t.at);
  }

  /** An accepted attempt is on record, with the receipt its reply carried. */
  lemma CommitIsRecorded(cfg: Config, w: World, es: seq<Event>, id: string, t: Try)
    requires Legal(cfg, w, es) && IsTry(cfg, w, es, id, t) && Commits(cfg, w, es, t)
    ensures var n, acks := |Before(cfg, w, es, t.at).log.acks|, Run(cfg, w, es).log.acks;
            && |Before(cfg, w, es, t.at + 1).log.acks| == n + 1 && n < |acks|
            && acks[n].session.id == id && acks[n].receipt == ReplyAt(cfg, w, es, t.at).receipt
  {
    CommitIsAcked(cfg, w, es, id, t);
    AcksKept(cfg, w, es, t.at + 1);
  }

  /** Of the attempts of one session at most one is accepted. */
  lemma OneCommit(cfg: Config, w: World, es: seq<Event>, id: string, t: Try, t': Try)
    requires InLine(w) && OneReceiptEach(w) && Legal(cfg, w, es)
    requires IsTry(cfg, w, es, id, t) && Commits(cfg, w, es, t)
    requires IsTry(cfg, w, es, id, t') && Commits(cfg, w, es, t')
    ensures t.at == t'.at
  {
    AtMostOneReceipt(cfg, w, es);
    CommitIsRecorded(cfg, w, es, id, t);
    CommitIsRecorded(cfg, w, es, id, t');
    if t.at < t'.at {
      AcksBetween(cfg, w, es, t.at + 1, t'.at);
    } else if t'.at < t.at {
      AcksBetween(cfg, w, es, t'.at + 1, t.at);
    }
  }

  lemma AcksBetween(cfg: Config, w: World, es: seq<Event>, j: nat, k: nat)
    requires Legal(cfg, w, es) && j <= k <= |es|
    ensures Before(cfg, w, es, j).log.acks <= Before(cfg, w, es, k).log.acks
  {
    BeforeInPrefix(cfg, w, es, k, j);
    AcksKept(cfg, w, es[..k], j);
  }

  ghost predicate OnRecord(acks: seq<Ack>, id: string, receipt: Receipt) {
    exists i :: 0 <= i < |acks| && acks[i].session.id == id && acks[i].receipt == receipt
  }

  /** The four attempts of one upload loop: separate uploads of session `id`. */
  predicate AreTries(cfg: Config, w: World, es: seq<Event>, id: string, tries: seq<Try>)
    requires Legal(cfg, w, es)
  {
    && |tries| == 4
    && (forall k :: 0 <= k < 4 ==> IsTry(cfg, w, es, id, tries[k]))
    && forall j, k :: 0 <= j < k < 4 && tries[j].Done? && tries[k].Done? ==> tries[j].at != tries[k].at
  }

  /** An attempt was accepted and the reply to it was delivered. */
  predicate Answered(cfg: Config, w: World, es: seq<Event>, tries: seq<Try>)
    requires Legal(cfg, w, es)
  {
    exists k :: 0 <= k < |tries| && Commits(cfg, w, es, tries[k]) && tries[k].delivered
  }

  /** An attempt was accepted and the reply to it was lost. */
  predicate Lost(cfg: Config, w: World, es: seq<Event>, tries: seq<Try>)
    requires Legal(cfg, w, es)
  {
    exists k :: 0 <= k < |tries| && Commits(cfg, w, es, tries[k]) && !tries[k].delivered
  }

  /** One accepted attempt cannot be both answered and lost. */
  lemma NotBoth(cfg: Config, w: World, es: seq<Event>, id: string, tries: seq<Try>)
    requires InLine(w) && OneReceiptEach(w) && Legal(cfg, w, es) && AreTries(cfg, w, es, id, tries)
    ensures !(Answered(cfg, w, es, tries) && Lost(cfg, w, es, tries))
  {
    if Answered(cfg, w, es, tries) && Lost(cfg, w, es, tries) {
      var j :| 0 <= j < |tries| && Commits(cfg, w, es, tries[j]) && tries[j].delivered;
      var k :| 0 <= k < |tries| && Commits(cfg, w, es, tries[k]) && !tries[k].delivered;
      OneCommit(cfg, w, es, id, tries[j], tries[k]);
      assert false;
    }
  }

  function ResultsOf(cfg: Config, w: World, es: seq<Event>, tries: seq<Try>): (results: seq<Attempt>)
    requires Legal(cfg, w, es)
    ensures |results| == |tries| && forall k :: 0 <= k < |tries| ==> results[k] == ResultOf(cfg, w, es, tries[k])
  {
    seq(|tries|, k requires 0 <= k < |tries| => ResultOf(cfg, w, es, tries[k]))
  }

  lemma FirstReceipt(cfg: Config, w: World, es: seq<Event>, id: string, tries: seq<Try>, r: Attempt, tried: nat)
    requires Legal(cfg, w, es) && AreTries(cfg, w, es, id, tries)
    requires 1 <= tried <= 4 && r == ResultOf(cfg, w, es, tries[tried - 1]) && (r.Err? ==> tried == 4)
    requires forall k :: 0 <= k < tried - 1 ==> ResultOf(cfg, w, es, tries[k]).Err?
    ensures r.Ok? <==> Answered(cfg, w, es, tries)
  {
    if Answered(cfg, w, es, tries) {
      var k :| 0 <= k < |tries| && Commits(cfg, w, es, tries[k]) && tries[k].delivered;
      assert ResultOf(cfg, w, es, tries[k]).Ok?;
    }
  }

  lemma ReceiptIsOnRecord(cfg: Config, w: World, es: seq<Event>, id: string, t: Try)
    requires Legal(cfg, w, es) && IsTry(cfg, w, es, id, t) && Commits(cfg, w, es, t)
    ensures OnRecord(Run(cfg, w, es).log.acks, id, ReplyAt(cfg, w, es, t.at).receipt)
  {
    CommitIsRecorded(cfg, w, es, id, t);
  }

  lemma LostIsOnRecord(cfg: Config, w: World, es: seq<Event>, id: string, tries: seq<Try>)
    requires Legal(cfg, w, es) && AreTries(cfg, w, es, id, tries) && Lost(cfg, w, es, tries)
    ensures exists receipt :: OnRecord(Run(cfg, w, es).log.acks, id, receipt)
  {
    var k :| 0 <= k < |tries| && Commits(cfg, w, es, tries[k]) && !tries[k].delivered;
    ReceiptIsOnRecord(cfg, w, es, id, tries[k]);
  }

  /** Where the loop can stop, and what it then has. */
  ghost predicate LoopEnds(cfg: Config, w: World, es: seq<Event>, tries: seq<Try>, r: Attempt, tried: nat)
    requires Legal(cfg, w, es) && |tries| == 4
  {
    && 1 <= tried <= 4 && r == ResultOf(cfg, w, es, tries[tried - 1]) && (r.Err? ==> tried == 4)
    && forall k :: 0 <= k < tried - 1 ==> ResultOf(cfg, w, es, tries[k]).Err?
  }

  lemma LoopMeans(cfg: Config, w: World, es: seq<Event>, id: string, tries: seq<Try>, r: Attempt, tried: nat)
    requires InLine(w) && OneReceiptEach(w) && Legal(cfg, w, es) && AreTries(cfg, w, es, id, tries)
    requires LoopEnds(cfg, w, es, tries, r, tried)
    ensures r.Ok? <==> Answered(cfg, w, es, tries)
    ensures r.Ok? ==> OnRecord(Run(cfg, w, es).log.acks, id, r.value)
    ensures Lost(cfg, w, es, tries) ==>
      r.Err? && tried == 4 && exists receipt :: OnRecord(Run(cfg, w, es).log.acks, id, receipt)
  {
    FirstReceipt(cfg, w, es, id, tries, r, tried);
    NotBoth(cfg, w, es, id, tries);
    if r.Ok? {
      ReceiptIsOnRecord(cfg, w, es, id, tries[tried - 1]);
    }
    if Lost(cfg, w, es, tries) {
      LostIsOnRecord(cfg, w, es, id, tries);
    }
  }

  /** The upload loop of session `id` in a run of the sequencer: it returns a receipt if
      and only if an attempt was accepted and the reply to it delivered, and then the one
      on record; if the reply to the accepted attempt was lost, all four attempts are
      made and end in an error although the contribution is on record.  */
  method UploadSession(cfg: Config, w: World, es: seq<Event>, id: string, tries: seq<Try>)
    returns (r: Attempt, tried: nat)
    requires InLine(w) && OneReceiptEach(w) && Legal(cfg, w, es) && AreTries(cfg, w, es, id, tries)
    ensures 1 <= tried <= 4
    ensures r.Ok? <==> Answered(cfg, w, es, tries)
    ensures r.Ok? ==> OnRecord(Run(cfg, w, es).log.acks, id, r.value)
    ensures Lost(cfg, w, es, tries) ==>
      r.Err? && tried == 4 && exists receipt :: OnRecord(Run(cfg, w, es).log.acks, id, receipt)
  {
    r, tried := UploadTries(cfg, w, es, tries);
    LoopMeans(cfg, w, es, id, tries, r, tried);
  }

  method UploadTries(cfg: Config, w: World, es: seq<Event>, tries: seq<Try>) returns (r: Attempt, tried: nat)
    requires Legal(cfg, w, es) && |tries| == 4
    ensures LoopEnds(cfg, w, es, tries, r, tried)
  {
    var results := ResultsOf(cfg, w, es, tries);
    var paused;
    r, tried, paused := UploadWithRetry(results);
    forall k | 0 <= k < tried - 1 ensures ResultOf(cfg, w, es, tries[k]).Err? {
      assert results[k].Err?;
    }
  }

  // ---- entries behind an error ----

  /** The upload appended its entry to the live transcript. */
  predicate Appends(cfg: Config, w: World, es: seq<Event>, t: Try)
    requires Legal(cfg, w, es)
  {
    && t.Done? && t.at < |es| && es[t.at].UploadEnd?
    && var v := Before(cfg, w, es, t.at);
    CommitAppends(cfg, v.lobby.value, v.uploads[es[t.at].req], es[t.at].io)
  }

  /** The attempts are all the uploads of the session that ended in this run. */
  ghost predicate AllTries(cfg: Config, w: World, es: seq<Event>, id: string, tries: seq<Try>)
    requires Legal(cfg, w, es)
  {
    && AreTries(cfg, w, es, id, tries)
    && forall t: Try :: t.Done? && IsTry(cfg, w, es, id, t) ==> exists k :: 0 <= k < 4 && SameAttempt(tries[k], t)
  }

  predicate SameAttempt(t: Try, t': Try) {
    t.Done? && t'.Done? && t.at == t'.at
  }

  /** The session has contributed: an entry of its was appended in this run. */
  ghost predicate HasContributed(cfg: Config, w: World, es: seq<Event>, id: string)
    requires Legal(cfg, w, es)
  {
    exists c :: c in Contributed(cfg, w, es) && c.id == id
  }

  lemma {:induction false} ContributedGrows(cfg: Config, w: World, es: seq<Event>, k: nat)
    requires Legal(cfg, w, es) && k <= |es|
    ensures Legal(cfg, w, es[..k]) && Contributed(cfg, w, es[..k]) <= Contributed(cfg, w, es)
    decreases |es|
  {
    var n := |es| - 1;
    if k <= n {
      ContributedGrows(cfg, w, es[..n], k);
      assert es[..n][..k] == es[..k];
    } else {
      assert es[..k] == es;
    }
  }

  lemma ContributedUpTo(cfg: Config, w: World, es: seq<Event>, k: nat)
    requires Legal(cfg, w, es) && k < |es|
    ensures Legal(cfg, w, es[..k]) && Legal(cfg, w, es[..k + 1])
    ensures Contributed(cfg, w, es[..k + 1])
      == Contributed(cfg, w, es[..k]) + Contributes(cfg, Before(cfg, w, es, k), es[k])
  {
    PrefixLegal(cfg, w, es, k);
    PrefixLegal(cfg, w, es, k + 1);
    assert es[..k + 1][..k] == es[..k];
  }

  lemma PartOf<T>(xs: seq<T>, ys: seq<T>, xys: seq<T>, whole: seq<T>, y: T)
    requires xys == xs + ys && xys <= whole && y in ys
    ensures y in whole
  {
    var i :| 0 <= i < |ys| && ys[i] == y;
    assert whole[|xs| + i] == y;
  }

  lemma ContributesKept(cfg: Config, w: World, es: seq<Event>, k: nat, cs: seq<Contribution>, c: Contribution)
    requires Legal(cfg, w, es) && k < |es| && cs == Contributes(cfg, Before(cfg, w, es, k), es[k]) && c in cs
    ensures c in Contributed(cfg, w, es)
  {
    ContributedUpTo(cfg, w, es, k);
    ContributedGrows(cfg, w, es, k + 1);
    PartOf(Contributed(cfg, w, es[..k]), cs, Contributed(cfg, w, es[..k + 1]), Contributed(cfg, w, es), c);
  }

  lemma ContributedTry(cfg: Config, w: World, es: seq<Event>, id: string, c: Contribution) returns (t: Try)
    requires Legal(cfg, w, es) && c in Contributed(cfg, w, es) && c.id == id
    ensures t.Done? && IsTry(cfg, w, es, id, t) && Appends(cfg, w, es, t)
  {
    var i := ContributedAt(cfg, w, es, c);
    t := Done(i, true);
  }

  lemma TryContributed(cfg: Config, w: World, es: seq<Event>, id: string, t: Try)
    requires Legal(cfg, w, es) && IsTry(cfg, w, es, id, t) && Appends(cfg, w, es, t)
    ensures HasContributed(cfg, w, es, id)
  {
    var v := Before(cfg, w, es, t.at);
    var cs := Contributes(cfg, v, es[t.at]);
    assert cs[0].id == id;
    ContributesKept(cfg, w, es, t.at, cs, cs[0]);
  }

  /** The session has contributed exactly when one of its attempts appended. */
  lemma ContributedByTry(cfg: Config, w: World, es: seq<Event>, id: string, tries: seq<Try>)
    requires Legal(cfg, w, es) && AllTries(cfg, w, es, id, tries)
    ensures HasContributed(cfg, w, es, id) <==> exists k :: 0 <= k < 4 && Appends(cfg, w, es, tries[k])
  {
    if HasContributed(cfg, w, es, id) {
      var c :| c in Contributed(cfg, w, es) && c.id == id;
      var t := ContributedTry(cfg, w, es, id, c);
      var k :| 0 <= k < 4 && SameAttempt(tries[k], t);
      assert Appends(cfg, w, es, tries[k]);
    }
    if k :| 0 <= k < 4 && Appends(cfg, w, es, tries[k]) {
      TryContributed(cfg, w, es, id, tries[k]);
    }
  }

  /** The entry was appended but the client gets no receipt: the reply was lost, or
      SaveHead or SaveTranscript failed, or the process died in or after one of them.  */
  predicate EntryBehindError(cfg: Config, w: World, es: seq<Event>, t: Try)
    requires Legal(cfg, w, es)
  {
    && Appends(cfg, w, es, t)
    && var io := es[t.at].io;
    || !t.delivered || Unsaved(io) || io.head.GoodThenCrash? || (io.head.Good? && io.doc.GoodThenCrash?)
  }

  lemma NoReceipt(cfg: Config, w: World, es: seq<Event>, t: Try)
    requires Legal(cfg, w, es)
    ensures Appends(cfg, w, es, t) && ResultOf(cfg, w, es, t).Err? <==> EntryBehindError(cfg, w, es, t)
  {
    if Appends(cfg, w, es, t) {
      var v := Before(cfg, w, es, t.at);
      CommitShape(cfg, v.lobby.value, v.disk, v.uploads[es[t.at].req], v.now, es[t.at].io);
    }
  }

  lemma EntryOfCommit(cfg: Config, v: World, r: nat, io: CommitIo)
    requires v.lobby.Some? && r in v.uploads && CommitAppends(cfg, v.lobby.value, v.uploads[r], io)
    ensures var v' := EndUpload(cfg, v, r, io);
            var doc' := v.lobby.value.doc.Append(NewEntry(cfg.be, v.lobby.value, v.uploads[r], v.now));
            && doc'.Some?
            && v'.disk.doc == (if io.head.Good? && !io.doc.Bad? then doc' else v.disk.doc)
            && (v'.lobby.Some? ==> doc' == Some(v'.lobby.value.doc))
            && (v'.lobby.None? <==> io.head.GoodThenCrash? || (io.head.Good? && io.doc.GoodThenCrash?))
  {
    CommitShape(cfg, v.lobby.value, v.disk, v.uploads[r], v.now, io);
  }

  /** The entry of an attempt that appended is durable at once exactly when the two later
      writes got through; otherwise it is at most in the live transcript.  */
  lemma WhereTheEntryIs(cfg: Config, w: World, es: seq<Event>, t: Try)
    requires Legal(cfg, w, es) && Appends(cfg, w, es, t)
    ensures var v, v', io := Before(cfg, w, es, t.at), Before(cfg, w, es, t.at + 1), es[t.at].io;
            var doc' := v.lobby.value.doc.Append(NewEntry(cfg.be, v.lobby.value, v.uploads[es[t.at].req], v.now));
            && doc'.Some?
            && v'.disk.doc == (if io.head.Good? && !io.doc.Bad? then doc' else v.disk.doc)
            && (v'.lobby.Some? ==> doc' == Some(v'.lobby.value.doc))
            && (v'.lobby.None? <==> io.head.GoodThenCrash? || (io.head.Good? && io.doc.GoodThenCrash?))
  {
    EntryOfCommit(cfg, Before(cfg, w, es, t.at), es[t.at].req, es[t.at].io);
    BeforeNext(cfg, w, es, t.at);
  }

  /** The session of an upload loop that ends in an error has appended an entry exactly
      when an attempt appended and then the reply was lost, a later write failed or the
      process died.  */
  lemma ErrorWithEntry(cfg: Config, w: World, es: seq<Event>, id: string, tries: seq<Try>, r: Attempt, tried: nat)
    requires Legal(cfg, w, es) && AllTries(cfg, w, es, id, tries) && LoopEnds(cfg, w, es, tries, r, tried) && r.Err?
    ensures HasContributed(cfg, w, es, id) <==> exists k :: 0 <= k < 4 && EntryBehindError(cfg, w, es, tries[k])
  {
    ContributedByTry(cfg, w, es, id, tries);
    forall k | 0 <= k < 4
      ensures Appends(cfg, w, es, tries[k]) <==> EntryBehindError(cfg, w, es, tries[k])
    {
      NoReceipt(cfg, w, es, tries[k]);
      assert ResultOf(cfg, w, es, tries[k]).Err?;
    }
  }

  /** Once a session has its receipt, whether or not the reply arrived, every later
      retry is refused and changes nothing, in every run.  */
  lemma RetryAfterReceiptIsRefused(cfg: Config, w: World, es: seq<Event>, a: Ack, r: nat, next: Blob)
    requires InLine(w) && OneReceiptEach(w) && Legal(cfg, w, es)
    requires a in Run(cfg, w, es).log.acks && Run(cfg, w, es).lobby.Some?
    ensures BeginUpload(cfg, Run(cfg, w, es), r, a.session.id, next) == Run(cfg, w, es)
  {
    AtMostOneReceipt(cfg, w, es);
  }

  // ---- the heartbeat loop ----

  /** A tick whose beat does not reach the sequencer, or that passes while the last beat
      still waits for its reply, is not delivered.  */
  datatype Signal = Stop | Tick(delivered: bool)

  /** Beats at every tick, whether or not the last beat was delivered, until stopped. */
  method StartHeartbeat(signals: seq<Signal>) returns (beats: nat)
    ensures Beaten(signals, beats)
    ensures beats < |signals| ==> signals[beats].Stop?
  {
    beats := 0;
    while beats < |signals|
      invariant Beaten(signals, beats)
    {
      if signals[beats].Stop? {
        return;
      }
      beats := beats + 1;
    }
  }

  predicate Beaten(signals: seq<Signal>, beats: nat) {
    beats <= |signals| && forall i :: 0 <= i < beats ==> signals[i].Tick?
  }

  /** When the loop ticks, and how long a delivered beat may take to be handled. */
  datatype Ticker = Ticker(start: Time, period: Time, lag: Time) {
    /** start + (k + 1) * period, as the loop gets there. */
    function At(k: nat): Time {
      if k == 0 then start + period else At(k - 1) + period
    }
  }

  lemma {:induction false} TicksApart(t: Ticker, j: nat, n: nat)
    ensures t.At(j + n) == t.At(j) + n * t.period
  {
    if n > 0 {
      TicksApart(t, j, n - 1);
      assert n * t.period == (n - 1) * t.period + t.period;
    }
  }

  lemma {:induction false} TicksInOrder(t: Ticker, j: nat, k: nat)
    requires j <= k && t.period > 0
    ensures t.At(j) <= t.At(k)
  {
    if j < k {
      TicksInOrder(t, j, k - 1);
    }
  }

  /** One of the m + 1 ticks from the a-th on is delivered. */
  ghost predicate Reaches(signals: seq<Signal>, m: nat, a: nat) {
    exists k: nat :: a <= k <= a + m && Delivered(signals, k)
  }

  predicate Delivered(signals: seq<Signal>, k: nat) {
    k < |signals| && signals[k].Tick? && signals[k].delivered
  }

  /** No more than m beats in a row are lost. */
  ghost predicate LosesAtMost(signals: seq<Signal>, beats: nat, m: nat) {
    forall a: nat :: a + m < beats ==> Reaches(signals, m, a)
  }

  /** A heartbeat of `id` at time t or later is among these events. */
  ghost predicate BeatAfter(cfg: Config, w: World, es: seq<Event>, id: string, t: Time)
    requires Legal(cfg, w, es)
  {
    exists i :: 0 <= i < |es| && es[i] == Heartbeat(id) && t <= Before(cfg, w, es, i).now
  }

  /** At every point of the run each delivered beat has been handled unless its lag has
      not passed yet.  */
  ghost predicate OnTime(cfg: Config, w: World, es: seq<Event>, id: string, t: Ticker, signals: seq<Signal>)
    requires Legal(cfg, w, es)
    decreases |es|
  {
    && (forall k: nat :: Delivered(signals, k) && t.At(k) + t.lag < Run(cfg, w, es).now ==>
          BeatAfter(cfg, w, es, id, t.At(k)))
    && (es != [] ==> OnTime(cfg, w, es[..|es| - 1], id, t, signals))
  }

  /** Whoever holds the slot before and after held it throughout. */
  lemma HeldBetween(w: World, v: World, w': World, id: string)
    requires InLine(w) && InLine(v) && InLine(w') && w.lobby.Some? && v.lobby.Some? && w'.lobby.Some?
    requires Later(w, v) && Later(v, w') && w.lobby.value.Holds(id) && w'.lobby.value.Holds(id)
    ensures v.lobby.value.Holds(id)
  {
    var d := w.log.departed;
    HolderJoined(w);
    HolderJoined(w');
    assert w'.log.joined[d] == v.log.joined[d] == w.log.joined[d];
    assert v.log.admitted[d] == w.log.admitted[d];
  }

  lemma HeldBefore(cfg: Config, w: World, es: seq<Event>, id: string)
    requires InLine(w) && Legal(cfg, w, es) && Alive(cfg, w, es) && w.lobby.Some? && es != []
    requires w.lobby.value.Holds(id) && Run(cfg, w, es).lobby.value.Holds(id)
    ensures Run(cfg, w, es[..|es| - 1]).lobby.value.Holds(id)
  {
    var v, w' := Run(cfg, w, es[..|es| - 1]), Run(cfg, w, es);
    LaterRun(cfg, w, es[..|es| - 1]);
    InLineNext(cfg, v, es[|es| - 1]);
    LaterNext(cfg, v, es[|es| - 1]);
    HeldBetween(w, v, w', id);
  }

  /** A heartbeat of the holder is not forgotten as long as it holds the slot. */
  lemma {:induction false} BeatCounts(cfg: Config, w: World, es: seq<Event>, id: string, i: nat)
    requires InLine(w) && Timed(cfg, w) && cfg.Valid() && Legal(cfg, w, es) && Alive(cfg, w, es) && w.lobby.Some?
    requires w.lobby.value.Holds(id) && Run(cfg, w, es).lobby.value.Holds(id)
    requires i < |es| && es[i] == Heartbeat(id)
    ensures Before(cfg, w, es, i).now <= Run(cfg, w, es).log.refreshed
    decreases |es|
  {
    var n := |es| - 1;
    var v := Run(cfg, w, es[..n]);
    HeldBefore(cfg, w, es, id);
    AlwaysTimed(cfg, w, es[..n]);
    BeforeInPrefix(cfg, w, es, n, i);
    if i < n {
      BeatCounts(cfg, w, es[..n], id, i);
      SlotCases(cfg, v, es[n]);
    }
  }

  lemma {:induction false} FirstRefresh(cfg: Config, w: World, es: seq<Event>, id: string)
    requires InLine(w) && Timed(cfg, w) && cfg.Valid() && Legal(cfg, w, es) && Alive(cfg, w, es) && w.lobby.Some?
    requires w.lobby.value.Holds(id) && Run(cfg, w, es).lobby.value.Holds(id)
    ensures w.log.refreshed <= Run(cfg, w, es).log.refreshed
    decreases |es|
  {
    var n := |es| - 1;
    if es != [] {
      HeldBefore(cfg, w, es, id);
      FirstRefresh(cfg, w, es[..n], id);
      AlwaysTimed(cfg, w, es[..n]);
      SlotCases(cfg, Run(cfg, w, es[..n]), es[n]);
    }
  }

  /** The slot timeout outlasts m lost beats and one lag, from the last refresh on. */
  predicate Outlasts(cfg: Config, w: World, t: Ticker, m: nat) {
    && t.period > 0
    && (m + 1) * t.period + t.lag <= cfg.slotTimeout
    && t.At(m) + t.lag <= w.log.refreshed + cfg.slotTimeout
  }

  /** Every delivered beat that is past its lag was no later than the last refresh. */
  ghost predicate Heard(now: Time, refreshed: Time, t: Ticker, signals: seq<Signal>) {
    forall k: nat :: Delivered(signals, k) && t.At(k) + t.lag < now ==> t.At(k) <= refreshed
  }

  lemma HolderIsHeard(cfg: Config, w: World, es: seq<Event>, id: string, t: Ticker, signals: seq<Signal>)
    requires InLine(w) && Timed(cfg, w) && cfg.Valid() && Legal(cfg, w, es) && Alive(cfg, w, es) && w.lobby.Some?
    requires w.lobby.value.Holds(id) && Run(cfg, w, es).lobby.value.Holds(id)
    requires OnTime(cfg, w, es, id, t, signals)
    ensures Heard(Run(cfg, w, es).now, Run(cfg, w, es).log.refreshed, t, signals)
  {
    var w' := Run(cfg, w, es);
    forall k: nat | Delivered(signals, k) && t.At(k) + t.lag < w'.now ensures t.At(k) <= w'.log.refreshed {
      assert BeatAfter(cfg, w, es, id, t.At(k));
      var i :| 0 <= i < |es| && es[i] == Heartbeat(id) && t.At(k) <= Before(cfg, w, es, i).now;
      BeatCounts(cfg, w, es, id, i);
    }
  }

  /** While tick d is not due with its lag, the last refresh is not older than the
      timeout: one of the m + 1 ticks before it was heard.  */
  lemma {:induction false} NotOverdue(t: Ticker, signals: seq<Signal>, beats: nat, m: nat, gap: Time,
                                      timeout: Time, now: Time, refreshed: Time, d: nat)
    requires t.period > 0 && gap == (m + 1) * t.period
    requires gap + t.lag <= timeout && t.At(m) + t.lag <= refreshed + timeout
    requires LosesAtMost(signals, beats, m) && Heard(now, refreshed, t, signals)
    requires d <= beats && now <= t.At(d) + t.lag
    ensures now <= refreshed + timeout
    decreases d
  {
    if d <= m {
      TicksInOrder(t, d, m);
    } else if now <= t.At(d - 1) + t.lag {
      NotOverdue(t, signals, beats, m, gap, timeout, now, refreshed, d - 1);
    } else {
      assert Reaches(signals, m, d - 1 - m);
      var k: nat :| d - 1 - m <= k <= d - 1 && Delivered(signals, k);
      TicksInOrder(t, k, d - 1);
      TicksInOrder(t, d, k + (m + 1));
      TicksApart(t, k, m + 1);
    }
  }

  lemma {:induction false} BeatsKeepBeating(cfg: Config, w: World, es: seq<Event>, id: string, t: Ticker,
                                            signals: seq<Signal>, beats: nat, m: nat)
    requires InLine(w) && Timed(cfg, w) && cfg.Valid() && Legal(cfg, w, es) && Alive(cfg, w, es) && w.lobby.Some?
    requires w.lobby.value.Holds(id)
    requires Outlasts(cfg, w, t, m) && LosesAtMost(signals, beats, m) && OnTime(cfg, w, es, id, t, signals)
    requires Run(cfg, w, es).now <= t.At(beats) + t.lag
    ensures KeepsBeating(cfg, w, es, id)
    decreases |es|
  {
    if es != [] {
      var v := Run(cfg, w, es[..|es| - 1]);
      assert v.now <= Next(cfg, v, es[|es| - 1]).now;
      BeatsKeepBeating(cfg, w, es[..|es| - 1], id, t, signals, beats, m);
    }
    if Run(cfg, w, es).lobby.value.Holds(id) {
      HolderIsHeard(cfg, w, es, id, t, signals);
      FirstRefresh(cfg, w, es, id);
      NotOverdue(t, signals, beats, m, (m + 1) * t.period, cfg.slotTimeout,
                 Run(cfg, w, es).now, Run(cfg, w, es).log.refreshed, beats);
    }
  }

  /** The heartbeat loop keeps the slot: if it loses at most m beats in a row, a delivered
      one is handled within the lag, and the slot timeout outlasts m + 1 periods and a
      lag, then until the loop is stopped the session is never expired: it still holds
      the slot or it has been given a receipt.  */
  lemma BeatsKeepSlot(cfg: Config, w: World, es: seq<Event>, id: string, t: Ticker,
                      signals: seq<Signal>, beats: nat, m: nat)
    requires InLine(w) && Timed(cfg, w) && cfg.Valid() && Legal(cfg, w, es) && Alive(cfg, w, es) && w.lobby.Some?
    requires w.lobby.value.Holds(id)
    requires Outlasts(cfg, w, t, m) && LosesAtMost(signals, beats, m) && OnTime(cfg, w, es, id, t, signals)
    requires Beaten(signals, beats) && Run(cfg, w, es).now <= t.At(beats) + t.lag
    ensures var w' := Run(cfg, w, es);
            w'.lobby.value.Holds(id) || exists j :: |w.log.acks| <= j < |w'.log.acks| && w'.log.acks[j].session.id == id
  {
    BeatsKeepBeating(cfg, w, es, id, t, signals, beats, m);
    HeartbeatKeepsSlot(cfg, w, es, id);
  }
}
