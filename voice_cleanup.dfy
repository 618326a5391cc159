/** src/app/api/voice-channels/cleanup/route.ts: `POST` deletes the voice
    participants not seen in the last thirty seconds.  `now` is `Date.now()` in
    milliseconds, passed in. */
module VoiceCleanup {
  import opened Seqs
  import opened Store

  /** `new Date(Date.now() - 30 * 1000)`. */
  function Threshold(now: int): int {
    now - 30 * 1000
  }

  /** `lastSeen: { lt: threshold }`. */
  function Stale(threshold: int): VoiceParticipant -> bool {
    (p: VoiceParticipant) => p.lastSeen < threshold
  }

  function Recent(threshold: int): VoiceParticipant -> bool {
    (p: VoiceParticipant) => p.lastSeen >= threshold
  }

  /** `{ success: true, removedCount }`. */
  datatype CleanupReply = CleanupReply(success: bool, removedCount: nat)

  /** The sweep: the participants seen at or after the threshold stay, in their
      order; the others go, and the answer counts them.  Nothing else changes. */
  function Sweep(t: Tables, failing: bool, now: int): (s: Step<CleanupReply>)
    ensures failing ==> s == Step(t, Text(500, "Internal Error"))
    ensures !failing ==> s.res.Json? && s.res.value.success
    ensures s.t == t.(participants := s.t.participants)
    ensures forall p :: p in s.t.participants <==> p in t.participants && (failing || p.lastSeen >= now - 30000)
    ensures IsSubseq(s.t.participants, t.participants)
    ensures !failing ==>
      forall p :: multiset(s.t.participants)[p] == if p.lastSeen >= now - 30000 then multiset(t.participants)[p] else 0
    ensures s.res.Json? ==> s.res.value.removedCount == |t.participants| - |s.t.participants|
  {
    if failing then
      SubseqRefl(t.participants);
      Step(t, Text(500, "Internal Error"))
    else
      var kept := Filter(t.participants, Recent(Threshold(now)));
      FilterMultiset(t.participants, Recent(Threshold(now)));
      Step(t.(participants := kept), Json(CleanupReply(true, |t.participants| - |kept|)))
  }

  /** The handler: one `deleteMany`. */
  method Post(db: Database, now: int) returns (res: Response<CleanupReply>)
    modifies db
    ensures Step(db.t, res) == Sweep(old(db.t), old(db.failing), now)
    ensures db.failing == old(db.failing)
  {
    if db.failing {
      return Text(500, "Internal Error");
    }
    var before := |db.t.participants|;
    db.t := db.t.(participants := Filter(db.t.participants, Recent(Threshold(now))));
    res := Json(CleanupReply(true, before - |db.t.participants|));
  }

  /** `removedCount` is the number of participants strictly older than the threshold. */
  lemma RemovedAreStale(t: Tables, now: int)
    ensures Sweep(t, false, now).res.value.removedCount == |Filter(t.participants, Stale(Threshold(now)))|
  {
    FilterComplementLength(t.participants, Recent(Threshold(now)), Stale(Threshold(now)));
  }

  /** A second sweep at the same time removes nothing. */
  lemma SweepIdempotent(t: Tables, now: int)
    ensures var s := Sweep(t, false, now);
      Sweep(s.t, false, now) == Step(s.t, Json(CleanupReply(true, 0)))
  {
    var kept := Filter(t.participants, Recent(Threshold(now)));
    assert Sweep(t, false, now).t == t.(participants := kept);
    FilterIdempotent(t.participants, Recent(Threshold(now)));
    assert Sweep(t.(participants := kept), false, now).t == t.(participants := kept);
  }
}
