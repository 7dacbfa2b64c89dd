/** Verification of an evidence history, alone and against a signed checkpoint, and
    what an accepted history is bound to. */
module EvidenceChain {
  import opened Wrappers
  import opened Text
  import opened Crypto
  import opened EvidenceEncoding

  datatype VerificationError =
    | InvalidCheckpoint
    | CheckpointSignerMismatch
    | SchemaMismatch(sequence: nat)
    | MixedEpoch
    | MixedSigner
    | SignerFingerprintMismatch
    | InvalidSequence(expected: nat, actual: nat)
    | ParentMismatch(sequence: nat)
    | HashMismatch(sequence: nat)
    | SignatureInvalid(sequence: nat)

  type Verdict = Outcome<VerificationError>

  /** The hash an epoch without a parent starts from. */
  function Genesis(p: Primitives, epochId: string, fingerprint: string): Digest {
    p.sha(EVIDENCE_SCHEMA_VERSION + "|GENESIS|" + epochId + "|" + fingerprint)
  }

  function StartHash(p: Primitives, epochId: string, parent: Option<string>, fingerprint: string): string {
    match parent
    case Some(hash) => hash
    case None => Genesis(p, epochId, fingerprint)
  }

  predicate HeaderOk(p: Primitives, first: Event) {
    p.keyOk(first.signerPublicKey) && Fingerprint(p, first.signerPublicKey) == first.signerFingerprint
  }

  predicate SameEpoch(a: Event, b: Event) {
    a.epochId == b.epochId && a.epochParentHash == b.epochParentHash
  }

  predicate SameSigner(a: Event, b: Event) {
    a.signerPublicKey == b.signerPublicKey && a.signerFingerprint == b.signerFingerprint
  }

  /** What is wrong with the event at position `index`, if anything. */
  function CheckEvent(p: Primitives, first: Event, index: nat, previousHash: string, e: Event): Verdict {
    var schema := Need(e.schemaVersion == EVIDENCE_SCHEMA_VERSION, SchemaMismatch(e.sequence));
    :- schema;
    :- Need(SameEpoch(e, first), MixedEpoch);
    :- Need(SameSigner(e, first), MixedSigner);
    :- Need(e.sequence == index + 1, InvalidSequence(index + 1, e.sequence));
    :- Need(e.previousEventHash == previousHash, ParentMismatch(e.sequence));
    :- Need(p.sha(EventMaterial(e)) == e.eventHash, HashMismatch(e.sequence));
    Need(SignatureOk(p, e.signerPublicKey, e.eventHash, e.signature), SignatureInvalid(e.sequence))
  }

  /** The first fault from position `i` on. */
  function CheckFrom(p: Primitives, events: seq<Event>, i: nat, previousHash: string): Verdict
    requires i <= |events|
    decreases |events| - i
  {
    if i == |events| then Pass
    else
      var fault := CheckEvent(p, events[0], i, previousHash, events[i]);
      if fault.Fail? then fault else CheckFrom(p, events, i + 1, events[i].eventHash)
  }

  function SnapshotStart(p: Primitives, first: Event): string {
    StartHash(p, first.epochId, first.epochParentHash, first.signerFingerprint)
  }

  function CheckSnapshot(p: Primitives, events: seq<Event>): Verdict {
    if events == [] then Pass
    else if !HeaderOk(p, events[0]) then Fail(SignerFingerprintMismatch)
    else CheckFrom(p, events, 0, SnapshotStart(p, events[0]))
  }

  /** `EvidencePlane::verify_snapshot` */
  method VerifySnapshot(p: Primitives, events: seq<Event>) returns (r: Verdict)
    ensures r == CheckSnapshot(p, events)
  {
    hide CheckEvent, EventMaterial, StartHash;
    if |events| == 0 {
      return Pass;
    }
    var first := events[0];
    if !p.keyOk(first.signerPublicKey) {
      return Fail(SignerFingerprintMismatch);
    }
    var fingerprint := Fingerprint(p, first.signerPublicKey);
    if fingerprint != first.signerFingerprint {
      return Fail(SignerFingerprintMismatch);
    }
    var previousHash := StartHash(p, first.epochId, first.epochParentHash, fingerprint);
    for index := 0 to |events|
      invariant CheckFrom(p, events, index, previousHash) == CheckSnapshot(p, events)
    {
      var fault := VerifyEvent(p, first, index, previousHash, events[index]);
      if fault.Fail? {
        return fault;
      }
      previousHash := events[index].eventHash;
    }
    r := Pass;
  }

  method VerifyEvent(p: Primitives, first: Event, index: nat, previousHash: string, e: Event) returns (r: Verdict)
    ensures r == CheckEvent(p, first, index, previousHash, e)
  {
    hide EventMaterial;
    var expectedSequence := index + 1;
    if e.schemaVersion != EVIDENCE_SCHEMA_VERSION {
      return Fail(SchemaMismatch(e.sequence));
    }
    if e.epochId != first.epochId || e.epochParentHash != first.epochParentHash {
      return Fail(MixedEpoch);
    }
    if e.signerPublicKey != first.signerPublicKey || e.signerFingerprint != first.signerFingerprint {
      return Fail(MixedSigner);
    }
    if e.sequence != expectedSequence {
      return Fail(InvalidSequence(expectedSequence, e.sequence));
    }
    if e.previousEventHash != previousHash {
      return Fail(ParentMismatch(e.sequence));
    }
    if p.sha(EventMaterial(e)) != e.eventHash {
      return Fail(HashMismatch(e.sequence));
    }
    if !SignatureOk(p, e.signerPublicKey, e.eventHash, e.signature) {
      return Fail(SignatureInvalid(e.sequence));
    }
    r := Pass;
  }

  // ---- what acceptance means ---------------------------------------------------------

  /** The hash the event at position `i` must name as its predecessor. */
  function PreviousHash(p: Primitives, events: seq<Event>, i: nat): string
    requires i < |events|
  {
    if i == 0 then SnapshotStart(p, events[0]) else events[i - 1].eventHash
  }

  predicate EventOk(p: Primitives, events: seq<Event>, i: nat)
    requires i < |events|
  {
    var e := events[i];
    && e.schemaVersion == EVIDENCE_SCHEMA_VERSION
    && SameEpoch(e, events[0])
    && SameSigner(e, events[0])
    && e.sequence == i + 1
    && e.previousEventHash == PreviousHash(p, events, i)
    && e.eventHash == p.sha(EventMaterial(e))
    && SignatureOk(p, e.signerPublicKey, e.eventHash, e.signature)
  }

  /** A history with consistent header, numbering, links, hashes and signatures. */
  ghost predicate WellLinked(p: Primitives, events: seq<Event>) {
    events != [] ==>
      HeaderOk(p, events[0]) && forall i | 0 <= i < |events| :: EventOk(p, events, i)
  }

  lemma {:induction false} CheckFromPasses(p: Primitives, events: seq<Event>, i: nat)
    requires i < |events|
    ensures CheckFrom(p, events, i, PreviousHash(p, events, i)).Pass? <==>
            forall k | i <= k < |events| :: EventOk(p, events, k)
    decreases |events| - i
  {
    hide CheckEvent, EventOk;
    EventPasses(p, events, i);
    if i + 1 < |events| {
      CheckFromPasses(p, events, i + 1);
    }
  }

  lemma EventPasses(p: Primitives, events: seq<Event>, i: nat)
    requires i < |events|
    ensures CheckEvent(p, events[0], i, PreviousHash(p, events, i), events[i]).Pass? <==> EventOk(p, events, i)
  {
    hide PreviousHash, EventMaterial, SignatureOk, SameEpoch, SameSigner;
  }

  /** A snapshot is accepted exactly when it is well linked. */
  lemma AcceptedIff(p: Primitives, events: seq<Event>)
    ensures CheckSnapshot(p, events).Pass? <==> WellLinked(p, events)
  {
    hide EventOk;
    if events != [] {
      CheckFromPasses(p, events, 0);
    }
  }

  lemma PrefixWellLinked(p: Primitives, events: seq<Event>, k: nat)
    requires WellLinked(p, events) && k <= |events|
    ensures WellLinked(p, events[..k])
  {
    hide EventOk, HeaderOk;
    forall i | 0 <= i < k
      ensures EventOk(p, events[..k], i)
    {
      EventOkInPrefix(p, events, k, i);
    }
  }

  lemma EventOkInPrefix(p: Primitives, events: seq<Event>, k: nat, i: nat)
    requires i < k <= |events|
    ensures EventOk(p, events[..k], i) <==> EventOk(p, events, i)
  {
    hide EventMaterial, SignatureOk, SameEpoch, SameSigner, SnapshotStart;
    var prefix := events[..k];
    assert prefix[i] == events[i] && prefix[0] == events[0];
    assert PreviousHash(p, prefix, i) == PreviousHash(p, events, i);
  }

  // ---- checkpoints --------------------------------------------------------------------

  /** `EvidenceCheckpoint::verify` */
  predicate CheckpointOk(p: Primitives, c: Checkpoint) {
    && c.schemaVersion == CHECKPOINT_SCHEMA_VERSION
    && p.keyOk(c.signerPublicKey)
    && Fingerprint(p, c.signerPublicKey) == c.signerFingerprint
    && p.sha(CheckpointMaterial(c)) == c.checkpointHash
    && SignatureOk(p, c.signerPublicKey, c.checkpointHash, c.signature)
  }

  /** What the checkpoint says against the end of the history, if anything. */
  function CheckHead(events: seq<Event>, c: Checkpoint): Verdict {
    if events == [] then Need(c.lastSequence == 0, InvalidSequence(c.lastSequence, 0))
    else
      var last := events[|events| - 1];
      :- Need(last.epochId == c.epochId, MixedEpoch);
      :- Need(last.signerPublicKey == c.signerPublicKey && last.signerFingerprint == c.signerFingerprint, MixedSigner);
      :- Need(last.sequence == c.lastSequence, InvalidSequence(c.lastSequence, last.sequence));
      Need(last.eventHash == c.headHash, ParentMismatch(last.sequence))
  }

  function CheckAgainst(p: Primitives, events: seq<Event>, c: Checkpoint): Verdict {
    if !CheckpointOk(p, c) then Fail(InvalidCheckpoint)
    else
      var snapshot := CheckSnapshot(p, events);
      if snapshot.Fail? then snapshot else CheckHead(events, c)
  }

  /** `EvidencePlane::verify_snapshot_against_checkpoint` */
  method VerifySnapshotAgainstCheckpoint(p: Primitives, events: seq<Event>, c: Checkpoint) returns (r: Verdict)
    ensures r == CheckAgainst(p, events, c)
  {
    hide CheckpointOk, CheckSnapshot;
    if !CheckpointOk(p, c) {
      return Fail(InvalidCheckpoint);
    }
    var snapshot := VerifySnapshot(p, events);
    if snapshot.Fail? {
      return snapshot;
    }
    if |events| == 0 {
      if c.lastSequence == 0 {
        return Pass;
      }
      return Fail(InvalidSequence(c.lastSequence, 0));
    }
    var last := events[|events| - 1];
    if last.epochId != c.epochId {
      return Fail(MixedEpoch);
    }
    if last.signerPublicKey != c.signerPublicKey || last.signerFingerprint != c.signerFingerprint {
      return Fail(MixedSigner);
    }
    if last.sequence != c.lastSequence {
      return Fail(InvalidSequence(c.lastSequence, last.sequence));
    }
    if last.eventHash != c.headHash {
      return Fail(ParentMismatch(last.sequence));
    }
    r := Pass;
  }

  /** The history ends where the checkpoint says. Nothing but the count is compared
      when the history is empty. */
  predicate EndsAt(events: seq<Event>, c: Checkpoint) {
    && |events| == c.lastSequence
    && (events != [] ==>
          && events[0].epochId == c.epochId
          && events[0].signerPublicKey == c.signerPublicKey
          && events[0].signerFingerprint == c.signerFingerprint
          && events[|events| - 1].eventHash == c.headHash)
  }

  /** Acceptance by a checkpoint, spelt out. */
  lemma CheckpointAcceptsIff(p: Primitives, events: seq<Event>, c: Checkpoint)
    ensures CheckAgainst(p, events, c).Pass? <==> CheckpointOk(p, c) && WellLinked(p, events) && EndsAt(events, c)
  {
    hide CheckpointOk, CheckSnapshot, WellLinked;
    AcceptedIff(p, events);
    if events != [] && WellLinked(p, events) {
      LastEvent(p, events);
    }
  }

  lemma LastEvent(p: Primitives, events: seq<Event>)
    requires WellLinked(p, events) && events != []
    ensures var last := events[|events| - 1];
            last.sequence == |events| && SameEpoch(last, events[0]) && SameSigner(last, events[0])
  {
    assert EventOk(p, events, |events| - 1);
  }

  // ---- uniqueness ----------------------------------------------------------------------

  /** The collision-freeness hypothesis for the two histories a theorem compares. */
  ghost predicate NoCollisions(p: Primitives, a: seq<Event>, b: seq<Event>) {
    forall i | 0 <= i < |a| && i < |b| :: NoCollision(p.sha, EventMaterial(a[i]), EventMaterial(b[i]))
  }

  /** Backwards along the links: where the hashes agree, everything before does. */
  lemma {:induction false} SameHeadSameHistory(p: Primitives, a: seq<Event>, b: seq<Event>, k: nat)
    requires WellLinked(p, a) && WellLinked(p, b) && NoCollisions(p, a, b)
    requires k < |a| && k < |b| && a[k].eventHash == b[k].eventHash
    ensures forall i | 0 <= i <= k :: Hashed(a[i]) == Hashed(b[i]) && a[i].eventHash == b[i].eventHash
  {
    hide EventMaterial, HeaderOk, SignatureOk;
    assert EventOk(p, a, k) && EventOk(p, b, k);
    assert NoCollision(p.sha, EventMaterial(a[k]), EventMaterial(b[k]));
    EventTextBinds(a[k], b[k]);
    if k > 0 {
      SameHeadSameHistory(p, a, b, k - 1);
    }
  }

  /** A checkpoint fixes the whole history: two snapshots it accepts have the same
      length and agree on every hashed field of every event. */
  lemma CheckpointFixesHistory(p: Primitives, a: seq<Event>, b: seq<Event>, c: Checkpoint)
    requires CheckAgainst(p, a, c).Pass? && CheckAgainst(p, b, c).Pass?
    requires NoCollisions(p, a, b)
    ensures |a| == |b| == c.lastSequence
    ensures forall i | 0 <= i < |a| :: Hashed(a[i]) == Hashed(b[i]) && a[i].eventHash == b[i].eventHash
  {
    hide CheckAgainst, CheckpointOk, WellLinked, NoCollisions, Hashed;
    CheckpointAcceptsIff(p, a, c);
    CheckpointAcceptsIff(p, b, c);
    if a != [] {
      SameHeadSameHistory(p, a, b, |a| - 1);
    }
  }

  /** Two checkpoints with the same hash accept the same histories, up to their own
      signatures. */
  lemma CheckpointHashBinds(p: Primitives, events: seq<Event>, c: Checkpoint, d: Checkpoint)
    requires CheckpointOk(p, c) && CheckpointOk(p, d) && c.checkpointHash == d.checkpointHash
    requires NoCollision(p.sha, CheckpointMaterial(c), CheckpointMaterial(d))
    ensures HashedCheckpoint(c) == HashedCheckpoint(d)
    ensures CheckAgainst(p, events, c) == CheckAgainst(p, events, d)
  {
    hide CheckpointMaterial, CheckSnapshot, SignatureOk;
    CheckpointTextBinds(c, d);
    var x, y := HashedCheckpoint(c), HashedCheckpoint(d);
    assert x.epochId == y.epochId && x.lastSequence == y.lastSequence && x.headHash == y.headHash;
    assert x.signerPublicKey == y.signerPublicKey && x.signerFingerprint == y.signerFingerprint;
  }
}
