/** The append-only evidence plane: a signed, hash-linked history and a first-in
    first-out queue of writes deferred by an unreliable external sink. */
module EvidencePlane {
  import opened Wrappers
  import opened Text
  import opened Crypto
  import opened EvidenceEncoding
  import opened EvidenceChain

  datatype SinkError = SinkError(sink: string, message: string)

  datatype Deferral = PriorPending | WriteFailed(error: SinkError)

  datatype SinkStatus = NotConfigured | Delivered(sink: string) | Deferred(sink: string, reason: Deferral)

  datatype Receipt = Receipt(eventId: string, eventHash: string, sequence: nat, epochId: string, status: SinkStatus)

  /** An external sink: what becomes of its n-th write is up to the outside world. */
  class Sink {
    const name: string
    const outcomes: nat -> Outcome<string>
    var attempts: nat
    var delivered: seq<Event>

    constructor (name: string, outcomes: nat -> Outcome<string>)
      ensures this.name == name && this.outcomes == outcomes
      ensures attempts == 0 && delivered == []
    {
      this.name, this.outcomes := name, outcomes;
      attempts, delivered := 0, [];
    }

    method Write(e: Event) returns (r: Outcome<SinkError>)
      modifies this
      ensures attempts == old(attempts) + 1
      ensures match outcomes(old(attempts))
              case Pass => r == Pass && delivered == old(delivered) + [e]
              case Fail(message) => r == Fail(SinkError(name, message)) && delivered == old(delivered)
    {
      var outcome := outcomes(attempts);
      attempts := attempts + 1;
      if outcome.Fail? {
        return Fail(SinkError(name, outcome.error));
      }
      delivered := delivered + [e];
      r := Pass;
    }
  }

  // ---- the specification state --------------------------------------------------------

  /** The plane's own fields, and what its sink has seen. */
  datatype State = State(
    epochId: string,
    epochParentHash: Option<string>,
    headHash: string,
    nextSequence: nat,
    events: seq<Event>,
    pending: seq<Event>,
    attempts: nat,
    delivered: seq<Event>)

  datatype SinkSetup = NoSink | External(name: string, outcomes: nat -> Outcome<string>)

  datatype Setup = Setup(p: Primitives, signer: Signer, sink: SinkSetup)

  function SignerFingerprint(w: Setup): string {
    Fingerprint(w.p, w.signer.publicKey)
  }

  /** `with_parent_hash` */
  function Start(w: Setup, epochId: string, parent: Option<string>, attempts: nat, delivered: seq<Event>): State {
    State(epochId, parent, StartHash(w.p, epochId, parent, SignerFingerprint(w)), 1, [], [], attempts, delivered)
  }

  function UnsignedEvent(w: Setup, s: State, eventId: string, now: int, t: EventType, payload: Payload): Event {
    Event(EVIDENCE_SCHEMA_VERSION, s.epochId, s.epochParentHash, s.nextSequence, eventId, now, t, payload,
          s.headHash, "", SignerFingerprint(w), w.signer.publicKey, "")
  }

  function SignEvent(w: Setup, e: Event): Event {
    var hash := w.p.sha(EventMaterial(e));
    e.(eventHash := hash, signature := w.signer.sign(hash))
  }

  function NextEvent(w: Setup, s: State, eventId: string, now: int, t: EventType, payload: Payload): Event {
    SignEvent(w, UnsignedEvent(w, s, eventId, now, t, payload))
  }

  /** The event enters the chain. */
  function Chained(s: State, e: Event): State {
    s.(events := s.events + [e], headHash := e.eventHash, nextSequence := s.nextSequence + 1)
  }

  /** One write reaches the sink. */
  function Sent(s: State, e: Event): State {
    s.(attempts := s.attempts + 1, delivered := s.delivered + [e])
  }

  /** The event is offered to the sink, or queued behind those already waiting. */
  function Offered(sink: SinkSetup, s: State, e: Event): State {
    match sink
    case NoSink => s
    case External(_, outcomes) =>
      if s.pending != [] then s.(pending := s.pending + [e])
      else if outcomes(s.attempts).Pass? then Sent(s, e)
      else s.(attempts := s.attempts + 1, pending := s.pending + [e])
  }

  function OfferStatus(sink: SinkSetup, s: State): SinkStatus {
    match sink
    case NoSink => NotConfigured
    case External(name, outcomes) =>
      if s.pending != [] then Deferred(name, PriorPending)
      else match outcomes(s.attempts)
           case Pass => Delivered(name)
           case Fail(message) => Deferred(name, WriteFailed(SinkError(name, message)))
  }

  function AfterAppend(w: Setup, s: State, e: Event): State {
    Offered(w.sink, Chained(s, e), e)
  }

  /** Deferred writes go out in order until one fails or none is left. */
  function AfterFlush(sink: SinkSetup, s: State): State
    decreases |s.pending|
  {
    if sink.NoSink? || s.pending == [] then s
    else if sink.outcomes(s.attempts).Fail? then s.(attempts := s.attempts + 1)
    else AfterFlush(sink, Sent(s, s.pending[0]).(pending := s.pending[1..]))
  }

  function MakeCheckpoint(w: Setup, s: State, now: int): Checkpoint {
    var lastSequence := if s.nextSequence == 0 then 0 else s.nextSequence - 1;
    var unsigned := Checkpoint(CHECKPOINT_SCHEMA_VERSION, s.epochId, lastSequence,
                               s.headHash, SignerFingerprint(w), w.signer.publicKey, now, "", "");
    var hash := w.p.sha(CheckpointMaterial(unsigned));
    unsigned.(checkpointHash := hash, signature := w.signer.sign(hash))
  }

  // ---- the plane itself -----------------------------------------------------------------

  class Plane {
    const p: Primitives
    const signer: Signer
    const sink: Sink?
    const epochId: string
    const epochParentHash: Option<string>
    var headHash: string
    var nextSequence: nat
    var events: seq<Event>
    var pending: seq<Event>

    ghost function TheSetup(): Setup {
      Setup(p, signer, if sink == null then NoSink else External(sink.name, sink.outcomes))
    }

    ghost function View(): State
      reads this, if sink == null then {} else {sink}
    {
      State(epochId, epochParentHash, headHash, nextSequence, events, pending,
            if sink == null then 0 else sink.attempts, if sink == null then [] else sink.delivered)
    }

    constructor WithParentHash(p: Primitives, signer: Signer, sink: Sink?, epochId: string, parent: Option<string>)
      ensures this.p == p && this.signer == signer && this.sink == sink
      ensures View() == Start(TheSetup(), epochId, parent, if sink == null then 0 else sink.attempts,
                              if sink == null then [] else sink.delivered)
    {
      this.p, this.signer, this.sink := p, signer, sink;
      this.epochId, epochParentHash := epochId, parent;
      headHash := StartHash(p, epochId, parent, Fingerprint(p, signer.publicKey));
      nextSequence, events, pending := 1, [], [];
    }

    method Append(t: EventType, payload: Payload, eventId: string, now: int) returns (r: Receipt)
      modifies this, if sink == null then {} else {sink}
      ensures var e := NextEvent(TheSetup(), old(View()), eventId, now, t, payload);
              && View() == AfterAppend(TheSetup(), old(View()), e)
              && r == Receipt(eventId, e.eventHash, old(nextSequence), epochId,
                              OfferStatus(TheSetup().sink, old(View())))
    {
      hide EventMaterial;
      var sequence := nextSequence;
      var e := Event(EVIDENCE_SCHEMA_VERSION, epochId, epochParentHash, sequence, eventId, now, t, payload, headHash,
                     "", Fingerprint(p, signer.publicKey), signer.publicKey, "");
      var hash := p.sha(EventMaterial(e));
      e := e.(eventHash := hash, signature := signer.sign(hash));
      events := events + [e];
      headHash := hash;
      nextSequence := nextSequence + 1;
      var status := Offer(e);
      r := Receipt(eventId, hash, sequence, epochId, status);
    }

    method Offer(e: Event) returns (status: SinkStatus)
      modifies this`pending, if sink == null then {} else {sink}
      ensures View() == Offered(TheSetup().sink, old(View()), e)
      ensures status == OfferStatus(TheSetup().sink, old(View()))
    {
      if sink == null {
        return NotConfigured;
      }
      if pending != [] {
        pending := pending + [e];
        return Deferred(sink.name, PriorPending);
      }
      var written := sink.Write(e);
      match written
      case Pass =>
        status := Delivered(sink.name);
      case Fail(error) =>
        pending := pending + [e];
        status := Deferred(sink.name, WriteFailed(error));
    }

    method FlushPending() returns (r: Result<nat, SinkError>)
      modifies this`pending, if sink == null then {} else {sink}
      ensures View() == AfterFlush(TheSetup().sink, old(View()))
      ensures r.Ok? ==> r.value == if sink == null then 0 else |old(pending)|
      ensures r.Ok? && sink != null ==> pending == []
      ensures r.Err? ==> sink != null && pending != [] && r.error.sink == sink.name
    {
      if sink == null {
        return Ok(0);
      }
      var delivered := 0;
      while pending != []
        invariant AfterFlush(TheSetup().sink, View()) == AfterFlush(TheSetup().sink, old(View()))
        invariant delivered + |pending| == |old(pending)|
        decreases |pending|
      {
        var written := sink.Write(pending[0]);
        if written.Fail? {
          return Err(written.error);
        }
        pending := pending[1..];
        delivered := delivered + 1;
      }
      r := Ok(delivered);
    }

    method TakeCheckpoint(now: int) returns (c: Checkpoint)
      ensures c == MakeCheckpoint(TheSetup(), View(), now)
    {
      hide CheckpointMaterial;
      var lastSequence := if nextSequence == 0 then 0 else nextSequence - 1;
      c := Checkpoint(CHECKPOINT_SCHEMA_VERSION, epochId, lastSequence, headHash,
                      Fingerprint(p, signer.publicKey), signer.publicKey, now, "", "");
      var hash := p.sha(CheckpointMaterial(c));
      c := c.(checkpointHash := hash, signature := signer.sign(hash));
    }
  }

  function RestartFault(p: Primitives, signer: Signer, c: Checkpoint): Verdict {
    if !CheckpointOk(p, c) then Fail(InvalidCheckpoint)
    else Need(c.signerPublicKey == signer.publicKey && c.signerFingerprint == Fingerprint(p, signer.publicKey),
              CheckpointSignerMismatch)
  }

  /** `EvidencePlane::from_checkpoint`: a new epoch whose parent is the checkpoint. */
  method FromCheckpoint(p: Primitives, signer: Signer, c: Checkpoint, sink: Sink?, epochId: string)
      returns (r: Result<Plane, VerificationError>)
    ensures match RestartFault(p, signer, c) case Fail(error) => r == Err(error) case Pass => r.Ok?
    ensures r.Ok? ==> r.value.p == p && r.value.signer == signer && r.value.sink == sink && fresh(r.value)
    ensures r.Ok? ==> r.value.View() == Start(r.value.TheSetup(), epochId, Some(c.headHash),
                                              if sink == null then 0 else sink.attempts,
                                              if sink == null then [] else sink.delivered)
  {
    hide CheckpointOk, StartHash;
    if !CheckpointOk(p, c) {
      return Err(InvalidCheckpoint);
    }
    if c.signerPublicKey != signer.publicKey || c.signerFingerprint != Fingerprint(p, signer.publicKey) {
      return Err(CheckpointSignerMismatch);
    }
    var plane := new Plane.WithParentHash(p, signer, sink, epochId, Some(c.headHash));
    r := Ok(plane);
  }

  // ---- whole runs --------------------------------------------------------------------------

  datatype Operation =
    | Append(eventId: string, now: int, eventType: EventType, payload: Payload)
    | Flush

  function Step(w: Setup, s: State, op: Operation): State {
    match op
    case Append(eventId, now, t, payload) => AfterAppend(w, s, NextEvent(w, s, eventId, now, t, payload))
    case Flush => AfterFlush(w.sink, s)
  }

  function Run(w: Setup, s: State, ops: seq<Operation>): State
    decreases |ops|
  {
    if ops == [] then s else Run(w, Step(w, s, ops[0]), ops[1..])
  }

  /** The event belongs to this plane's epoch and carries its signer. */
  predicate OwnEvent(w: Setup, s: State, e: Event) {
    && e.epochId == s.epochId && e.epochParentHash == s.epochParentHash
    && e.signerPublicKey == w.signer.publicKey && e.signerFingerprint == SignerFingerprint(w)
  }

  ghost predicate ChainOk(w: Setup, s: State) {
    WellLinked(w.p, s.events) && AtHead(w, s)
  }

  /** Nothing is lost, doubled or reordered on the way to the sink, which had already
      received `earlier`. */
  ghost predicate Conserved(w: Setup, s: State, earlier: seq<Event>) {
    if w.sink.NoSink? then s.pending == [] && s.delivered == earlier
    else s.delivered + s.pending == earlier + s.events
  }

  lemma SignedEventOk(w: Setup, e: Event)
    requires Honest(w.p, w.signer) && e.signerPublicKey == w.signer.publicKey
    ensures var x := SignEvent(w, e);
            x.eventHash == w.p.sha(EventMaterial(x)) && SignatureOk(w.p, x.signerPublicKey, x.eventHash, x.signature)
  {
    hide EventMaterial;
    EventTextBinds(e, SignEvent(w, e));
  }

  lemma ChainGrows(w: Setup, s: State, eventId: string, now: int, t: EventType, payload: Payload)
    requires Honest(w.p, w.signer) && ChainOk(w, s)
    ensures ChainOk(w, Chained(s, NextEvent(w, s, eventId, now, t, payload)))
  {
    hide EventMaterial, SignatureOk, SignEvent, WellLinked;
    var e := NextEvent(w, s, eventId, now, t, payload);
    SignedShape(w, UnsignedEvent(w, s, eventId, now, t, payload));
    SignedEventOk(w, UnsignedEvent(w, s, eventId, now, t, payload));
    ExtendWellLinked(w, s, e);
  }

  lemma SignedShape(w: Setup, e: Event)
    ensures var x := SignEvent(w, e); x == e.(eventHash := x.eventHash, signature := x.signature)
  {
    hide EventMaterial;
  }

  predicate AtHead(w: Setup, s: State) {
    && (s.events != [] ==> OwnEvent(w, s, s.events[0]))
    && s.nextSequence == |s.events| + 1
    && s.headHash == (if s.events == [] then StartHash(w.p, s.epochId, s.epochParentHash, SignerFingerprint(w))
                      else s.events[|s.events| - 1].eventHash)
  }

  /** A well-made event that continues the chain. */
  predicate Continues(w: Setup, s: State, e: Event) {
    && OwnEvent(w, s, e) && e.schemaVersion == EVIDENCE_SCHEMA_VERSION
    && e.sequence == s.nextSequence && e.previousEventHash == s.headHash
    && e.eventHash == w.p.sha(EventMaterial(e))
    && SignatureOk(w.p, e.signerPublicKey, e.eventHash, e.signature)
  }

  lemma ExtendWellLinked(w: Setup, s: State, e: Event)
    requires ChainOk(w, s) && Continues(w, s, e)
    ensures WellLinked(w.p, s.events + [e])
  {
    hide EventMaterial, EventOk, StartHash;
    var longer := s.events + [e];
    forall i | 0 <= i < |longer|
      ensures EventOk(w.p, longer, i)
    {
      if i < |s.events| {
        assert longer[..|s.events|] == s.events;
        EventOkInPrefix(w.p, longer, |s.events|, i);
      } else {
        LastEventOk(w, s, e);
      }
    }
  }

  predicate LastOk(p: Primitives, events: seq<Event>) {
    events != [] && EventOk(p, events, |events| - 1)
  }

  lemma LastEventOk(w: Setup, s: State, e: Event)
    requires AtHead(w, s) && Continues(w, s, e)
    ensures LastOk(w.p, s.events + [e])
  {
    hide EventMaterial, SignatureOk, StartHash;
  }

  lemma {:induction false} FlushOnlySends(w: Setup, s: State)
    ensures var after := AfterFlush(w.sink, s);
            && after.events == s.events && after.headHash == s.headHash && after.nextSequence == s.nextSequence
            && after.epochId == s.epochId && after.epochParentHash == s.epochParentHash
            && after.delivered + after.pending == s.delivered + s.pending
            && |after.pending| <= |s.pending|
    decreases |s.pending|
  {
    if w.sink.External? && s.pending != [] && w.sink.outcomes(s.attempts).Pass? {
      var next := Sent(s, s.pending[0]).(pending := s.pending[1..]);
      assert next.delivered + next.pending == s.delivered + s.pending;
      FlushOnlySends(w, next);
    }
  }

  lemma StepKeeps(w: Setup, s: State, op: Operation, earlier: seq<Event>)
    requires Honest(w.p, w.signer) && ChainOk(w, s) && Conserved(w, s, earlier)
    ensures var after := Step(w, s, op); ChainOk(w, after) && Conserved(w, after, earlier) && s.events <= after.events
  {
    hide WellLinked, NextEvent, StartHash, AfterFlush;
    match op
    case Append(eventId, now, t, payload) =>
      var e := NextEvent(w, s, eventId, now, t, payload);
      ChainGrows(w, s, eventId, now, t, payload);
      OfferConserves(w, Chained(s, e), e, s.events, earlier);
    case Flush =>
      FlushOnlySends(w, s);
      if w.sink.NoSink? {
        FlushWithoutSink(w, s);
      }
  }

  lemma FlushWithoutSink(w: Setup, s: State)
    requires w.sink.NoSink?
    ensures AfterFlush(w.sink, s) == s
  {
  }

  lemma OfferConserves(w: Setup, s: State, e: Event, before: seq<Event>, earlier: seq<Event>)
    requires s.events == before + [e] && Conserved(w, s.(events := before), earlier)
    ensures Conserved(w, Offered(w.sink, s, e), earlier)
    ensures var after := Offered(w.sink, s, e);
            s == after.(pending := s.pending, attempts := s.attempts, delivered := s.delivered)
  {
    var after := Offered(w.sink, s, e);
    if w.sink.External? {
      assert (s.delivered + s.pending) + [e] == earlier + (before + [e]);
      assert after.delivered + after.pending == (s.delivered + s.pending) + [e];
    }
  }

  lemma {:induction false} RunKeeps(w: Setup, s: State, ops: seq<Operation>, earlier: seq<Event>)
    requires Honest(w.p, w.signer) && ChainOk(w, s) && Conserved(w, s, earlier)
    ensures var after := Run(w, s, ops); ChainOk(w, after) && Conserved(w, after, earlier) && s.events <= after.events
    decreases |ops|
  {
    hide ChainOk, Conserved, Step;
    if ops != [] {
      StepKeeps(w, s, ops[0], earlier);
      RunKeeps(w, Step(w, s, ops[0]), ops[1..], earlier);
    }
  }

  lemma StartKeeps(w: Setup, epochId: string, parent: Option<string>, attempts: nat, delivered: seq<Event>)
    ensures var s := Start(w, epochId, parent, attempts, delivered); ChainOk(w, s) && Conserved(w, s, delivered)
  {
  }

  /** The append an event records, and the appends among the operations of a run. */
  function Recorded(events: seq<Event>): seq<Operation> {
    if events == [] then []
    else
      var e := events[|events| - 1];
      Recorded(events[..|events| - 1]) + [Append(e.eventId, e.timestamp, e.eventType, e.payload)]
  }

  function Appends(ops: seq<Operation>): seq<Operation> {
    if ops == [] then []
    else if ops[0].Append? then [ops[0]] + Appends(ops[1..])
    else Appends(ops[1..])
  }

  lemma {:induction false} RunRecords(w: Setup, s: State, ops: seq<Operation>)
    ensures Recorded(Run(w, s, ops).events) == Recorded(s.events) + Appends(ops)
    decreases |ops|
  {
    hide Step, Recorded;
    if ops != [] {
      var next := Step(w, s, ops[0]);
      RunRecords(w, next, ops[1..]);
      StepRecords(w, s, ops[0]);
      assert (Recorded(s.events) + [ops[0]]) + Appends(ops[1..]) == Recorded(s.events) + ([ops[0]] + Appends(ops[1..]));
    }
  }

  lemma StepRecords(w: Setup, s: State, op: Operation)
    ensures Recorded(Step(w, s, op).events) == if op.Append? then Recorded(s.events) + [op] else Recorded(s.events)
  {
    hide SignEvent, AfterFlush;
    match op
    case Append(eventId, now, t, payload) =>
      SignedShape(w, UnsignedEvent(w, s, eventId, now, t, payload));
      assert (s.events + [NextEvent(w, s, eventId, now, t, payload)])[..|s.events|] == s.events;
    case Flush => FlushOnlySends(w, s);
  }

  /** Soundness: after any interleaving of appends and flushes, for any pattern of sink
      failures, the snapshot verifies and records exactly the appends, in order. */
  lemma SnapshotAlwaysVerifies(w: Setup, epochId: string, parent: Option<string>, attempts: nat, delivered: seq<Event>,
                               ops: seq<Operation>)
    requires Honest(w.p, w.signer)
    ensures var events := Run(w, Start(w, epochId, parent, attempts, delivered), ops).events;
            CheckSnapshot(w.p, events).Pass? && Recorded(events) == Appends(ops)
  {
    hide CheckSnapshot, Run, WellLinked, StartHash;
    var s := Start(w, epochId, parent, attempts, delivered);
    StartKeeps(w, epochId, parent, attempts, delivered);
    RunKeeps(w, s, ops, delivered);
    AcceptedIff(w.p, Run(w, s, ops).events);
    RunRecords(w, s, ops);
  }

  /** Conservation: at any point of any run, what a sink received since the plane began
      followed by what is still queued is the local history, in order. */
  lemma SinkConservation(w: Setup, epochId: string, parent: Option<string>, attempts: nat, earlier: seq<Event>,
                         ops: seq<Operation>)
    requires Honest(w.p, w.signer) && w.sink.External?
    ensures var s := Run(w, Start(w, epochId, parent, attempts, earlier), ops);
            s.delivered + s.pending == earlier + s.events
  {
    hide Start, Run, ChainOk;
    StartKeeps(w, epochId, parent, attempts, earlier);
    RunKeeps(w, Start(w, epochId, parent, attempts, earlier), ops, earlier);
  }

  // ---- checkpoints of a running plane ---------------------------------------------------------

  lemma OwnCheckpointOk(w: Setup, s: State, now: int)
    requires Honest(w.p, w.signer)
    ensures CheckpointOk(w.p, MakeCheckpoint(w, s, now))
  {
    hide CheckpointMaterial;
    var c := MakeCheckpoint(w, s, now);
    CheckpointTextBinds(c, c.(checkpointHash := "", signature := ""));
  }

  /** A checkpoint taken in the middle of a run accepts, of every later snapshot,
      exactly the prefix that existed when it was taken. */
  lemma CheckpointAcceptsItsPrefix(w: Setup, epochId: string, parent: Option<string>, attempts: nat,
                                   delivered: seq<Event>, before: seq<Operation>, after: seq<Operation>, now: int,
                                   k: nat)
    requires Honest(w.p, w.signer)
    ensures var s := Run(w, Start(w, epochId, parent, attempts, delivered), before);
            var later := Run(w, s, after).events;
            k <= |later| ==>
              (CheckAgainst(w.p, later[..k], MakeCheckpoint(w, s, now)).Pass? <==> k == |s.events|)
  {
    hide CheckAgainst, ChainOk, Conserved, Run, Start, MakeCheckpoint;
    var start := Start(w, epochId, parent, attempts, delivered);
    var s := Run(w, start, before);
    StartKeeps(w, epochId, parent, attempts, delivered);
    RunKeeps(w, start, before, delivered);
    RunKeeps(w, s, after, delivered);
    if k <= |Run(w, s, after).events| {
      PrefixAccepted(w, s, Run(w, s, after), now, k);
    }
  }

  lemma PrefixAccepted(w: Setup, s: State, later: State, now: int, k: nat)
    requires Honest(w.p, w.signer) && ChainOk(w, s) && ChainOk(w, later) && s.events <= later.events
    requires k <= |later.events|
    ensures CheckAgainst(w.p, later.events[..k], MakeCheckpoint(w, s, now)).Pass? <==> k == |s.events|
  {
    hide CheckpointMaterial, CheckAgainst, CheckpointOk, WellLinked, StartHash;
    PrefixWellLinked(w.p, later.events, k);
    OwnCheckpointOk(w, s, now);
    CheckpointAcceptsIff(w.p, later.events[..k], MakeCheckpoint(w, s, now));
    if k == |s.events| {
      assert later.events[..k] == s.events;
    }
  }

  /** An epoch restarted from a checkpoint names, in each of its events, the last hash
      of the history the checkpoint accepts. */
  lemma RestartLinksEpochs(w: Setup, history: seq<Event>, c: Checkpoint, epochId: string, attempts: nat,
                           delivered: seq<Event>, ops: seq<Operation>, i: nat)
    requires Honest(w.p, w.signer) && CheckAgainst(w.p, history, c).Pass? && history != []
    requires i < |Run(w, Start(w, epochId, Some(c.headHash), attempts, delivered), ops).events|
    ensures var later := Run(w, Start(w, epochId, Some(c.headHash), attempts, delivered), ops).events;
            && later[i].epochParentHash == Some(history[|history| - 1].eventHash)
            && later[0].previousEventHash == history[|history| - 1].eventHash
  {
    hide CheckAgainst, CheckpointOk, WellLinked, Run;
    CheckpointAcceptsIff(w.p, history, c);
    var s := Start(w, epochId, Some(c.headHash), attempts, delivered);
    StartKeeps(w, epochId, Some(c.headHash), attempts, delivered);
    RunKeeps(w, s, ops, delivered);
    EpochStays(w, s, ops);
    var events := Run(w, s, ops).events;
    LinkedEvents(w.p, events, i);
    LinkedEvents(w.p, events, 0);
  }

  lemma LinkedEvents(p: Primitives, events: seq<Event>, i: nat)
    requires WellLinked(p, events) && i < |events|
    ensures SameEpoch(events[i], events[0]) && events[i].previousEventHash == PreviousHash(p, events, i)
  {
    hide EventMaterial, SignatureOk;
    assert EventOk(p, events, i);
  }

  lemma {:induction false} EpochStays(w: Setup, s: State, ops: seq<Operation>)
    ensures Run(w, s, ops).epochId == s.epochId && Run(w, s, ops).epochParentHash == s.epochParentHash
    decreases |ops|
  {
    hide NextEvent;
    if ops != [] {
      FlushOnlySends(w, s);
      EpochStays(w, Step(w, s, ops[0]), ops[1..]);
    }
  }
}
