/** What the hash of a model context binds: every field, every segment and every
    attachment, in order. */
module ContextBinding {
  import opened Wrappers
  import opened Text
  import opened KeyOrder
  import opened Json
  import opened JsonParser
  import opened EnvelopeErrors
  import opened ContextEnvelope

  // ---- numerals are number tokens ------------------------------------------------

  lemma DecimalIsNumber(n: nat)
    ensures IsNumberToken(Decimal(n))
  {
    var s := Decimal(n);
    assert s[0] in s;
  }

  lemma SegmentNumbersOk(s: ContextSegment)
    ensures NumbersOk(SegmentMaterial(s))
  {
    DecimalIsNumber(s.ordinal);
  }

  lemma AttachmentNumbersOk(a: ContextAttachment)
    ensures NumbersOk(AttachmentMaterial(a))
  {
    DecimalIsNumber(a.byteLength);
  }

  lemma ContextNumbersOk(e: ModelContext)
    ensures NumbersOk(ContextMaterial(e))
  {
    forall v | v in SegmentMaterials(e.segments) ensures NumbersOk(v) {
      var i :| 0 <= i < |e.segments| && v == SegmentMaterial(e.segments[i]);
      SegmentNumbersOk(e.segments[i]);
    }
    forall v | v in AttachmentMaterials(e.attachments) ensures NumbersOk(v) {
      var i :| 0 <= i < |e.attachments| && v == AttachmentMaterial(e.attachments[i]);
      AttachmentNumbersOk(e.attachments[i]);
    }
    HeaderFlat(e);
  }

  // ---- records are recovered from their normal forms --------------------------------

  /** Two records with the same keys in the same order and equal normal forms have
      equal values, key by key. */
  lemma SameRecord(xs: seq<Field<Json>>, ys: seq<Field<Json>>)
    requires SameKeys(xs, ys)
    requires Normal(Object(xs)) == Normal(Object(ys))
    ensures forall i | 0 <= i < |xs| :: Normal(xs[i].value) == Normal(ys[i].value)
  {
    SortInjective(NormalEntries(xs), NormalEntries(ys));
    assert forall i | 0 <= i < |xs| :: NormalEntries(xs)[i] == NormalEntries(ys)[i];
  }

  lemma RoleNameInjective(a: ContextRole, b: ContextRole)
    requires RoleName(a) == RoleName(b)
    ensures a == b
  {
    assert |RoleName(a)| == |RoleName(b)|;
  }

  lemma SourceNameInjective(a: ContextSource, b: ContextSource)
    requires SourceName(a) == SourceName(b)
    ensures a == b
  {
    assert |SourceName(a)| == |SourceName(b)|;
  }

  predicate HasKey(es: seq<Field<Json>>, key: string) {
    exists i | 0 <= i < |es| :: es[i].key == key
  }

  lemma KeysOfEqualObjects(xs: seq<Field<Json>>, ys: seq<Field<Json>>, key: string)
    requires Normal(Object(xs)) == Normal(Object(ys)) && HasKey(xs, key)
    ensures HasKey(ys, key)
  {
    SortedListsHaveSameKeys(xs, ys);
    var i :| 0 <= i < |xs| && xs[i].key == key;
    assert key in KeySet(xs);
    var j := KeyFound(ys, key);
  }

  lemma SegmentKeys(s: ContextSegment)
    ensures HasKey(SegmentFields(s), "tool_name") <==> s.toolName.Some?
    ensures HasKey(SegmentFields(s), "attachment_id") <==> s.attachmentId.Some?
  {
    var f := SegmentFields(s);
    assert f[0].key == "ordinal" && f[1].key == "role" && f[2].key == "source" && f[3].key == "content";
    if s.toolName.Some? {
      assert f[4].key == "tool_name";
      if s.attachmentId.Some? {
        assert f[5].key == "attachment_id";
      }
    } else if s.attachmentId.Some? {
      assert f[4].key == "attachment_id";
    }
  }

  /** Equal objects of segments carry the same optional fields. */
  lemma SegmentKeysAlike(s: ContextSegment, t: ContextSegment)
    requires Normal(SegmentMaterial(s)) == Normal(SegmentMaterial(t))
    ensures s.toolName.Some? == t.toolName.Some? && s.attachmentId.Some? == t.attachmentId.Some?
  {
    hide SegmentFields, Normal, HasKey;
    var xs, ys := SegmentFields(s), SegmentFields(t);
    SegmentKeys(s);
    SegmentKeys(t);
    forall key | HasKey(xs, key) ensures HasKey(ys, key) { KeysOfEqualObjects(xs, ys, key); }
    forall key | HasKey(ys, key) ensures HasKey(xs, key) { KeysOfEqualObjects(ys, xs, key); }
    assert HasKey(xs, "tool_name") <==> HasKey(ys, "tool_name");
    assert HasKey(xs, "attachment_id") <==> HasKey(ys, "attachment_id");
  }

  lemma SegmentFieldsAlike(s: ContextSegment, t: ContextSegment)
    requires s.toolName.Some? == t.toolName.Some? && s.attachmentId.Some? == t.attachmentId.Some?
    ensures SameKeys(SegmentFields(s), SegmentFields(t))
  {
  }

  /** A segment is its fields. */
  lemma SegmentOfFields(s: ContextSegment, t: ContextSegment)
    requires SegmentFields(s) == SegmentFields(t)
    requires s.toolName.Some? == t.toolName.Some? && s.attachmentId.Some? == t.attachmentId.Some?
    ensures s == t
  {
    var xs, ys := SegmentFields(s), SegmentFields(t);
    assert xs[0] == ys[0] && xs[1] == ys[1] && xs[2] == ys[2] && xs[3] == ys[3];
    DecimalInjective(s.ordinal, t.ordinal);
    RoleNameInjective(s.role, t.role);
    SourceNameInjective(s.source, t.source);
    if s.toolName.Some? {
      assert xs[4] == ys[4];
    }
    if s.attachmentId.Some? {
      assert xs[|xs| - 1] == ys[|ys| - 1];
    }
  }

  predicate Flat(es: seq<Field<Json>>) {
    forall i | 0 <= i < |es| :: es[i].value.String? || es[i].value.Number?
  }

  lemma SameFlatRecord(xs: seq<Field<Json>>, ys: seq<Field<Json>>)
    requires SameKeys(xs, ys) && Flat(xs) && Flat(ys)
    requires Normal(Object(xs)) == Normal(Object(ys))
    ensures xs == ys
  {
    SameRecord(xs, ys);
    forall i | 0 <= i < |xs| ensures xs[i] == ys[i] {
      assert Normal(xs[i].value) == Normal(ys[i].value);
    }
  }

  lemma SegmentFlat(s: ContextSegment)
    ensures Flat(SegmentFields(s))
  {
  }

  /** A segment is recovered from the normal form of its material. */
  lemma SameSegment(s: ContextSegment, t: ContextSegment)
    requires Normal(SegmentMaterial(s)) == Normal(SegmentMaterial(t))
    ensures s == t
  {
    hide SegmentFields, Normal, Flat;
    SegmentKeysAlike(s, t);
    SegmentFieldsAlike(s, t);
    SegmentFlat(s);
    SegmentFlat(t);
    SameFlatRecord(SegmentFields(s), SegmentFields(t));
    SegmentOfFields(s, t);
  }

  lemma SameAttachment(a: ContextAttachment, b: ContextAttachment)
    requires Normal(AttachmentMaterial(a)) == Normal(AttachmentMaterial(b))
    ensures a == b
  {
    hide Normal, Decimal;
    var xs, ys := AttachmentMaterial(a).entries, AttachmentMaterial(b).entries;
    SameFlatRecord(xs, ys);
    assert xs[0] == ys[0] && xs[1] == ys[1] && xs[2] == ys[2] && xs[3] == ys[3];
    DecimalInjective(a.byteLength, b.byteLength);
  }

  lemma SameSegments(ss: seq<ContextSegment>, ts: seq<ContextSegment>)
    requires NormalItems(SegmentMaterials(ss)) == NormalItems(SegmentMaterials(ts))
    ensures ss == ts
  {
    var xs, ys := NormalItems(SegmentMaterials(ss)), NormalItems(SegmentMaterials(ts));
    assert |ss| == |xs| == |ys| == |ts|;
    forall i | 0 <= i < |ss| ensures ss[i] == ts[i] {
      assert xs[i] == ys[i];
      SameSegment(ss[i], ts[i]);
    }
  }

  lemma SameAttachments(ss: seq<ContextAttachment>, ts: seq<ContextAttachment>)
    requires NormalItems(AttachmentMaterials(ss)) == NormalItems(AttachmentMaterials(ts))
    ensures ss == ts
  {
    var xs, ys := NormalItems(AttachmentMaterials(ss)), NormalItems(AttachmentMaterials(ts));
    assert |ss| == |xs| == |ys| == |ts|;
    forall i | 0 <= i < |ss| ensures ss[i] == ts[i] {
      assert xs[i] == ys[i];
      SameAttachment(ss[i], ts[i]);
    }
  }

  lemma ContextKeysAlike(e: ModelContext, f: ModelContext)
    ensures SameKeys(ContextFields(e), ContextFields(f))
    ensures SameKeys(ContextHeader(e), ContextHeader(f))
  {
  }

  lemma HeaderOfContext(e: ModelContext)
    ensures |ContextHeader(e)| == 12 && |ContextFields(e)| == 14
    ensures ContextFields(e)[..12] == ContextHeader(e)
    ensures ContextFields(e)[12].value == Array(SegmentMaterials(e.segments))
    ensures ContextFields(e)[13].value == Array(AttachmentMaterials(e.attachments))
    ensures Flat(ContextHeader(e))
  {
    HeaderFlat(e);
  }

  /** Equal header fields come from equal values. */
  lemma SameHeader(e: ModelContext, f: ModelContext)
    requires ContextHeader(e) == ContextHeader(f)
    ensures e.(segments := f.segments, attachments := f.attachments, contextHash := f.contextHash) == f
  {
    var x, y := ContextHeader(e), ContextHeader(f);
    assert x[0] == y[0] && x[1] == y[1] && x[2] == y[2] && x[3] == y[3] && x[4] == y[4] && x[5] == y[5];
    assert x[6] == y[6] && x[7] == y[7] && x[8] == y[8] && x[9] == y[9] && x[10] == y[10] && x[11] == y[11];
  }

  /** A context is recovered from the normal form of its fields. */
  lemma SameContextFields(e: ModelContext, f: ModelContext)
    requires Normal(Object(ContextFields(e))) == Normal(Object(ContextFields(f)))
    ensures e.(contextHash := f.contextHash) == f
  {
    hide ContextFields, ContextHeader, SegmentMaterials, AttachmentMaterials;
    var xs, ys := ContextFields(e), ContextFields(f);
    ContextKeysAlike(e, f);
    HeaderOfContext(e);
    HeaderOfContext(f);
    SameRecord(xs, ys);
    forall i | 0 <= i < 12 ensures ContextHeader(e)[i] == ContextHeader(f)[i] {
      assert xs[..12][i] == xs[i] && ys[..12][i] == ys[i];
      assert Normal(xs[i].value) == Normal(ys[i].value);
    }
    SameHeader(e, f);
    assert Normal(xs[12].value) == Normal(ys[12].value);
    SameSegments(e.segments, f.segments);
    assert Normal(xs[13].value) == Normal(ys[13].value);
    SameAttachments(e.attachments, f.attachments);
  }

  /** The canonical text determines the whole context but its own hash. */
  lemma ContextTextBinds(e: ModelContext, f: ModelContext)
    requires Print(ContextMaterial(e)) == Print(ContextMaterial(f))
    ensures e.(contextHash := f.contextHash) == f
  {
    hide ContextFields, Print, Normal, NumbersOk;
    ContextNumbersOk(e);
    ContextNumbersOk(f);
    PrintDeterminesNormal(ContextMaterial(e), ContextMaterial(f));
    SameContextFields(e, f);
  }

  // ---- the contract of sealing ---------------------------------------------------------

  /** Sealing succeeds on exactly the well-formed contexts; what it returns
      verifies, seals to itself, and differs from its input in the hash only. */
  lemma SealedContextVerifies(sha: string -> Digest, e: ModelContext)
    ensures SealContext(sha, e).Ok? <==> ContextWellFormed(e)
    ensures SealContext(sha, e).Ok? ==>
              var s := SealContext(sha, e).value;
              && VerifyContext(sha, s).Pass?
              && SealContext(sha, s) == Ok(s)
              && s.(contextHash := e.contextHash) == e
  {
    hide ContextMaterial, CheckContext, ContextWellFormed, Print, Height;
    ValidationExact(e);
    ContextMaterialShallow(e);
    if SealContext(sha, e).Ok? {
      HashIsNotMaterial(e, SealContext(sha, e).value.contextHash);
    }
  }

  /** Neither validation nor the hash material looks at the hash itself. */
  lemma HashIsNotMaterial(e: ModelContext, hash: string)
    ensures CheckContext(e.(contextHash := hash)) == CheckContext(e)
    ensures ContextMaterial(e.(contextHash := hash)) == ContextMaterial(e)
  {
    hide SegmentMaterials, AttachmentMaterials, CheckIdentifier, CheckSha256, CheckAttachments, CheckSegments;
  }

  /** Verification accepts exactly the contexts that sealing returns unchanged. */
  lemma VerifiesIffSealed(sha: string -> Digest, e: ModelContext)
    ensures VerifyContext(sha, e).Pass? <==> SealContext(sha, e) == Ok(e)
    ensures VerifyContext(sha, e).Pass? ==>
              ContextWellFormed(e) && e.contextHash == sha(Print(ContextMaterial(e)))
  {
    hide ContextMaterial, CheckContext, ContextWellFormed, Print, Height;
    ValidationExact(e);
    ContextMaterialShallow(e);
  }

  /** The hash binds: without a collision, two verifying contexts with equal hashes
      are the same context. */
  lemma ContextHashBinds(sha: string -> Digest, e: ModelContext, f: ModelContext)
    requires VerifyContext(sha, e).Pass? && VerifyContext(sha, f).Pass?
    requires e.contextHash == f.contextHash
    requires NoCollision(sha, Print(ContextMaterial(e)), Print(ContextMaterial(f)))
    ensures e == f
  {
    hide ContextMaterial, VerifyContext, SealContext, ContextWellFormed, Print;
    VerifiesIffSealed(sha, e);
    VerifiesIffSealed(sha, f);
    ContextTextBinds(e, f);
  }
}
