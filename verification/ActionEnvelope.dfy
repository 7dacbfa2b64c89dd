/** `logos.action.v1`: validation, sealing and what the seal binds. */
module ActionEnvelope {
  import opened Wrappers
  import opened Text
  import opened KeyOrder
  import opened Json
  import opened JsonParser
  import opened EnvelopeErrors
  import JsonWriter
  import ContextEnvelope
  import ContextBinding

  const ACTION_ENVELOPE_SCHEMA_VERSION := "logos.action.v1"
  const MAX_RESOURCE_KIND_BYTES := 128
  const MAX_RESOURCE_LOCATOR_BYTES := 4096
  const MAX_ACTION_ARGUMENT_BYTES := 262144

  datatype Action = Action(
    schemaVersion: string,
    toolName: string,
    arguments: Json,
    resourceKind: string,
    resourceLocator: string,
    principalId: string,
    sessionId: string,
    runId: string,
    toolCallId: string,
    policyVersion: string,
    policyHash: string,
    contextHash: string,
    actionHash: string)

  /** What the type `serde_json::Value` guarantees of the arguments. */
  predicate IsValue(v: Json) {
    NumbersOk(v) && KeysOk(v)
  }

  // ---- validation ----------------------------------------------------------------

  function CheckActionFields(e: Action): Outcome<EnvelopeError> {
    var first := Need(e.schemaVersion == ACTION_ENVELOPE_SCHEMA_VERSION, InvalidField(SchemaVersion));
    :- first;
    :- ContextEnvelope.CheckToolName(e.toolName);
    :- ContextEnvelope.CheckIdentifier(ResourceKind, e.resourceKind, MAX_RESOURCE_KIND_BYTES);
    :- ContextEnvelope.CheckIdentifier(ResourceLocator, e.resourceLocator, MAX_RESOURCE_LOCATOR_BYTES);
    :- ContextEnvelope.CheckIdentifier(PrincipalId, e.principalId, ContextEnvelope.MAX_IDENTIFIER_BYTES);
    :- ContextEnvelope.CheckIdentifier(SessionId, e.sessionId, ContextEnvelope.MAX_IDENTIFIER_BYTES);
    :- ContextEnvelope.CheckIdentifier(RunId, e.runId, ContextEnvelope.MAX_IDENTIFIER_BYTES);
    :- ContextEnvelope.CheckIdentifier(ToolCallId, e.toolCallId, ContextEnvelope.MAX_IDENTIFIER_BYTES);
    :- ContextEnvelope.CheckIdentifier(PolicyVersion, e.policyVersion, ContextEnvelope.MAX_POLICY_VERSION_BYTES);
    :- ContextEnvelope.CheckSha256(PolicyHash, e.policyHash);
    ContextEnvelope.CheckSha256(ContextHash, e.contextHash)
  }

  /** Arguments nest at most 32 deep and print in at most 256 KiB. */
  function CheckArguments(arguments: Json): Outcome<EnvelopeError> {
    if Height(arguments) > MAX_JSON_DEPTH then Fail(LimitExceeded(JsonDepth))
    else Need(ByteLen(Print(arguments)) <= MAX_ACTION_ARGUMENT_BYTES, LimitExceeded(Arguments))
  }

  function CheckAction(e: Action): Outcome<EnvelopeError> {
    var first := CheckActionFields(e);
    :- first;
    CheckArguments(e.arguments)
  }

  /** `ActionEnvelope::validate_material` */
  method ValidateAction(e: Action) returns (r: Outcome<EnvelopeError>)
    ensures r == CheckAction(e)
  {
    hide CheckActionFields, Height, Print;
    r := CheckActionFields(e);
    if r.Fail? {
      return;
    }
    r := JsonWriter.ValidateJsonLimits(e.arguments, 0);
    if r.Fail? {
      return;
    }
    var canonical := JsonWriter.WriteDocument(e.arguments);
    match canonical
    case Err(error) => r := Fail(error);
    case Ok(text) =>
      r := Need(ByteLen(text) <= MAX_ACTION_ARGUMENT_BYTES, LimitExceeded(Arguments));
  }

  // ---- hash material ---------------------------------------------------------------

  function ResourceMaterial(kind: string, locator: string): Json {
    Object([Field("kind", String(kind)), Field("locator", String(locator))])
  }

  function ActionFields(e: Action): seq<Field<Json>> {
    [ Field("schema_version", String(e.schemaVersion)),
      Field("tool_name", String(e.toolName)),
      Field("arguments", e.arguments),
      Field("resource", ResourceMaterial(e.resourceKind, e.resourceLocator)),
      Field("principal_id", String(e.principalId)),
      Field("session_id", String(e.sessionId)),
      Field("run_id", String(e.runId)),
      Field("tool_call_id", String(e.toolCallId)),
      Field("policy_version", String(e.policyVersion)),
      Field("policy_hash", String(e.policyHash)),
      Field("context_hash", String(e.contextHash))
    ]
  }

  function ActionMaterial(e: Action): Json {
    Object(ActionFields(e))
  }

  // ---- sealing ---------------------------------------------------------------------

  function SealAction(sha: string -> Digest, e: Action): Result<Action, EnvelopeError> {
    match CheckAction(e)
    case Fail(error) => Err(error)
    case Pass =>
      match ContextEnvelope.HashCanonical(sha, ActionMaterial(e))
      case Ok(hash) => Ok(e.(actionHash := hash))
      case Err(error) => Err(error)
  }

  function VerifyAction(sha: string -> Digest, e: Action): Outcome<EnvelopeError> {
    var first := CheckAction(e);
    :- first;
    :- ContextEnvelope.CheckSha256(ActionHash, e.actionHash);
    match ContextEnvelope.HashCanonical(sha, ActionMaterial(e))
    case Ok(hash) => Need(hash == e.actionHash, HashMismatch(ActionHash))
    case Err(error) => Fail(error)
  }

  /** `ActionEnvelope::seal` */
  method Seal(sha: string -> Digest, e: Action) returns (r: Result<Action, EnvelopeError>)
    ensures r == SealAction(sha, e)
  {
    hide CheckAction, ActionMaterial, Print, Height;
    var valid := ValidateAction(e);
    if valid.Fail? {
      return Err(valid.error);
    }
    var canonical := JsonWriter.WriteDocument(ActionMaterial(e));
    match canonical
    case Ok(text) => r := Ok(e.(actionHash := sha(text)));
    case Err(error) => r := Err(error);
  }

  /** `ActionEnvelope::verify` */
  method Verify(sha: string -> Digest, e: Action) returns (r: Outcome<EnvelopeError>)
    ensures r == VerifyAction(sha, e)
  {
    hide CheckAction, ActionMaterial, Print, Height;
    r := ValidateAction(e);
    if r.Fail? {
      return;
    }
    :- ContextEnvelope.CheckSha256(ActionHash, e.actionHash);
    var canonical := JsonWriter.WriteDocument(ActionMaterial(e));
    match canonical
    case Ok(text) => r := Need(sha(text) == e.actionHash, HashMismatch(ActionHash));
    case Err(error) => r := Fail(error);
  }

  // ---- depth -----------------------------------------------------------------------

  lemma {:induction false} TallestEntry(entries: seq<Field<Json>>, k: nat)
    requires k < |entries|
    requires forall i | 0 <= i < |entries| && i != k :: Height(entries[i].value) <= 1
    ensures EntriesHeight(entries) <= 1 + Max(1, Height(entries[k].value))
  {
    ContextEnvelope.ShallowEntries(entries, Max(1, Height(entries[k].value)));
  }

  /** Arguments sit one level deep in the hash material. */
  lemma ActionMaterialHeight(e: Action)
    ensures Height(ActionMaterial(e)) == 1 + Max(1, Height(e.arguments))
  {
    var f := ActionFields(e);
    ContextEnvelope.ShallowEntries(f[3].value.entries, 0);
    assert f[2].value == e.arguments;
    assert forall i | 0 <= i < |f| && i != 2 && i != 3 :: f[i].value.String?;
    JsonWriter.EntryHeightBound(f[3].value.entries, 0);
    TallestEntry(f, 2);
    JsonWriter.EntryHeightBound(f, 2);
    JsonWriter.EntryHeightBound(f, 3);
  }

  /** Sealing succeeds exactly when the contract's checks pass and the arguments
      nest at most 31 levels: one less than the 32 that validation accepts. At
      exactly 32 it is the hash that fails. */
  lemma SealsIff(sha: string -> Digest, e: Action)
    ensures SealAction(sha, e).Ok? <==> CheckAction(e).Pass? && Height(e.arguments) < MAX_JSON_DEPTH
    ensures CheckAction(e).Pass? && Height(e.arguments) == MAX_JSON_DEPTH ==>
              SealAction(sha, e) == Err(LimitExceeded(JsonDepth))
  {
    hide ActionMaterial, Print, Height, CheckActionFields;
    ActionMaterialHeight(e);
  }

  /** Arrays nested `n` deep. */
  function Nested(n: nat): Json {
    if n == 0 then Null else Array([Nested(n - 1)])
  }

  /** A value that validation accepts and that can never be sealed. */
  lemma {:induction false} NestedHeight(n: nat)
    ensures Height(Nested(n)) == n && NumbersOk(Nested(n)) && KeysOk(Nested(n))
    ensures |Print(Nested(n))| == 2 * n + 4
  {
    if n > 0 {
      NestedHeight(n - 1);
      var items := [Nested(n - 1)];
      assert items[1..] == [];
      assert PrintItems(items) == [Print(Nested(n - 1))];
    } else {
      assert |"null"| == 4;
    }
  }

  lemma {:induction false} ByteLenBound(s: string)
    ensures ByteLen(s) <= 4 * |s|
  {
    if s != [] {
      ByteLenBound(s[1..]);
    }
  }

  lemma DepthThirtyTwoNeverSeals(sha: string -> Digest, e: Action)
    requires e.arguments == Nested(MAX_JSON_DEPTH) && CheckActionFields(e).Pass?
    ensures CheckAction(e).Pass?
    ensures SealAction(sha, e) == Err(LimitExceeded(JsonDepth))
  {
    hide CheckActionFields, Nested, Print, Height;
    NestedHeight(MAX_JSON_DEPTH);
    ByteLenBound(Print(e.arguments));
    SealsIff(sha, e);
  }

  // ---- the contract of sealing --------------------------------------------------------

  /** Neither validation nor the hash material looks at the hash itself. */
  lemma HashIsNotMaterial(e: Action, hash: string)
    ensures CheckAction(e.(actionHash := hash)) == CheckAction(e)
    ensures ActionMaterial(e.(actionHash := hash)) == ActionMaterial(e)
  {
    hide ContextEnvelope.CheckIdentifier, ContextEnvelope.CheckSha256, ContextEnvelope.CheckToolName, CheckArguments;
  }

  /** What sealing returns verifies, seals to itself, and differs from its input in
      the hash only. */
  lemma SealedActionVerifies(sha: string -> Digest, e: Action)
    requires SealAction(sha, e).Ok?
    ensures var s := SealAction(sha, e).value;
            && VerifyAction(sha, s).Pass?
            && SealAction(sha, s) == Ok(s)
            && s.(actionHash := e.actionHash) == e
  {
    hide ActionMaterial, CheckAction, Print, Height;
    HashIsNotMaterial(e, SealAction(sha, e).value.actionHash);
  }

  lemma VerifiesIffSealed(sha: string -> Digest, e: Action)
    ensures VerifyAction(sha, e).Pass? <==> SealAction(sha, e) == Ok(e)
    ensures VerifyAction(sha, e).Pass? ==> CheckAction(e).Pass? && e.actionHash == sha(Print(ActionMaterial(e)))
  {
    hide ActionMaterial, CheckAction, Print, Height;
  }

  // ---- binding --------------------------------------------------------------------------

  /** The same action, up to the order of keys inside the arguments. */
  ghost predicate SameAction(e: Action, f: Action) {
    && SameUpToKeyOrder(e.arguments, f.arguments)
    && e.(arguments := f.arguments, actionHash := f.actionHash) == f
  }

  lemma ActionNumbersOk(e: Action)
    requires NumbersOk(e.arguments)
    ensures NumbersOk(ActionMaterial(e))
  {
    var f := ActionFields(e);
    assert forall i | 0 <= i < |f| && i != 2 && i != 3 :: f[i].value.String?;
    forall x | x in f ensures NumbersOk(x.value) {
      var i :| 0 <= i < |f| && f[i] == x;
      if i == 3 {
        assert forall y | y in f[3].value.entries :: y.value.String?;
      }
    }
  }

  lemma ActionKeysAlike(e: Action, f: Action)
    ensures SameKeys(ActionFields(e), ActionFields(f))
    ensures |ActionFields(e)| == 11
  {
  }

  lemma SameResource(k: string, l: string, m: string, n: string)
    requires Normal(ResourceMaterial(k, l)) == Normal(ResourceMaterial(m, n))
    ensures k == m && l == n
  {
    hide Normal;
    var xs, ys := ResourceMaterial(k, l).entries, ResourceMaterial(m, n).entries;
    ContextBinding.SameFlatRecord(xs, ys);
    assert xs[0] == ys[0] && xs[1] == ys[1];
  }

  /** An action is its fields. */
  lemma ActionOfFields(e: Action, f: Action)
    requires forall i | 0 <= i < 11 && i != 2 && i != 3 ::
               ActionFields(e)[i] == ActionFields(f)[i]
    requires e.resourceKind == f.resourceKind && e.resourceLocator == f.resourceLocator
    ensures e.(arguments := f.arguments, actionHash := f.actionHash) == f
  {
    var x, y := ActionFields(e), ActionFields(f);
    assert x[0] == y[0] && x[1] == y[1] && x[4] == y[4] && x[5] == y[5] && x[6] == y[6];
    assert x[7] == y[7] && x[8] == y[8] && x[9] == y[9] && x[10] == y[10];
  }

  lemma StringFields(e: Action)
    ensures forall i | 0 <= i < 11 && i != 2 && i != 3 :: ActionFields(e)[i].value.String?
    ensures ActionFields(e)[2].value == e.arguments
    ensures ActionFields(e)[3].value == ResourceMaterial(e.resourceKind, e.resourceLocator)
  {
  }

  lemma NormalOfString(v: Json, w: Json)
    requires v.String? && w.String? && Normal(v) == Normal(w)
    ensures v == w
  {
  }

  /** An action is recovered, up to key order in its arguments, from the normal
      form of its fields. */
  lemma SameActionFields(e: Action, f: Action)
    requires IsValue(e.arguments) && IsValue(f.arguments)
    requires Normal(Object(ActionFields(e))) == Normal(Object(ActionFields(f)))
    ensures SameAction(e, f)
  {
    hide ActionFields, Normal, NumbersOk, KeysOk, SameUpToKeyOrder;
    var xs, ys := ActionFields(e), ActionFields(f);
    ActionKeysAlike(e, f);
    ActionKeysAlike(f, e);
    StringFields(e);
    StringFields(f);
    ContextBinding.SameRecord(xs, ys);
    forall i | 0 <= i < 11 && i != 2 && i != 3 ensures xs[i] == ys[i] {
      assert Normal(xs[i].value) == Normal(ys[i].value);
      NormalOfString(xs[i].value, ys[i].value);
    }
    assert Normal(xs[3].value) == Normal(ys[3].value);
    SameResource(e.resourceKind, e.resourceLocator, f.resourceKind, f.resourceLocator);
    ActionOfFields(e, f);
    assert Normal(xs[2].value) == Normal(ys[2].value);
    NormalEqualMeansSame(e.arguments, f.arguments);
  }

  /** Actions that are the same up to key order print the same text. */
  lemma SameActionPrintsAlike(e: Action, f: Action)
    requires IsValue(e.arguments) && IsValue(f.arguments) && SameAction(e, f)
    ensures Print(ActionMaterial(e)) == Print(ActionMaterial(f))
  {
    hide NumbersOk, KeysOk, SameUpToKeyOrder, Normal, Print, SortByKey;
    SameMeansNormalEqual(e.arguments, f.arguments);
    var xs, ys := ActionFields(e), ActionFields(f);
    forall i | 0 <= i < |xs| ensures NormalEntries(xs)[i] == NormalEntries(ys)[i] {
      assert i != 2 ==> xs[i] == ys[i];
    }
    NormalOfObjects(xs, ys);
    PrintOfNormal(ActionMaterial(e));
    PrintOfNormal(ActionMaterial(f));
  }

  lemma NormalOfObjects(xs: seq<Field<Json>>, ys: seq<Field<Json>>)
    requires |xs| == |ys| && forall i | 0 <= i < |xs| :: NormalEntries(xs)[i] == NormalEntries(ys)[i]
    ensures Normal(Object(xs)) == Normal(Object(ys))
  {
    assert NormalEntries(xs) == NormalEntries(ys);
  }

  /** Two actions have the same canonical text exactly when they are the same up to
      the order of keys inside the arguments. */
  lemma ActionTextBinds(e: Action, f: Action)
    requires IsValue(e.arguments) && IsValue(f.arguments)
    ensures Print(ActionMaterial(e)) == Print(ActionMaterial(f)) <==> SameAction(e, f)
  {
    hide ActionFields, Print, Normal, NumbersOk, KeysOk, SameAction;
    ActionNumbersOk(e);
    ActionNumbersOk(f);
    PrintDeterminesNormal(ActionMaterial(e), ActionMaterial(f));
    if Normal(ActionMaterial(e)) == Normal(ActionMaterial(f)) {
      SameActionFields(e, f);
    }
    if SameAction(e, f) {
      SameActionPrintsAlike(e, f);
    }
  }

  /** The hash binds: without a collision, two verifying actions have equal hashes
      exactly when they agree on every field, and on the arguments up to key order. */
  lemma ActionHashBinds(sha: string -> Digest, e: Action, f: Action)
    requires IsValue(e.arguments) && IsValue(f.arguments)
    requires VerifyAction(sha, e).Pass? && VerifyAction(sha, f).Pass?
    requires NoCollision(sha, Print(ActionMaterial(e)), Print(ActionMaterial(f)))
    ensures e.actionHash == f.actionHash <==> SameAction(e, f)
  {
    hide ActionMaterial, VerifyAction, SealAction, Print, NumbersOk, KeysOk, SameAction;
    VerifiesIffSealed(sha, e);
    VerifiesIffSealed(sha, f);
    ActionTextBinds(e, f);
  }
}
