/** The signed capability token, and how far its canonical text determines it. */
module CapabilityToken {
  import opened Wrappers
  import opened Text
  import opened Clock

  const AUTHORITY_PROVIDER_EXECUTE := "provider.execute"
  const AUTHORITY_ACTION_EXECUTE := "action.execute"

  datatype Plane = User | Tool | Control | Governance

  function PlaneName(plane: Plane): string {
    match plane
    case User => "user"
    case Tool => "tool"
    case Control => "control"
    case Governance => "governance"
  }

  datatype Token = Token(
    tokenId: string,
    decisionId: string,
    govTxId: string,
    sessionId: string,
    principalFingerprint: string,
    authority: string,
    backend: string,
    model: string,
    actionClass: string,
    verdictId: string,
    policyHash: string,
    issuedAt: int,
    expiresAt: int,
    maxUses: nat,
    useCount: nat,
    signature: string,
    runId: string,
    contextHash: string,
    policyVersion: string,
    actionHash: string,
    toolName: string,
    resourceKind: string,
    resourceLocator: string,
    toolCallId: string,
    plane: Plane,
    normalizedAction: string,
    requiredForSafeCompletion: bool)

  /** `DateTime::timestamp` */
  function WholeSeconds(nanos: int): int {
    nanos / NANOS_PER_SECOND
  }

  function BoolName(b: bool): string {
    if b then "true" else "false"
  }

  function IdentityFields(t: Token): (fields: seq<string>)
    ensures |fields| == 11
  {
    [t.tokenId, t.decisionId, t.govTxId, t.sessionId, t.principalFingerprint, t.authority, t.backend, t.model,
     t.actionClass, t.verdictId, t.policyHash]
  }

  function LimitFields(t: Token): (fields: seq<string>)
    ensures |fields| == 3
  {
    [DecimalInt(WholeSeconds(t.issuedAt)), DecimalInt(WholeSeconds(t.expiresAt)), DecimalInt(t.maxUses)]
  }

  function ScopeFields(t: Token): (fields: seq<string>)
    ensures |fields| == 8
  {
    [t.runId, t.contextHash, t.policyVersion, t.actionHash, t.toolName, t.resourceKind, t.resourceLocator, t.toolCallId]
  }

  function SemanticsFields(t: Token): (fields: seq<string>)
    ensures |fields| == 3
  {
    [PlaneName(t.plane), t.normalizedAction, BoolName(t.requiredForSafeCompletion)]
  }

  function Fields(t: Token): (fields: seq<string>)
    ensures |fields| == 25
  {
    IdentityFields(t) + LimitFields(t) + ScopeFields(t) + SemanticsFields(t)
  }

  /** `CapabilityToken::canonical` */
  function Canonical(t: Token): string {
    JoinPipe(Fields(t))
  }

  /** What the signature covers: everything but the signature and the use count, with
      times in whole seconds. */
  function Signed(t: Token): Token {
    t.(issuedAt := WholeSeconds(t.issuedAt) * NANOS_PER_SECOND,
       expiresAt := WholeSeconds(t.expiresAt) * NANOS_PER_SECOND,
       useCount := 0, signature := "")
  }

  lemma PlaneNameInjective(a: Plane, b: Plane)
    requires PlaneName(a) == PlaneName(b)
    ensures a == b
  {
    assert PlaneName(a)[0] == PlaneName(b)[0];
  }

  lemma FixedFieldsPipeFree(t: Token)
    ensures forall s | s in LimitFields(t) :: PipeFree(s)
    ensures PipeFree(PlaneName(t.plane)) && PipeFree(BoolName(t.requiredForSafeCompletion))
  {
  }

  lemma FieldsOfSigned(t: Token)
    ensures Fields(Signed(t)) == Fields(t)
  {
    hide DecimalInt, PlaneName, BoolName;
    assert WholeSeconds(Signed(t).issuedAt) == WholeSeconds(t.issuedAt);
    assert WholeSeconds(Signed(t).expiresAt) == WholeSeconds(t.expiresAt);
  }

  lemma FieldsDetermineSigned(a: Token, b: Token)
    requires Fields(a) == Fields(b)
    ensures Signed(a) == Signed(b)
  {
    hide DecimalInt, PlaneName, BoolName, WholeSeconds;
    var f, g := Fields(a), Fields(b);
    assert IdentityFields(a) == f[..11] == g[..11] == IdentityFields(b);
    assert LimitFields(a) == f[11..14] == g[11..14] == LimitFields(b);
    assert ScopeFields(a) == f[14..22] == g[14..22] == ScopeFields(b);
    assert SemanticsFields(a) == f[22..] == g[22..] == SemanticsFields(b);
    IdentityDetermined(a, b);
    LimitsDetermined(a, b);
    ScopeDetermined(a, b);
    SemanticsDetermined(a, b);
  }

  lemma IdentityDetermined(a: Token, b: Token)
    requires IdentityFields(a) == IdentityFields(b)
    ensures a.tokenId == b.tokenId && a.decisionId == b.decisionId && a.govTxId == b.govTxId
    ensures a.sessionId == b.sessionId && a.principalFingerprint == b.principalFingerprint && a.authority == b.authority
    ensures a.backend == b.backend && a.model == b.model && a.actionClass == b.actionClass
    ensures a.verdictId == b.verdictId && a.policyHash == b.policyHash
  {
    var f, g := IdentityFields(a), IdentityFields(b);
    assert forall i | 0 <= i < 11 :: f[i] == g[i];
  }

  lemma LimitsDetermined(a: Token, b: Token)
    requires LimitFields(a) == LimitFields(b)
    ensures WholeSeconds(a.issuedAt) == WholeSeconds(b.issuedAt)
    ensures WholeSeconds(a.expiresAt) == WholeSeconds(b.expiresAt) && a.maxUses == b.maxUses
  {
    hide DecimalInt, WholeSeconds;
    var f, g := LimitFields(a), LimitFields(b);
    assert forall i | 0 <= i < 3 :: f[i] == g[i];
    DecimalIntInjective(WholeSeconds(a.issuedAt), WholeSeconds(b.issuedAt));
    DecimalIntInjective(WholeSeconds(a.expiresAt), WholeSeconds(b.expiresAt));
    DecimalIntInjective(a.maxUses, b.maxUses);
  }

  lemma ScopeDetermined(a: Token, b: Token)
    requires ScopeFields(a) == ScopeFields(b)
    ensures a.runId == b.runId && a.contextHash == b.contextHash && a.policyVersion == b.policyVersion
    ensures a.actionHash == b.actionHash && a.toolName == b.toolName && a.resourceKind == b.resourceKind
    ensures a.resourceLocator == b.resourceLocator && a.toolCallId == b.toolCallId
  {
    var f, g := ScopeFields(a), ScopeFields(b);
    assert forall i | 0 <= i < 8 :: f[i] == g[i];
  }

  lemma SemanticsDetermined(a: Token, b: Token)
    requires SemanticsFields(a) == SemanticsFields(b)
    ensures a.plane == b.plane && a.normalizedAction == b.normalizedAction
    ensures a.requiredForSafeCompletion == b.requiredForSafeCompletion
  {
    hide PlaneName;
    var f, g := SemanticsFields(a), SemanticsFields(b);
    assert forall i | 0 <= i < 3 :: f[i] == g[i];
    PlaneNameInjective(a.plane, b.plane);
    assert f[2][0] == g[2][0];
  }

  // ---- exactly when the canonical text is unambiguous -------------------------------------

  /** The caller-supplied text fields, by position. */
  predicate TextPosition(k: nat) {
    k <= 10 || 14 <= k <= 21
  }

  function WithIdentity(t: Token, k: nat, s: string): Token
    requires k <= 10
  {
    match k
    case 0 => t.(tokenId := s)
    case 1 => t.(decisionId := s)
    case 2 => t.(govTxId := s)
    case 3 => t.(sessionId := s)
    case 4 => t.(principalFingerprint := s)
    case 5 => t.(authority := s)
    case 6 => t.(backend := s)
    case 7 => t.(model := s)
    case 8 => t.(actionClass := s)
    case 9 => t.(verdictId := s)
    case _ => t.(policyHash := s)
  }

  function WithScope(t: Token, k: nat, s: string): Token
    requires k <= 7
  {
    match k
    case 0 => t.(runId := s)
    case 1 => t.(contextHash := s)
    case 2 => t.(policyVersion := s)
    case 3 => t.(actionHash := s)
    case 4 => t.(toolName := s)
    case 5 => t.(resourceKind := s)
    case 6 => t.(resourceLocator := s)
    case _ => t.(toolCallId := s)
  }

  function WithText(t: Token, k: nat, s: string): Token
    requires TextPosition(k)
  {
    if k <= 10 then WithIdentity(t, k, s) else WithScope(t, k - 14, s)
  }

  lemma IdentityOfWithIdentity(t: Token, k: nat, s: string)
    requires k <= 10
    ensures IdentityFields(WithIdentity(t, k, s)) == IdentityFields(t)[k := s]
  {
  }

  lemma ScopeOfWithScope(t: Token, k: nat, s: string)
    requires k <= 7
    ensures ScopeFields(WithScope(t, k, s)) == ScopeFields(t)[k := s]
  {
  }

  lemma RestOfWithIdentity(t: Token, k: nat, s: string)
    requires k <= 10
    ensures var u := WithIdentity(t, k, s);
            && LimitFields(u) == LimitFields(t) && ScopeFields(u) == ScopeFields(t)
            && SemanticsFields(u) == SemanticsFields(t) && u.normalizedAction == t.normalizedAction
  {
    hide DecimalInt, PlaneName, BoolName, WholeSeconds;
  }

  lemma RestOfWithScope(t: Token, k: nat, s: string)
    requires k <= 7
    ensures var u := WithScope(t, k, s);
            && LimitFields(u) == LimitFields(t) && IdentityFields(u) == IdentityFields(t)
            && SemanticsFields(u) == SemanticsFields(t) && u.normalizedAction == t.normalizedAction
  {
    hide DecimalInt, PlaneName, BoolName, WholeSeconds;
  }

  lemma FieldsOfWithText(t: Token, k: nat, s: string)
    requires TextPosition(k)
    ensures Fields(WithText(t, k, s)) == Fields(t)[k := s]
    ensures WithText(t, k, s).normalizedAction == t.normalizedAction
  {
    hide WithIdentity, WithScope, IdentityFields, LimitFields, ScopeFields, SemanticsFields;
    if k <= 10 {
      IdentityOfWithIdentity(t, k, s);
      RestOfWithIdentity(t, k, s);
    } else {
      ScopeOfWithScope(t, k - 14, s);
      RestOfWithScope(t, k - 14, s);
    }
  }

  /** Another token, differing in what is signed, has the same canonical text. */
  ghost predicate Ambiguous(t: Token) {
    exists u: Token :: SharesText(t, u)
  }

  predicate SharesText(t: Token, u: Token) {
    PipeFree(u.normalizedAction) && Canonical(u) == Canonical(t) && Signed(u) != Signed(t)
  }

  predicate TextFieldsPipeFree(t: Token) {
    forall k: nat | k < 25 && TextPosition(k) :: PipeFree(Fields(t)[k])
  }

  /** The canonical text determines what is signed exactly when no text field contains
      the separator (normalized action names never do). */
  lemma UnambiguousIff(t: Token)
    requires PipeFree(t.normalizedAction)
    ensures TextFieldsPipeFree(t) <==> !Ambiguous(t)
  {
    hide Canonical, Signed, Fields, TextPosition, PipeFree;
    if TextFieldsPipeFree(t) {
      forall u | SharesText(t, u)
        ensures false
      {
        UnambiguousText(t, u);
      }
    } else {
      var k: nat :| k < 25 && TextPosition(k) && !PipeFree(Fields(t)[k]);
      var u := SeparatorMoves(t, k);
      assert SharesText(t, u);
    }
  }

  lemma UnambiguousText(t: Token, u: Token)
    requires TextFieldsPipeFree(t) && PipeFree(t.normalizedAction) && Canonical(u) == Canonical(t)
    ensures Signed(u) == Signed(t)
  {
    hide Signed, JoinPipe;
    AllPipeFree(t);
    JoinPipeUnambiguous(Fields(t), Fields(u));
    FieldsDetermineSigned(u, t);
  }

  lemma AllPipeFree(t: Token)
    requires TextFieldsPipeFree(t) && PipeFree(t.normalizedAction)
    ensures forall s | s in Fields(t) :: PipeFree(s)
  {
    hide DecimalInt, PlaneName, BoolName, WholeSeconds, PipeFree;
    FixedFieldsPipeFree(t);
    forall k: nat | k < 25
      ensures PipeFree(Fields(t)[k])
    {
      if !TextPosition(k) && k < 14 {
        assert Fields(t)[k] == LimitFields(t)[k - 11];
      }
    }
  }

  /** A separator inside a field can be read as the border with a neighbour. */
  lemma SeparatorMoves(t: Token, k: nat) returns (u: Token)
    requires TextPosition(k) && k < 25 && !PipeFree(Fields(t)[k]) && PipeFree(t.normalizedAction)
    ensures SharesText(t, u)
  {
    hide Signed, Canonical, Fields, WithText;
    var f := Fields(t);
    var text := f[k];
    var cut :| 0 <= cut < |text| && text[cut] == '|';
    var x, y := text[..cut], text[cut + 1..];
    assert text == x + "|" + y;
    if k == 10 || k == 21 {
      u := Rebordered(t, k - 1, f[k - 1] + "|" + x, y);
    } else {
      u := Rebordered(t, k, x, y + "|" + f[k + 1]);
    }
  }

  lemma Rebordered(t: Token, k: nat, left: string, right: string) returns (u: Token)
    requires TextPosition(k) && TextPosition(k + 1) && PipeFree(t.normalizedAction)
    requires left + "|" + right == Fields(t)[k] + "|" + Fields(t)[k + 1]
    requires left != Fields(t)[k]
    ensures SharesText(t, u) && u == WithText(WithText(t, k, left), k + 1, right)
  {
    hide Signed, Fields, WithText, PipeFree, JoinPipe;
    u := WithText(WithText(t, k, left), k + 1, right);
    FieldsOfWithText(t, k, left);
    FieldsOfWithText(WithText(t, k, left), k + 1, right);
    var f, g := Fields(t), Fields(u);
    assert g == f[k := left][k + 1 := right];
    JoinPipeBorder(f, g, k);
    assert g[k] != f[k];
    FieldsOfSigned(t);
    FieldsOfSigned(u);
  }

  lemma FieldsAt(t: Token, issuedAt: int, expiresAt: int)
    ensures Fields(t.(issuedAt := issuedAt, expiresAt := expiresAt)) ==
            Fields(t)[11 := DecimalInt(WholeSeconds(issuedAt))][12 := DecimalInt(WholeSeconds(expiresAt))]
  {
    hide DecimalInt, PlaneName, BoolName, WholeSeconds;
  }

  /** Of its two times the signed text fixes the whole seconds and nothing else: other
      times leave it as it is exactly when both agree to the second. */
  lemma SubSecondsUnsigned(t: Token, issuedAt: int, expiresAt: int)
    ensures Canonical(t.(issuedAt := issuedAt, expiresAt := expiresAt)) == Canonical(t) <==>
            WholeSeconds(issuedAt) == WholeSeconds(t.issuedAt) && WholeSeconds(expiresAt) == WholeSeconds(t.expiresAt)
  {
    hide DecimalInt, WholeSeconds, JoinPipe, Fields;
    var u := t.(issuedAt := issuedAt, expiresAt := expiresAt);
    FieldsAt(t, issuedAt, expiresAt);
    FieldsAt(t, t.issuedAt, t.expiresAt);
    assert t.(issuedAt := t.issuedAt, expiresAt := t.expiresAt) == t;
    if Canonical(u) == Canonical(t) {
      assert Fields(u)[..11] == Fields(t)[..11];
      JoinPipeSuffix(Fields(u), Fields(t), 11);
      NumeralsDetermined(Fields(u)[11..], Fields(t)[11..], WholeSeconds(issuedAt), WholeSeconds(expiresAt),
                         WholeSeconds(t.issuedAt), WholeSeconds(t.expiresAt));
    }
  }

  lemma NumeralsDetermined(f: seq<string>, g: seq<string>, a: int, b: int, c: int, d: int)
    requires |f| > 2 && |g| > 2 && JoinPipe(f) == JoinPipe(g)
    requires f[0] == DecimalInt(a) && f[1] == DecimalInt(b) && g[0] == DecimalInt(c) && g[1] == DecimalInt(d)
    ensures a == c && b == d
  {
    hide DecimalInt;
    FirstFieldUnique(f[0], JoinPipe(f[1..]), g[0], JoinPipe(g[1..]));
    FirstFieldUnique(f[1], JoinPipe(f[1..][1..]), g[1], JoinPipe(g[1..][1..]));
    DecimalIntInjective(a, c);
    DecimalIntInjective(b, d);
  }
}
