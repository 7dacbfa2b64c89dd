/** The strict baseline classifier of proposed tool calls (`evaluate_strict`).
    Lowercasing is a parameter: no result here depends on how it maps characters. */
module ActionPolicy {
  import opened Wrappers
  import opened Text
  import opened KeyOrder
  import opened Json
  import opened EnvelopeErrors
  import opened ActionEnvelope
  import JsonWriter

  datatype KnownTool = Read | Write | Edit | ApplyPatch | Exec | Bash | Browser | Heartbeat | Unknown

  function ToolFromName(name: string): KnownTool {
    if name == "read" || name == "read_file" then Read
    else if name == "write" || name == "write_file" then Write
    else if name == "edit" then Edit
    else if name == "apply_patch" then ApplyPatch
    else if name == "exec" then Exec
    else if name == "bash" then Bash
    else if name == "browser" then Browser
    else if name == "heartbeat_respond" then Heartbeat
    else Unknown
  }

  datatype Disposition = Allow | RequireAuthorization | Deny

  datatype Risk =
    | UnknownTool
    | PathTraversal
    | CredentialAccess
    | ProtectedResourceMutation
    | DestructiveShell
    | PrivilegeEscalation
    | RemoteCodeExecution
    | BrowserScriptExecution
    | FilesystemMutation
    | ShellExecution
    | ExternalInteraction
    | ControlSchemaViolation
    | ControlAction
  {
    predicate IsDenyClass() {
      !FilesystemMutation? && !ShellExecution? && !ExternalInteraction? && !ControlAction?
    }
  }

  datatype Decision = Decision(disposition: Disposition, risks: seq<Risk>)

  // ---- patterns --------------------------------------------------------------------

  const CREDENTIAL_PATTERNS: seq<string> :=
    ["/etc/shadow", ".ssh/", "id_rsa", "id_ed25519", ".aws/credentials", ".config/gcloud/credentials", "keychain"]

  const PROTECTED_PREFIXES: seq<string> :=
    ["/bin/", "/boot/", "/dev/", "/etc/", "/proc/", "/root/", "/sbin/", "/sys/", "/usr/"]

  const PROTECTED_WORDS: seq<string> :=
    ["/", "/bin", "/boot", "/dev", "/etc", "/proc", "/root", "/sbin", "/sys", "/usr"]

  const DESTRUCTIVE_PATTERNS: seq<string> :=
    ["rm -rf", "rm -fr", "mkfs", "wipefs", "dd if=", "shutdown", "reboot", ":(){:|:&};:"]

  const PRIVILEGE_PATTERNS: seq<string> :=
    ["sudo ", "su -c", "chmod 777", "chmod -r 777", "chown -r"]

  const BROWSER_PATTERNS: seq<string> :=
    ["javascript:", "evaluate_script", "execute_script"]

  predicate ContainsAny(text: string, patterns: seq<string>) {
    exists p | p in patterns :: Contains(text, p)
  }

  function ReplaceChar(s: string, a: char, b: char): string {
    seq(|s|, i requires 0 <= i < |s| => if s[i] == a then b else s[i])
  }

  /** `s.split(c)` */
  function SplitChar(s: string, c: char): (parts: seq<string>)
    ensures |parts| > 0
  {
    if s == [] then [[]]
    else
      var rest := SplitChar(s[1..], c);
      if s[0] == c then [[]] + rest else [[s[0]] + rest[0]] + rest[1..]
  }

  /** `s.split_whitespace()`: the non-empty runs between whitespace. */
  function Words(s: string, current: string): seq<string>
    decreases s
  {
    if s == [] then (if current == [] then [] else [current])
    else if IsWhitespace(s[0]) then (if current == [] then [] else [current]) + Words(s[1..], [])
    else Words(s[1..], current + [s[0]])
  }

  predicate ContainsPathTraversal(text: string) {
    ".." in SplitChar(ReplaceChar(text, '\\', '/'), '/')
  }

  predicate ReferencesCredentials(text: string) {
    ContainsAny(text, CREDENTIAL_PATTERNS)
  }

  predicate ReferencesProtectedWrite(text: string) {
    var normalized := ReplaceChar(text, '\\', '/');
    ContainsAny(normalized, PROTECTED_PREFIXES) || exists w | w in Words(normalized, []) :: w in PROTECTED_WORDS
  }

  predicate ContainsDestructiveShell(text: string) {
    ContainsAny(text, DESTRUCTIVE_PATTERNS)
  }

  predicate ContainsPrivilegeEscalation(text: string) {
    ContainsAny(text, PRIVILEGE_PATTERNS)
  }

  predicate ContainsBrowserScript(text: string) {
    ContainsAny(text, BROWSER_PATTERNS)
  }

  predicate ContainsRemoteCodeExecution(text: string) {
    var downloads := Contains(text, "curl ") || Contains(text, "wget ");
    var pipedShell := Contains(text, "| sh") || Contains(text, "| bash");
    (downloads && pipedShell) || Contains(text, "eval $(") || Contains(text, "eval \"$(")
  }

  // ---- the heartbeat schema -----------------------------------------------------------

  const HEARTBEAT_KEYS: seq<string> :=
    ["outcome", "notify", "summary", "notificationText", "reason", "priority", "nextCheck", "scratch"]
  const HEARTBEAT_OUTCOMES: seq<string> := ["no_change", "progress", "done", "blocked", "needs_attention"]
  const HEARTBEAT_PRIORITIES: seq<string> := ["low", "normal", "high"]
  const MAX_HEARTBEAT_TEXT_BYTES := 4096
  const MAX_HEARTBEAT_SCRATCH_BYTES := 262144

  function Lookup(entries: seq<Field<Json>>, key: string): Option<Json> {
    if entries == [] then None
    else if entries[0].key == key then Some(entries[0].value)
    else Lookup(entries[1..], key)
  }

  predicate IsTextUpTo(v: Json, bytes: nat) {
    v.String? && ByteLen(v.text) <= bytes
  }

  predicate AbsentOrText(v: Option<Json>, bytes: nat) {
    v.None? || IsTextUpTo(v.value, bytes)
  }

  predicate HeartbeatOk(arguments: Json) {
    && arguments.Object?
    && (forall e | e in arguments.entries :: e.key in HEARTBEAT_KEYS)
    && (var outcome := Lookup(arguments.entries, "outcome");
        outcome.Some? && outcome.value.String? && outcome.value.text in HEARTBEAT_OUTCOMES)
    && (var notify := Lookup(arguments.entries, "notify"); notify.Some? && notify.value.Bool?)
    && (var summary := Lookup(arguments.entries, "summary");
        summary.Some? && IsTextUpTo(summary.value, MAX_HEARTBEAT_TEXT_BYTES) && !IsBlank(summary.value.text))
    && AbsentOrText(Lookup(arguments.entries, "notificationText"), MAX_HEARTBEAT_TEXT_BYTES)
    && AbsentOrText(Lookup(arguments.entries, "reason"), MAX_HEARTBEAT_TEXT_BYTES)
    && AbsentOrText(Lookup(arguments.entries, "nextCheck"), MAX_HEARTBEAT_TEXT_BYTES)
    && (var priority := Lookup(arguments.entries, "priority");
        priority.None? || (priority.value.String? && priority.value.text in HEARTBEAT_PRIORITIES))
    && AbsentOrText(Lookup(arguments.entries, "scratch"), MAX_HEARTBEAT_SCRATCH_BYTES)
  }

  // ---- classification -------------------------------------------------------------------

  /** The lowercased locator followed by every lowercased key and string of the
      arguments, each on a line of its own. */
  function Searchable(lower: string -> string, e: Action): string {
    lower(e.resourceLocator) + JsonWriter.Flatten(lower, JsonWriter.Leaves(e.arguments))
  }

  predicate IsFileWriter(tool: KnownTool) {
    tool.Write? || tool.Edit? || tool.ApplyPatch?
  }

  predicate RunsCommands(tool: KnownTool) {
    tool.Exec? || tool.Bash? || tool.Heartbeat?
  }

  /** Whether the classifier raises `risk` against a known tool. */
  predicate Raises(tool: KnownTool, text: string, arguments: Json, risk: Risk) {
    match risk
    case PathTraversal => ContainsPathTraversal(text)
    case CredentialAccess => ReferencesCredentials(text)
    case ProtectedResourceMutation => IsFileWriter(tool) && ReferencesProtectedWrite(text)
    case DestructiveShell => RunsCommands(tool) && ContainsDestructiveShell(text)
    case PrivilegeEscalation => RunsCommands(tool) && ContainsPrivilegeEscalation(text)
    case RemoteCodeExecution => RunsCommands(tool) && ContainsRemoteCodeExecution(text)
    case BrowserScriptExecution => tool.Browser? && ContainsBrowserScript(text)
    case ControlSchemaViolation => tool.Heartbeat? && !HeartbeatOk(arguments)
    case _ => false
  }

  predicate Distinct(risks: seq<Risk>) {
    forall i, j | 0 <= i < j < |risks| :: risks[i] != risks[j]
  }

  const CHECKS := 8

  /** The deny classes of known tools, in the order the code checks for them. */
  function Check(k: nat): (risk: Risk)
    requires k < CHECKS
  {
    match k
    case 0 => PathTraversal
    case 1 => CredentialAccess
    case 2 => ProtectedResourceMutation
    case 3 => DestructiveShell
    case 4 => PrivilegeEscalation
    case 5 => RemoteCodeExecution
    case 6 => BrowserScriptExecution
    case _ => ControlSchemaViolation
  }

  function Position(risk: Risk): nat {
    match risk
    case PathTraversal => 0
    case CredentialAccess => 1
    case ProtectedResourceMutation => 2
    case DestructiveShell => 3
    case PrivilegeEscalation => 4
    case RemoteCodeExecution => 5
    case BrowserScriptExecution => 6
    case ControlSchemaViolation => 7
    case _ => CHECKS
  }

  /** The risks raised by the first `k` checks. */
  function RaisedBy(tool: KnownTool, text: string, arguments: Json, k: nat): seq<Risk>
    requires k <= CHECKS
  {
    if k == 0 then []
    else RaisedBy(tool, text, arguments, k - 1)
         + if Raises(tool, text, arguments, Check(k - 1)) then [Check(k - 1)] else []
  }

  function RaisedRisks(tool: KnownTool, text: string, arguments: Json): seq<Risk> {
    RaisedBy(tool, text, arguments, CHECKS)
  }

  lemma {:induction false} RaisedByIff(tool: KnownTool, text: string, arguments: Json, k: nat)
    requires k <= CHECKS
    ensures forall risk :: risk in RaisedBy(tool, text, arguments, k) <==>
                           Position(risk) < k && Raises(tool, text, arguments, risk)
    ensures Distinct(RaisedBy(tool, text, arguments, k))
  {
    hide Raises, Check;
    if k > 0 {
      RaisedByIff(tool, text, arguments, k - 1);
      CheckPosition(k - 1);
    }
  }

  lemma CheckPosition(k: nat)
    requires k < CHECKS
    ensures forall risk :: Position(risk) == k <==> risk == Check(k)
  {
  }

  /** A risk is listed exactly when the classifier raises it, and once. */
  lemma RaisedIff(tool: KnownTool, text: string, arguments: Json)
    ensures forall risk :: risk in RaisedRisks(tool, text, arguments) <==> Raises(tool, text, arguments, risk)
    ensures forall risk | risk in RaisedRisks(tool, text, arguments) :: risk.IsDenyClass()
    ensures Distinct(RaisedRisks(tool, text, arguments))
  {
    hide ContainsPathTraversal, ReferencesCredentials, ReferencesProtectedWrite, ContainsDestructiveShell,
         ContainsPrivilegeEscalation, ContainsRemoteCodeExecution, ContainsBrowserScript, HeartbeatOk, RaisedBy;
    RaisedByIff(tool, text, arguments, CHECKS);
  }

  /** What a known tool needs when nothing speaks against it. */
  function Baseline(tool: KnownTool): Decision {
    match tool
    case Read => Decision(Allow, [])
    case Write | Edit | ApplyPatch => Decision(RequireAuthorization, [FilesystemMutation])
    case Exec | Bash => Decision(RequireAuthorization, [ShellExecution])
    case Browser => Decision(RequireAuthorization, [ExternalInteraction])
    case Heartbeat => Decision(RequireAuthorization, [ControlAction])
    case Unknown => Decision(Deny, [UnknownTool])
  }

  function Classify(lower: string -> string, e: Action): Decision {
    var tool := ToolFromName(e.toolName);
    if tool.Unknown? then Decision(Deny, [UnknownTool])
    else
      var risks := RaisedRisks(tool, Searchable(lower, e), e.arguments);
      if risks != [] then Decision(Deny, risks) else Baseline(tool)
  }

  /** `deduplicate_risks`: keeps the first of each. */
  method DeduplicateRisks(risks: seq<Risk>) returns (kept: seq<Risk>)
    ensures Distinct(kept)
    ensures forall risk :: risk in kept <==> risk in risks
    ensures Distinct(risks) ==> kept == risks
  {
    var seen: set<Risk> := {};
    kept := [];
    for i := 0 to |risks|
      invariant Distinct(kept)
      invariant forall risk :: risk in kept <==> risk in seen
      invariant forall risk :: risk in seen <==> risk in risks[..i]
      invariant Distinct(risks) ==> kept == risks[..i]
    {
      if risks[i] !in seen {
        kept := kept + [risks[i]];
        seen := seen + {risks[i]};
      }
    }
  }

  /** `evaluate_strict`: fails only when verification does. */
  method EvaluateStrict(sha: string -> Digest, lower: string -> string, e: Action)
      returns (r: Result<Decision, EnvelopeError>)
    ensures r == (match VerifyAction(sha, e)
                  case Fail(error) => Err(error)
                  case Pass => Ok(Classify(lower, e)))
  {
    hide VerifyAction, Searchable, ToolFromName, RaisedRisks;
    var verified := Verify(sha, e);
    if verified.Fail? {
      return Err(verified.error);
    }
    var tool := ToolFromName(e.toolName);
    if tool == Unknown {
      return Ok(Decision(Deny, [UnknownTool]));
    }
    var text := CollectSearchable(lower, e);
    var risks := CollectRisks(tool, text, e.arguments);
    RaisedIff(tool, text, e.arguments);
    risks := DeduplicateRisks(risks);
    assert risks != [] ==> risks[0] in risks;
    if exists risk | risk in risks :: risk.IsDenyClass() {
      return Ok(Decision(Deny, risks));
    }
    assert risks == [] && forall risk :: risks + [risk] == [risk];
    match tool
    case Read =>
      r := Ok(Decision(Allow, []));
    case Write | Edit | ApplyPatch =>
      risks := risks + [FilesystemMutation];
      r := Ok(Decision(RequireAuthorization, risks));
    case Exec | Bash =>
      risks := risks + [ShellExecution];
      r := Ok(Decision(RequireAuthorization, risks));
    case Browser =>
      risks := risks + [ExternalInteraction];
      r := Ok(Decision(RequireAuthorization, risks));
    case Heartbeat =>
      risks := risks + [ControlAction];
      r := Ok(Decision(RequireAuthorization, risks));
  }

  method CollectSearchable(lower: string -> string, e: Action) returns (text: string)
    ensures text == Searchable(lower, e)
  {
    var buffer := new JsonWriter.StringBuffer();
    buffer.Push(lower(e.resourceLocator));
    JsonWriter.CollectJsonStrings(lower, e.arguments, buffer);
    text := buffer.text;
  }

  method CollectRisks(tool: KnownTool, text: string, arguments: Json) returns (risks: seq<Risk>)
    ensures risks == RaisedRisks(tool, text, arguments)
  {
    hide ContainsBrowserScript, HeartbeatOk, RaisedBy;
    risks := CollectAccessRisks(tool, text, arguments);
    risks := CollectCommandRisks(tool, text, arguments, risks);
    if tool == Browser && ContainsBrowserScript(text) {
      risks := risks + [BrowserScriptExecution];
    }
    RaisedStep(tool, text, arguments, 6);
    if tool == Heartbeat && !HeartbeatOk(arguments) {
      risks := risks + [ControlSchemaViolation];
    }
    RaisedStep(tool, text, arguments, 7);
  }

  method CollectAccessRisks(tool: KnownTool, text: string, arguments: Json) returns (risks: seq<Risk>)
    ensures risks == RaisedBy(tool, text, arguments, 3)
  {
    hide ContainsPathTraversal, ReferencesCredentials, ReferencesProtectedWrite, IsFileWriter, RaisedBy;
    RaisedStart(tool, text, arguments);
    risks := [];
    if ContainsPathTraversal(text) {
      risks := risks + [PathTraversal];
    }
    RaisedStep(tool, text, arguments, 0);
    if ReferencesCredentials(text) {
      risks := risks + [CredentialAccess];
    }
    RaisedStep(tool, text, arguments, 1);
    if IsFileWriter(tool) && ReferencesProtectedWrite(text) {
      risks := risks + [ProtectedResourceMutation];
    }
    RaisedStep(tool, text, arguments, 2);
  }

  method CollectCommandRisks(tool: KnownTool, text: string, arguments: Json, found: seq<Risk>)
      returns (risks: seq<Risk>)
    requires found == RaisedBy(tool, text, arguments, 3)
    ensures risks == RaisedBy(tool, text, arguments, 6)
  {
    hide ContainsDestructiveShell, ContainsPrivilegeEscalation, ContainsRemoteCodeExecution, RunsCommands, RaisedBy;
    RaisedStep(tool, text, arguments, 3);
    RaisedStep(tool, text, arguments, 4);
    RaisedStep(tool, text, arguments, 5);
    risks := found;
    if RunsCommands(tool) {
      if ContainsDestructiveShell(text) {
        risks := risks + [DestructiveShell];
      }
      if ContainsPrivilegeEscalation(text) {
        risks := risks + [PrivilegeEscalation];
      }
      if ContainsRemoteCodeExecution(text) {
        risks := risks + [RemoteCodeExecution];
      }
    }
  }

  lemma RaisedStart(tool: KnownTool, text: string, arguments: Json)
    ensures RaisedBy(tool, text, arguments, 0) == []
  {
  }

  lemma RaisedStep(tool: KnownTool, text: string, arguments: Json, k: nat)
    requires k < CHECKS
    ensures RaisedBy(tool, text, arguments, k + 1) ==
            if Raises(tool, text, arguments, Check(k)) then RaisedBy(tool, text, arguments, k) + [Check(k)]
            else RaisedBy(tool, text, arguments, k)
  {
    hide Raises;
  }

  // ---- searching every leaf --------------------------------------------------------------

  ghost predicate NewlineFree(patterns: seq<string>) {
    forall p | p in patterns :: '\n' !in p
  }

  lemma CredentialPatternsNewlineFree()
    ensures NewlineFree(CREDENTIAL_PATTERNS)
  {
    assert '\n' !in "/etc/shadow" && '\n' !in ".ssh/" && '\n' !in "id_rsa" && '\n' !in "id_ed25519";
    assert '\n' !in ".aws/credentials" && '\n' !in ".config/gcloud/credentials" && '\n' !in "keychain";
  }

  lemma DestructivePatternsNewlineFree()
    ensures NewlineFree(DESTRUCTIVE_PATTERNS)
  {
    assert '\n' !in "rm -rf" && '\n' !in "rm -fr" && '\n' !in "mkfs" && '\n' !in "wipefs";
    assert '\n' !in "dd if=" && '\n' !in "shutdown" && '\n' !in "reboot" && '\n' !in ":(){:|:&};:";
  }

  lemma PrivilegePatternsNewlineFree()
    ensures NewlineFree(PRIVILEGE_PATTERNS)
  {
    assert '\n' !in "sudo " && '\n' !in "su -c" && '\n' !in "chmod 777";
    assert '\n' !in "chmod -r 777" && '\n' !in "chown -r";
  }

  lemma BrowserPatternsNewlineFree()
    ensures NewlineFree(BROWSER_PATTERNS)
  {
    assert '\n' !in "javascript:" && '\n' !in "evaluate_script" && '\n' !in "execute_script";
  }

  /** Some lowercased text of the action, the locator or a key or string at any
      depth, contains one of the patterns. */
  ghost predicate SomeLeafContains(lower: string -> string, e: Action, patterns: seq<string>) {
    || ContainsAny(lower(e.resourceLocator), patterns)
    || exists leaf | leaf in JsonWriter.Leaves(e.arguments) :: ContainsAny(lower(leaf), patterns)
  }

  /** Searching the flattened text for newline-free patterns is searching every
      leaf on its own. */
  lemma FlattenedSearchIsPerLeaf(lower: string -> string, e: Action, patterns: seq<string>)
    requires NewlineFree(patterns)
    ensures ContainsAny(Searchable(lower, e), patterns) <==> SomeLeafContains(lower, e, patterns)
  {
    var head, leaves := lower(e.resourceLocator), JsonWriter.Leaves(e.arguments);
    forall p | p in patterns
      ensures Contains(Searchable(lower, e), p) <==>
              Contains(head, p) || exists leaf | leaf in leaves :: Contains(lower(leaf), p)
    {
      JsonWriter.FlattenedSearch(lower, head, leaves, p);
    }
  }

  /** A credential pattern in the locator or at any depth of the arguments forces a
      denial, whatever the tool; and against a known tool the credential risk is
      raised for no other reason. */
  lemma CredentialsAlwaysDenied(lower: string -> string, e: Action)
    ensures SomeLeafContains(lower, e, CREDENTIAL_PATTERNS) ==> Classify(lower, e).disposition == Deny
    ensures ToolFromName(e.toolName) != Unknown ==>
              (CredentialAccess in Classify(lower, e).risks <==> SomeLeafContains(lower, e, CREDENTIAL_PATTERNS))
  {
    hide SomeLeafContains, Searchable, ContainsAny, ToolFromName, RaisedRisks;
    CredentialPatternsNewlineFree();
    FlattenedSearchIsPerLeaf(lower, e, CREDENTIAL_PATTERNS);
    var tool, text := ToolFromName(e.toolName), Searchable(lower, e);
    RaisedIff(tool, text, e.arguments);
    assert Raises(tool, text, e.arguments, CredentialAccess) <==> SomeLeafContains(lower, e, CREDENTIAL_PATTERNS);
    assert CredentialAccess !in Baseline(tool).risks;
  }

  /** A command is denied for a destructive or privilege-raising pattern exactly when
      one stands in the locator or in some leaf. */
  lemma CommandPatternsPerLeaf(lower: string -> string, e: Action)
    requires RunsCommands(ToolFromName(e.toolName))
    ensures DestructiveShell in Classify(lower, e).risks <==> SomeLeafContains(lower, e, DESTRUCTIVE_PATTERNS)
    ensures PrivilegeEscalation in Classify(lower, e).risks <==> SomeLeafContains(lower, e, PRIVILEGE_PATTERNS)
  {
    hide SomeLeafContains, Searchable, ContainsAny, ToolFromName, RaisedRisks;
    DestructivePatternsNewlineFree();
    PrivilegePatternsNewlineFree();
    FlattenedSearchIsPerLeaf(lower, e, DESTRUCTIVE_PATTERNS);
    FlattenedSearchIsPerLeaf(lower, e, PRIVILEGE_PATTERNS);
    var tool, text := ToolFromName(e.toolName), Searchable(lower, e);
    RaisedIff(tool, text, e.arguments);
    assert Raises(tool, text, e.arguments, DestructiveShell) <==> SomeLeafContains(lower, e, DESTRUCTIVE_PATTERNS);
    assert Raises(tool, text, e.arguments, PrivilegeEscalation) <==> SomeLeafContains(lower, e, PRIVILEGE_PATTERNS);
    assert DestructiveShell !in Baseline(tool).risks && PrivilegeEscalation !in Baseline(tool).risks;
  }

  lemma BrowserPatternsPerLeaf(lower: string -> string, e: Action)
    requires ToolFromName(e.toolName).Browser?
    ensures BrowserScriptExecution in Classify(lower, e).risks <==> SomeLeafContains(lower, e, BROWSER_PATTERNS)
  {
    hide SomeLeafContains, Searchable, ContainsAny, ToolFromName, RaisedRisks;
    BrowserPatternsNewlineFree();
    FlattenedSearchIsPerLeaf(lower, e, BROWSER_PATTERNS);
    var tool, text := ToolFromName(e.toolName), Searchable(lower, e);
    RaisedIff(tool, text, e.arguments);
    assert Raises(tool, text, e.arguments, BrowserScriptExecution) <==> SomeLeafContains(lower, e, BROWSER_PATTERNS);
    assert BrowserScriptExecution !in Baseline(tool).risks;
  }

  const DOWNLOAD_PATTERNS: seq<string> := ["curl ", "wget "]
  const PIPED_SHELL_PATTERNS: seq<string> := ["| sh", "| bash"]
  const EVAL_PATTERNS: seq<string> := ["eval $(", "eval \"$("]

  lemma RemoteCodePatternsNewlineFree()
    ensures NewlineFree(DOWNLOAD_PATTERNS) && NewlineFree(PIPED_SHELL_PATTERNS) && NewlineFree(EVAL_PATTERNS)
  {
    assert '\n' !in "curl " && '\n' !in "wget " && '\n' !in "| sh" && '\n' !in "| bash";
    assert '\n' !in "eval $(" && '\n' !in "eval \"$(";
  }

  lemma RemoteCodeByPatterns(text: string)
    ensures ContainsRemoteCodeExecution(text) <==>
            || (ContainsAny(text, DOWNLOAD_PATTERNS) && ContainsAny(text, PIPED_SHELL_PATTERNS))
            || ContainsAny(text, EVAL_PATTERNS)
  {
    hide Contains;
    assert DOWNLOAD_PATTERNS[0] == "curl " && DOWNLOAD_PATTERNS[1] == "wget ";
    assert PIPED_SHELL_PATTERNS[0] == "| sh" && PIPED_SHELL_PATTERNS[1] == "| bash";
    assert EVAL_PATTERNS[0] == "eval $(" && EVAL_PATTERNS[1] == "eval \"$(";
  }

  /** Remote code is seen leaf by leaf too, but a download and the shell it is piped to
      may stand in different leaves. */
  lemma RemoteCodePerLeaf(lower: string -> string, e: Action)
    requires RunsCommands(ToolFromName(e.toolName))
    ensures RemoteCodeExecution in Classify(lower, e).risks <==>
            || (SomeLeafContains(lower, e, DOWNLOAD_PATTERNS) && SomeLeafContains(lower, e, PIPED_SHELL_PATTERNS))
            || SomeLeafContains(lower, e, EVAL_PATTERNS)
  {
    hide SomeLeafContains, Searchable, ContainsAny, ToolFromName, RaisedRisks, ContainsRemoteCodeExecution, NewlineFree;
    RemoteCodePatternsNewlineFree();
    FlattenedSearchIsPerLeaf(lower, e, DOWNLOAD_PATTERNS);
    FlattenedSearchIsPerLeaf(lower, e, PIPED_SHELL_PATTERNS);
    FlattenedSearchIsPerLeaf(lower, e, EVAL_PATTERNS);
    var tool, text := ToolFromName(e.toolName), Searchable(lower, e);
    RemoteCodeByPatterns(text);
    RaisedIff(tool, text, e.arguments);
    assert Raises(tool, text, e.arguments, RemoteCodeExecution) <==> ContainsRemoteCodeExecution(text);
    assert RemoteCodeExecution !in Baseline(tool).risks;
  }

  /** Lowercasing followed by turning backslashes into slashes. */
  function Slashed(lower: string -> string): string -> string {
    s => ReplaceChar(lower(s), '\\', '/')
  }

  lemma ReplaceConcat(s: string, t: string)
    ensures ReplaceChar(s + t, '\\', '/') == ReplaceChar(s, '\\', '/') + ReplaceChar(t, '\\', '/')
  {
  }

  lemma ReplaceNewline()
    ensures ReplaceChar(['\n'], '\\', '/') == ['\n']
  {
  }

  lemma {:induction false} SlashedFlatten(lower: string -> string, leaves: seq<string>)
    ensures ReplaceChar(JsonWriter.Flatten(lower, leaves), '\\', '/') == JsonWriter.Flatten(Slashed(lower), leaves)
  {
    hide ReplaceChar;
    if leaves == [] {
      ReplaceEmpty();
    } else {
      SlashedFlatten(lower, leaves[1..]);
      var head, tail := lower(leaves[0]), JsonWriter.Flatten(lower, leaves[1..]);
      ReplaceNewline();
      ReplaceConcat(['\n'], head);
      ReplaceConcat(['\n'] + head, tail);
    }
  }

  lemma ReplaceEmpty()
    ensures ReplaceChar("", '\\', '/') == ""
  {
  }

  lemma PrefixPatternsNewlineFree()
    ensures NewlineFree(PROTECTED_PREFIXES)
  {
    assert '\n' !in "/bin/" && '\n' !in "/boot/" && '\n' !in "/dev/" && '\n' !in "/etc/" && '\n' !in "/proc/";
    assert '\n' !in "/root/" && '\n' !in "/sbin/" && '\n' !in "/sys/" && '\n' !in "/usr/";
  }

  /** The protected prefixes are looked for in the slash-normalized text; that, too, is
      looking for them in every normalized leaf. */
  lemma ProtectedPrefixesPerLeaf(lower: string -> string, e: Action)
    ensures ContainsAny(ReplaceChar(Searchable(lower, e), '\\', '/'), PROTECTED_PREFIXES) <==>
            SomeLeafContains(Slashed(lower), e, PROTECTED_PREFIXES)
  {
    hide SomeLeafContains, ContainsAny, NewlineFree, JsonWriter.Flatten, JsonWriter.Leaves;
    PrefixPatternsNewlineFree();
    SlashedFlatten(lower, JsonWriter.Leaves(e.arguments));
    SlashedSearchable(lower, e);
    FlattenedSearchIsPerLeaf(Slashed(lower), e, PROTECTED_PREFIXES);
  }

  lemma SlashedSearchable(lower: string -> string, e: Action)
    ensures ReplaceChar(Searchable(lower, e), '\\', '/') == Searchable(Slashed(lower), e)
  {
    hide JsonWriter.Flatten, JsonWriter.Leaves, ReplaceChar;
    var head, tail := lower(e.resourceLocator), JsonWriter.Flatten(lower, JsonWriter.Leaves(e.arguments));
    SlashedFlatten(lower, JsonWriter.Leaves(e.arguments));
    ReplaceConcat(head, tail);
  }

  /** An action is denied exactly when its decision carries a denying risk, nothing
      but a read is ever allowed outright, and no risk is listed twice. */
  lemma OnlyReadsAllowed(lower: string -> string, e: Action)
    ensures var d := Classify(lower, e);
            && (d.disposition == Deny <==> exists risk | risk in d.risks :: risk.IsDenyClass())
            && (d.disposition == Allow ==> ToolFromName(e.toolName) == Read && d.risks == [])
            && Distinct(d.risks)
  {
    hide Searchable, ToolFromName, RaisedRisks;
    var tool, text := ToolFromName(e.toolName), Searchable(lower, e);
    RaisedIff(tool, text, e.arguments);
    var risks := RaisedRisks(tool, text, e.arguments);
    assert risks != [] ==> risks[0] in risks;
    assert UnknownTool in [UnknownTool];
  }
}
