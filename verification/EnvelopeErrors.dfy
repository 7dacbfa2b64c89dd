/** `EnvelopeError`: why a contract was refused. The fixed texts that name a field
    or a reason are constructors here. */
module EnvelopeErrors {
  datatype ContractField =
    | SchemaVersion
    | SessionId
    | RunId
    | PrincipalId
    | ProviderId
    | ModelId
    | PolicyVersion
    | PolicyHash
    | ProviderContextHash
    | SystemPromptHash
    | ToolSchemaHash
    | WorkspaceManifestHash
    | Segments
    | Attachments
    | AttachmentId
    | MediaType
    | AttachmentSha256
    | SegmentContent
    | ContextContent
    | ContextHash
    | ToolName
    | ResourceKind
    | ResourceLocator
    | ToolCallId
    | Arguments
    | ActionHash
    | JsonDepth

  datatype SegmentFault =
    | ContentRequired
    | UserRoleRequired
    | ToolResultRoleRequired
    | ToolNameRequired
    | ToolNameInvalid
    | AttachmentIdRequired
    | ToolNameMisplaced
    | AttachmentIdMisplaced
    | OrdinalNotPosition

  datatype EnvelopeError =
    | MissingField(field: ContractField)
    | InvalidField(field: ContractField)
    | InvalidDigest(field: ContractField)
    | LimitExceeded(field: ContractField)
    | InvalidContextSegment(ordinal: nat, reason: SegmentFault)
    | DuplicateAttachmentId(id: string)
    | UnknownAttachmentId(id: string)
    | HashMismatch(field: ContractField)
}
