/** The custom resources, their field order and their optional fields
    (app/crates/kif-api/src/crds.rs). A Rust `String` is a sequence of Unicode scalar
    values, which is what a Dafny `string` is. Timestamps are not modelled: two
    conditions are compared modulo their transition time. */
module Crds {
  datatype Option<+T> = None | Some(value: T)

  datatype Result<+T, +E> = Ok(value: T) | Err(error: E)

  /** Rust's `u64`. */
  type U64 = n: nat | n < 0x1_0000_0000_0000_0000

  datatype SubjectRef = SubjectRef(serviceAccountName: string)

  datatype AttributesSpec = AttributesSpec(includeProvenance: Option<bool>, extra: Option<map<string, string>>)

  datatype AwsProviderSpec = AwsProviderSpec(
    roleArn: string, region: Option<string>, stsRegionalEndpoints: bool,
    audience: Option<string>, maxSessionDurationSeconds: Option<U64>)

  datatype AzureProviderSpec = AzureProviderSpec(tenantId: string, clientId: string, audience: Option<string>)

  datatype GcpProviderSpec = GcpProviderSpec(
    workloadIdentityProvider: string, serviceAccountEmail: string,
    audience: Option<string>, projectId: Option<string>)

  datatype ProvidersSpec = ProvidersSpec(
    aws: Option<AwsProviderSpec>, azure: Option<AzureProviderSpec>, gcp: Option<GcpProviderSpec>)

  const NO_PROVIDERS := ProvidersSpec(None, None, None)

  /** The spec of a CloudRoleBinding and, field for field, of a ResolvedCloudRoleBinding. */
  datatype BindingSpec = BindingSpec(subject: SubjectRef, attributes: Option<AttributesSpec>, providers: ProvidersSpec)

  datatype ConditionType = Ready | Conflict | InvalidSpec

  datatype ConditionStatus = True | False | Unknown

  datatype ConditionReason = Validated | ProviderConflict | AttributeConflict | ValidationFailed | Error

  /** The texts that messages carry, one constructor a text. */
  datatype Message =
    | MissingBlock
    | ManyAws
    | FlagDiffers
    | RepeatedKey(key: string)
    | NoneConfigured
    | Healthy
    | NoConflicts
    | SpecIsValid
    | NotReady
    | ResolvedAndValidated

  datatype Condition = Condition(
    kind: ConditionType, status: ConditionStatus, reason: ConditionReason, message: Message, observedGeneration: int)

  datatype BindingStatus = BindingStatus(providers: seq<string>, conditions: seq<Condition>, lastError: Option<Message>)

  datatype CloudRoleBinding = CloudRoleBinding(
    name: Option<string>, generation: Option<int>, spec: BindingSpec, status: Option<BindingStatus>)
  {
    function NameOrEmpty(): string {
      if name.Some? then name.value else ""
    }
  }

  datatype BindingRef = BindingRef(name: string, generation: Option<int>)

  datatype ResolvedStatus = ResolvedStatus(
    providers: seq<string>, conditions: seq<Condition>, sources: seq<BindingRef>,
    configHash: Option<string>, lastError: Option<Message>)

  /** A ResolvedCloudRoleBinding as the API server stores it. */
  datatype Resolved = Resolved(spec: BindingSpec, status: Option<ResolvedStatus>)

  /** The work item of the queue: one ServiceAccount in one namespace. */
  datatype Key = Key(namespace: string, serviceAccountName: string)
}
