/** The JSON form of a resolved spec: declared field order, camel-case names, absent options
    skipped, the extra map in key order (the serde attributes of
    app/crates/kif-api/src/crds.rs). Different specs have different texts. */
module Encoding {
  import opened Crds
  import opened Json
  import Ordered

  function OptField(name: string, o: Option<Json>, rest: Members): Members {
    if o.None? then rest else Field(name, o.value, rest)
  }

  function OptStr(o: Option<string>): Option<Json> {
    if o.None? then None else Some(Str(o.value))
  }

  function AwsJson(a: AwsProviderSpec): Json {
    Obj(Field("roleArn", Str(a.roleArn),
        OptField("region", OptStr(a.region),
        Field("stsRegionalEndpoints", Bool(a.stsRegionalEndpoints),
        OptField("audience", OptStr(a.audience),
        OptField("maxSessionDurationSeconds",
                 if a.maxSessionDurationSeconds.None? then None else Some(Num(a.maxSessionDurationSeconds.value)),
                 End))))))
  }

  function AzureJson(a: AzureProviderSpec): Json {
    Obj(Field("tenantId", Str(a.tenantId),
      Field("clientId", Str(a.clientId), OptField("audience", OptStr(a.audience), End))))
  }

  function GcpJson(g: GcpProviderSpec): Json {
    Obj(Field("workloadIdentityProvider", Str(g.workloadIdentityProvider),
        Field("serviceAccountEmail", Str(g.serviceAccountEmail),
        OptField("audience", OptStr(g.audience), OptField("projectId", OptStr(g.projectId), End)))))
  }

  function ProvidersJson(p: ProvidersSpec): Json {
    Obj(OptField("aws", if p.aws.None? then None else Some(AwsJson(p.aws.value)),
        OptField("azure", if p.azure.None? then None else Some(AzureJson(p.azure.value)),
        OptField("gcp", if p.gcp.None? then None else Some(GcpJson(p.gcp.value)), End))))
  }

  /** The entries of a map at the given keys, in that order. */
  function Entries(m: map<string, string>, keys: seq<string>): Members
    requires forall i :: 0 <= i < |keys| ==> keys[i] in m
  {
    if keys == [] then End else Field(keys[0], Str(m[keys[0]]), Entries(m, keys[1..]))
  }

  function MapJson(m: map<string, string>): Json {
    Obj(Entries(m, Ordered.Sorted(m.Keys)))
  }

  function AttributesJson(a: AttributesSpec): Json {
    Obj(OptField("includeProvenance", if a.includeProvenance.None? then None else Some(Bool(a.includeProvenance.value)),
        OptField("extra", if a.extra.None? then None else Some(MapJson(a.extra.value)), End)))
  }

  function SpecJson(s: BindingSpec): Json {
    Obj(Field("subject", Obj(Field("serviceAccountName", Str(s.subject.serviceAccountName), End)),
        OptField("attributes", if s.attributes.None? then None else Some(AttributesJson(s.attributes.value)),
        Field("providers", ProvidersJson(s.providers), End))))
  }

  /** The bytes that `build_resolved_from_spec` hashes. */
  function Encode(s: BindingSpec): string {
    Text(SpecJson(s))
  }

  // ---------- Reading a spec, field by field ----------

  /** The value of the next member if it has this name, and the members after it. */
  function Take(ms: Members, name: string): (Option<Json>, Members) {
    if ms.Field? && ms.name == name then (Some(ms.value), ms.rest) else (None, ms)
  }

  predicate OneStr(o: Option<Json>) {
    o.Some? && o.value.Str?
  }

  function StrOf(o: Option<Json>): Option<string>
    requires o.Some? ==> o.value.Str?
  {
    if o.Some? then Some(o.value.s) else None
  }

  function ReadAws(j: Json): Option<AwsProviderSpec> {
    if !j.Obj? then None
    else
      var (role, m1) := Take(j.members, "roleArn");
      var (region, m2) := Take(m1, "region");
      var (sts, m3) := Take(m2, "stsRegionalEndpoints");
      var (audience, m4) := Take(m3, "audience");
      var (ttl, m5) := Take(m4, "maxSessionDurationSeconds");
      if OneStr(role) && sts.Some? && sts.value.Bool? && m5 == End
        && (region.None? || OneStr(region)) && (audience.None? || OneStr(audience))
        && (ttl.None? || (ttl.value.Num? && ttl.value.n < 0x1_0000_0000_0000_0000))
      then Some(AwsProviderSpec(role.value.s, StrOf(region), sts.value.b, StrOf(audience),
                                if ttl.Some? then Some(ttl.value.n) else None))
      else None
  }

  function ReadAzure(j: Json): Option<AzureProviderSpec> {
    if !j.Obj? then None
    else
      var (tenant, m1) := Take(j.members, "tenantId");
      var (client, m2) := Take(m1, "clientId");
      var (audience, m3) := Take(m2, "audience");
      if OneStr(tenant) && OneStr(client) && (audience.None? || OneStr(audience)) && m3 == End
      then Some(AzureProviderSpec(tenant.value.s, client.value.s, StrOf(audience)))
      else None
  }

  function ReadGcp(j: Json): Option<GcpProviderSpec> {
    if !j.Obj? then None
    else
      var (provider, m1) := Take(j.members, "workloadIdentityProvider");
      var (email, m2) := Take(m1, "serviceAccountEmail");
      var (audience, m3) := Take(m2, "audience");
      var (project, m4) := Take(m3, "projectId");
      if OneStr(provider) && OneStr(email) && (audience.None? || OneStr(audience))
        && (project.None? || OneStr(project)) && m4 == End
      then Some(GcpProviderSpec(provider.value.s, email.value.s, StrOf(audience), StrOf(project)))
      else None
  }

  function ReadProviders(j: Json): Option<ProvidersSpec> {
    if !j.Obj? then None
    else
      var (aws, m1) := Take(j.members, "aws");
      var (azure, m2) := Take(m1, "azure");
      var (gcp, m3) := Take(m2, "gcp");
      var a := if aws.Some? then ReadAws(aws.value) else None;
      var z := if azure.Some? then ReadAzure(azure.value) else None;
      var g := if gcp.Some? then ReadGcp(gcp.value) else None;
      if (aws.Some? ==> a.Some?) && (azure.Some? ==> z.Some?) && (gcp.Some? ==> g.Some?) && m3 == End
      then Some(ProvidersSpec(a, z, g))
      else None
  }

  function ReadEntries(ms: Members): Option<map<string, string>> {
    match ms
    case End => Some(map[])
    case Field(name, value, rest) =>
      var more := ReadEntries(rest);
      if value.Str? && more.Some? then Some(more.value[name := value.s]) else None
  }

  function ReadAttributes(j: Json): Option<AttributesSpec> {
    if !j.Obj? then None
    else
      var (flag, m1) := Take(j.members, "includeProvenance");
      var (extra, m2) := Take(m1, "extra");
      var entries := if extra.Some? && extra.value.Obj? then ReadEntries(extra.value.members) else None;
      if (flag.None? || flag.value.Bool?) && (extra.Some? ==> entries.Some?) && m2 == End
      then Some(AttributesSpec(if flag.Some? then Some(flag.value.b) else None, entries))
      else None
  }

  function ReadSubject(j: Json): Option<SubjectRef> {
    if !j.Obj? then None
    else
      var (name, m1) := Take(j.members, "serviceAccountName");
      if OneStr(name) && m1 == End then Some(SubjectRef(name.value.s)) else None
  }

  function ReadSpec(j: Json): Option<BindingSpec> {
    if !j.Obj? then None
    else
      var (subject, m1) := Take(j.members, "subject");
      var (attributes, m2) := Take(m1, "attributes");
      var (providers, m3) := Take(m2, "providers");
      var s := if subject.Some? then ReadSubject(subject.value) else None;
      var a := if attributes.Some? then ReadAttributes(attributes.value) else None;
      var p := if providers.Some? then ReadProviders(providers.value) else None;
      if s.Some? && p.Some? && (attributes.Some? ==> a.Some?) && m3 == End
      then Some(BindingSpec(s.value, a, p.value))
      else None
  }

  // ---------- Round trip ----------

  lemma AwsRead(a: AwsProviderSpec)
    ensures ReadAws(AwsJson(a)) == Some(a)
  {
    assert |"region"| != |"stsRegionalEndpoints"| && |"audience"| != |"maxSessionDurationSeconds"|;
  }

  lemma AzureRead(a: AzureProviderSpec)
    ensures ReadAzure(AzureJson(a)) == Some(a)
  {
  }

  lemma GcpRead(g: GcpProviderSpec)
    ensures ReadGcp(GcpJson(g)) == Some(g)
  {
    assert |"audience"| != |"projectId"|;
  }

  lemma ProvidersRead(p: ProvidersSpec)
    ensures ReadProviders(ProvidersJson(p)) == Some(p)
  {
    assert "aws"[1] != "azure"[1] && "aws"[0] != "gcp"[0] && "azure"[0] != "gcp"[0];
    if p.aws.Some? { AwsRead(p.aws.value); }
    if p.azure.Some? { AzureRead(p.azure.value); }
    if p.gcp.Some? { GcpRead(p.gcp.value); }
    var m3 := OptField("gcp", if p.gcp.None? then None else Some(GcpJson(p.gcp.value)), End);
    var m2 := OptField("azure", if p.azure.None? then None else Some(AzureJson(p.azure.value)), m3);
    var m1 := OptField("aws", if p.aws.None? then None else Some(AwsJson(p.aws.value)), m2);
    assert Take(m3, "gcp").1 == End;
    assert Take(m2, "azure").1 == m3;
    assert Take(m1, "aws").1 == m2;
  }

  lemma {:induction false} EntriesRead(m: map<string, string>, keys: seq<string>)
    requires forall i :: 0 <= i < |keys| ==> keys[i] in m
    ensures var e := ReadEntries(Entries(m, keys));
      e.Some? && (forall k :: k in e.value <==> k in keys) && forall k :: k in keys ==> e.value[k] == m[k]
  {
    if keys != [] {
      EntriesRead(m, keys[1..]);
      assert keys == [keys[0]] + keys[1..];
    }
  }

  lemma MapRead(m: map<string, string>)
    ensures MapJson(m).Obj? && ReadEntries(MapJson(m).members) == Some(m)
  {
    EntriesRead(m, Ordered.Sorted(m.Keys));
    var e := ReadEntries(MapJson(m).members).value;
    assert forall k :: k in e <==> k in m;
    assert e == m;
  }

  lemma AttributesRead(a: AttributesSpec)
    ensures ReadAttributes(AttributesJson(a)) == Some(a)
  {
    assert |"includeProvenance"| != |"extra"|;
    var m2 := OptField("extra", if a.extra.None? then None else Some(MapJson(a.extra.value)), End);
    var flag := if a.includeProvenance.None? then None else Some(Bool(a.includeProvenance.value));
    assert Take(m2, "extra").1 == End;
    assert Take(OptField("includeProvenance", flag, m2), "includeProvenance") == (flag, m2);
    if a.extra.Some? { MapRead(a.extra.value); }
  }

  lemma SpecRead(s: BindingSpec)
    ensures ReadSpec(SpecJson(s)) == Some(s)
  {
    assert |"attributes"| != |"providers"|;
    if s.attributes.Some? { AttributesRead(s.attributes.value); }
    ProvidersRead(s.providers);
  }

  /** The spec that a text stands for. */
  function Decode(text: string): Option<BindingSpec> {
    var j := Read(text);
    if j.None? then None else ReadSpec(j.value)
  }

  /** Decoding the hashed text gives the spec back, for merge results and every other spec, */
  lemma RoundTrip(s: BindingSpec)
    ensures Decode(Encode(s)) == Some(s)
  {
    TextRead(SpecJson(s));
    SpecRead(s);
  }

  /** so the text tells the spec. */
  lemma EncodeInjective(s: BindingSpec, t: BindingSpec)
    requires Encode(s) == Encode(t)
    ensures s == t
  {
    RoundTrip(s);
    RoundTrip(t);
  }
}
