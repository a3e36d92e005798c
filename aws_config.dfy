/** Resources, their property maps, and how the AWS operations provider turns the
    stack configuration (or an explicit provider resource's outputs) into the five
    connection settings. Models `AWSOperationsProvider`'s configuration part and
    `getPropertyMapStringValue` in pkg/operations/operations_aws.go. */
module AwsConfig {
  import opened Wrappers

  /** A structured property value as stored in a resource's outputs. */
  datatype PropertyValue =
    | NullValue
    | BoolValue(b: bool)
    | NumberValue(n: real)
    | StringValue(str: string)
    | ArrayValue(elements: seq<PropertyValue>)
    | ObjectValue(fields: map<string, PropertyValue>)
    | ComputedValue
    | SecretValue(secret: PropertyValue)

  type PropertyMap = map<string, PropertyValue>

  /** A namespaced configuration key such as `aws:region`. */
  datatype ConfigKey = ConfigKey(namespace: string, name: string)

  type ConfigMap = map<ConfigKey, string>

  const RegionKey := ConfigKey("aws", "region")
  const AccessKey := ConfigKey("aws", "accessKey")
  const SecretKey := ConfigKey("aws", "secretKey")
  const TokenKey := ConfigKey("aws", "token")
  const ProfileKey := ConfigKey("aws", "profile")

  const NoRegionError := "no AWS region found"

  /** The engine's view of one resource: its URN, type token and outputs. */
  datatype ResourceState = ResourceState(urn: string, resourceType: string, outputs: PropertyMap)

  /** A resource of the stack, with the explicit provider resource it was created
      with, if any. */
  datatype Resource = Resource(state: ResourceState, provider: Option<Resource>)

  /** The five settings that identify an AWS connection. */
  datatype Settings = Settings(region: string, accessKey: string, secretKey: string, token: string, profile: string)

  /** `getPropertyMapStringValue`: the string stored under `k`, or "" when the key is
      absent or holds anything other than a string. */
  function GetPropertyMapStringValue(m: PropertyMap, k: string): (r: string)
    ensures k in m && m[k].StringValue? ==> r == m[k].str
    ensures r != "" ==> k in m && m[k] == StringValue(r)
  {
    if k !in m then ""
    else if !m[k].StringValue? then ""
    else m[k].str
  }

  /** A Go map read: a missing key reads as the zero value "". */
  function ConfigValue(config: ConfigMap, k: ConfigKey): string {
    if k in config then config[k] else ""
  }

  /** The settings an explicit provider's outputs supply. */
  function ProviderSettings(outputs: PropertyMap): Settings {
    Settings(
      GetPropertyMapStringValue(outputs, "region"),
      GetPropertyMapStringValue(outputs, "accessKey"),
      GetPropertyMapStringValue(outputs, "secretKey"),
      GetPropertyMapStringValue(outputs, "token"),
      GetPropertyMapStringValue(outputs, "profile"))
  }

  /** The configuration part of `AWSOperationsProvider`: the region key must be
      present in the stack configuration (checked before anything else); an explicit
      provider then replaces all five settings by its outputs. */
  function ResolveSettings(config: ConfigMap, component: Resource): (r: Result<Settings, string>)
    ensures r.Failure? <==> RegionKey !in config
    ensures r.Failure? ==> r.error == NoRegionError
    ensures r.Success? && component.provider.Some? ==>
      r.value == ProviderSettings(component.provider.value.state.outputs)
    ensures r.Success? && component.provider.None? ==>
      && r.value.region == config[RegionKey]
      && (AccessKey in config ==> r.value.accessKey == config[AccessKey])
      && (AccessKey !in config ==> r.value.accessKey == "")
      && (SecretKey in config ==> r.value.secretKey == config[SecretKey])
      && (SecretKey !in config ==> r.value.secretKey == "")
      && (TokenKey in config ==> r.value.token == config[TokenKey])
      && (TokenKey !in config ==> r.value.token == "")
      && (ProfileKey in config ==> r.value.profile == config[ProfileKey])
      && (ProfileKey !in config ==> r.value.profile == "")
  {
    if RegionKey !in config then Failure(NoRegionError)
    else
      var fromConfig := Settings(config[RegionKey], ConfigValue(config, AccessKey),
        ConfigValue(config, SecretKey), ConfigValue(config, TokenKey), ConfigValue(config, ProfileKey));
      match component.provider
      case Some(p) => Success(ProviderSettings(p.state.outputs))
      case None => Success(fromConfig)
  }

  /** The region check comes first: without `aws:region` the result is the error even
      when an explicit provider would have supplied a region. */
  lemma RegionRequiredEvenWithProvider(config: ConfigMap, component: Resource)
    requires RegionKey !in config
    requires component.provider.Some?
    requires "region" in component.provider.value.state.outputs
    ensures ResolveSettings(config, component) == Failure(NoRegionError)
  {
  }

  /** With an explicit provider no setting comes from the configuration: two
      configurations that both carry a region give the same settings. */
  lemma ProviderIgnoresConfigValues(c1: ConfigMap, c2: ConfigMap, component: Resource)
    requires RegionKey in c1 && RegionKey in c2
    requires component.provider.Some?
    ensures ResolveSettings(c1, component) == ResolveSettings(c2, component)
  {
  }

  /** A string output round-trips through `GetPropertyMapStringValue`; any other
      value under the key reads as "". */
  lemma StringOutputRoundTrip(m: PropertyMap, k: string, v: PropertyValue)
    ensures v.StringValue? ==> GetPropertyMapStringValue(m[k := v], k) == v.str
    ensures !v.StringValue? ==> GetPropertyMapStringValue(m[k := v], k) == ""
    ensures GetPropertyMapStringValue(m - {k}, k) == ""
  {
  }
}
