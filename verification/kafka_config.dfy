/** The streams configuration loader: the property set for a streams application,
    with the Confluent Cloud settings layered over a base set when cloud settings
    are given, and the serde configuration derived from it. A `Properties` object
    is a map from key to value. */
module KafkaConfig {
  import opened Wrappers

  type Properties = map<string, string>

  /** Keys read from the cloud settings. */
  const CcBroker: string := "CC_BROKER"
  const CcSchemaRegistryUrl: string := "CC_SCHEMA_REGISTRY_URL"
  const KafkaKeyId: string := "KAFKA_KEY_ID"
  const KafkaKeySecret: string := "KAFKA_KEY_SECRET"
  const SchemaRegistryKeyId: string := "SCHEMA_REGISTRY_KEY_ID"
  const SchemaRegistryKeySecret: string := "SCHEMA_REGISTRY_KEY_SECRET"

  /** Keys written, as the Kafka Streams and schema-registry client libraries name
      them. */
  const BootstrapServers: string := "bootstrap.servers"
  const ApplicationId: string := "application.id"
  const SchemaRegistryUrl: string := "schema.registry.url"
  const BasicAuthCredentialsSource: string := "basic.auth.credentials.source"
  const UserInfo: string := "basic.auth.user.info"
  const SaslMechanism: string := "sasl.mechanism"
  const SecurityProtocol: string := "security.protocol"
  const ClientDnsLookup: string := "client.dns.lookup"
  const SaslJaasConfig: string := "sasl.jaas.config"
  const AutoRegisterSchemas: string := "auto.register.schemas"

  /** `load`: no path gives an empty set; with a path, the set read from the file
      or the classpath resource, which is given as `loaded`. */
  function Load(filePath: Option<string>, loaded: Properties): (p: Properties)
    ensures filePath.None? ==> p == map[]
    ensures filePath.Some? ==> p == loaded
  {
    if filePath.None? then map[] else loaded
  }

  /** The JAAS login of the PLAIN mechanism for a key and its secret. */
  const PlainLoginModule: string := "org.apache.kafka.common.security.plain.PlainLoginModule"

  function JaasConfig(key: string, secret: string): string {
    PlainLoginModule + " required username='" + key + "' password='" + secret + "';"
  }

  /** The settings the cloud branch always writes first. */
  function WithSecurity(m: Properties): Properties {
    m[SaslMechanism := "PLAIN"][SecurityProtocol := "SASL_SSL"][ClientDnsLookup := "use_all_dns_ips"]
  }

  /** An optional setting: written when there is a value. */
  function PutSome(m: Properties, k: string, v: Option<string>): Properties {
    if v.Some? then m[k := v.value] else m
  }

  /** The optional settings, each present when the cloud settings it is made of
      are. */
  function BrokerOf(cloud: Properties): Option<string> {
    if CcBroker in cloud then Some(cloud[CcBroker]) else None
  }

  function JaasOf(cloud: Properties): Option<string> {
    if KafkaKeyId in cloud && KafkaKeySecret in cloud then Some(JaasConfig(cloud[KafkaKeyId], cloud[KafkaKeySecret])) else None
  }

  function RegistryUrlOf(cloud: Properties): Option<string> {
    if CcSchemaRegistryUrl in cloud then Some(cloud[CcSchemaRegistryUrl]) else None
  }

  function UserInfoOf(cloud: Properties): Option<string> {
    if SchemaRegistryKeyId in cloud && SchemaRegistryKeySecret in cloud
    then Some(cloud[SchemaRegistryKeyId] + ":" + cloud[SchemaRegistryKeySecret]) else None
  }

  /** The writes of the cloud branch over `base`, in order, for given values of
      the optional settings. */
  function Layered(applicationId: string, base: Properties, broker: Option<string>, jaas: Option<string>,
                   registryUrl: Option<string>, userInfo: Option<string>): Properties {
    var beforeSource := PutSome(PutSome(PutSome(WithSecurity(base), BootstrapServers, broker), SaslJaasConfig, jaas),
                                SchemaRegistryUrl, registryUrl);
    PutSome(beforeSource[BasicAuthCredentialsSource := "USER_INFO"], UserInfo, userInfo)
      [AutoRegisterSchemas := "true"][ApplicationId := applicationId]
  }

  /** The properties of the cloud branch. */
  function CloudProperties(applicationId: string, base: Properties, cloud: Properties): Properties {
    Layered(applicationId, base, BrokerOf(cloud), JaasOf(cloud), RegistryUrlOf(cloud), UserInfoOf(cloud))
  }

  /** `setupCloudStreamsConfig`: a fresh set holding the base set, then the cloud
      settings when there are any, and the application id. */
  method SetupCloudStreamsConfig(applicationId: string, base: Properties, cloud: Option<Properties>) returns (properties: Properties)
    ensures cloud.Some? && |cloud.value| > 0 ==> properties == CloudProperties(applicationId, base, cloud.value)
    ensures !(cloud.Some? && |cloud.value| > 0) ==> properties == base[ApplicationId := applicationId]
  {
    properties := map[];
    properties := properties + base;
    assert properties == base;
    if cloud.Some? && |cloud.value| > 0 {
      var c := cloud.value;
      properties := properties[SaslMechanism := "PLAIN"];
      properties := properties[SecurityProtocol := "SASL_SSL"];
      properties := properties[ClientDnsLookup := "use_all_dns_ips"];
      assert properties == WithSecurity(base);
      ghost var before := properties;
      if CcBroker in c {
        properties := properties[BootstrapServers := c[CcBroker]];
      }
      assert properties == PutSome(before, BootstrapServers, BrokerOf(c));
      before := properties;
      if KafkaKeyId in c && KafkaKeySecret in c {
        var jaas := JaasConfig(c[KafkaKeyId], c[KafkaKeySecret]);
        properties := properties[SaslJaasConfig := jaas];
      }
      assert properties == PutSome(before, SaslJaasConfig, JaasOf(c));
      before := properties;
      if CcSchemaRegistryUrl in c {
        properties := properties[SchemaRegistryUrl := c[CcSchemaRegistryUrl]];
      }
      assert properties == PutSome(before, SchemaRegistryUrl, RegistryUrlOf(c));
      properties := properties[BasicAuthCredentialsSource := "USER_INFO"];
      before := properties;
      if SchemaRegistryKeyId in c && SchemaRegistryKeySecret in c {
        var userInfo := c[SchemaRegistryKeyId] + ":" + c[SchemaRegistryKeySecret];
        properties := properties[UserInfo := userInfo];
      }
      assert properties == PutSome(before, UserInfo, UserInfoOf(c));
      properties := properties[AutoRegisterSchemas := "true"];
    }
    properties := properties[ApplicationId := applicationId];
  }

  /** The keys the cloud branch writes. */
  function WrittenKeys(): set<string> {
    {SaslMechanism, SecurityProtocol, ClientDnsLookup, BootstrapServers, SaslJaasConfig, SchemaRegistryUrl,
     BasicAuthCredentialsSource, UserInfo, AutoRegisterSchemas, ApplicationId}
  }

  /** With cloud settings, the security, credentials-source and schema
      registration settings and the application id are always set. */
  lemma CloudFixedSettings(applicationId: string, base: Properties, cloud: Properties)
    ensures var p := CloudProperties(applicationId, base, cloud);
            SaslMechanism in p && p[SaslMechanism] == "PLAIN" &&
            SecurityProtocol in p && p[SecurityProtocol] == "SASL_SSL" &&
            ClientDnsLookup in p && p[ClientDnsLookup] == "use_all_dns_ips" &&
            BasicAuthCredentialsSource in p && p[BasicAuthCredentialsSource] == "USER_INFO" &&
            AutoRegisterSchemas in p && p[AutoRegisterSchemas] == "true" &&
            ApplicationId in p && p[ApplicationId] == applicationId
  {
  }

  /** The broker comes from the cloud settings when present, and otherwise stays
      as in the base set. */
  lemma CloudBroker(applicationId: string, base: Properties, cloud: Properties)
    ensures var p := CloudProperties(applicationId, base, cloud);
            (CcBroker in cloud ==> BootstrapServers in p && p[BootstrapServers] == cloud[CcBroker]) &&
            (CcBroker !in cloud ==> (BootstrapServers in p <==> BootstrapServers in base) &&
                                    (BootstrapServers in base ==> p[BootstrapServers] == base[BootstrapServers]))
  {
  }

  /** The registry URL comes from the cloud settings when present, and otherwise
      stays as in the base set. */
  lemma CloudRegistryUrl(applicationId: string, base: Properties, cloud: Properties)
    ensures var p := CloudProperties(applicationId, base, cloud);
            (CcSchemaRegistryUrl in cloud ==> SchemaRegistryUrl in p && p[SchemaRegistryUrl] == cloud[CcSchemaRegistryUrl]) &&
            (CcSchemaRegistryUrl !in cloud ==> (SchemaRegistryUrl in p <==> SchemaRegistryUrl in base) &&
                                               (SchemaRegistryUrl in base ==> p[SchemaRegistryUrl] == base[SchemaRegistryUrl]))
  {
  }

  /** The JAAS login is written only when both halves of the Kafka key are in the
      cloud settings, and otherwise stays as in the base set. */
  lemma CloudJaas(applicationId: string, base: Properties, cloud: Properties)
    ensures var p := CloudProperties(applicationId, base, cloud);
            (KafkaKeyId in cloud && KafkaKeySecret in cloud ==>
               SaslJaasConfig in p && p[SaslJaasConfig] == JaasConfig(cloud[KafkaKeyId], cloud[KafkaKeySecret])) &&
            (!(KafkaKeyId in cloud && KafkaKeySecret in cloud) ==>
               (SaslJaasConfig in p <==> SaslJaasConfig in base) &&
               (SaslJaasConfig in base ==> p[SaslJaasConfig] == base[SaslJaasConfig]))
  {
  }

  /** The registry user info is `id:secret` when both halves of the registry key
      are in the cloud settings, and otherwise stays as in the base set. */
  lemma CloudUserInfo(applicationId: string, base: Properties, cloud: Properties)
    ensures var p := CloudProperties(applicationId, base, cloud);
            (SchemaRegistryKeyId in cloud && SchemaRegistryKeySecret in cloud ==>
               UserInfo in p && p[UserInfo] == cloud[SchemaRegistryKeyId] + ":" + cloud[SchemaRegistryKeySecret]) &&
            (!(SchemaRegistryKeyId in cloud && SchemaRegistryKeySecret in cloud) ==>
               (UserInfo in p <==> UserInfo in base) && (UserInfo in base ==> p[UserInfo] == base[UserInfo]))
  {
  }

  /** Every key the cloud branch does not write keeps its base value, and no key
      is dropped. */
  lemma CloudKeepsBase(applicationId: string, base: Properties, cloud: Properties)
    ensures var p := CloudProperties(applicationId, base, cloud);
            base.Keys <= p.Keys && p.Keys <= base.Keys + WrittenKeys() &&
            forall k :: k in base && k !in WrittenKeys() ==> p[k] == base[k]
  {
  }

  /** `mkSerdeConfig`: the registry URL, plus the user info and USER_INFO as the
      credentials source when the other properties carry user info. */
  method MkSerdeConfig(schemaRegistryUrl: string, otherProps: Properties) returns (config: Properties)
    ensures SchemaRegistryUrl in config && config[SchemaRegistryUrl] == schemaRegistryUrl
    ensures UserInfo in config <==> UserInfo in otherProps
    ensures BasicAuthCredentialsSource in config <==> UserInfo in otherProps
    ensures UserInfo in otherProps ==> config[UserInfo] == otherProps[UserInfo] && config[BasicAuthCredentialsSource] == "USER_INFO"
    ensures config.Keys <= {SchemaRegistryUrl, UserInfo, BasicAuthCredentialsSource}
  {
    config := map[];
    config := config[SchemaRegistryUrl := schemaRegistryUrl];
    if UserInfo in otherProps {
      var userInfo := otherProps[UserInfo];
      config := config[UserInfo := userInfo];
      config := config[BasicAuthCredentialsSource := "USER_INFO"];
    }
  }
}
