/**
 * Payload decoding (apollo/parser.go): the content types, the defaults the
 * client falls back on, and the default parser's dispatch on the content type.
 * JSON decoding itself (encoding/json) is foreign: a JsonCodec gives one
 * abstract, possibly failing, unmarshal function per target shape.
 */
module Parser {
  import opened Wrappers
  import opened Kitex

  /** ConfigType is a string in Go; any string can be declared. */
  type ConfigType = string

  const JSON: ConfigType := "json"
  const YAML: ConfigType := "yaml"

  const ApolloDefaultConfigServerURL := "127.0.0.1:8080"
  const ApolloDefaultAppId := "KitexApplication"
  const ApolloDefaultCluster := "default"
  const ApolloNameSpace := "{{.Category}}"
  const ApolloDefaultClientKey := "{{.ClientServiceName}}.{{.ServerServiceName}}"
  const ApolloDefaultServerKey := "{{.ServerServiceName}}"

  const UnsupportedTypePrefix := "unsupported config data type "

  /** json.Unmarshal into each target shape the adapters decode into. */
  datatype JsonCodec = JsonCodec(
    circuitBreak: string -> Result<map<string, CBConfig>>,
    retry: string -> Result<map<string, RetryPolicy>>,
    rpcTimeout: string -> Result<map<string, RPCTimeout>>,
    limiter: string -> Result<LimiterConfig>)

  /**
   * The ConfigParser interface: Decode(kind, data, &target), seen once per
   * target shape. Users may install any parser; the default one is below.
   */
  datatype ConfigParser = ConfigParser(
    decodeCircuitBreak: (ConfigType, string) -> Result<map<string, CBConfig>>,
    decodeRetry: (ConfigType, string) -> Result<map<string, RetryPolicy>>,
    decodeRPCTimeout: (ConfigType, string) -> Result<map<string, RPCTimeout>>,
    decodeLimiter: (ConfigType, string) -> Result<LimiterConfig>)

  /** The default parser's Decode: JSON and YAML both go to the JSON decoder. */
  function Decode<T>(kind: ConfigType, data: string, unmarshal: string -> Result<T>): (r: Result<T>)
    ensures r.Ok? ==> (kind == JSON || kind == YAML) && unmarshal(data) == r
    ensures kind != JSON && kind != YAML ==> r == Err(UnsupportedTypePrefix + kind)
    ensures kind == JSON || kind == YAML ==> r == unmarshal(data)
  {
    if kind == JSON || kind == YAML then unmarshal(data)
    else Err(UnsupportedTypePrefix + kind)
  }

  /** YAML payloads take exactly the JSON path. */
  lemma YamlDecodesAsJson<T>(data: string, unmarshal: string -> Result<T>)
    ensures Decode(YAML, data, unmarshal) == Decode(JSON, data, unmarshal) == unmarshal(data)
  {
  }

  /** defaultConfigParse: the parser whose every Decode dispatches as above. */
  function DefaultConfigParse(json: JsonCodec): (p: ConfigParser)
    ensures forall kind, data :: p.decodeCircuitBreak(kind, data) == Decode(kind, data, json.circuitBreak)
    ensures forall kind, data :: p.decodeRetry(kind, data) == Decode(kind, data, json.retry)
    ensures forall kind, data :: p.decodeRPCTimeout(kind, data) == Decode(kind, data, json.rpcTimeout)
    ensures forall kind, data :: p.decodeLimiter(kind, data) == Decode(kind, data, json.limiter)
  {
    ConfigParser(
      (kind, data) => Decode(kind, data, json.circuitBreak),
      (kind, data) => Decode(kind, data, json.retry),
      (kind, data) => Decode(kind, data, json.rpcTimeout),
      (kind, data) => Decode(kind, data, json.limiter))
  }

  /**
   * The default parser decodes a declared content type only when it is
   * JSON or YAML; every other declared type fails with the same message,
   * whatever the payload, for every target shape.
   */
  lemma DefaultParserRejectsUnsupported(json: JsonCodec, kind: ConfigType, data: string)
    requires kind != JSON && kind != YAML
    ensures DefaultConfigParse(json).decodeCircuitBreak(kind, data) == Err(UnsupportedTypePrefix + kind)
    ensures DefaultConfigParse(json).decodeRetry(kind, data) == Err(UnsupportedTypePrefix + kind)
    ensures DefaultConfigParse(json).decodeRPCTimeout(kind, data) == Err(UnsupportedTypePrefix + kind)
    ensures DefaultConfigParse(json).decodeLimiter(kind, data) == Err(UnsupportedTypePrefix + kind)
  {
  }
}
