/** The configuration check performed by Stromboli.start before building. */
module Config {
  import Common

  /** The JavaScript values a configuration or one of its properties can hold. */
  datatype JsValue =
    | Undefined
    | Null
    | Boolean(b: bool)
    | Number(n: real)
    | NaN
    | Str(s: string)
    | Object(properties: map<string, JsValue>)

  /** JavaScript truthiness. */
  predicate Truthy(v: JsValue)
  {
    match v
    case Undefined => false
    case Null => false
    case Boolean(b) => b
    case Number(n) => n != 0.0
    case NaN => false
    case Str(s) => s != ""
    case Object(_) => true
  }

  /** Property access: a property an object lacks, or any property of a primitive, reads as undefined. */
  function Get(v: JsValue, key: string): JsValue
  {
    if v.Object? && key in v.properties then v.properties[key] else Undefined
  }

  /**
   * checkConfig: a configuration is accepted only if it is present and
   * both its projectName and its projectVersion are truthy.
   */
  function CheckConfig(config: JsValue): (ok: bool)
    ensures ok <==>
      && config.Object?
      && "projectName" in config.properties && Truthy(config.properties["projectName"])
      && "projectVersion" in config.properties && Truthy(config.properties["projectVersion"])
  {
    if !Truthy(config) then false
    else if !Truthy(Get(config, "projectName")) then false
    else if !Truthy(Get(config, "projectVersion")) then false
    else true
  }

  const InvalidConfig := "Invalid config file passed as parameter"

  /**
   * The throw at the head of start, on the configuration after its merge
   * with the defaults: it throws the invalid-configuration message exactly
   * when the configuration is no object, or lacks a truthy projectName or a
   * truthy projectVersion. What start may throw later is not modelled.
   */
  function StartError(config: JsValue): (thrown: Common.Option<string>)
    ensures thrown.Some? <==>
      || !config.Object?
      || "projectName" !in config.properties || !Truthy(config.properties["projectName"])
      || "projectVersion" !in config.properties || !Truthy(config.properties["projectVersion"])
    ensures thrown.Some? ==> thrown.value == InvalidConfig
  {
    if !CheckConfig(config) then Common.Some(InvalidConfig) else Common.None
  }

  /** With string-valued fields, the check asks exactly that both are non-empty. */
  lemma CheckConfigOnStrings(name: string, version: string, rest: map<string, JsValue>)
    ensures CheckConfig(Object(rest["projectName" := Str(name)]["projectVersion" := Str(version)]))
        <==> name != "" && version != ""
  {
  }
}
