/**
 * The typed lookups of PropServerConfiguration: each reads one key of the
 * flat `Properties` map, returns the supplied default when the key is absent,
 * and otherwise converts the raw text, failing with the key and the text.
 */
module PropertyGetters {
  import opened Wrappers
  import opened JavaLang

  /** `java.util.Properties` as the resolver reads it: key to raw text. */
  type Properties = map<string, string>

  /** `ServerConfigurationException(key, value)`: the key at fault and the text that failed. */
  datatype ConfigError = ConfigError(key: string, value: string)

  /**
   * The library routines whose code is not part of this model
   * (`Numbers.parseInt`, `parseIntSize`, `parseLong`, `parseDouble`, `ceilPow2`
   * and `Net.parseIPv4`); a parser answers None where Java throws.
   */
  datatype Numerics = Numerics(
    parseInt: string -> Option<Int32>,
    parseIntSize: string -> Option<Int32>,
    parseLong: string -> Option<Int64>,
    parseDouble: string -> Option<real>,
    parseIPv4: string -> Option<Int32>,
    ceilPow2: Int32 -> Int32)

  /** `getBoolean`: never fails; a present value is true only when it reads "true" in any case. */
  function GetBoolean(props: Properties, key: string, defaultValue: bool): (r: bool)
    ensures key !in props ==> r == defaultValue
    ensures key in props ==> (r <==> LowerCase(props[key]) == "true")
  {
    if key in props then
      ParseBooleanIsLowerCaseTrue(props[key]);
      ParseBoolean(props[key])
    else defaultValue
  }

  /** `getDouble`. */
  function GetDouble(nums: Numerics, props: Properties, key: string, defaultValue: real): (r: Result<real, ConfigError>)
    ensures key !in props ==> r == Success(defaultValue)
    ensures r.Failure? <==> key in props && nums.parseDouble(props[key]).None?
    ensures r.Failure? ==> r.error == ConfigError(key, props[key])
    ensures r.Success? && key in props ==> Some(r.value) == nums.parseDouble(props[key])
  {
    if key !in props then Success(defaultValue)
    else match nums.parseDouble(props[key])
      case Some(v) => Success(v)
      case None => Failure(ConfigError(key, props[key]))
  }

  /** `getInt`. */
  function GetInt(nums: Numerics, props: Properties, key: string, defaultValue: Int32): (r: Result<Int32, ConfigError>)
    ensures key !in props ==> r == Success(defaultValue)
    ensures r.Failure? <==> key in props && nums.parseInt(props[key]).None?
    ensures r.Failure? ==> r.error == ConfigError(key, props[key])
    ensures r.Success? && key in props ==> Some(r.value) == nums.parseInt(props[key])
  {
    if key !in props then Success(defaultValue)
    else match nums.parseInt(props[key])
      case Some(v) => Success(v)
      case None => Failure(ConfigError(key, props[key]))
  }

  /** `getIntSize`: like `getInt`, through the size parser. */
  function GetIntSize(nums: Numerics, props: Properties, key: string, defaultValue: Int32): (r: Result<Int32, ConfigError>)
    ensures key !in props ==> r == Success(defaultValue)
    ensures r.Failure? <==> key in props && nums.parseIntSize(props[key]).None?
    ensures r.Failure? ==> r.error == ConfigError(key, props[key])
    ensures r.Success? && key in props ==> Some(r.value) == nums.parseIntSize(props[key])
  {
    if key !in props then Success(defaultValue)
    else match nums.parseIntSize(props[key])
      case Some(v) => Success(v)
      case None => Failure(ConfigError(key, props[key]))
  }

  /** `getLong`. */
  function GetLong(nums: Numerics, props: Properties, key: string, defaultValue: Int64): (r: Result<Int64, ConfigError>)
    ensures key !in props ==> r == Success(defaultValue)
    ensures r.Failure? <==> key in props && nums.parseLong(props[key]).None?
    ensures r.Failure? ==> r.error == ConfigError(key, props[key])
    ensures r.Success? && key in props ==> Some(r.value) == nums.parseLong(props[key])
  {
    if key !in props then Success(defaultValue)
    else match nums.parseLong(props[key])
      case Some(v) => Success(v)
      case None => Failure(ConfigError(key, props[key]))
  }

  /** `getString`: the stored text verbatim, or the default. */
  function GetString(props: Properties, key: string, defaultValue: string): (r: string)
    ensures key in props ==> r == props[key]
    ensures key !in props ==> r == defaultValue
  {
    if key in props then props[key] else defaultValue
  }

  /**
   * `getIPv4Address`: unlike the numeric getters, the default is text and is
   * parsed too, so an absent key can still fail, naming the default.
   */
  function GetIPv4Address(nums: Numerics, props: Properties, key: string, defaultValue: string): (r: Result<Int32, ConfigError>)
    ensures key !in props ==> (r.Failure? <==> nums.parseIPv4(defaultValue).None?)
    ensures key !in props && r.Failure? ==> r.error == ConfigError(key, defaultValue)
    ensures key in props ==> (r.Failure? <==> nums.parseIPv4(props[key]).None?)
    ensures key in props && r.Failure? ==> r.error == ConfigError(key, props[key])
    ensures r.Success? ==> Some(r.value) == nums.parseIPv4(if key in props then props[key] else defaultValue)
  {
    var value := GetString(props, key, defaultValue);
    match nums.parseIPv4(value)
    case Some(v) => Success(v)
    case None => Failure(ConfigError(key, value))
  }
}
