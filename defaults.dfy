/**
 * The platform key-value store that SettingsStore writes through
 * (Foundation's `UserDefaults`), reduced to what the settings use: a
 * registration layer of fallback values, filled by `register(defaults:)`,
 * under a persisted layer, written by `set(_:forKey:)`. A lookup takes the
 * persisted value when there is one and the registered value otherwise.
 */
module Defaults {
  import opened Optional

  /** A stored property-list value: the settings store only Booleans and strings. */
  datatype Value = BoolValue(b: bool) | StringValue(s: string)

  class UserDefaults {
    /** Fallbacks registered for this process; never written to disk. */
    var registration: map<string, Value>
    /** Values written by `set(_:forKey:)`, kept across launches. */
    var persisted: map<string, Value>

    /** A store as found at launch: what earlier runs persisted, nothing registered. */
    constructor (persisted: map<string, Value>)
      ensures this.persisted == persisted && registration == map[]
    {
      this.persisted := persisted;
      registration := map[];
    }

    /** `object(forKey:)`: the persisted layer wins; the registration layer only fills gaps. */
    function ObjectForKey(key: string): (r: Option<Value>)
      reads this
      ensures key in persisted ==> r == Some(persisted[key])
      ensures key !in persisted ==> (r.Some? <==> key in registration)
      ensures key !in persisted && key in registration ==> r == Some(registration[key])
    {
      if key in persisted then Some(persisted[key])
      else if key in registration then Some(registration[key])
      else None
    }

    /** `bool(forKey:)`: the Boolean found, and `false` when there is none. */
    function BoolForKey(key: string): (r: bool)
      reads this
      ensures r <==> ObjectForKey(key) == Some(BoolValue(true))
    {
      match ObjectForKey(key)
      case Some(BoolValue(b)) => b
      case _ => false
    }

    /** `string(forKey:)`: the string found, if any. */
    function StringForKey(key: string): (r: Option<string>)
      reads this
      ensures r.Some? <==> ObjectForKey(key).Some? && ObjectForKey(key).value.StringValue?
      ensures r.Some? ==> ObjectForKey(key) == Some(StringValue(r.value))
    {
      match ObjectForKey(key)
      case Some(StringValue(s)) => Some(s)
      case _ => None
    }

    /** `register(defaults:)`: merges into the registration layer; the persisted layer is untouched. */
    method Register(defaults: map<string, Value>)
      modifies this
      ensures registration == old(registration) + defaults
      ensures persisted == old(persisted)
    {
      registration := registration + defaults;
    }

    /** `set(_:forKey:)`: writes one key of the persisted layer. */
    method Set(value: Value, key: string)
      modifies this
      ensures persisted == old(persisted)[key := value]
      ensures registration == old(registration)
    {
      persisted := persisted[key := value];
    }
  }
}
