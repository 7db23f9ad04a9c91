/** The settings dictionary shared by the window, the settings dialog, the worker and the manager. */
module AppSettings {

  /** A JSON value as the settings file holds it. */
  datatype Value = Bool(b: bool) | Str(s: string) | Int(i: int)

  type Settings = map<string, Value>

  /** Python truthiness of a settings value. */
  predicate Truthy(v: Value) {
    match v
    case Bool(b) => b
    case Str(s) => s != ""
    case Int(i) => i != 0
  }

  /** `bool(settings.get(key, default))`. */
  predicate GetFlag(settings: Settings, key: string, default: bool) {
    if key in settings then Truthy(settings[key]) else default
  }

  /** `settings.get(key, default)` where the value is used as a string. */
  function GetText(settings: Settings, key: string, default: string): string {
    if key in settings && settings[key].Str? then settings[key].s else default
  }
}
