/** `isWebCompiler`: whether the bundler's `target` option builds for the web. */
module Utils {

  /**
   * The `target` option: absent, a boolean, a string, an array of strings,
   * or any other object.
   */
  datatype Target = Undefined | Bool(b: bool) | Str(s: string) | Arr(items: seq<string>) | OtherObject

  /** JavaScript falsiness of a target value: `undefined`, `false` and the empty string. */
  predicate Falsy(t: Target) {
    t.Undefined? || t == Bool(false) || t == Str("")
  }

  /**
   * Falsy targets default to the web; a string must be "web" (the empty
   * string counts as falsy first); an array must include "web"; anything
   * else is not a web build.
   */
  function IsWebCompiler(target: Target): (web: bool)
    ensures Falsy(target) ==> web
    ensures target.Str? ==> (web <==> target.s == "web" || target.s == "")
    ensures target.Arr? ==> (web <==> "web" in target.items)
    ensures target == Bool(true) || target.OtherObject? ==> !web
  {
    if Falsy(target) then true
    else if target.Str? then target.s == "web"
    else if target.Arr? then "web" in target.items
    else false
  }
}
