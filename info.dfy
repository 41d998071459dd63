/** `getSwsrInfo()`: whether the page was produced by the worker, and in which mode. */
module Info {
  import opened Wrappers
  import opened Text
  import opened Typings

  datatype SwsrInfo = SwsrInfo(enabled: bool, hit: bool, mode: Option<string>)

  /** JavaScript truthiness of a value that is a string or undefined. */
  predicate Truthy(s: Option<string>) {
    s.Some? && s.value != ""
  }

  const OutsideBrowser := "Cannot invoke `getSwsrInfo` outside browser."

  /**
   * Fails outside a browser. `hit` is the truthiness of the mode marker;
   * `enabled` also holds, as a fallback, when the body still shows the
   * script placeholder; the mode is passed through unchanged.
   */
  function GetSwsrInfo<V>(window: Option<Window<V>>, scriptPlaceholder: string): (r: Result<SwsrInfo, string>)
    ensures window.None? ==> r == Failure(OutsideBrowser)
    ensures window.Some? ==> r.Success?
    ensures r.Success? ==> (r.value.hit <==> Truthy(window.value.mode))
    ensures r.Success? ==> (r.value.enabled <==> r.value.hit || Contains(window.value.bodyHtml, scriptPlaceholder))
    ensures r.Success? ==> r.value.mode == window.value.mode
  {
    if window.None? then Failure(OutsideBrowser)
    else
      var mode := window.value.mode;
      var hit := Truthy(mode);
      Success(SwsrInfo(hit || Contains(window.value.bodyHtml, scriptPlaceholder), hit, mode))
  }
}
