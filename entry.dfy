/**
 * `createEntry`: the worker entry is the entry template (read from disk by
 * the plugin, an input here) with its build-time placeholders replaced:
 * every `{{mode}}`, then the first occurrence of each other placeholder in a
 * fixed order.
 */
module Entry {
  import opened Text
  import Constants

  /** The configured route: a string, or a regular expression given by its source. */
  datatype Route = RouteString(s: string) | RouteRegExp(source: string)

  datatype EntryVars = EntryVars(mode: string, app: string, worker: string, route: Route)

  /** The placeholders `createEntry` knows, `{{mode}}` first. */
  const Tokens := ["{{mode}}", "{{app}}", "{{worker}}", "{{routeString}}", "{{routeRegExp}}",
                   "{{ContentPlaceholder}}", "{{ScriptPlaceholder}}", "{{StreamRuntime}}"]

  /** What `{{routeString}}` becomes: the route when it is a string, the empty string otherwise. */
  function RouteStringText(route: Route): (t: string)
    ensures route.RouteString? ==> t == route.s
    ensures route.RouteRegExp? ==> t == ""
  {
    if route.RouteString? then route.s else ""
  }

  /** What `{{routeRegExp}}` becomes: the expression's source, or `^ $` for a string route. */
  function RouteRegExpText(route: Route): (t: string)
    ensures route.RouteRegExp? ==> t == route.source
    ensures route.RouteString? ==> t == "^ $"
  {
    if !route.RouteString? then route.source else "^ $"
  }

  /** The generated entry. */
  function CreateEntry(codeTemplate: string, v: EntryVars, scriptPlaceholder: string): string
  {
    var withMode := ReplaceAll(codeTemplate, "{{mode}}", v.mode);
    var withApp := ReplaceFirst(withMode, "{{app}}", v.app);
    var withWorker := ReplaceFirst(withApp, "{{worker}}", v.worker);
    var withRouteString := ReplaceFirst(withWorker, "{{routeString}}", RouteStringText(v.route));
    var withRouteRegExp := ReplaceFirst(withRouteString, "{{routeRegExp}}", RouteRegExpText(v.route));
    var withContent := ReplaceFirst(withRouteRegExp, "{{ContentPlaceholder}}", Constants.ContentPlaceholder);
    var withScript := ReplaceFirst(withContent, "{{ScriptPlaceholder}}", scriptPlaceholder);
    ReplaceFirst(withScript, "{{StreamRuntime}}", Constants.MinifiedStreamRuntime)
  }

  /**
   * A placeholder missing from the template leaves its step a no-op, so a
   * template without any of them comes back unchanged.
   */
  lemma CreateEntryWithoutPlaceholders(codeTemplate: string, v: EntryVars, scriptPlaceholder: string)
    requires forall k :: 0 <= k < |Tokens| ==> !Contains(codeTemplate, Tokens[k])
    ensures CreateEntry(codeTemplate, v, scriptPlaceholder) == codeTemplate
  {
    var t := codeTemplate;
    assert !Contains(t, Tokens[0]) && !Contains(t, Tokens[1]) && !Contains(t, Tokens[2]) && !Contains(t, Tokens[3]);
    assert !Contains(t, Tokens[4]) && !Contains(t, Tokens[5]) && !Contains(t, Tokens[6]) && !Contains(t, Tokens[7]);
    ReplaceAbsent(t, "{{mode}}", v.mode);
    ReplaceAbsent(t, "{{app}}", v.app);
    ReplaceAbsent(t, "{{worker}}", v.worker);
    ReplaceAbsent(t, "{{routeString}}", RouteStringText(v.route));
    ReplaceAbsent(t, "{{routeRegExp}}", RouteRegExpText(v.route));
    ReplaceAbsent(t, "{{ContentPlaceholder}}", Constants.ContentPlaceholder);
    ReplaceAbsent(t, "{{ScriptPlaceholder}}", scriptPlaceholder);
    ReplaceAbsent(t, "{{StreamRuntime}}", Constants.MinifiedStreamRuntime);
  }
}
