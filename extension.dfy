/**
 * The Dev Proxy configuration validator (updateDiagnostics): from the parsed syntax
 * tree of a config file and the plugin registry it builds the ordered list of
 * diagnostics the editor shows. A TypeError thrown on a malformed document aborts
 * the pass before anything is published; the model returns it as a Failure.
 */
module Extension {
  import opened Wrappers
  import opened JsonAst
  import opened PluginRegistry

  datatype Severity = Error | Warning | Information

  datatype Diagnostic = Diagnostic(range: Range, message: string, severity: Severity)

  /** Where a pass throws instead of publishing diagnostics. */
  datatype Crash =
    | WatchListNotAList         // `urlsToWatch` holds a literal, which has no children
    | PluginListNotAList        // `plugins` holds a literal, which has no children
    | PluginNotAnObject         // a plugin element has no members to search
    | PluginNameMissing         // a plugin element has no `name`
    | PluginEnabledMissing      // a plugin element has no `enabled`
    | PluginNotRegistered(name: string)  // the registry has no entry for the plugin's name

  const NoWatchListMessage := "No global urlsToWatch. Use --urls-to-watch option, or add urlsToWatch array to plugins."
  const EmptyWatchListMessage := "Add at least one global urlToWatch, use --urls-to-watch option, or add urlsToWatch array to plugins."
  const NoPluginsMessage := "No plugins. Add at least one plugin."
  const EmptyPluginsMessage := "Add at least one plugin"

  function MissingSectionMessage(section: string, snippet: string): string
  {
    section + " config section is missing. Use '" + snippet + "' snippet to create one."
  }

  function RequiresSectionMessage(plugin: string): string
  {
    plugin + " requires a config section."
  }

  /** Disabled plugins downgrade an error to a warning. */
  function SeverityFor(enabled: bool): (s: Severity)
  {
    if enabled then Error else Warning
  }

  /** The global watch-list rule. */
  function WatchListDiagnostics(doc: seq<Property>): Result<seq<Diagnostic>, Crash>
  {
    match FindProperty(doc, "urlsToWatch")
    case None => Success([Diagnostic(DocumentStart, NoWatchListMessage, Information)])
    case Some(p) =>
      match ChildCount(p.value)
      case None => Failure(WatchListNotAList)
      case Some(n) =>
        if n == 0 then Success([Diagnostic(p.key.loc, EmptyWatchListMessage, Warning)]) else Success([])
  }

  /**
   * The plugin-list rule. A non-empty object in place of the array is iterated as if it
   * were one, and its first member, not being an object node, throws at once.
   */
  function PluginListDiagnostics(doc: seq<Property>): Result<seq<Diagnostic>, Crash>
  {
    match FindProperty(doc, "plugins")
    case None => Success([Diagnostic(DocumentStart, NoPluginsMessage, Error)])
    case Some(p) =>
      match ChildCount(p.value)
      case None => Failure(PluginListNotAList)
      case Some(n) =>
        if n == 0 then Success([Diagnostic(p.key.loc, EmptyPluginsMessage, Warning)])
        else if p.value.Object? then Failure(PluginNotAnObject)
        else Success([])
  }

  /** The elements the per-plugin loop visits: those of a non-empty `plugins` array. */
  function PluginNodes(doc: seq<Property>): seq<Node>
  {
    match FindProperty(doc, "plugins")
    case Some(Property(_, Array(items, _), _)) => items
    case _ => []
  }

  /** The top-level key the config section value names, if it names one. */
  predicate SectionFound(doc: seq<Property>, section: Node)
  {
    match StringValue(section)
    case Some(s) => Declares(doc, s)
    case None => false
  }

  /** The per-plugin checks for one element of the `plugins` array. */
  function PluginDiagnostic(doc: seq<Property>, plugin: Node, registry: Registry): (r: Result<Option<Diagnostic>, Crash>)
    ensures r.Success? && r.value.Some? ==> r.value.value.severity != Information
  {
    if !plugin.Object? then Failure(PluginNotAnObject)
    else
      var props := plugin.properties;
      match FindProperty(props, "name")
      case None => Failure(PluginNameMissing)
      case Some(nameProp) =>
        match FindProperty(props, "enabled")
        case None => Failure(PluginEnabledMissing)
        case Some(enabledProp) =>
          var name := ValueText(nameProp.value);
          if name !in registry then Failure(PluginNotRegistered(name))
          else
            var snippet := registry[name];
            var severity := SeverityFor(ValueTruthy(enabledProp.value));
            match FindProperty(props, "configSection")
            case Some(sectionProp) =>
              if SectionFound(doc, sectionProp.value) then Success(None)
              else
                var message := MissingSectionMessage(ValueText(sectionProp.value), SnippetName(snippet));
                Success(Some(Diagnostic(RangeOf(sectionProp.value), message, severity)))
            case None =>
              if RequiresConfig(snippet) then
                Success(Some(Diagnostic(RangeOf(plugin), RequiresSectionMessage(name), severity)))
              else Success(None)
  }

  /** One element's outcome as a list of zero or one diagnostics. */
  function AsList(outcome: Result<Option<Diagnostic>, Crash>): Result<seq<Diagnostic>, Crash>
  {
    match outcome
    case Failure(e) => Failure(e)
    case Success(d) => Success(ToSeq(d))
  }

  /**
   * The per-plugin loop over `plugins`, in array order; the first element that throws
   * ends the pass. Each element adds at most one diagnostic, never an Information.
   */
  function PluginDiagnostics(doc: seq<Property>, plugins: seq<Node>, registry: Registry): (r: Result<seq<Diagnostic>, Crash>)
    ensures r.Success? ==> |r.value| <= |plugins|
    ensures r.Success? ==> forall d | d in r.value :: d.severity != Information
    decreases |plugins|
  {
    if plugins == [] then Success([])
    else
      var last := |plugins| - 1;
      match PluginDiagnostics(doc, plugins[..last], registry)
      case Failure(e) => Failure(e)
      case Success(before) =>
        var outcome := PluginDiagnostic(doc, plugins[last], registry);
        if outcome.Failure? then Failure(outcome.error)
        else Success(before + ToSeq(outcome.value))
  }

  /** The whole pass: watch-list rule, then plugin-list rule, then the per-plugin loop. */
  function Validate(doc: seq<Property>, registry: Registry): Result<seq<Diagnostic>, Crash>
  {
    Then(Then(WatchListDiagnostics(doc), PluginListDiagnostics(doc)),
         PluginDiagnostics(doc, PluginNodes(doc), registry))
  }

  /** One more element of the loop: its outcome is sequenced after the prefix's. */
  lemma PluginDiagnosticsStep(doc: seq<Property>, plugins: seq<Node>, k: nat, registry: Registry)
    requires k < |plugins|
    ensures PluginDiagnostics(doc, plugins[..k + 1], registry)
         == Then(PluginDiagnostics(doc, plugins[..k], registry), AsList(PluginDiagnostic(doc, plugins[k], registry)))
  {
    assert plugins[..k + 1][..k] == plugins[..k];
  }

  /**
   * A prefix of the plugin elements that throws makes the whole loop throw the same way.
   */
  lemma {:induction false} PrefixFailureIsFinal(doc: seq<Property>, plugins: seq<Node>, k: nat, registry: Registry)
    requires k <= |plugins|
    requires PluginDiagnostics(doc, plugins[..k], registry).Failure?
    ensures PluginDiagnostics(doc, plugins, registry) == PluginDiagnostics(doc, plugins[..k], registry)
    decreases |plugins|
  {
    if k < |plugins| {
      var last := |plugins| - 1;
      assert plugins[..last][..k] == plugins[..k];
      PrefixFailureIsFinal(doc, plugins[..last], k, registry);
    } else {
      assert plugins[..k] == plugins;
    }
  }

  /** The watch-list rule of updateDiagnostics: appends what it reports to `diagnostics`. */
  method CheckWatchList(doc: seq<Property>, diagnostics: seq<Diagnostic>) returns (r: Result<seq<Diagnostic>, Crash>)
    ensures r == Then(Success(diagnostics), WatchListDiagnostics(doc))
  {
    var urlsToWatchNode := FindProperty(doc, "urlsToWatch");
    if urlsToWatchNode.None? {
      return Success(diagnostics + [Diagnostic(DocumentStart, NoWatchListMessage, Information)]);
    }
    var count := ChildCount(urlsToWatchNode.value.value);
    if count.None? {
      return Failure(WatchListNotAList);
    }
    if count.value == 0 {
      return Success(diagnostics + [Diagnostic(urlsToWatchNode.value.key.loc, EmptyWatchListMessage, Warning)]);
    }
    assert diagnostics + [] == diagnostics;
    return Success(diagnostics);
  }

  /**
   * The plugin-list rule of updateDiagnostics: appends what it reports to `diagnostics`,
   * and hands back the elements the per-plugin loop is to visit.
   */
  method CheckPluginList(doc: seq<Property>, diagnostics: seq<Diagnostic>)
    returns (r: Result<seq<Diagnostic>, Crash>, pluginNodes: seq<Node>)
    ensures r == Then(Success(diagnostics), PluginListDiagnostics(doc))
    ensures pluginNodes == PluginNodes(doc)
  {
    pluginNodes := [];
    var pluginsNode := FindProperty(doc, "plugins");
    if pluginsNode.None? {
      return Success(diagnostics + [Diagnostic(DocumentStart, NoPluginsMessage, Error)]), pluginNodes;
    }
    var count := ChildCount(pluginsNode.value.value);
    if count.None? {
      return Failure(PluginListNotAList), pluginNodes;
    }
    if count.value == 0 {
      return Success(diagnostics + [Diagnostic(pluginsNode.value.key.loc, EmptyPluginsMessage, Warning)]), pluginNodes;
    }
    if pluginsNode.value.value.Object? {
      return Failure(PluginNotAnObject), pluginNodes;
    }
    pluginNodes := pluginsNode.value.value.items;
    assert diagnostics + [] == diagnostics;
    r := Success(diagnostics);
  }

  /**
   * The body of updateDiagnostics' per-plugin loop: appends what one plugin element
   * reports to `diagnostics`. The two checks are separate ifs, as in the source.
   */
  method CheckPlugin(doc: seq<Property>, pluginNode: Node, registry: Registry, diagnostics: seq<Diagnostic>)
    returns (r: Result<seq<Diagnostic>, Crash>)
    ensures r == Then(Success(diagnostics), AsList(PluginDiagnostic(doc, pluginNode, registry)))
  {
    if !pluginNode.Object? {
      return Failure(PluginNotAnObject);
    }
    var pluginNameNode := FindProperty(pluginNode.properties, "name");
    if pluginNameNode.None? {
      return Failure(PluginNameMissing);
    }
    var enabledNode := FindProperty(pluginNode.properties, "enabled");
    if enabledNode.None? {
      return Failure(PluginEnabledMissing);
    }
    var pluginName := ValueText(pluginNameNode.value.value);
    var isEnabled := ValueTruthy(enabledNode.value.value);
    if pluginName !in registry {
      return Failure(PluginNotRegistered(pluginName));
    }
    var pluginSnippet := registry[pluginName];
    var requiresConfig := RequiresConfig(pluginSnippet);
    var result := diagnostics;

    var configSectionNode := FindProperty(pluginNode.properties, "configSection");
    if configSectionNode.Some? {
      var sectionValue := configSectionNode.value.value;
      var configSectionName := StringValue(sectionValue);
      var configSection := if configSectionName.Some? then FindProperty(doc, configSectionName.value) else None;
      if configSection.None? {
        var message := MissingSectionMessage(ValueText(sectionValue), SnippetName(pluginSnippet));
        result := result + [Diagnostic(RangeOf(sectionValue), message, if isEnabled then Error else Warning)];
      }
    }
    if requiresConfig {
      if configSectionNode.None? {
        var message := RequiresSectionMessage(pluginName);
        result := result + [Diagnostic(RangeOf(pluginNode), message, if isEnabled then Error else Warning)];
      }
    }
    assert PluginDiagnostic(doc, pluginNode, registry).Success?;
    assert result == diagnostics + ToSeq(PluginDiagnostic(doc, pluginNode, registry).value);
    return Success(result);
  }

  /** A loop pass whose element throws ends the whole loop with that failure. */
  lemma CheckPluginsStepFails(doc: seq<Property>, plugins: seq<Node>, i: nat, registry: Registry,
                              diagnostics: seq<Diagnostic>, r: Result<seq<Diagnostic>, Crash>)
    requires i < |plugins|
    requires PluginDiagnostics(doc, plugins[..i], registry).Success?
    requires r.Failure? && r == AsList(PluginDiagnostic(doc, plugins[i], registry))
    ensures r == Then(Success(diagnostics), PluginDiagnostics(doc, plugins, registry))
  {
    PluginDiagnosticsStep(doc, plugins, i, registry);
    PrefixFailureIsFinal(doc, plugins, i + 1, registry);
    assert plugins[..|plugins|] == plugins;
  }

  /** A loop pass whose element succeeds extends the diagnostics of the prefix by its own. */
  lemma CheckPluginsStepSucceeds(doc: seq<Property>, plugins: seq<Node>, i: nat, registry: Registry,
                                 diagnostics: seq<Diagnostic>, emitted: seq<Diagnostic>, r: Result<seq<Diagnostic>, Crash>)
    returns (added: seq<Diagnostic>)
    requires i < |plugins|
    requires PluginDiagnostics(doc, plugins[..i], registry) == Success(emitted)
    requires r.Success? && r == Then(Success(diagnostics + emitted), AsList(PluginDiagnostic(doc, plugins[i], registry)))
    ensures r.value == diagnostics + (emitted + added)
    ensures PluginDiagnostics(doc, plugins[..i + 1], registry) == Success(emitted + added)
  {
    added := AsList(PluginDiagnostic(doc, plugins[i], registry)).value;
    PluginDiagnosticsStep(doc, plugins, i, registry);
  }

  /** The per-plugin loop of updateDiagnostics: runs the element checks in array order, appending to `diagnostics`. */
  method CheckPlugins(doc: seq<Property>, pluginNodes: seq<Node>, registry: Registry, diagnostics: seq<Diagnostic>)
    returns (r: Result<seq<Diagnostic>, Crash>)
    ensures r == Then(Success(diagnostics), PluginDiagnostics(doc, pluginNodes, registry))
  {
    var result := diagnostics;
    ghost var emitted: seq<Diagnostic> := [];
    assert pluginNodes[..0] == [] && result == diagnostics + emitted;
    var i := 0;
    while i < |pluginNodes|
      invariant 0 <= i <= |pluginNodes|
      invariant result == diagnostics + emitted
      invariant PluginDiagnostics(doc, pluginNodes[..i], registry) == Success(emitted)
    {
      r := CheckPlugin(doc, pluginNodes[i], registry, result);
      if r.Failure? {
        CheckPluginsStepFails(doc, pluginNodes, i, registry, diagnostics, r);
        return r;
      }
      ghost var added := CheckPluginsStepSucceeds(doc, pluginNodes, i, registry, diagnostics, emitted, r);
      result := r.value;
      emitted := emitted + added;
      i := i + 1;
    }
    assert pluginNodes[..i] == pluginNodes;
    return Success(result);
  }

  /**
   * updateDiagnostics itself: starts from an empty list, lets each rule append to it and
   * then runs the per-plugin loop; what it returns is what Validate describes.
   */
  method UpdateDiagnostics(document: Node, registry: Registry) returns (r: Result<seq<Diagnostic>, Crash>)
    requires document.Object?
    ensures r == Validate(document.properties, registry)
  {
    var doc := document.properties;
    var diagnostics: seq<Diagnostic> := [];

    r := CheckWatchList(doc, diagnostics);
    if r.Failure? {
      return r;
    }
    assert [] + WatchListDiagnostics(doc).value == WatchListDiagnostics(doc).value;
    diagnostics := r.value;
    var pluginNodes;
    r, pluginNodes := CheckPluginList(doc, diagnostics);
    if r.Failure? {
      return r;
    }
    diagnostics := r.value;
    r := CheckPlugins(doc, pluginNodes, registry, diagnostics);
  }
}
