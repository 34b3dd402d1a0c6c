/**
 * What the validator promises about the diagnostics it builds: one lemma per rule
 * outcome, the order and count of the list, and exactly when a pass throws.
 */
module ExtensionProperties {
  import opened Wrappers
  import opened JsonAst
  import opened PluginRegistry
  import opened Extension

  /** No diagnostic in the list is an Information. */
  predicate NoInformation(ds: seq<Diagnostic>)
  {
    forall d | d in ds :: d.severity != Information
  }

  // ----- the watch-list rule -----

  /**
   * Without a global `urlsToWatch` the pass opens with exactly one Information at the
   * document start, followed by exactly what the plugin rules make of the document, which
   * holds no Information.
   */
  lemma WatchListAbsent(doc: seq<Property>, registry: Registry)
    requires !Declares(doc, "urlsToWatch")
    ensures Validate(doc, registry)
         == Then(Success([Diagnostic(DocumentStart, NoWatchListMessage, Information)]),
                 Then(PluginListDiagnostics(doc), PluginDiagnostics(doc, PluginNodes(doc), registry)))
    ensures Validate(doc, registry).Success? ==>
              var ds := Validate(doc, registry).value;
              |ds| >= 1 && ds[0] == Diagnostic(DocumentStart, NoWatchListMessage, Information)
              && NoInformation(ds[1..])
  {
    var rest := Then(PluginListDiagnostics(doc), PluginDiagnostics(doc, PluginNodes(doc), registry));
    ThenAssociative(WatchListDiagnostics(doc), PluginListDiagnostics(doc), PluginDiagnostics(doc, PluginNodes(doc), registry));
    if rest.Success? {
      PluginRulesNoInformation(doc, registry);
      var ds := Validate(doc, registry).value;
      assert ds == [Diagnostic(DocumentStart, NoWatchListMessage, Information)] + rest.value;
      assert ds[1..] == rest.value;
    }
  }

  /**
   * An empty global `urlsToWatch` opens the pass with exactly one Warning anchored to the
   * key (not to the empty array), followed by exactly what the plugin rules make of the
   * document; the pass holds no Information.
   */
  lemma WatchListEmpty(doc: seq<Property>, registry: Registry, watch: Property)
    requires FindProperty(doc, "urlsToWatch") == Some(watch)
    requires ChildCount(watch.value) == Some(0)
    ensures Validate(doc, registry)
         == Then(Success([Diagnostic(watch.key.loc, EmptyWatchListMessage, Warning)]),
                 Then(PluginListDiagnostics(doc), PluginDiagnostics(doc, PluginNodes(doc), registry)))
    ensures Validate(doc, registry).Success? ==>
              var ds := Validate(doc, registry).value;
              |ds| >= 1 && ds[0] == Diagnostic(watch.key.loc, EmptyWatchListMessage, Warning)
              && NoInformation(ds)
  {
    var rest := Then(PluginListDiagnostics(doc), PluginDiagnostics(doc, PluginNodes(doc), registry));
    ThenAssociative(WatchListDiagnostics(doc), PluginListDiagnostics(doc), PluginDiagnostics(doc, PluginNodes(doc), registry));
    if rest.Success? {
      PluginRulesNoInformation(doc, registry);
      var ds := Validate(doc, registry).value;
      assert ds == [Diagnostic(watch.key.loc, EmptyWatchListMessage, Warning)] + rest.value;
    }
  }

  /**
   * A non-empty global `urlsToWatch` (array or object) adds nothing: the pass is exactly
   * what the plugin rules make of the document, and it holds no Information.
   */
  lemma WatchListNonEmpty(doc: seq<Property>, registry: Registry, watch: Property)
    requires FindProperty(doc, "urlsToWatch") == Some(watch)
    requires ChildCount(watch.value).Some? && ChildCount(watch.value).value > 0
    ensures Validate(doc, registry) == Then(PluginListDiagnostics(doc), PluginDiagnostics(doc, PluginNodes(doc), registry))
    ensures Validate(doc, registry).Success? ==> NoInformation(Validate(doc, registry).value)
  {
    var rest := Then(PluginListDiagnostics(doc), PluginDiagnostics(doc, PluginNodes(doc), registry));
    ThenAssociative(WatchListDiagnostics(doc), PluginListDiagnostics(doc), PluginDiagnostics(doc, PluginNodes(doc), registry));
    if rest.Success? {
      assert [] + rest.value == rest.value;
      PluginRulesNoInformation(doc, registry);
    }
  }

  /** The plugin rules never report an Information. */
  lemma PluginRulesNoInformation(doc: seq<Property>, registry: Registry)
    ensures var rest := Then(PluginListDiagnostics(doc), PluginDiagnostics(doc, PluginNodes(doc), registry));
            rest.Success? ==> NoInformation(rest.value)
  {
  }

  lemma ThenAssociative<T, E>(x: Result<seq<T>, E>, y: Result<seq<T>, E>, z: Result<seq<T>, E>)
    ensures Then(Then(x, y), z) == Then(x, Then(y, z))
  {
    if x.Success? && y.Success? && z.Success? {
      assert (x.value + y.value) + z.value == x.value + (y.value + z.value);
    }
  }

  // ----- the plugin-list rule -----

  /**
   * Without a `plugins` key the pass reports one Error at the document start after the
   * watch-list rule, and the per-plugin loop has nothing to visit.
   */
  lemma PluginsAbsent(doc: seq<Property>, registry: Registry)
    requires !Declares(doc, "plugins")
    ensures PluginNodes(doc) == []
    ensures Validate(doc, registry) == Then(WatchListDiagnostics(doc), Success([Diagnostic(DocumentStart, NoPluginsMessage, Error)]))
  {
    assert PluginDiagnostics(doc, [], registry) == Success([]);
    NothingAfter(WatchListDiagnostics(doc), [Diagnostic(DocumentStart, NoPluginsMessage, Error)]);
  }

  /**
   * An empty `plugins` array (or object) gets one Warning anchored to the key after the
   * watch-list rule, and the per-plugin loop has nothing to visit.
   */
  lemma PluginsEmpty(doc: seq<Property>, registry: Registry, plugins: Property)
    requires FindProperty(doc, "plugins") == Some(plugins)
    requires ChildCount(plugins.value) == Some(0)
    ensures PluginNodes(doc) == []
    ensures Validate(doc, registry) == Then(WatchListDiagnostics(doc), Success([Diagnostic(plugins.key.loc, EmptyPluginsMessage, Warning)]))
  {
    assert PluginNodes(doc) == [];
    assert PluginDiagnostics(doc, [], registry) == Success([]);
    NothingAfter(WatchListDiagnostics(doc), [Diagnostic(plugins.key.loc, EmptyPluginsMessage, Warning)]);
  }

  /**
   * A non-empty `plugins` array adds no plugin-list diagnostic: the per-plugin loop visits
   * exactly its items, right after the watch-list rule.
   */
  lemma PluginsNonEmpty(doc: seq<Property>, registry: Registry, plugins: Property)
    requires FindProperty(doc, "plugins") == Some(plugins)
    requires plugins.value.Array? && |plugins.value.items| > 0
    ensures PluginNodes(doc) == plugins.value.items
    ensures Validate(doc, registry) == Then(WatchListDiagnostics(doc), PluginDiagnostics(doc, plugins.value.items, registry))
  {
    if WatchListDiagnostics(doc).Success? {
      assert WatchListDiagnostics(doc).value + [] == WatchListDiagnostics(doc).value;
    }
  }

  lemma NothingAfter(x: Result<seq<Diagnostic>, Crash>, ys: seq<Diagnostic>)
    ensures Then(Then(x, Success(ys)), Success([])) == Then(x, Success(ys))
  {
    if x.Success? {
      assert x.value + ys + [] == x.value + ys;
    }
  }

  // ----- the per-plugin checks, one element at a time -----

  /** The members of a plugin element the checks read, all present and its name registered. */
  predicate WellFormedPlugin(plugin: Node, registry: Registry, name: Property, enabled: Property)
  {
    && plugin.Object?
    && FindProperty(plugin.properties, "name") == Some(name)
    && FindProperty(plugin.properties, "enabled") == Some(enabled)
    && ValueText(name.value) in registry
  }

  /**
   * A plugin that names a config section no top-level key carries gets one diagnostic on
   * the section's value, naming the section and the registry's snippet; Error when the
   * plugin is enabled, Warning when not.
   */
  lemma MissingSectionReported(doc: seq<Property>, plugin: Node, registry: Registry,
                               name: Property, enabled: Property, section: Property)
    requires WellFormedPlugin(plugin, registry, name, enabled)
    requires FindProperty(plugin.properties, "configSection") == Some(section)
    requires forall q | q in doc :: StringValue(section.value) != Some(q.key.name)
    ensures PluginDiagnostic(doc, plugin, registry)
         == Success(Some(Diagnostic(section.value.loc,
                                    MissingSectionMessage(ValueText(section.value), SnippetName(registry[ValueText(name.value)])),
                                    if ValueTruthy(enabled.value) then Error else Warning)))
  {
  }

  /** A plugin whose config section exists at the top level gets no diagnostic, required or not. */
  lemma PresentSectionSilent(doc: seq<Property>, plugin: Node, registry: Registry,
                             name: Property, enabled: Property, section: Property, key: string)
    requires WellFormedPlugin(plugin, registry, name, enabled)
    requires FindProperty(plugin.properties, "configSection") == Some(section)
    requires StringValue(section.value) == Some(key) && Declares(doc, key)
    ensures PluginDiagnostic(doc, plugin, registry) == Success(None)
  {
  }

  /**
   * A plugin the registry says needs a config section, declaring none, gets one diagnostic
   * on the whole element naming the plugin; Error when enabled, Warning when not.
   */
  lemma RequiredSectionReported(doc: seq<Property>, plugin: Node, registry: Registry, name: Property, enabled: Property)
    requires WellFormedPlugin(plugin, registry, name, enabled)
    requires !Declares(plugin.properties, "configSection")
    requires RequiresConfig(registry[ValueText(name.value)])
    ensures PluginDiagnostic(doc, plugin, registry)
         == Success(Some(Diagnostic(plugin.loc, RequiresSectionMessage(ValueText(name.value)),
                                    if ValueTruthy(enabled.value) then Error else Warning)))
  {
  }

  /** A plugin that declares no config section and needs none gets no diagnostic. */
  lemma OptionalSectionSilent(doc: seq<Property>, plugin: Node, registry: Registry, name: Property, enabled: Property)
    requires WellFormedPlugin(plugin, registry, name, enabled)
    requires !Declares(plugin.properties, "configSection")
    requires !RequiresConfig(registry[ValueText(name.value)])
    ensures PluginDiagnostic(doc, plugin, registry) == Success(None)
  {
  }

  // ----- when a pass throws -----

  /** The plugin element makes the loop body throw: it is no object, lacks `name` or `enabled`, or its name is unregistered. */
  predicate Malformed(plugin: Node, registry: Registry)
  {
    || !plugin.Object?
    || !Declares(plugin.properties, "name")
    || !Declares(plugin.properties, "enabled")
    || ValueText(FindProperty(plugin.properties, "name").value.value) !in registry
  }

  lemma PluginFailsIffMalformed(doc: seq<Property>, plugin: Node, registry: Registry)
    ensures PluginDiagnostic(doc, plugin, registry).Failure? <==> Malformed(plugin, registry)
  {
  }

  /** The loop throws exactly when one of the elements it visits is malformed. */
  lemma PluginDiagnosticsFailIff(doc: seq<Property>, plugins: seq<Node>, registry: Registry)
    ensures PluginDiagnostics(doc, plugins, registry).Failure?
            <==> exists i | 0 <= i < |plugins| :: Malformed(plugins[i], registry)
  {
    if PluginDiagnostics(doc, plugins, registry).Failure? {
      var i := MalformedWitness(doc, plugins, registry);
    }
    if exists i | 0 <= i < |plugins| :: Malformed(plugins[i], registry) {
      var i :| 0 <= i < |plugins| && Malformed(plugins[i], registry);
      MalformedFails(doc, plugins, i, registry);
    }
  }

  /** A loop that throws has met a malformed element. */
  lemma {:induction false} MalformedWitness(doc: seq<Property>, plugins: seq<Node>, registry: Registry) returns (i: nat)
    requires PluginDiagnostics(doc, plugins, registry).Failure?
    ensures i < |plugins| && Malformed(plugins[i], registry)
    decreases |plugins|
  {
    var last := |plugins| - 1;
    PluginFailsIffMalformed(doc, plugins[last], registry);
    if PluginDiagnostics(doc, plugins[..last], registry).Failure? {
      i := MalformedWitness(doc, plugins[..last], registry);
      assert plugins[..last][i] == plugins[i];
    } else {
      i := last;
    }
  }

  /** A malformed element makes the loop throw, whatever surrounds it. */
  lemma MalformedFails(doc: seq<Property>, plugins: seq<Node>, k: nat, registry: Registry)
    requires k < |plugins| && Malformed(plugins[k], registry)
    ensures PluginDiagnostics(doc, plugins, registry).Failure?
  {
    PluginFailsIffMalformed(doc, plugins[k], registry);
    PluginDiagnosticsStep(doc, plugins, k, registry);
    PrefixFailureIsFinal(doc, plugins, k + 1, registry);
  }

  /** Running the loop over `a + b` is running it over `a` and then over `b`. */
  lemma {:induction false} PluginDiagnosticsAppend(doc: seq<Property>, a: seq<Node>, b: seq<Node>, registry: Registry)
    ensures PluginDiagnostics(doc, a + b, registry)
         == Then(PluginDiagnostics(doc, a, registry), PluginDiagnostics(doc, b, registry))
    decreases |b|
  {
    if b == [] {
      assert a + b == a;
      if PluginDiagnostics(doc, a, registry).Success? {
        assert PluginDiagnostics(doc, a, registry).value + [] == PluginDiagnostics(doc, a, registry).value;
      }
    } else {
      var last := |b| - 1;
      assert (a + b)[..|a + b| - 1] == a + b[..last];
      assert (a + b)[|a + b| - 1] == b[last];
      PluginDiagnosticsAppend(doc, a, b[..last], registry);
      ThenAssociative(PluginDiagnostics(doc, a, registry), PluginDiagnostics(doc, b[..last], registry),
                      AsList(PluginDiagnostic(doc, b[last], registry)));
    }
  }

  /**
   * The first malformed element decides the crash: elements after it are never looked at.
   */
  lemma FirstMalformedDecides(doc: seq<Property>, plugins: seq<Node>, k: nat, registry: Registry)
    requires k < |plugins| && Malformed(plugins[k], registry)
    requires forall j | 0 <= j < k :: !Malformed(plugins[j], registry)
    ensures PluginDiagnostics(doc, plugins, registry) == AsList(PluginDiagnostic(doc, plugins[k], registry))
  {
    PluginDiagnosticsFailIff(doc, plugins[..k], registry);
    assert forall j | 0 <= j < k :: plugins[..k][j] == plugins[j];
    PluginDiagnosticsStep(doc, plugins, k, registry);
    PluginFailsIffMalformed(doc, plugins[k], registry);
    PrefixFailureIsFinal(doc, plugins, k + 1, registry);
  }

  /** The top-level member `key` holds a literal, which has no children to count. */
  predicate HoldsLiteral(doc: seq<Property>, key: string)
  {
    match FindProperty(doc, key)
    case Some(p) => p.value.Literal?
    case None => false
  }

  /** `plugins` holds an object with members: iterating them throws on the first. */
  predicate PluginsHoldObject(doc: seq<Property>)
  {
    match FindProperty(doc, "plugins")
    case Some(p) => p.value.Object? && |p.value.properties| > 0
    case None => false
  }

  /**
   * A pass throws, and publishes nothing, exactly when `urlsToWatch` or `plugins` holds a
   * literal, `plugins` holds a non-empty object, or some plugin element is malformed.
   */
  lemma ValidateFailsIff(doc: seq<Property>, registry: Registry)
    ensures Validate(doc, registry).Failure? <==>
              || HoldsLiteral(doc, "urlsToWatch")
              || HoldsLiteral(doc, "plugins")
              || PluginsHoldObject(doc)
              || exists i | 0 <= i < |PluginNodes(doc)| :: Malformed(PluginNodes(doc)[i], registry)
  {
    ThenFailsIff(WatchListDiagnostics(doc), PluginListDiagnostics(doc));
    ThenFailsIff(Then(WatchListDiagnostics(doc), PluginListDiagnostics(doc)), PluginDiagnostics(doc, PluginNodes(doc), registry));
    WatchListFailsIff(doc);
    PluginListFailsIff(doc);
    PluginDiagnosticsFailIff(doc, PluginNodes(doc), registry);
  }

  lemma WatchListFailsIff(doc: seq<Property>)
    ensures WatchListDiagnostics(doc).Failure? <==> HoldsLiteral(doc, "urlsToWatch")
  {
  }

  lemma PluginListFailsIff(doc: seq<Property>)
    ensures PluginListDiagnostics(doc).Failure? <==> HoldsLiteral(doc, "plugins") || PluginsHoldObject(doc)
  {
  }

  lemma ThenFailsIff<T, E>(x: Result<seq<T>, E>, y: Result<seq<T>, E>)
    ensures Then(x, y).Failure? <==> x.Failure? || y.Failure?
  {
  }

  // ----- the shape of the list -----

  /**
   * Each plugin element adds at most one diagnostic, and the plugin-list rule adds one only
   * when the loop has nothing to visit: at most 2 + |plugins| diagnostics in all.
   */
  lemma DiagnosticCount(doc: seq<Property>, registry: Registry)
    ensures Validate(doc, registry).Success? ==> |Validate(doc, registry).value| <= 2 + |PluginNodes(doc)|
    ensures Validate(doc, registry).Success? && PluginNodes(doc) != [] ==>
              |Validate(doc, registry).value| <= 1 + |PluginNodes(doc)|
  {
  }

  /**
   * The per-plugin diagnostics come in array order: when every element is well formed the
   * loop's list is the concatenation of each element's diagnostic, element by element.
   */
  lemma {:induction false} PluginDiagnosticsInOrder(doc: seq<Property>, plugins: seq<Node>, registry: Registry, k: nat)
    requires k < |plugins|
    requires forall j | 0 <= j < |plugins| :: !Malformed(plugins[j], registry)
    ensures PluginDiagnostics(doc, plugins, registry).Success?
    ensures PluginDiagnostics(doc, plugins[..k], registry).Success?
    ensures PluginDiagnostic(doc, plugins[k], registry).Success?
    ensures PluginDiagnostics(doc, plugins[k + 1..], registry).Success?
    ensures PluginDiagnostics(doc, plugins, registry).value
         == PluginDiagnostics(doc, plugins[..k], registry).value
            + ToSeq(PluginDiagnostic(doc, plugins[k], registry).value)
            + PluginDiagnostics(doc, plugins[k + 1..], registry).value
  {
    assert plugins == plugins[..k] + [plugins[k]] + plugins[k + 1..];
    WellFormedPrefixSucceeds(doc, plugins, k, registry);
    WellFormedSuffixSucceeds(doc, plugins, k, registry);
    PluginFailsIffMalformed(doc, plugins[k], registry);
    PluginDiagnosticsSingle(doc, plugins[k], registry);
    PluginDiagnosticsAppend(doc, plugins[..k] + [plugins[k]], plugins[k + 1..], registry);
    PluginDiagnosticsAppend(doc, plugins[..k], [plugins[k]], registry);
  }

  lemma WellFormedPrefixSucceeds(doc: seq<Property>, plugins: seq<Node>, k: nat, registry: Registry)
    requires k <= |plugins|
    requires forall j | 0 <= j < |plugins| :: !Malformed(plugins[j], registry)
    ensures PluginDiagnostics(doc, plugins[..k], registry).Success?
  {
    PluginDiagnosticsFailIff(doc, plugins[..k], registry);
    assert forall j | 0 <= j < k :: plugins[..k][j] == plugins[j];
  }

  lemma WellFormedSuffixSucceeds(doc: seq<Property>, plugins: seq<Node>, k: nat, registry: Registry)
    requires k < |plugins|
    requires forall j | 0 <= j < |plugins| :: !Malformed(plugins[j], registry)
    ensures PluginDiagnostics(doc, plugins[k + 1..], registry).Success?
  {
    PluginDiagnosticsFailIff(doc, plugins[k + 1..], registry);
    assert forall j | k + 1 <= j < |plugins| :: plugins[k + 1..][j - k - 1] == plugins[j];
  }

  /** The loop over a single element is that element's own check. */
  lemma PluginDiagnosticsSingle(doc: seq<Property>, plugin: Node, registry: Registry)
    ensures PluginDiagnostics(doc, [plugin], registry) == AsList(PluginDiagnostic(doc, plugin, registry))
  {
    assert [plugin][..0] == [];
    var outcome := PluginDiagnostic(doc, plugin, registry);
    if outcome.Success? {
      assert [] + ToSeq(outcome.value) == ToSeq(outcome.value);
    }
  }


  // ----- no state between passes -----

  /**
   * Two passes over the same tree and registry give the same outcome. This is no separate
   * proof: UpdateDiagnostics modifies nothing and its result is fixed by Validate, so the
   * model carries no state between passes by construction.
   */
  method RevalidateUnchanged(document: Node, registry: Registry) returns (first: Result<seq<Diagnostic>, Crash>, second: Result<seq<Diagnostic>, Crash>)
    requires document.Object?
    ensures first == second
    ensures first.Success? ==> |first.value| <= 2 + |PluginNodes(document.properties)|
  {
    first := UpdateDiagnostics(document, registry);
    second := UpdateDiagnostics(document, registry);
    DiagnosticCount(document.properties, registry);
  }
}
