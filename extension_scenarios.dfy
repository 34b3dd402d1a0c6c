/**
 * Concrete documents of the kind the extension's own tests open, and the diagnostics
 * the validator publishes for them.
 */
module ExtensionScenarios {
  import opened Wrappers
  import opened JsonAst
  import opened PluginRegistry
  import opened Extension
  import ExtensionProperties

  /** A registry holding the one plugin the scenarios use. */
  const Registry0: Registry :=
    map["GenericRandomErrorPlugin" :=
      Snippet(Some(SnippetConfig(true, "devproxy-plugin-generic-random-error-config")))]

  function At(line: nat): Range
  {
    Range(line, 2, line, 20)
  }

  /** The plugin element: name, enabled flag and, optionally, the config section it names. */
  function PluginElement(enabled: bool, section: Option<string>): Node
  {
    var members := [
      Property(Identifier("name", At(4)), Literal(Str("GenericRandomErrorPlugin"), At(4)), At(4)),
      Property(Identifier("enabled", At(5)), Literal(Bool(enabled), At(5)), At(5))
    ];
    match section
    case None => Object(members, At(3))
    case Some(s) => Object(members + [Property(Identifier("configSection", At(6)), Literal(Str(s), At(6)), At(6))], At(3))
  }

  /** A document with one watched URL and one plugin element. */
  function Document(plugin: Node): seq<Property>
  {
    [
      Property(Identifier("urlsToWatch", At(1)),
               Array([Literal(Str("https://jsonplaceholder.typicode.com/*"), At(1))], At(1)), At(1)),
      Property(Identifier("plugins", At(2)), Array([plugin], At(2)), At(2))
    ]
  }

  /** The watch list is non-empty and the plugin list has one element: only that element can report. */
  lemma OnlyThePluginReports(plugin: Node)
    ensures Validate(Document(plugin), Registry0) == AsList(PluginDiagnostic(Document(plugin), plugin, Registry0))
  {
    var doc := Document(plugin);
    assert FindProperty(doc, "urlsToWatch") == Some(doc[0]);
    assert doc[1..][0] == doc[1];
    assert FindProperty(doc, "plugins") == Some(doc[1]);
    assert PluginNodes(doc) == [plugin];
    assert WatchListDiagnostics(doc) == Success([]);
    assert PluginListDiagnostics(doc) == Success([]);
    assert [plugin][..0] == [];
    var outcome := PluginDiagnostic(doc, plugin, Registry0);
    if outcome.Success? {
      assert [] + ToSeq(outcome.value) == ToSeq(outcome.value);
      assert [] + [] + ToSeq(outcome.value) == ToSeq(outcome.value);
    }
    assert PluginDiagnostics(doc, [plugin], Registry0) == AsList(outcome);
  }

  /** The members of the scenario's plugin element, found where the checks look for them. */
  lemma PluginMembers(enabled: bool, section: Option<string>)
    ensures var plugin := PluginElement(enabled, section);
            && FindProperty(plugin.properties, "name") == Some(plugin.properties[0])
            && FindProperty(plugin.properties, "enabled") == Some(plugin.properties[1])
            && ValueText(plugin.properties[0].value) == "GenericRandomErrorPlugin"
            && ValueText(plugin.properties[0].value) in Registry0
            && (section.None? <==> !Declares(plugin.properties, "configSection"))
            && (section.Some? ==> FindProperty(plugin.properties, "configSection") == Some(plugin.properties[2]))
  {
    var props := PluginElement(enabled, section).properties;
    assert props[1..][0] == props[1];
    if section.Some? {
      assert props[1..][1..][0] == props[2];
      assert props[1..][1..] == [props[2]];
    } else {
      assert props[1..][1..] == [];
    }
  }

  /**
   * A plugin that needs a config section and declares none: one diagnostic on the element,
   * an Error when the plugin is enabled and a Warning when it is disabled.
   */
  lemma RequiredSectionScenario(enabled: bool)
    ensures Validate(Document(PluginElement(enabled, None)), Registry0)
         == Success([Diagnostic(At(3), RequiresSectionMessage("GenericRandomErrorPlugin"), if enabled then Error else Warning)])
  {
    var plugin := PluginElement(enabled, None);
    PluginMembers(enabled, None);
    OnlyThePluginReports(plugin);
    ExtensionProperties.RequiredSectionReported(Document(plugin), plugin, Registry0, plugin.properties[0], plugin.properties[1]);
  }

  /**
   * A plugin naming a config section the document lacks: one diagnostic on the section's
   * value naming the section and the registry's snippet, Error or Warning as above.
   */
  lemma MissingSectionScenario(enabled: bool, sectionName: string)
    requires sectionName != "urlsToWatch" && sectionName != "plugins"
    ensures Validate(Document(PluginElement(enabled, Some(sectionName))), Registry0)
         == Success([Diagnostic(At(6),
                      MissingSectionMessage(sectionName, "devproxy-plugin-generic-random-error-config"),
                      if enabled then Error else Warning)])
  {
    var plugin := PluginElement(enabled, Some(sectionName));
    var doc := Document(plugin);
    var section := plugin.properties[2];
    PluginMembers(enabled, Some(sectionName));
    assert StringValue(section.value) == Some(sectionName);
    ExtensionProperties.MissingSectionReported(doc, plugin, Registry0, plugin.properties[0], plugin.properties[1], section);
    OnlyThePluginReports(plugin);
  }
}
