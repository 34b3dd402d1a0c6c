# Dev Proxy configuration validator, in Dafny

This project models the diagnostics engine of the Dev Proxy Toolkit editor extension:
`updateDiagnostics` in `src/extension.ts`. The engine takes the parsed syntax tree of a Dev Proxy
configuration file and the plugin registry. It returns the ordered list of diagnostics the editor
shows. Each diagnostic has a range, a message and a severity (Error, Warning or Information).
Three rule groups produce them:

- **Global watch list.** A missing `urlsToWatch` key gives an Information at the document start.
  An empty one gives a Warning on the key.
- **Plugin list.** A missing `plugins` key gives an Error at the document start. An empty one gives
  a Warning on the key.
- **Per-plugin checks.** These run in array order. A `configSection` that names no top-level key
  gives a diagnostic on the section value. A plugin the registry marks as needing config, with no
  `configSection`, gives a diagnostic on the whole element. Both are Errors for enabled plugins
  and Warnings for disabled ones.

Modules:

- `Wrappers` (`wrappers.dfy`): `Option`, `Result` and `Then`. `Then` sequences two outcomes, and
  the first failure wins.
- `JsonAst` (`json_ast.dfy`): the json-to-ast tree (`Object`, `Array`, `Literal` nodes, each with a
  `Range`). It also holds the node locator `FindProperty` (getASTNode), the range resolver `RangeOf`
  (getRangeFromASTNode), and the JavaScript coercions the engine relies on: `.children.length`,
  `String(node.value)` and the truthiness of `node.value`.
- `PluginRegistry` (`plugin_registry.dfy`): `pluginSnippets` as a read-only `map<string, Snippet>`.
- `Extension` (`extension.dfy`): the engine. The specification functions are `WatchListDiagnostics`,
  `PluginListDiagnostics`, `PluginDiagnostic`, `PluginDiagnostics` and `Validate`. The imperative
  engine `UpdateDiagnostics` starts from an empty list and appends to it. Its parts are
  `CheckWatchList`, `CheckPluginList`, the loop `CheckPlugins` and the loop body `CheckPlugin`.
  Each part is proved equal to its specification function.
- `ExtensionProperties` (`extension_properties.dfy`): what the engine promises, as lemmas.
- `ExtensionScenarios` (`extension_scenarios.dfy`): documents like the ones the extension's editor
  tests open, with the diagnostics they get.

A pass that throws a TypeError publishes nothing. The model returns such a pass as
`Failure(Crash)`. Following the code, these inputs throw:

- a `urlsToWatch` or `plugins` value that is a literal, because a literal has no `children`;
- a non-empty object as the `plugins` value, because its members are iterated as plugin nodes;
- a plugin element that is not an object;
- a plugin element without `name` (line 121) or without `enabled` (line 128), because
  `(x?.value).value` still reads `.value` of `undefined`;
- a plugin name with no registry entry (line 131).

Where the intended behaviour and the code could differ, the model follows the code:

- One might expect a malformed plugin element to be skipped while its siblings are still checked,
  and an unknown plugin name to be reported. In the code, both abort the whole pass.
- The editor test at `src/test/extension.test.ts:28-44` expects an Error "Add at least one url to
  watch.". The code emits an Information with a different text, and the model follows the code
  (`WatchListAbsent`).
- The "disabled, config section missing" test (`src/test/extension.test.ts:7`, `:100-116`) reuses
  the enabled fixture. So it expects an Error. `MissingSectionScenario` states both severities.

## Model

| member | source | states |
|---|---|---|
| `JsonAst.FindProperty` | src/extension.ts:56-60 | getASTNode finds nothing exactly when no member has the key, and whatever it finds is a member carrying that key |
| `JsonAst.FindPropertyFirstMatch` | src/extension.ts:85-89 | with a repeated key, the member found is the first one: every earlier member has a different key |
| `Extension.PluginDiagnostic` | src/extension.ts:116-178 | a single plugin element never produces an Information diagnostic |
| `Extension.PluginDiagnostics` | src/extension.ts:115-179 | the forEach loop adds at most one diagnostic per element and never an Information |
| `Extension.PrefixFailureIsFinal` | src/extension.ts:115-179 | once an element throws, the whole loop throws that way, whatever follows |
| `Extension.CheckWatchList` | src/extension.ts:55-82 | the watch-list rule's pushes onto the list equal `WatchListDiagnostics`, including the throw on a literal value |
| `Extension.CheckPluginList` | src/extension.ts:84-112 | the plugin-list rule's pushes equal `PluginListDiagnostics`, and the nodes it hands to the loop are those of a non-empty `plugins` array |
| `Extension.CheckPlugin` | src/extension.ts:116-178 | the loop body, with its two separate ifs, appends exactly what `PluginDiagnostic` gives (at most one diagnostic) or throws as it does |
| `Extension.CheckPlugins` | src/extension.ts:115-179 | the loop appends the elements' diagnostics in array order and stops at the first element that throws, as `PluginDiagnostics` says |
| `Extension.UpdateDiagnostics` | src/extension.ts:47-183 | the list built by pushing, rule by rule and element by element, is `Validate` of the tree and registry |
| `ExtensionProperties.WatchListAbsent` | src/extension.ts:62-73 | with no `urlsToWatch` key, the pass is exactly one Information at (0,0)-(0,0) followed by what the plugin rules produce, and no other diagnostic is an Information |
| `ExtensionProperties.WatchListEmpty` | src/extension.ts:62-82 | an empty `urlsToWatch` gives exactly one Warning on the key's range, not the value's, followed by exactly what the plugin rules produce, and no diagnostic is an Information |
| `ExtensionProperties.WatchListNonEmpty` | src/extension.ts:62-82 | a non-empty `urlsToWatch` adds nothing: the pass is exactly what the plugin rules produce |
| `ExtensionProperties.PluginsAbsent` | src/extension.ts:85-113 | with no `plugins` key, one Error "No plugins..." at (0,0)-(0,0) follows the watch-list diagnostics, and the per-plugin loop visits nothing |
| `ExtensionProperties.PluginsEmpty` | src/extension.ts:90-113 | an empty `plugins` gives one Warning on the key's range after the watch-list diagnostics, and the loop visits nothing |
| `ExtensionProperties.PluginsNonEmpty` | src/extension.ts:90-115 | a non-empty `plugins` array adds no plugin-list diagnostic, and the per-plugin loop runs over exactly its items, right after the watch-list diagnostics |
| `ExtensionProperties.MissingSectionReported` | src/extension.ts:135-161 | a `configSection` that names no top-level key gives one diagnostic on the section value's range. It names the section and the registry's snippet. It is an Error if the plugin is enabled and a Warning if not |
| `ExtensionProperties.PresentSectionSilent` | src/extension.ts:141-162 | a `configSection` that names an existing top-level key gives no diagnostic, even when config is required |
| `ExtensionProperties.RequiredSectionReported` | src/extension.ts:130-177 | a plugin the registry marks as needing config, with no `configSection`, gives one "`name` requires a config section." on the whole element. It is an Error if enabled and a Warning if not |
| `ExtensionProperties.OptionalSectionSilent` | src/extension.ts:130-177 | with no `configSection` and no requirement in the registry, an element gives no diagnostic |
| `ExtensionProperties.PluginFailsIffMalformed` | src/extension.ts:116-131 | an element throws exactly when it is not an object, lacks `name` or `enabled`, or has an unregistered name |
| `ExtensionProperties.PluginDiagnosticsFailIff` | src/extension.ts:115-131 | the loop throws exactly when some element it visits is malformed |
| `ExtensionProperties.MalformedWitness` | src/extension.ts:115-131 | a loop that throws has visited a malformed element |
| `ExtensionProperties.MalformedFails` | src/extension.ts:115-131 | a malformed element makes the loop throw, wherever it stands |
| `ExtensionProperties.FirstMalformedDecides` | src/extension.ts:115-131 | the first malformed element decides how the loop throws |
| `ExtensionProperties.ValidateFailsIff` | src/extension.ts:56-131 | a pass throws exactly when `urlsToWatch` or `plugins` holds a literal, `plugins` holds a non-empty object, or some plugin element is malformed |
| `ExtensionProperties.PluginDiagnosticsAppend` | src/extension.ts:115-179 | running the loop over `a + b` is running it over `a` and then over `b` |
| `ExtensionProperties.PluginDiagnosticsInOrder` | src/extension.ts:115-179 | with well-formed elements, element k's diagnostic sits between those of the elements before it and those after it |
| `ExtensionProperties.DiagnosticCount` | src/extension.ts:51-180 | a pass gives at most 2 + \|plugins\| diagnostics, and at most 1 + \|plugins\| when the loop runs |
| `ExtensionProperties.RevalidateUnchanged` | src/extension.ts:47-183 | two passes over the same tree and registry give the same outcome and respect the count bound; this holds by construction, since `UpdateDiagnostics` modifies nothing and its result is fixed by `Validate` |
| `ExtensionScenarios.RequiredSectionScenario` | src/test/extension.test.ts:46-80 | a plugin that requires config and declares no section gets exactly one "requires a config section." diagnostic. It is an Error when enabled and a Warning when disabled |
| `ExtensionScenarios.MissingSectionScenario` | src/test/extension.test.ts:82-116 | a plugin naming a missing section gets exactly one "config section is missing" diagnostic with the registry's snippet name. It is an Error when enabled and a Warning when disabled |

## Left out

- `activate` (src/extension.ts:7-45): event subscriptions, code-lens registration and the `openPluginDoc` command. These are editor glue and an external URL opener.
- `collection.set` (src/extension.ts:182): the list is returned instead of published. After a throw, nothing is published and the previous diagnostics stay.
- Parsing the document text with json-to-ast (src/extension.ts:53): the model takes the parsed tree. A parse error, which the source does not catch, is not modelled.
- UpdateDiagnostics: requires the root to be an object node, matching the `as parse.ObjectNode` cast. A document whose root is an array or a literal is not modelled.
- The helpers module is not part of this model. getASTNode is taken to be a first-match lookup by key name. getRangeFromASTNode is taken to return the node's own span. Ranges are abstract, so the conversion of json-to-ast locations to editor positions, and the claim that every range lies inside the document, are not modelled.
- The constants module is not part of this model. The registry is an abstract map of own entries. A plugin name that JavaScript resolves through the object prototype (such as "constructor") is not modelled.
- Number literals are integers. Fractional and exponent forms are not modelled. They matter here only through their printed text and their truthiness. `ValueText` prints every integer in full decimal, whereas JavaScript prints integers of 1e21 or more in exponent form ("1e+21") and rounds integers beyond 2^53, so a numeric `configSection` that large gets a different message text in the source.
- src/documents.ts, src/notifications.ts and the editor-driven test harness: UI routing, context flags and an install prompt, none of which is part of validation.
