/**
 * The plugin registry (pluginSnippets): what the validator knows about each plugin
 * by name. It is read-only data; the model takes it as a map.
 */
module PluginRegistry {
  import opened Wrappers

  /** The companion config section a plugin may ask for, and the snippet that creates one. */
  datatype SnippetConfig = SnippetConfig(required: bool, name: string)

  datatype Snippet = Snippet(config: Option<SnippetConfig>)

  type Registry = map<string, Snippet>

  /** A plugin needs a config section exactly when its snippet has a config marked required. */
  predicate RequiresConfig(s: Snippet)
  {
    s.config.Some? && s.config.value.required
  }

  /** `snippet.config?.name` as a template literal prints it. */
  function SnippetName(s: Snippet): string
  {
    match s.config
    case Some(c) => c.name
    case None => "undefined"
  }
}
