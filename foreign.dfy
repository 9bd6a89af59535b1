/*
 * The pieces of the PAC resolver that live outside proxyscout.cpp, reduced to
 * the values the resolver sees: the loaded script's answers, the outcome of
 * compiling a fetched script, and the QUrl / KProtocolInfo services it calls.
 */
module Foreign {

  datatype Option<+T> = None | Some(value: T)

  /** What `Script::evaluate` hands back for one URL: the directive text, or a thrown `Script::Error`. */
  datatype Evaluation = Directives(text: string) | ScriptError

  /** A loaded PAC script, seen only through its evaluation function. */
  datatype Script = Script(evaluate: string -> Evaluation)

  /** The outcome of `new Script(m_downloader->script())`: a script, or a thrown `Script::Error`. */
  datatype ScriptBuild = Built(script: Script) | Invalid

  /**
   * The URL services the resolver calls and does not implement:
   * - isKnownProtocol: `KProtocolInfo::isKnownProtocol`
   * - parseUrl: `QUrl(text)`; None when the URL is not valid, otherwise its `toString()`
   * - matches: `QUrl::matches(_, QUrl::StripTrailingSlash)`
   * - isLocalFile, path, fromLocalFile: the `QUrl` members of those names
   */
  datatype UrlServices = UrlServices(
    isKnownProtocol: string -> bool,
    parseUrl: string -> Option<string>,
    matches: (string, string) -> bool,
    isLocalFile: string -> bool,
    path: string -> string,
    fromLocalFile: string -> string)
}
