/**
 * The value records that flow through the cache. Each keeps only the fields the cache
 * itself reads or writes; the rest of each record is carried along untouched.
 */
module Records {

  /** A document identifier (protocol.URI is a string). */
  type Uri = string

  /** An open text document (protocol.TextDocumentItem). */
  datatype Document = Document(uri: Uri, languageId: string, version: int, text: string)

  /** What a parse pass found in an orb definition, reduced to the declared names. */
  datatype OrbParsedAttributes = OrbParsedAttributes(commands: set<string>, jobs: set<string>, executors: set<string>)

  /** Where an orb definition came from; `filePath` is where it was written on disk. */
  datatype RemoteOrbInfo = RemoteOrbInfo(filePath: string, version: string)

  /** An orb record (ast.OrbInfo): its origin and, once parsed, its attributes. */
  datatype OrbInfo = OrbInfo(remoteInfo: RemoteOrbInfo, parsedAttributes: OrbParsedAttributes)

  /** The outcome of a container-image existence check. */
  datatype CachedDockerImage = CachedDockerImage(checked: bool, imageExists: bool)

  /** A named group of environment variables; the list is used as a set. */
  datatype Context = Context(name: string, envVariables: seq<string>)

  /** A CI project, identified by its slug, with its environment variable names. */
  datatype Project = Project(slug: string, envVariables: seq<string>)
}
