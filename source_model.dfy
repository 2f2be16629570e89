/** The parts of the parsed source tree that the statistics read: documentable
    elements with an optional source position and a raw comment, methods with
    their declared exceptions and block tags, packages and classes.
    A comment the parser reports as absent is the empty string here. */
module SourceModel {

  datatype Option<+T> = None | Some(value: T)

  /** Where an element is declared in a source file. */
  datatype SourcePosition = SourcePosition(file: string, line: nat, column: nat)

  /** A documentable element. `position` is `None` when the parser reports
      no source position for it. */
  datatype Doc = Doc(name: string, position: Option<SourcePosition>, rawCommentText: string)

  /** A block tag of a documentation comment, such as `@throws IOException when ...`. */
  datatype Tag = Tag(name: string, text: string)

  /** A method or constructor: the classes named in its `throws` clause and the
      block tags of its comment. */
  datatype MethodDoc = MethodDoc(name: string, thrownExceptions: seq<Doc>, tags: seq<Tag>)

  datatype PackageDoc = PackageDoc(name: string, commentText: string)

  datatype ClassDoc = ClassDoc(name: string, containingPackage: PackageDoc)

  predicate HasPosition(d: Doc) { d.position.Some? }

  predicate LacksPosition(d: Doc) { d.position.None? }
}
