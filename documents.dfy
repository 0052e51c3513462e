/**
 * The decoded use-case documents, as the YAML decoder hands them to the
 * build: nested records whose string fields may be absent.
 */
module Documents {
  import opened Wrappers

  /** An absolute file path, as produced by `path.resolve`. */
  type Path = string

  /** A document id: the decimal text of `stringHash` of the document's path. */
  type Id = string

  /** A scalar field of a decoded record: absent (undefined) or a string. */
  type Field = Option<string>

  /** JavaScript truthiness of a decoded string field: absent and "" are falsy. */
  predicate Truthy(f: Field)
  {
    f.Some? && f.value != ""
  }

  /** The characters `println` writes for a field: the string when truthy, nothing otherwise. */
  function Shown(f: Field): (s: string)
    ensures Truthy(f) ==> s == f.value
    ensures !Truthy(f) ==> s == ""
  {
    if f.Some? then f.value else ""
  }

  /** A field placed in a template literal, `${f}`: an absent field reads "undefined". */
  function Interpolated(f: Field): (s: string)
    ensures f.Some? ==> s == f.value
  {
    if f.Some? then f.value else "undefined"
  }

  /** The elements of an optional list; an absent list has none. */
  function Items<T>(s: Option<seq<T>>): seq<T>
  {
    if s.Some? then s.value else []
  }

  datatype Attribute = Attribute(name: Field, description: Field)

  datatype DataObject = DataObject(name: Field, attributes: Option<seq<Attribute>>)

  datatype DataSource = DataSource(
    name: Field,
    description: Field,
    flowChart: Field,
    permittedUse: Field,
    retention: Field,
    data: Option<seq<DataObject>>)

  /** `businessCase` is not optional: the build dereferences it unconditionally. */
  datatype BusinessCase = BusinessCase(description: Field, customerBenefits: Field)

  datatype UseCase = UseCase(
    name: Field,
    author: Field,
    email: Field,
    businessCase: BusinessCase,
    dataSources: Option<seq<DataSource>>,
    subUseCases: Option<seq<string>>)

  /** What the file system holds at a path: a directory, a file that does not decode, or a use case. */
  datatype Node = Directory | Unparsable | Document(useCase: UseCase)
}
