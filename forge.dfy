/**
  The parts of the JBoss Forge UI framework the wizard steps touch: the
  session attribute map, command results, the current selection, and the
  file, resource and project values stored in them.
 */
module Forge {
  import opened JavaLang

  /** A file, identified by its path (`java.io.File.toString()` is the path). */
  datatype File = File(path: string)

  /** A Forge resource as selected in the UI. */
  datatype Resource = Resource(id: string)

  /** A project's `MetadataFacet`; its project name may itself be null. */
  datatype MetadataFacet = MetadataFacet(projectName: Option<string>)

  /** A Forge project: its metadata facet (null when absent) and its `toString()`. */
  datatype Project = Project(metadata: Option<MetadataFacet>, rendered: string)

  /** The keys the wizard uses in the session attribute map: the constants
      of `AttributeMapKeys`, the key `Project.class`, and any other key. */
  datatype Key =
    | NameKey               // AttributeMapKeys.NAME
    | GitOrganisation       // AttributeMapKeys.GIT_ORGANISATION
    | GitRepositoryPattern  // AttributeMapKeys.GIT_REPOSITORY_PATTERN
    | GitRepoNames          // AttributeMapKeys.GIT_REPO_NAMES
    | ProjectDirectoryFile  // AttributeMapKeys.PROJECT_DIRECTORY_FILE
    | ProjectClass          // Project.class
    | OtherKey(name: string)

  /** The values stored in the attribute map, by their Java class. */
  datatype Value =
    | Text(s: string)               // a String
    | Names(names: seq<string>)     // a List<String>
    | FileValue(file: File)         // a java.io.File
    | ProjectValue(project: Project)
    | OtherValue(rendered: string)  // any other object, with its toString()

  /** `Object.toString()` of a stored value. */
  function ToString(v: Value): string
  {
    match v
    case Text(s) => s
    case Names(ns) => "[" + Join(ns, ", ") + "]"
    case FileValue(f) => f.path
    case ProjectValue(p) => p.rendered
    case OtherValue(r) => r
  }

  /** The session attribute map (`UIContext.getAttributeMap()`). An absent
      key is what `get` reports as null. */
  class AttributeMap {
    var entries: map<Key, Value>

    constructor (initial: map<Key, Value>)
      ensures entries == initial
    {
      entries := initial;
    }

    /** `Map.put`: binds `key` and leaves every other key as it was. */
    method Put(key: Key, value: Value)
      modifies this
      ensures entries == old(entries)[key := value]
    {
      entries := entries[key := value];
    }
  }

  /** What `Results.success()` and `Results.fail(message)` return. */
  datatype UIResult = Success | Failure(message: string)

  /** The first selected object of a `UISelection`. */
  datatype Item = FileItem(file: File) | ResourceItem(resource: Resource) | OtherItem

  /** `UIContext.getSelection()`: either null, or a selection whose `get()`
      gives its first element (null when nothing is selected). */
  datatype Selection = NullSelection | SelectionOf(first: Option<Item>)

  /** The parts of a `UIContext` the commands read: its attribute map (which
      the code allows to be null) and its selection. */
  class UIContext {
    const attributeMap: AttributeMap?
    const selection: Selection

    constructor (attributeMap: AttributeMap?, selection: Selection)
      ensures this.attributeMap == attributeMap && this.selection == selection
    {
      this.attributeMap := attributeMap;
      this.selection := selection;
    }
  }

  /** The current entries of the context's attribute map, or None when the map is null. */
  function AttributesOf(context: UIContext): Option<map<Key, Value>>
    reads context.attributeMap
  {
    if context.attributeMap == null then None else Some(context.attributeMap.entries)
  }
}
