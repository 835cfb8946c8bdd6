/**
  The selection-resolution helpers shared by the wizard's commands
  (`AbstractDevToolsCommand`): the project name, the memoised current
  project, and the folder the command works on.
 */
module DevTools {
  import opened JavaLang
  import opened Forge

  /** The file-system collaborators, kept abstract:
      - `isDirectory(f)`: `Files.isDirectory(f)`;
      - `contextFile(r)`: `ResourceUtil.getContextFile(r)`, possibly null;
      - `rootFolder(p)`: the context file of `p.getRoot()` as a directory resource, possibly null. */
  datatype FileSystem = FileSystem(
    isDirectory: File -> bool,
    contextFile: Resource -> Option<File>,
    rootFolder: Project -> Option<File>)

  /** Forge's project lookup `Projects.getSelectedProject(factory, context)`.
      `resolve` is what it finds for a selection; `lookups` counts the
      (expensive) lookups performed. */
  class ProjectFactory {
    const resolve: Selection -> Option<Project>
    var lookups: nat

    constructor (resolve: Selection -> Option<Project>)
      ensures this.resolve == resolve && lookups == 0
    {
      this.resolve := resolve;
      lookups := 0;
    }

    method GetSelectedProject(selection: Selection) returns (project: Option<Project>)
      modifies this
      ensures project == resolve(selection) && lookups == old(lookups) + 1
    {
      lookups := lookups + 1;
      project := resolve(selection);
    }
  }

  /** `attributeMap.get(Project.class) instanceof Project`: the project memoised
      in the attribute map, if the map exists and holds one. */
  function StoredProject(attributes: Option<map<Key, Value>>): (p: Option<Project>)
    ensures p.Some? <==> attributes.Some? && ProjectClass in attributes.value
                         && attributes.value[ProjectClass].ProjectValue?
    ensures p.Some? ==> attributes.value[ProjectClass] == ProjectValue(p.value)
  {
    if attributes.Some? && ProjectClass in attributes.value && attributes.value[ProjectClass].ProjectValue?
    then Some(attributes.value[ProjectClass].project)
    else None
  }

  /** The name `getProjectName` derives from a project: the metadata facet's
      project name when both the project and its facet exist, else "". */
  function NameFromProject(project: Option<Project>): (name: Option<string>)
    ensures project.Some? && project.value.metadata.Some? ==> name == project.value.metadata.value.projectName
    ensures project.None? || project.value.metadata.None? ==> name == Some("")
    ensures name.None? <==> project.Some? && project.value.metadata.Some?
                            && project.value.metadata.value.projectName.None?
  {
    if project.Some? && project.value.metadata.Some? then project.value.metadata.value.projectName
    else Some("")
  }

  // ------------------------------------------------------ getSelectionFolder

  /** The folder the selection itself gives: a selected file that is a
      directory, or the context file of a selected resource if that is a
      directory. */
  function SelectedFolder(selection: Selection, fs: FileSystem): (r: Option<File>)
    ensures r.Some? ==> fs.isDirectory(r.value)
  {
    match selection
    case SelectionOf(Some(FileItem(f))) => if fs.isDirectory(f) then Some(f) else None
    case SelectionOf(Some(ResourceItem(res))) =>
      var f := fs.contextFile(res);
      if f.Some? && fs.isDirectory(f.value) then f else None
    case _ => None
  }

  /** `getSelectionFolder`: the `PROJECT_DIRECTORY_FILE` attribute, else the
      selection's folder, else the memoised project's root folder, else null.
      It dereferences the attribute map (null throws) and casts the two
      attributes it reads. */
  function SelectionFolder(attributes: Option<map<Key, Value>>, selection: Selection, fs: FileSystem): (r: Outcome<Option<File>>)
    ensures r == Threw(NullPointerException) <==> attributes.None?
    ensures r == Threw(ClassCastException) <==>
              && attributes.Some?
              && var m := attributes.value;
                 || (ProjectDirectoryFile in m && !m[ProjectDirectoryFile].FileValue?)
                 || (&& ProjectDirectoryFile !in m && SelectedFolder(selection, fs).None?
                     && ProjectClass in m && !m[ProjectClass].ProjectValue?)
    ensures r.Returned? && r.value.Some? && ProjectDirectoryFile !in attributes.value ==>
              fs.isDirectory(r.value.value)
  {
    if attributes.None? then Threw(NullPointerException)
    else
      var m := attributes.value;
      if ProjectDirectoryFile in m then
        match m[ProjectDirectoryFile]
        case FileValue(f) => Returned(Some(f))
        case _ => Threw(ClassCastException)
      else if SelectedFolder(selection, fs).Some? then
        Returned(SelectedFolder(selection, fs))
      else if ProjectClass in m then
        match m[ProjectClass]
        case ProjectValue(p) =>
          var root := fs.rootFolder(p);
          if root.Some? && fs.isDirectory(root.value) then Returned(root) else Returned(None)
        case _ => Threw(ClassCastException)
      else Returned(None)
  }

  /** The attributes `getSelectionFolder` casts hold values of the cast type. */
  predicate WellTyped(m: map<Key, Value>)
  {
    && (ProjectDirectoryFile in m ==> m[ProjectDirectoryFile].FileValue?)
    && (ProjectClass in m ==> m[ProjectClass].ProjectValue?)
  }

  /** A place the folder may come from: one taken as it is, or one
      (possibly null) taken only if it is a directory. */
  datatype Candidate = Given(file: File) | Probed(folder: Option<File>)

  /** The candidate folders, highest precedence first. */
  function Candidates(m: map<Key, Value>, selection: Selection, fs: FileSystem): seq<Candidate>
    requires WellTyped(m)
  {
    (if ProjectDirectoryFile in m then [Given(m[ProjectDirectoryFile].file)] else [])
    + (match selection
       case SelectionOf(Some(FileItem(f))) => [Probed(Some(f))]
       case SelectionOf(Some(ResourceItem(res))) => [Probed(fs.contextFile(res))]
       case _ => [])
    + (if ProjectClass in m then [Probed(fs.rootFolder(m[ProjectClass].project))] else [])
  }

  /** The first candidate that is accepted. */
  function FirstAccepted(candidates: seq<Candidate>, isDirectory: File -> bool): Option<File>
  {
    if candidates == [] then None
    else match candidates[0]
      case Given(f) => Some(f)
      case Probed(folder) =>
        if folder.Some? && isDirectory(folder.value) then folder
        else FirstAccepted(candidates[1..], isDirectory)
  }

  lemma {:induction false} FirstAcceptedAppend(a: seq<Candidate>, b: seq<Candidate>, isDirectory: File -> bool)
    ensures FirstAccepted(a + b, isDirectory)
         == if FirstAccepted(a, isDirectory).Some? then FirstAccepted(a, isDirectory) else FirstAccepted(b, isDirectory)
  {
    if a != [] {
      assert (a + b)[0] == a[0];
      assert (a + b)[1..] == a[1..] + b;
      FirstAcceptedAppend(a[1..], b, isDirectory);
    } else {
      assert a + b == b;
    }
  }

  /** With well-typed attributes, `getSelectionFolder` returns the first
      accepted candidate in precedence order. */
  lemma SelectionFolderIsFirstAccepted(m: map<Key, Value>, selection: Selection, fs: FileSystem)
    requires WellTyped(m)
    ensures SelectionFolder(Some(m), selection, fs) == Returned(FirstAccepted(Candidates(m, selection, fs), fs.isDirectory))
  {
    var first := if ProjectDirectoryFile in m then [Given(m[ProjectDirectoryFile].file)] else [];
    var middle := match selection
       case SelectionOf(Some(FileItem(f))) => [Probed(Some(f))]
       case SelectionOf(Some(ResourceItem(res))) => [Probed(fs.contextFile(res))]
       case _ => [];
    var last := if ProjectClass in m then [Probed(fs.rootFolder(m[ProjectClass].project))] else [];
    FirstAcceptedAppend(first + middle, last, fs.isDirectory);
    FirstAcceptedAppend(first, middle, fs.isDirectory);
    assert FirstAccepted(middle, fs.isDirectory) == SelectedFolder(selection, fs);
  }

  /** A `PROJECT_DIRECTORY_FILE` attribute wins whatever is selected and
      whatever the file system says. */
  lemma DirectoryAttributeWins(m: map<Key, Value>, selection: Selection, fs: FileSystem, file: File)
    requires ProjectDirectoryFile in m && m[ProjectDirectoryFile] == FileValue(file)
    ensures SelectionFolder(Some(m), selection, fs) == Returned(Some(file))
  {
  }

  // --------------------------------------------------------------- commands

  /** The helpers of `AbstractDevToolsCommand`, over its injected project factory. */
  class DevToolsCommand {
    const projectFactory: ProjectFactory

    constructor (projectFactory: ProjectFactory)
      ensures this.projectFactory == projectFactory
    {
      this.projectFactory := projectFactory;
    }

    /** `isProjectRequired`: the commands run without a project. */
    function IsProjectRequired(): (required: bool)
      ensures !required
    {
      false
    }

    /** `getCurrentSelectedProject`: the project memoised in the attribute
        map if there is one, without a lookup; otherwise the looked-up
        project, memoised when it is non-null and the map exists. The
        selection is dereferenced before the lookup. */
    method GetCurrentSelectedProject(context: UIContext) returns (r: Outcome<Option<Project>>)
      modifies context.attributeMap, projectFactory
      ensures var cached := StoredProject(old(AttributesOf(context)));
              cached.Some? ==>
                && r == Returned(cached)
                && AttributesOf(context) == old(AttributesOf(context))
                && projectFactory.lookups == old(projectFactory.lookups)
      ensures var cached := StoredProject(old(AttributesOf(context)));
              cached.None? && context.selection.NullSelection? ==>
                && r == Threw(NullPointerException)
                && AttributesOf(context) == old(AttributesOf(context))
                && projectFactory.lookups == old(projectFactory.lookups)
      ensures var cached := StoredProject(old(AttributesOf(context)));
              var found := projectFactory.resolve(context.selection);
              cached.None? && context.selection.SelectionOf? ==>
                && r == Returned(found)
                && projectFactory.lookups == old(projectFactory.lookups) + 1
                && (context.attributeMap != null ==>
                      context.attributeMap.entries ==
                        if found.Some? then old(context.attributeMap.entries)[ProjectClass := ProjectValue(found.value)]
                        else old(context.attributeMap.entries))
    {
      var attributeMap := context.attributeMap;
      if attributeMap != null {
        var stored := StoredProject(Some(attributeMap.entries));
        if stored.Some? {
          return Returned(stored);
        }
      }
      if context.selection.NullSelection? {
        return Threw(NullPointerException);
      }
      var project := projectFactory.GetSelectedProject(context.selection);
      if project.Some? && attributeMap != null {
        attributeMap.Put(ProjectClass, ProjectValue(project.value));
      }
      r := Returned(project);
    }

    /** `getProjectName`: the `NAME` attribute's string when present, without
        any project lookup; otherwise the name derived from the current
        selected project (which may memoise that project). */
    method GetProjectName(context: UIContext) returns (r: Outcome<Option<string>>)
      modifies context.attributeMap, projectFactory
      ensures context.attributeMap == null ==>
                r == Threw(NullPointerException) && projectFactory.lookups == old(projectFactory.lookups)
      ensures context.attributeMap != null && NameKey in old(context.attributeMap.entries) ==>
                && r == Returned(Some(ToString(old(context.attributeMap.entries)[NameKey])))
                && context.attributeMap.entries == old(context.attributeMap.entries)
                && projectFactory.lookups == old(projectFactory.lookups)
      ensures context.attributeMap != null && NameKey !in old(context.attributeMap.entries) ==>
                var cached := StoredProject(old(AttributesOf(context)));
                var found := projectFactory.resolve(context.selection);
                && (cached.Some? ==>
                      && r == Returned(NameFromProject(cached))
                      && context.attributeMap.entries == old(context.attributeMap.entries)
                      && projectFactory.lookups == old(projectFactory.lookups))
                && (cached.None? && context.selection.NullSelection? ==>
                      && r == Threw(NullPointerException)
                      && context.attributeMap.entries == old(context.attributeMap.entries)
                      && projectFactory.lookups == old(projectFactory.lookups))
                && (cached.None? && context.selection.SelectionOf? ==>
                      && r == Returned(NameFromProject(found))
                      && projectFactory.lookups == old(projectFactory.lookups) + 1
                      && context.attributeMap.entries ==
                           if found.Some? then old(context.attributeMap.entries)[ProjectClass := ProjectValue(found.value)]
                           else old(context.attributeMap.entries))
    {
      if context.attributeMap == null {
        return Threw(NullPointerException);
      }
      if NameKey in context.attributeMap.entries {
        return Returned(Some(ToString(context.attributeMap.entries[NameKey])));
      }
      var project := GetCurrentSelectedProject(context);
      if project.Threw? {
        return Threw(project.exception);
      }
      r := Returned(NameFromProject(project.value));
    }

    /** `getSelectionFolder` on a context; as a function it changes nothing. */
    function GetSelectionFolder(context: UIContext, fs: FileSystem): (r: Outcome<Option<File>>)
      reads context.attributeMap
      ensures context.attributeMap != null && ProjectDirectoryFile !in context.attributeMap.entries
              && r.Returned? && r.value.Some? ==>
                fs.isDirectory(r.value.value)
    {
      SelectionFolder(AttributesOf(context), context.selection, fs)
    }
  }
}
