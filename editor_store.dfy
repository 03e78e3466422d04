/**
 * The editor's store (`useEditorStore` in src/store/editorStore.ts): the
 * project catalog, the working object list, the selection and the view
 * preferences, with every action the store exposes.
 */
module EditorStore {
  import opened Wrappers
  import opened Lists
  import opened Scene
  import Shortcuts

  datatype SkyMode = Day | Night

  /** The sky mode `toggleSkyMode` switches to. */
  function Flipped(m: SkyMode): (r: SkyMode)
    ensures r != m
  {
    if m == Day then Night else Day
  }

  /** Toggling the sky mode twice restores it. */
  lemma FlippedTwice(m: SkyMode)
    ensures Flipped(Flipped(m)) == m
  {
  }

  /**
   * The browser storage slot under key "orvian_projects". `None` is a missing
   * key; a present value is the project list the last write serialised.
   */
  class ProjectStorage {
    var saved: Option<seq<Project>>

    constructor (initial: Option<seq<Project>>)
      ensures saved == initial
    {
      saved := initial;
    }
  }

  class Store {
    const storage: ProjectStorage
    var currentProject: Option<Project>
    var selectedObjectId: Option<string>
    var objects: seq<SceneObject>
    var projects: seq<Project>
    var gridVisible: bool
    var gridSize: real
    var skyMode: SkyMode

    /** The store's initial state, over the given storage. */
    constructor (storage: ProjectStorage)
      ensures this.storage == storage
      ensures currentProject == None && selectedObjectId == None
      ensures objects == [] && projects == []
      ensures gridVisible && gridSize == 1.0 && skyMode == Day
    {
      this.storage := storage;
      currentProject := None;
      selectedObjectId := None;
      objects := [];
      projects := [];
      gridVisible := true;
      gridSize := 1.0;
      skyMode := Day;
    }

    /** The catalog in storage is the catalog in memory. */
    predicate Persisted()
      reads this, storage
    {
      storage.saved == Some(projects)
    }

    /** The selection, when there is one, names an object of the working list. */
    predicate SelectionValid()
      reads this
    {
      selectedObjectId.Some? ==> HasId(objects, ObjectId, selectedObjectId.value)
    }

    /** No two working objects share an identifier. */
    predicate ObjectIdsDistinct()
      reads this
    {
      Distinct(objects, ObjectId)
    }

    /** No two catalog entries share an identifier. */
    predicate ProjectIdsDistinct()
      reads this
    {
      Distinct(projects, ProjectId)
    }

    /** `loadProjectsFromStorage`: adopt the stored catalog when there is one. */
    method LoadProjectsFromStorage()
      modifies this`projects
      ensures projects == if storage.saved.Some? then storage.saved.value else old(projects)
      ensures storage.saved.Some? ==> Persisted()
    {
      if storage.saved.Some? {
        projects := storage.saved.value;
      }
    }

    /**
     * `createProject(name)`, with the generated identifier `id` and the two
     * clock readings the source takes for `createdAt` and `updatedAt`.
     */
    method CreateProject(name: string, id: string, createdAt: int, updatedAt: int)
      modifies this`currentProject, this`objects, this`projects, this`selectedObjectId, storage
      ensures projects == old(projects) + [Project(id, name, createdAt, updatedAt, [])]
      ensures currentProject == Some(Project(id, name, createdAt, updatedAt, []))
      ensures objects == [] && selectedObjectId == None
      ensures Persisted()
      ensures SelectionValid() && ObjectIdsDistinct()
      ensures old(ProjectIdsDistinct()) && !HasId(old(projects), ProjectId, id) ==> ProjectIdsDistinct()
    {
      var newProject := Project(id, name, createdAt, updatedAt, []);
      projects := projects + [newProject];
      storage.saved := Some(projects);
      currentProject := Some(newProject);
      objects := [];
      selectedObjectId := None;
    }

    /**
     * `loadProject(projectId)`: make the first catalog entry with that
     * identifier current and open its objects; an unknown identifier is ignored.
     */
    method LoadProject(projectId: string)
      modifies this`currentProject, this`objects, this`selectedObjectId
      ensures !HasId(projects, ProjectId, projectId) ==>
        currentProject == old(currentProject) && objects == old(objects) &&
        selectedObjectId == old(selectedObjectId)
      ensures HasId(projects, ProjectId, projectId) ==>
        currentProject == Find(projects, ProjectId, projectId) &&
        currentProject.value.id == projectId &&
        objects == currentProject.value.objects && selectedObjectId == None
      ensures old(SelectionValid()) ==> SelectionValid()
    {
      var project := Find(projects, ProjectId, projectId);
      if project.Some? {
        currentProject := project;
        objects := project.value.objects;
        selectedObjectId := None;
      }
    }

    /**
     * `saveProject()` at clock reading `now`: write the working objects into
     * the current project and into every catalog entry with its identifier,
     * then persist the catalog. Without a current project nothing happens.
     */
    method SaveProject(now: int)
      modifies this`currentProject, this`projects, storage
      ensures old(currentProject).None? ==>
        currentProject == None && projects == old(projects) && storage.saved == old(storage.saved)
      ensures old(currentProject).Some? ==>
        var saved := old(currentProject.value).(objects := objects, updatedAt := now);
        && currentProject == Some(saved)
        && projects == ReplaceWhere(old(projects), ProjectId, saved.id, saved)
        && Persisted()
      ensures old(ProjectIdsDistinct()) ==> ProjectIdsDistinct()
    {
      if currentProject.None? {
        return;
      }
      var updatedProject := currentProject.value.(objects := objects, updatedAt := now);
      var updatedProjects := ReplaceWhere(projects, ProjectId, currentProject.value.id, updatedProject);
      storage.saved := Some(updatedProjects);
      currentProject := Some(updatedProject);
      projects := updatedProjects;
    }

    /**
     * `deleteProject(projectId)`: drop every catalog entry with that
     * identifier and persist the rest; closing the project if it was current.
     */
    method DeleteProject(projectId: string)
      modifies this`currentProject, this`objects, this`projects, this`selectedObjectId, storage
      ensures projects == FilterOut(old(projects), ProjectId, projectId)
      ensures Persisted()
      ensures old(currentProject).Some? && old(currentProject).value.id == projectId ==>
        currentProject == None && objects == [] && selectedObjectId == None
      ensures !(old(currentProject).Some? && old(currentProject).value.id == projectId) ==>
        currentProject == old(currentProject) && objects == old(objects) &&
        selectedObjectId == old(selectedObjectId)
      ensures old(ProjectIdsDistinct()) ==> ProjectIdsDistinct()
      ensures old(SelectionValid()) ==> SelectionValid()
    {
      var remaining := FilterOut(projects, ProjectId, projectId);
      storage.saved := Some(remaining);
      projects := remaining;
      if Distinct(old(projects), ProjectId) {
        FilterOutDistinct(old(projects), ProjectId, projectId);
      }
      if currentProject.Some? && currentProject.value.id == projectId {
        currentProject := None;
        objects := [];
        selectedObjectId := None;
      }
    }

    /** `addObject(type, category)`, the new object receiving the generated identifier `id`. */
    method AddObject(kind: ObjectType, category: Category, id: string)
      modifies this`objects
      ensures objects == old(objects) + [CreateDefaultObject(kind, category, id)]
      ensures old(SelectionValid()) ==> SelectionValid()
      ensures old(ObjectIdsDistinct()) && !HasId(old(objects), ObjectId, id) ==> ObjectIdsDistinct()
    {
      objects := objects + [CreateDefaultObject(kind, category, id)];
    }

    /** `selectObject(id)`: no existence check, `None` clears the selection. */
    method SelectObject(id: Option<string>)
      modifies this`selectedObjectId
      ensures selectedObjectId == id
      ensures SelectionValid() <==> id.None? || HasId(objects, ObjectId, id.value)
    {
      selectedObjectId := id;
    }

    /**
     * `updateObject(id, updates)`: merge the partial record into every working
     * object with that identifier; an unknown identifier changes nothing.
     */
    method UpdateObject(id: string, updates: Patch)
      modifies this`objects
      ensures objects == UpdateWhere(old(objects), id, updates)
      ensures !HasId(old(objects), ObjectId, id) ==> objects == old(objects)
      ensures updates.id.None? && old(SelectionValid()) ==> SelectionValid()
      ensures updates.id.None? && old(ObjectIdsDistinct()) ==> ObjectIdsDistinct()
    {
      if !HasId(objects, ObjectId, id) {
        UpdateWhereAbsent(objects, id, updates);
      }
      if updates.id.None? {
        UpdateWhereKeepsIds(objects, id, updates);
      }
      objects := UpdateWhere(objects, id, updates);
    }

    /**
     * `deleteObject(id)`: drop every working object with that identifier and
     * clear the selection exactly when it was that identifier.
     */
    method DeleteObject(id: string)
      modifies this`objects, this`selectedObjectId
      ensures objects == FilterOut(old(objects), ObjectId, id)
      ensures selectedObjectId == if old(selectedObjectId) == Some(id) then None else old(selectedObjectId)
      ensures old(SelectionValid()) ==> SelectionValid()
      ensures old(ObjectIdsDistinct()) ==> ObjectIdsDistinct()
    {
      if Distinct(objects, ObjectId) {
        FilterOutDistinct(objects, ObjectId, id);
      }
      objects := FilterOut(objects, ObjectId, id);
      selectedObjectId := if selectedObjectId == Some(id) then None else selectedObjectId;
    }

    /**
     * `duplicateObject(id)`: append a copy of the first working object with
     * that identifier under the generated identifier `newId`; the selection
     * stays where it was. An unknown identifier changes nothing.
     */
    method DuplicateObject(id: string, newId: string)
      modifies this`objects
      ensures !HasId(old(objects), ObjectId, id) ==> objects == old(objects)
      ensures HasId(old(objects), ObjectId, id) ==>
        objects == old(objects) + [CopyOf(Find(old(objects), ObjectId, id).value, newId)]
      ensures old(SelectionValid()) ==> SelectionValid()
      ensures old(ObjectIdsDistinct()) && !HasId(old(objects), ObjectId, newId) ==> ObjectIdsDistinct()
    {
      var original := Find(objects, ObjectId, id);
      if original.Some? {
        objects := objects + [CopyOf(original.value, newId)];
      }
    }

    /** `toggleGrid()`. */
    method ToggleGrid()
      modifies this`gridVisible
      ensures gridVisible == !old(gridVisible)
    {
      gridVisible := !gridVisible;
    }

    /** `setGridSize(size)`: the value is stored as given, without clamping. */
    method SetGridSize(size: real)
      modifies this`gridSize
      ensures gridSize == size
    {
      gridSize := size;
    }

    /** `toggleSkyMode()`. */
    method ToggleSkyMode()
      modifies this`skyMode
      ensures skyMode == Flipped(old(skyMode))
    {
      skyMode := Flipped(skyMode);
    }

    /**
     * Runs one store action on behalf of the keyboard handler; `newId` is the
     * identifier generated for an added or duplicated object.
     */
    method Apply(action: Shortcuts.Action, newId: string)
      modifies this`objects, this`selectedObjectId
      ensures action.AddObject? ==>
        objects == old(objects) + [CreateDefaultObject(action.kind, action.category, newId)] &&
        selectedObjectId == old(selectedObjectId)
      ensures action.DeleteObject? ==>
        objects == FilterOut(old(objects), ObjectId, action.id) &&
        selectedObjectId == if old(selectedObjectId) == Some(action.id) then None else old(selectedObjectId)
      ensures action.DuplicateObject? ==>
        selectedObjectId == old(selectedObjectId) &&
        objects == match Find(old(objects), ObjectId, action.id)
          case None => old(objects)
          case Some(o) => old(objects) + [CopyOf(o, newId)]
      ensures old(SelectionValid()) ==> SelectionValid()
    {
      match action
      case AddObject(kind, category) => AddObject(kind, category, newId);
      case DeleteObject(id) => DeleteObject(id);
      case DuplicateObject(id) => DuplicateObject(id, newId);
    }

    /**
     * `handleKeyDown(e)` wired to this store: the shortcut rule decides from
     * the current selection, and the action it picks, if any, is run.
     */
    method OnKeyDown(e: Shortcuts.KeyEvent, newId: string)
      modifies this`objects, this`selectedObjectId
      ensures var actions := Shortcuts.HandleKeyDown(e, old(selectedObjectId));
        actions == [] ==> objects == old(objects) && selectedObjectId == old(selectedObjectId)
      ensures var actions := Shortcuts.HandleKeyDown(e, old(selectedObjectId));
        actions != [] && actions[0].AddObject? ==>
          objects == old(objects) + [CreateDefaultObject(actions[0].kind, actions[0].category, newId)] &&
          selectedObjectId == old(selectedObjectId)
      ensures var actions := Shortcuts.HandleKeyDown(e, old(selectedObjectId));
        actions != [] && actions[0].DeleteObject? ==>
          actions[0].id == old(selectedObjectId).value &&
          objects == FilterOut(old(objects), ObjectId, actions[0].id) && selectedObjectId == None
      ensures var actions := Shortcuts.HandleKeyDown(e, old(selectedObjectId));
        actions != [] && actions[0].DuplicateObject? ==>
          actions[0].id == old(selectedObjectId).value && selectedObjectId == old(selectedObjectId) &&
          objects == match Find(old(objects), ObjectId, actions[0].id)
            case None => old(objects)
            case Some(o) => old(objects) + [CopyOf(o, newId)]
      ensures old(SelectionValid()) ==> SelectionValid()
    {
      var actions := Shortcuts.HandleKeyDown(e, selectedObjectId);
      if actions != [] {
        Apply(actions[0], newId);
      }
    }
  }

  /**
   * The round trip of creating a project, adding a cube, saving, opening
   * another identifier and reopening the project: the reopened working list is
   * the list that was saved.
   */
  method SaveLoadRoundTrip(name: string, projectId: string, cubeId: string, otherId: string, t0: int, t1: int)
    returns (saved: seq<SceneObject>, reopened: seq<SceneObject>)
    ensures saved == [CreateDefaultObject(Cube, Primitive, cubeId)]
    ensures reopened == saved
  {
    var storage := new ProjectStorage(None);
    var store := new Store(storage);
    store.CreateProject(name, projectId, t0, t0);
    store.AddObject(Cube, Primitive, cubeId);
    saved := store.objects;
    store.SaveProject(t1);
    assert HasId(store.projects, ProjectId, projectId) by {
      assert store.projects[0].id == projectId && store.projects[0] in store.projects;
    }
    store.LoadProject(otherId);
    store.LoadProject(projectId);
    reopened := store.objects;
  }

  /**
   * Saving the current project and reopening it after opening any other
   * identifier gives back the working list as it was at the save, provided
   * the current project has an entry in the catalog.
   */
  method SaveAndReopen(store: Store, otherId: string, now: int)
    requires store.currentProject.Some?
    requires HasId(store.projects, ProjectId, store.currentProject.value.id)
    modifies store`currentProject, store`projects, store`objects, store`selectedObjectId, store.storage
    ensures store.objects == old(store.objects)
    ensures store.currentProject == Some(old(store.currentProject.value).(objects := old(store.objects), updatedAt := now))
    ensures store.selectedObjectId == None
  {
    var id := store.currentProject.value.id;
    var catalog := store.projects;
    store.SaveProject(now);
    var saved := store.currentProject.value;
    FindAfterReplace(catalog, ProjectId, id, saved);
    Reopen(store, otherId, saved);
  }

  /** Opening any identifier and then the identifier of catalog entry `p` opens `p`. */
  method Reopen(store: Store, otherId: string, p: Project)
    requires Find(store.projects, ProjectId, p.id) == Some(p)
    modifies store`currentProject, store`objects, store`selectedObjectId
    ensures store.currentProject == Some(p) && store.objects == p.objects && store.selectedObjectId == None
  {
    store.LoadProject(otherId);
    store.LoadProject(p.id);
  }

  /** Reading the catalog from storage twice in a row yields the same catalog both times. */
  method ReloadCatalogTwice(store: Store) returns (first: seq<Project>, second: seq<Project>)
    modifies store`projects
    ensures first == second == store.projects
    ensures store.storage.saved.None? ==> store.projects == old(store.projects)
  {
    store.LoadProjectsFromStorage();
    first := store.projects;
    store.LoadProjectsFromStorage();
    second := store.projects;
  }

  /** Toggling the grid twice and the sky mode twice restores both preferences. */
  method ToggleTwice(store: Store)
    modifies store`gridVisible, store`skyMode
    ensures store.gridVisible == old(store.gridVisible) && store.skyMode == old(store.skyMode)
  {
    store.ToggleGrid();
    store.ToggleGrid();
    store.ToggleSkyMode();
    store.ToggleSkyMode();
    FlippedTwice(old(store.skyMode));
  }
}
