# Orvian scene editor store, modelled in Dafny

This project models the core of the Orvian browser 3D scene editor:

- the **object defaulting policy** `createDefaultObject`, which turns a requested
  object type and category into a fully populated scene object (base record,
  light overlay, environment table);
- the **editor store** `useEditorStore`, which holds the project catalog, the
  working object list of the open project, the selection and the view
  preferences, and mirrors the catalog into the browser storage slot
  `orvian_projects`;
- the **keyboard shortcut rule** `handleKeyDown`, which decides which store
  action a key press triggers.

Modules, one concern each:

| file | module | contents |
|---|---|---|
| `wrappers.dfy` | `Wrappers` | `Option`, for nullable and optional fields |
| `text.dfy` | `Text` | ASCII case mapping: `Capitalize`, `ToLower` |
| `lists.dfy` | `Lists` | `find`, `filter` and `map` over lists keyed by an identifier |
| `scene.dfy` | `Scene` | `SceneObject`, `Project`, the partial record `Patch` and its merge, `createDefaultObject`, the duplicate copy |
| `shortcuts.dfy` | `Shortcuts` | key events, store actions, the shortcut decision function |
| `editor_store.dfy` | `EditorStore` | the `Store` class and its actions, the storage slot, client scenarios |

The store is a class whose fields are the seven state components of the
source (`currentProject`, `selectedObjectId`, `objects`, `projects`,
`gridVisible`, `gridSize`, `skyMode`). Every action is a method whose frame
(``modifies this`field``) names exactly the fields the source's `set` call
writes, so every other field is unchanged. The storage slot is a separate
`ProjectStorage` object with one field `saved: Option<seq<Project>>`, where
`None` is a missing key. It is a real field, not a ghost one, because
`loadProjectsFromStorage` copies it back into the store. Generated identifiers
(`generateId`) and clock readings (`Date.now()`) are method parameters.
Identifiers are not guaranteed unique by the source, so uniqueness is stated
conditionally: when the new identifier is fresh, distinct identifiers stay
distinct.

The keyboard handler is three independent `if` statements. It is modelled as a
function that returns the list of actions those statements call, and its
contract proves the list never holds more than one action. `Store.OnKeyDown`
links the rule to the store methods.

Details of the code's behaviour the model follows:

- `createProject` calls `Date.now()` twice, so `createdAt` and `updatedAt` are
  two readings. They are equal only when both readings fall in the same
  millisecond.
- `loadProjectsFromStorage` leaves the catalog as it was when the key is
  missing; it does not reset it to empty. A corrupt stored value makes
  `JSON.parse` throw. It is not turned into an empty catalog.
- `deleteObject` and `deleteProject` remove every entry with the identifier,
  not just one. `saveProject` replaces every catalog entry with the current
  identifier. `loadProject` and `duplicateObject` use the first match.
- The selection is not always an existing object. `selectObject` does no
  check, and `updateObject` can rename an object's `id`. `SelectionValid` is
  preserved by every other action and by `updateObject` with a patch that
  omits `id`.
- The keyboard handler tests `selectedObjectId` for truthiness, so a selected
  empty identifier counts as no selection (`Shortcuts.Truthy`).

## Model

| member | source | states |
|---|---|---|
| `Text.Capitalize` | src/store/editorStore.ts:66 | same length; the first character is upper-cased and the rest is kept |
| `Text.ToLower` | src/hooks/useKeyboardShortcuts.ts:19 | same length; each character lower-cased position by position |
| `Text.ToLowerSingleLetter` | src/hooks/useKeyboardShortcuts.ts:19 | a key lower-cases to one lower-case letter exactly when it is that letter in either case |
| `Lists.Find` | src/store/editorStore.ts:137 | no result exactly when no element has the id; otherwise the result has the id and is the first element that does |
| `Lists.FilterOut` | src/store/editorStore.ts:170 | keeps exactly the elements whose id differs; no survivor has the id; shorter exactly when the id was present; unchanged when it was absent |
| `Lists.FilterOutAppend` | src/store/editorStore.ts:199 | filtering distributes over concatenation, so survivors keep their relative order |
| `Lists.FilterOutIdempotent` | src/store/editorStore.ts:199 | filtering twice by the same id equals filtering once |
| `Lists.FilterOutDistinct` | src/store/editorStore.ts:199 | filtering keeps pairwise-distinct ids distinct |
| `Lists.ReplaceWhere` | src/store/editorStore.ts:157-159 | same length; position i holds the replacement exactly when element i had the id, and the old element otherwise |
| `Lists.ReplaceWhereAbsent` | src/store/editorStore.ts:157-159 | replacing an absent id leaves the list unchanged |
| `Lists.FindAfterReplace` | src/store/editorStore.ts:137-159 | after replacing an id that is present by a record carrying that id, looking the id up finds that record |
| `Scene.MergeNoChanges` | src/store/editorStore.ts:192 | merging the empty partial record changes nothing |
| `Scene.MergeIdempotent` | src/store/editorStore.ts:192 | merging the same partial record twice equals merging it once |
| `Scene.MergeThen` | src/store/editorStore.ts:192 | two successive merges equal one merge of the combined partial record |
| `Scene.Merge` | src/store/editorStore.ts:192 | `{ ...obj, ...updates }`: each field present in the partial record replaces the object's, every other field is kept (no ensures; its meaning is stated by the merge lemmas below) |
| `Scene.MergeSingleField` | src/store/editorStore.ts:192 | a partial record with any one of the 13 fields changes exactly that field and nothing else |
| `Scene.UpdateWhere` | src/store/editorStore.ts:191-193 | same length; matching objects get the merge, all other objects are identical |
| `Scene.UpdateWhereAbsent` | src/store/editorStore.ts:191-193 | updating an absent id leaves the list unchanged |
| `Scene.UpdateWhereKeepsIds` | src/store/editorStore.ts:191-193 | a patch without `id` keeps every id in place, keeps the set of present ids, and keeps distinct ids distinct |
| `Scene.DisplayNames` | src/store/editorStore.ts:66 | the default name of each of the 19 types ("Cube", ..., "Directional", ...) |
| `Scene.BaseObject` | src/store/editorStore.ts:64-76 | the `base` record: given id, capitalised name, type and category, zero position and rotation, unit scale, #8b5cf6, metalness and roughness 0.5, shadows on (no ensures; its use is stated by `Scene.CreateDefaultObject`) |
| `Scene.LightOverlay` | src/store/editorStore.ts:80 | the light overlay: intensity 1 and color #ffffff (a constant; stated through `Scene.CreateDefaultObject`) |
| `Scene.EnvDefaults` | src/store/editorStore.ts:84-92 | the `envDefaults` table, `None` for a type it does not list (no ensures; stated row by row by `Scene.EnvironmentDefaults`) |
| `Scene.CreateDefaultObject` | src/store/editorStore.ts:63-97 | id, type, category as given; capitalised name; zero rotation, no texture, shadows on; primitive gives the base record; light gives the base with intensity 1 and color #ffffff; intensity is set only for lights; outside the environment table, position is the origin, scale is unit, metalness and roughness are 0.5 |
| `Scene.EnvironmentDefaults` | src/store/editorStore.ts:84-93 | for category environment, each table row's overrides applied to the base record and nothing else; a type missing from the table gives the base record |
| `Scene.CopyOf` | src/store/editorStore.ts:207-216 | new id, name + " Copy", x + 1 with y and z kept; every other field equals the original |
| `Shortcuts.HandleKeyDown` | src/hooks/useKeyboardShortcuts.ts:11-55 | a key event triggers at most one store action |
| `Shortcuts.Truthy` | src/hooks/useKeyboardShortcuts.ts:45 | the truthiness of `selectedObjectId` tested at lines 45 and 51: null and the empty string are false (no ensures; used by the delete and duplicate lemmas) |
| `Shortcuts.LetterShortcut` | src/hooks/useKeyboardShortcuts.ts:19-41 | the `switch` on the lower-cased key (no ensures; stated by `Shortcuts.LetterShortcutMatches` and `Shortcuts.LetterTable`) |
| `Shortcuts.IgnoredInTextFields` | src/hooks/useKeyboardShortcuts.ts:13-15 | an event on an input or textarea triggers nothing |
| `Shortcuts.LetterShortcutMatches` | src/hooks/useKeyboardShortcuts.ts:19-41 | the switch matches exactly the one-character strings c, s, y, p, n, t, l |
| `Shortcuts.LowerCharShortcut` | src/hooks/useKeyboardShortcuts.ts:19 | a character lower-cases to a shortcut letter exactly when it is one of the 14 letters of either case |
| `Shortcuts.ShortcutKeys` | src/hooks/useKeyboardShortcuts.ts:19-41 | a key reaches a switch case exactly when it is one character and that character is a shortcut letter of either case |
| `Shortcuts.LetterAdds` | src/hooks/useKeyboardShortcuts.ts:18-42 | with no modifier, a matched key triggers exactly the add for its type and category |
| `Shortcuts.LetterTable` | src/hooks/useKeyboardShortcuts.ts:18-42 | with no modifier outside a text field, each of c, s, y, p, n, t, l in either case makes the handler add exactly cube, sphere, cylinder, plane, cone, torus (primitive) or directional (light) |
| `Shortcuts.AddOnlyForLetters` | src/hooks/useKeyboardShortcuts.ts:18-42 | an add fires only outside text fields, with no modifier held, and for the type and category the `switch` gives the lower-cased key |
| `Shortcuts.AddsAreConsistent` | src/hooks/useKeyboardShortcuts.ts:18-42 | every add a shortcut triggers pairs a type with the category its union type declares (src/store/editorStore.ts:4-6) |
| `Shortcuts.ModifiersBlockAdd` | src/hooks/useKeyboardShortcuts.ts:18 | with ctrl, meta, shift or alt held, no add is triggered |
| `Shortcuts.DeleteShortcut` | src/hooks/useKeyboardShortcuts.ts:45-48 | a delete is triggered exactly for Delete or Backspace with a truthy selection, and then it is the only action and targets the selection |
| `Shortcuts.DeleteNoSelection` | src/hooks/useKeyboardShortcuts.ts:18-48 | Delete or Backspace without a truthy selection triggers nothing at all |
| `Shortcuts.DuplicateShortcut` | src/hooks/useKeyboardShortcuts.ts:51-54 | a duplicate is triggered exactly for ctrl or meta with d or D and a truthy selection, and then it is the only action and targets the selection |
| `Shortcuts.PlainDNoAction` | src/hooks/useKeyboardShortcuts.ts:18-54 | d or D triggers nothing unless ctrl or meta is held and the selection is truthy |
| `Shortcuts.UnmappedKeys` | src/hooks/useKeyboardShortcuts.ts:18-54 | a key that is not a shortcut letter, d, D, Delete or Backspace triggers nothing |
| `EditorStore.Flipped` | src/store/editorStore.ts:223 | the toggled sky mode differs from the old one |
| `EditorStore.FlippedTwice` | src/store/editorStore.ts:223 | toggling the sky mode twice restores it |
| `EditorStore.ProjectStorage.constructor` | src/store/editorStore.ts:109 | the storage slot starts with the given content |
| `EditorStore.Store.constructor` | src/store/editorStore.ts:100-106 | no current project, no selection, empty lists, grid visible, grid size 1, day mode |
| `EditorStore.Store.LoadProjectsFromStorage` | src/store/editorStore.ts:108-114 | the catalog becomes the stored list when one is stored and is otherwise unchanged; nothing else changes |
| `EditorStore.Store.CreateProject` | src/store/editorStore.ts:116-134 | the catalog gains the new empty project at its end; it becomes current; objects empty and no selection; storage equals the catalog; distinct project ids stay distinct for a fresh id |
| `EditorStore.Store.LoadProject` | src/store/editorStore.ts:136-145 | an unknown id changes nothing; otherwise the first matching entry becomes current, its objects become the working list, and the selection is cleared |
| `EditorStore.Store.SaveProject` | src/store/editorStore.ts:147-167 | no current project: nothing changes; otherwise the current project takes the working objects and the new `updatedAt`, every catalog entry with its id is replaced by it, and storage equals the catalog; objects and selection untouched |
| `EditorStore.Store.DeleteProject` | src/store/editorStore.ts:169-178 | the catalog loses every entry with the id, in order, and is persisted; if that project was current, current project, objects and selection are cleared; otherwise they are unchanged |
| `EditorStore.Store.AddObject` | src/store/editorStore.ts:180-183 | the working list gains exactly the default object at its end; selection stays valid; ids stay distinct for a fresh id |
| `EditorStore.Store.SelectObject` | src/store/editorStore.ts:185-187 | the selection becomes the argument unchecked; it is valid exactly when it is none or names a working object |
| `EditorStore.Store.UpdateObject` | src/store/editorStore.ts:189-195 | objects with the id get the merge and all others are untouched; an absent id is a no-op; without an `id` in the patch, selection validity and distinct ids are kept |
| `EditorStore.Store.DeleteObject` | src/store/editorStore.ts:197-202 | every object with the id is removed; the selection is cleared exactly when it was that id; selection validity and distinct ids are kept |
| `EditorStore.Store.DuplicateObject` | src/store/editorStore.ts:204-219 | an absent id is a no-op; otherwise the copy of the first match is appended; the selection is unchanged; ids stay distinct for a fresh id |
| `EditorStore.Store.ToggleGrid` | src/store/editorStore.ts:221 | grid visibility is negated and nothing else changes |
| `EditorStore.Store.SetGridSize` | src/store/editorStore.ts:222 | the grid size is the argument, unclamped, and nothing else changes |
| `EditorStore.Store.ToggleSkyMode` | src/store/editorStore.ts:223 | the sky mode flips and nothing else changes |
| `EditorStore.Store.Apply` | src/hooks/useKeyboardShortcuts.ts:5-7 | each shortcut action has the effect of the store action it names |
| `EditorStore.Store.OnKeyDown` | src/hooks/useKeyboardShortcuts.ts:11-55 | no action: nothing changes; an add appends the default object; a delete removes the selected id and clears the selection; a duplicate appends a copy of the selected object |
| `EditorStore.SaveLoadRoundTrip` | src/store/editorStore.ts:116-167 | create, add a cube, save, open another id, reopen: the reopened working list equals the saved one |
| `EditorStore.SaveAndReopen` | src/store/editorStore.ts:136-167 | for any store whose current project is in the catalog, save, open any id, reopen: the working list is restored and the current project is the saved record |
| `EditorStore.Reopen` | src/store/editorStore.ts:136-145 | opening any id and then the id of a catalog entry whose first match is p opens p |
| `EditorStore.ReloadCatalogTwice` | src/store/editorStore.ts:108-114 | reading the catalog twice with no write in between gives the same catalog; with nothing stored the catalog is kept |
| `EditorStore.ToggleTwice` | src/store/editorStore.ts:221-223 | toggling the grid twice and the sky mode twice restores both |

## Left out

- Rendering, panels, toolbar, navbar and the editor page are presentation. They only read store fields and call store actions.
- The object library search filter is a UI predicate on Unicode strings.
- The toolbar calls `addObject(type)` without a category. This is a call-site quirk, not store behaviour.
- Degree/radian conversion and `parseFloat` fallbacks in the properties panel are floating point and UI parsing.
- Numbers are modelled as exact reals and integers. IEEE-754 rounding (for example in `x + 1`, or `0.1` in the environment table) is not modelled.
- Case mapping covers ASCII letters only. No other character lower-cases to one of the shortcut letters, so the shortcut decisions are unaffected.
- `localStorage` and JSON: the slot holds the project list itself. Serialisation is treated as exact. A corrupt stored value (where `JSON.parse` throws) and a stored non-list value are not modelled. Storage failures such as a full quota are also not modelled.
- `generateId` (random) and `Date.now()` (the clock) are parameters. Nothing forces the generated ids to be fresh.
- Zustand's `create`/`set`/subscribe machinery and observer notification.
- `e.preventDefault()` in the keyboard handler and the registration and removal of the DOM listener.
- Project export to a file download and the authentication context.
- `Patch` cannot set `texture`, `intensity` or `castShadow` back to undefined. A patch field is either absent or holds a value.
