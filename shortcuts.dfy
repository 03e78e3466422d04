/**
 * The keyboard shortcut rule of src/hooks/useKeyboardShortcuts.ts: which store
 * actions a key press triggers, given the current selection.
 */
module Shortcuts {
  import opened Wrappers
  import opened Text
  import opened Scene

  /** Where the key event was dispatched: a text field swallows shortcuts. */
  datatype Target = InputField | TextArea | OtherElement

  datatype KeyEvent = KeyEvent(
    key: string,
    ctrlKey: bool,
    metaKey: bool,
    shiftKey: bool,
    altKey: bool,
    target: Target)

  /** A store action the handler can call. */
  datatype Action =
    | AddObject(kind: ObjectType, category: Category)
    | DeleteObject(id: string)
    | DuplicateObject(id: string)

  predicate NoModifiers(e: KeyEvent) {
    !e.ctrlKey && !e.metaKey && !e.shiftKey && !e.altKey
  }

  /** JavaScript truthiness of `selectedObjectId`: null and "" are both false. */
  predicate Truthy(selected: Option<string>) {
    selected.Some? && selected.value != ""
  }

  /** The `switch` on the lower-cased key. */
  function LetterShortcut(k: string): Option<(ObjectType, Category)> {
    if k == "c" then Some((Cube, Primitive))
    else if k == "s" then Some((Sphere, Primitive))
    else if k == "y" then Some((Cylinder, Primitive))
    else if k == "p" then Some((Plane, Primitive))
    else if k == "n" then Some((Cone, Primitive))
    else if k == "t" then Some((Torus, Primitive))
    else if k == "l" then Some((Directional, Light))
    else None
  }

  /** The lower-case letters the `switch` lists. */
  const ShortcutLetters: set<char> := {'c', 's', 'y', 'p', 'n', 't', 'l'}

  /**
   * `handleKeyDown(e)`: the actions its three independent `if` statements
   * call, in order. At most one of them ever fires.
   */
  function HandleKeyDown(e: KeyEvent, selected: Option<string>): (r: seq<Action>)
    ensures |r| <= 1
  {
    if e.target != OtherElement then []
    else
      var lower := ToLower(e.key);
      var adds :=
        if NoModifiers(e) then
          match LetterShortcut(lower)
          case Some((t, c)) => [AddObject(t, c)]
          case None => []
        else [];
      var deletes :=
        if (e.key == "Delete" || e.key == "Backspace") && Truthy(selected)
        then [DeleteObject(selected.value)] else [];
      var duplicates :=
        if (e.ctrlKey || e.metaKey) && lower == "d" && Truthy(selected)
        then [DuplicateObject(selected.value)] else [];
      adds + deletes + duplicates
  }

  /** Nothing happens while the user types into an input or a textarea. */
  lemma IgnoredInTextFields(e: KeyEvent, selected: Option<string>)
    requires e.target != OtherElement
    ensures HandleKeyDown(e, selected) == []
  {
  }

  /** The characters that lower-case to a shortcut letter. */
  const ShortcutChars: set<char> :=
    {'c', 'C', 's', 'S', 'y', 'Y', 'p', 'P', 'n', 'N', 't', 'T', 'l', 'L'}

  /** `LetterShortcut` matches exactly the one-letter strings of `ShortcutLetters`. */
  lemma LetterShortcutMatches(k: string)
    ensures LetterShortcut(k).Some? <==> |k| == 1 && k[0] in ShortcutLetters
  {
    if |k| == 1 {
      assert k == [k[0]];
    }
  }

  /**
   * The `switch` on `e.key.toLowerCase()` is case-insensitive: it matches the
   * one-character keys that are a listed letter in either case, and no other.
   */
  lemma ShortcutKeys(k: string)
    ensures LetterShortcut(ToLower(k)).Some? <==> |k| == 1 && k[0] in ShortcutChars
  {
    LetterShortcutMatches(ToLower(k));
    if |k| == 1 {
      assert ToLower(k)[0] == LowerChar(k[0]);
      LowerCharShortcut(k[0]);
    }
  }

  lemma LowerCharShortcut(x: char)
    ensures LowerChar(x) in ShortcutLetters <==> x in ShortcutChars
  {
    if IsUpper(x) {
      assert LowerChar(x) as int == x as int + 32;
    }
  }

  /** With no modifier held, a shortcut letter of either case adds its object. */
  lemma LetterAdds(e: KeyEvent, selected: Option<string>)
    requires e.target == OtherElement && NoModifiers(e)
    requires LetterShortcut(ToLower(e.key)).Some?
    ensures var (t, c) := LetterShortcut(ToLower(e.key)).value;
      HandleKeyDown(e, selected) == [AddObject(t, c)]
  {
  }

  /**
   * The seven letter shortcuts, each in either case, with no modifier held
   * and outside a text field.
   */
  lemma LetterTable(e: KeyEvent, selected: Option<string>)
    requires e.target == OtherElement && NoModifiers(e)
    ensures e.key == "c" || e.key == "C" ==> HandleKeyDown(e, selected) == [AddObject(Cube, Primitive)]
    ensures e.key == "s" || e.key == "S" ==> HandleKeyDown(e, selected) == [AddObject(Sphere, Primitive)]
    ensures e.key == "y" || e.key == "Y" ==> HandleKeyDown(e, selected) == [AddObject(Cylinder, Primitive)]
    ensures e.key == "p" || e.key == "P" ==> HandleKeyDown(e, selected) == [AddObject(Plane, Primitive)]
    ensures e.key == "n" || e.key == "N" ==> HandleKeyDown(e, selected) == [AddObject(Cone, Primitive)]
    ensures e.key == "t" || e.key == "T" ==> HandleKeyDown(e, selected) == [AddObject(Torus, Primitive)]
    ensures e.key == "l" || e.key == "L" ==> HandleKeyDown(e, selected) == [AddObject(Directional, Light)]
  {
    if |e.key| == 1 {
      assert ToLower(e.key) == [LowerChar(e.key[0])];
    }
  }

  /** An add fires only outside text fields, with no modifier, for a key the `switch` matches. */
  lemma AddOnlyForLetters(e: KeyEvent, selected: Option<string>)
    ensures forall a :: a in HandleKeyDown(e, selected) && a.AddObject? ==>
      e.target == OtherElement && NoModifiers(e) && LetterShortcut(ToLower(e.key)) == Some((a.kind, a.category))
  {
  }

  /** Every object a shortcut adds is paired with the category its type is declared in. */
  lemma AddsAreConsistent(e: KeyEvent, selected: Option<string>)
    ensures forall a :: a in HandleKeyDown(e, selected) && a.AddObject? ==> a.category == a.kind.DeclaredCategory()
  {
  }

  /** Holding ctrl, meta, shift or alt never adds an object. */
  lemma ModifiersBlockAdd(e: KeyEvent, selected: Option<string>)
    requires !NoModifiers(e)
    ensures forall a :: a in HandleKeyDown(e, selected) ==> !a.AddObject?
  {
  }

  /**
   * Delete or Backspace (case-sensitive) deletes the selected object, and only
   * when there is a (non-empty) selection.
   */
  lemma DeleteShortcut(e: KeyEvent, selected: Option<string>)
    ensures (exists a :: a in HandleKeyDown(e, selected) && a.DeleteObject?) <==>
      e.target == OtherElement && (e.key == "Delete" || e.key == "Backspace") && Truthy(selected)
    ensures e.target == OtherElement && (e.key == "Delete" || e.key == "Backspace") && Truthy(selected) ==>
      HandleKeyDown(e, selected) == [DeleteObject(selected.value)]
  {
    var r := HandleKeyDown(e, selected);
    if e.target == OtherElement && (e.key == "Delete" || e.key == "Backspace") {
      var lower := ToLower(e.key);
      assert |lower| > 1;
      LetterShortcutMatches(lower);
      if Truthy(selected) {
        assert r == [DeleteObject(selected.value)];
        assert r[0] in r;
      }
    }
  }

  /** Ctrl or Meta with D (either case) duplicates the selected object, and only with a selection. */
  lemma DuplicateShortcut(e: KeyEvent, selected: Option<string>)
    ensures (exists a :: a in HandleKeyDown(e, selected) && a.DuplicateObject?) <==>
      e.target == OtherElement && (e.ctrlKey || e.metaKey) && (e.key == "d" || e.key == "D") && Truthy(selected)
    ensures e.target == OtherElement && (e.ctrlKey || e.metaKey) && (e.key == "d" || e.key == "D") && Truthy(selected) ==>
      HandleKeyDown(e, selected) == [DuplicateObject(selected.value)]
  {
    var r := HandleKeyDown(e, selected);
    ToLowerSingleLetter(e.key, 'd');
    if e.target == OtherElement && (e.ctrlKey || e.metaKey) && (e.key == "d" || e.key == "D") && Truthy(selected) {
      assert ToLower(e.key) == "d";
      assert r == [DuplicateObject(selected.value)];
      assert r[0] in r;
    }
  }

  /** A key that is neither a shortcut letter, D, Delete nor Backspace does nothing. */
  lemma UnmappedKeys(e: KeyEvent, selected: Option<string>)
    requires LetterShortcut(ToLower(e.key)).None?
    requires e.key !in {"d", "D", "Delete", "Backspace"}
    ensures HandleKeyDown(e, selected) == []
  {
    ToLowerSingleLetter(e.key, 'd');
  }

  /** Delete or Backspace without a (non-empty) selection does nothing at all. */
  lemma DeleteNoSelection(e: KeyEvent, selected: Option<string>)
    requires e.key == "Delete" || e.key == "Backspace"
    requires !Truthy(selected)
    ensures HandleKeyDown(e, selected) == []
  {
    LetterShortcutMatches(ToLower(e.key));
  }

  /** D of either case does nothing unless ctrl or meta is held and there is a (non-empty) selection. */
  lemma PlainDNoAction(e: KeyEvent, selected: Option<string>)
    requires e.key == "d" || e.key == "D"
    requires !((e.ctrlKey || e.metaKey) && Truthy(selected))
    ensures HandleKeyDown(e, selected) == []
  {
    assert ToLower(e.key) == "d";
  }
}
