/** `src/main.rs`: the terminal front end. Only its bookkeeping is
    modelled: the list of skin items, the item prompt with its four
    validated fields and the cycle between them, the prompt for the WAD
    name, and the message naming the WADs made. Drawing, the event loop,
    and the conversion it starts are not. */
module Prompts {
  import opened Common
  import opened DoomWads
  import opened FistWads
  import Sprites

  /** `tui_prompts::Status`. */
  datatype Status = Pending | Aborted | Done

  /** A `TextState`: what was typed, the status, and whether it has the
      focus. */
  datatype TextState = TextState(value: string, status: Status, focused: bool)

  /** `ItemField`: which field of the item prompt takes the keys. */
  datatype ItemField = Name | Path | Sprite | Mugshot

  /** The field after `f` in `advance_field`. */
  function Next(f: ItemField): ItemField
  {
    match f
    case Name => Path
    case Path => Sprite
    case Sprite => Mugshot
    case Mugshot => Name
  }

  /** The field before `f` in `retreat_field`. */
  function Previous(f: ItemField): ItemField
  {
    match f
    case Name => Mugshot
    case Path => Name
    case Sprite => Path
    case Mugshot => Sprite
  }

  /** Retreating undoes advancing and the other way round; four steps
      either way come back to the start, and no step stays put. */
  lemma FieldCycle(f: ItemField)
    ensures Previous(Next(f)) == f && Next(Previous(f)) == f
    ensures Next(Next(Next(Next(f)))) == f && Previous(Previous(Previous(Previous(f)))) == f
    ensures Next(f) != f && Next(Next(f)) != f && Next(Next(Next(f))) != f
  {
  }

  /** A character `validate_sprite` accepts: an ASCII letter, `[`, `]` or
      `\`. */
  predicate SpriteChar(c: char)
  {
    IsAscii(c) && ('a' <= c <= 'z' || 'A' <= c <= 'Z' || c == '[' || c == ']' || c == '\\')
  }

  predicate ValidSprite(s: string)
  {
    forall i :: 0 <= i < |s| ==> SpriteChar(s[i])
  }

  /** `validate_sprite`: the first character that is not ASCII, or is
      neither alphabetic nor a bracket nor a backslash, answers `false`. */
  method ValidateSprite(sprite: string) returns (ok: bool)
    ensures ok <==> ValidSprite(sprite)
  {
    for i := 0 to |sprite|
      invariant forall j :: 0 <= j < i ==> SpriteChar(sprite[j])
    {
      var c := sprite[i];
      if !IsAscii(c) || (!('a' <= c <= 'z' || 'A' <= c <= 'Z') && c != '[' && c != ']' && c != '\\') {
        return false;
      }
    }
    return true;
  }

  /** What is wrong with `value` as field `f`, if anything. Whether a path
      names an existing file is `onDisk`. */
  function Problem(f: ItemField, value: string, onDisk: string -> bool): Option<string>
  {
    match f
    case Name => if value == [] then Some("Cannot be empty!") else None
    case Path =>
      if !EndsWith(value, ".png") then Some("Must be a png file!")
      else if !onDisk(value) then Some("Does not exist!")
      else None
    case Sprite =>
      if Utf8Len(value) != 4 then Some("Must be 4 characters long!")
      else if !ValidSprite(value) then Some("Must only contain alphabetic characters or ('[', ']', '\\')")
      else None
    case Mugshot =>
      if Utf8Len(value) != 3 then Some("Must be 3 character long!")
      else if !ValidSprite(value) then Some("Must only contain alphabetic characters or ('[', ']', '\\')")
      else None
  }

  /** The byte length the code checks is the character count for a
      string of sprite characters, which are all ASCII. */
  lemma SpriteWidth(value: string)
    requires ValidSprite(value)
    ensures Utf8Len(value) == |value|
  {
    Utf8LenAscii(value);
    assert forall i :: 0 <= i < |value| ==> IsAscii(value[i]);
  }

  /** The rules of `validate_field`. A name is accepted when it is not
      empty, a path when it ends in `.png` and exists, a sprite when it
      has four characters and a mugshot when it has three, all of them
      sprite characters. */
  lemma FieldRules(value: string, onDisk: string -> bool)
    ensures Problem(Name, value, onDisk).None? <==> value != []
    ensures Problem(Path, value, onDisk).None? <==> EndsWith(value, ".png") && onDisk(value)
    ensures Problem(Sprite, value, onDisk).None? <==> |value| == 4 && ValidSprite(value)
    ensures Problem(Mugshot, value, onDisk).None? <==> |value| == 3 && ValidSprite(value)
  {
    if ValidSprite(value) {
      SpriteWidth(value);
    }
  }

  /** A refusal always says why. */
  lemma FieldMessages(f: ItemField, value: string, onDisk: string -> bool)
    ensures Problem(f, value, onDisk).Some? ==> Problem(f, value, onDisk).value != []
  {
  }

  /** What a field marked done guarantees: its rule accepts the value,
      except that the path's existence is the file system's and is not
      part of it. */
  predicate Sound(f: ItemField, t: TextState)
  {
    t.status == Done ==>
      match f
      case Name => t.value != []
      case Path => EndsWith(t.value, ".png")
      case Sprite => |t.value| == 4 && ValidSprite(t.value)
      case Mugshot => |t.value| == 3 && ValidSprite(t.value)
  }

  /** An item the prompt can submit: a name, a four-character sprite and
      a three-character mugshot of sprite characters. */
  predicate ItemOk(item: SkinItem)
  {
    item.name != [] && |item.sprite| == 4 && ValidSprite(item.sprite) && |item.mugshot| == 3 && ValidSprite(item.mugshot)
  }

  /** Upper-casing keeps a valid sprite valid, of the same length, and
      fit for the character replacements of the WAD assembly. */
  lemma UpperSprite(s: string)
    requires ValidSprite(s)
    ensures |ToUpper(s)| == |s| && ValidSprite(ToUpper(s))
    ensures forall i :: 0 <= i < |s| ==> 'a' <= s[i] <= 'z' || ToUpper(s)[i] == s[i]
    ensures |s| >= 4 ==> Replaceable(ToUpper(s), 3)
  {
    forall i | 0 <= i < |s| ensures SpriteChar(ToUpper(s)[i]) {
      assert SpriteChar(s[i]);
    }
  }

  /** The item prompt. */
  class ItemPrompt {
    var name: TextState
    var path: TextState
    var sprite: TextState
    var mugshot: TextState
    var itemField: ItemField
    var nameError: string
    var pathError: string
    var spriteError: string
    var mugshotError: string
    var edit: Option<nat>

    /** The text state of field `f`: `field()` when `f` is current. */
    function Get(f: ItemField): TextState
      reads this
    {
      match f
      case Name => name
      case Path => path
      case Sprite => sprite
      case Mugshot => mugshot
    }

    /** The error line under field `f`. */
    function Error(f: ItemField): string
      reads this
    {
      match f
      case Name => nameError
      case Path => pathError
      case Sprite => spriteError
      case Mugshot => mugshotError
    }

    /** Every field the prompt marks done holds a value its rule accepts. */
    ghost predicate Consistent()
      reads this
    {
      forall f :: Sound(f, Get(f))
    }

    /** `ItemPrompt::add`: empty fields, the name focused. */
    constructor Add()
      ensures Get(Name) == TextState("", Pending, true) && itemField == Name && edit == None
      ensures forall f :: f != Name ==> Get(f) == TextState("", Pending, false)
      ensures forall f :: Error(f) == ""
      ensures Consistent()
    {
      name := TextState("", Pending, true);
      path := TextState("", Pending, false);
      sprite := TextState("", Pending, false);
      mugshot := TextState("", Pending, false);
      itemField := Name;
      nameError, pathError, spriteError, mugshotError := "", "", "", "";
      edit := None;
    }

    /** `ItemPrompt::edit`: the item's values, every field done, the name
        focused, and the index to replace. A valid item gives a consistent
        prompt. */
    constructor Edit(item: SkinItem, index: nat)
      ensures name == TextState(item.name, Done, true) && path == TextState(item.path, Done, false)
      ensures sprite == TextState(item.sprite, Done, false) && mugshot == TextState(item.mugshot, Done, false)
      ensures itemField == Name && edit == Some(index)
      ensures forall f :: Error(f) == ""
      ensures ItemOk(item) && EndsWith(item.path, ".png") ==> Consistent()
    {
      name := TextState(item.name, Done, true);
      path := TextState(item.path, Done, false);
      sprite := TextState(item.sprite, Done, false);
      mugshot := TextState(item.mugshot, Done, false);
      itemField := Name;
      nameError, pathError, spriteError, mugshotError := "", "", "", "";
      edit := Some(index);
    }

    /** Replace the text state of field `f`. */
    method Put(f: ItemField, t: TextState)
      modifies this
      ensures Get(f) == t && forall g :: g != f ==> Get(g) == old(Get(g))
      ensures itemField == old(itemField) && edit == old(edit) && forall g :: Error(g) == old(Error(g))
    {
      match f
      case Name => name := t;
      case Path => path := t;
      case Sprite => sprite := t;
      case Mugshot => mugshot := t;
    }

    /** Replace the error line of field `f`. */
    method PutError(f: ItemField, e: string)
      modifies this
      ensures Error(f) == e && forall g :: g != f ==> Error(g) == old(Error(g))
      ensures itemField == old(itemField) && edit == old(edit) && forall g :: Get(g) == old(Get(g))
    {
      match f
      case Name => nameError := e;
      case Path => pathError := e;
      case Sprite => spriteError := e;
      case Mugshot => mugshotError := e;
    }

    /** Move the focus from the current field to `to`. */
    method MoveFocus(to: ItemField)
      requires to != itemField
      modifies this
      ensures itemField == to && edit == old(edit) && forall g :: Error(g) == old(Error(g))
      ensures Get(old(itemField)) == old(Get(itemField)).(focused := false)
      ensures Get(to) == old(Get(to)).(focused := true)
      ensures forall g :: g != to && g != old(itemField) ==> Get(g) == old(Get(g))
      ensures forall g :: Get(g).value == old(Get(g)).value && Get(g).status == old(Get(g)).status
    {
      var from := itemField;
      Put(from, Get(from).(focused := false));
      itemField := to;
      Put(to, Get(to).(focused := true));
    }

    /** Soundness depends only on value and status, not on the focus. */
    lemma FocusKeepsConsistent(n: TextState, p: TextState, s: TextState, m: TextState)
      requires Sound(Name, n) && Sound(Path, p) && Sound(Sprite, s) && Sound(Mugshot, m)
      requires Get(Name).value == n.value && Get(Name).status == n.status
      requires Get(Path).value == p.value && Get(Path).status == p.status
      requires Get(Sprite).value == s.value && Get(Sprite).status == s.status
      requires Get(Mugshot).value == m.value && Get(Mugshot).status == m.status
      ensures Consistent()
    {
      forall f ensures Sound(f, Get(f)) {
      }
    }

    /** `advance_field`: blur, step to the next field, focus. */
    method AdvanceField()
      modifies this
      ensures itemField == Next(old(itemField)) && edit == old(edit)
      ensures Get(old(itemField)) == old(Get(itemField)).(focused := false)
      ensures Get(itemField) == old(Get(Next(itemField))).(focused := true)
      ensures forall g :: Get(g).value == old(Get(g)).value && Get(g).status == old(Get(g)).status
      ensures forall g :: Error(g) == old(Error(g))
      ensures old(Consistent()) ==> Consistent()
    {
      assert old(Consistent()) ==> Sound(Name, Get(Name)) && Sound(Path, Get(Path)) && Sound(Sprite, Get(Sprite)) && Sound(Mugshot, Get(Mugshot));
      MoveFocus(Next(itemField));
      if old(Consistent()) {
        FocusKeepsConsistent(old(Get(Name)), old(Get(Path)), old(Get(Sprite)), old(Get(Mugshot)));
      }
    }

    /** `retreat_field`: blur, step to the previous field, focus. */
    method RetreatField()
      modifies this
      ensures itemField == Previous(old(itemField)) && edit == old(edit)
      ensures Get(old(itemField)) == old(Get(itemField)).(focused := false)
      ensures Get(itemField) == old(Get(Previous(itemField))).(focused := true)
      ensures forall g :: Get(g).value == old(Get(g)).value && Get(g).status == old(Get(g)).status
      ensures forall g :: Error(g) == old(Error(g))
      ensures old(Consistent()) ==> Consistent()
    {
      assert old(Consistent()) ==> Sound(Name, Get(Name)) && Sound(Path, Get(Path)) && Sound(Sprite, Get(Sprite)) && Sound(Mugshot, Get(Mugshot));
      MoveFocus(Previous(itemField));
      if old(Consistent()) {
        FocusKeepsConsistent(old(Get(Name)), old(Get(Path)), old(Get(Sprite)), old(Get(Mugshot)));
      }
    }

    /** `validate_field`: the current field is aborted, then done exactly
        when its rule accepts the value; its error line says what is
        wrong, or is cleared. */
    method ValidateField(onDisk: string -> bool)
      modifies this
      ensures itemField == old(itemField) && edit == old(edit)
      ensures var f := itemField; var p := Problem(f, old(Get(f)).value, onDisk);
        Get(f) == old(Get(f)).(status := if p.None? then Done else Aborted)
        && Error(f) == (if p.None? then "" else p.value)
      ensures forall g :: g != itemField ==> Get(g) == old(Get(g)) && Error(g) == old(Error(g))
      ensures Sound(itemField, Get(itemField))
    {
      var f := itemField;
      var t := Get(f);
      Put(f, t.(status := Aborted));
      var v := t.value;
      var error: Option<string> := None;
      match f {
        case Name =>
          if v == [] {
            error := Some("Cannot be empty!");
          }
        case Path =>
          if !EndsWith(v, ".png") {
            error := Some("Must be a png file!");
          } else if !onDisk(v) {
            error := Some("Does not exist!");
          }
        case Sprite =>
          var ok := ValidateSprite(v);
          if Utf8Len(v) != 4 {
            error := Some("Must be 4 characters long!");
          } else if !ok {
            error := Some("Must only contain alphabetic characters or ('[', ']', '\\')");
          }
        case Mugshot =>
          var ok := ValidateSprite(v);
          if Utf8Len(v) != 3 {
            error := Some("Must be 3 character long!");
          } else if !ok {
            error := Some("Must only contain alphabetic characters or ('[', ']', '\\')");
          }
      }
      if error.Some? {
        PutError(f, error.value);
      } else {
        Put(f, t.(status := Done));
        PutError(f, "");
      }
      FieldRules(v, onDisk);
    }

    /** Every field is done: Enter submits. */
    predicate Ready()
      reads this
    {
      name.status == Done && path.status == Done && sprite.status == Done && mugshot.status == Done
    }

    /** The item `submit_item_prompt` makes: name and path as typed,
        sprite and mugshot upper-cased. */
    function Submitted(): SkinItem
      reads this
    {
      SkinItem(name.value, path.value, ToUpper(sprite.value), ToUpper(mugshot.value))
    }

    /** A consistent prompt with every field done submits a valid item. */
    lemma SubmittedOk()
      requires Consistent() && Ready()
      ensures ItemOk(Submitted()) && EndsWith(Submitted().path, ".png")
      ensures Replaceable(Submitted().sprite, 3)
    {
      assert Sound(Name, Get(Name)) && Sound(Path, Get(Path)) && Sound(Sprite, Get(Sprite)) && Sound(Mugshot, Get(Mugshot));
      UpperSprite(sprite.value);
      UpperSprite(mugshot.value);
    }

    /** `submit_item_prompt`: replace the edited item, or append a new
        one. */
    method Submit(app: App)
      requires edit.Some? ==> edit.value < |app.items|
      modifies app
      ensures app.items == if edit.Some? then old(app.items)[edit.value := Submitted()] else old(app.items) + [Submitted()]
      ensures app.quit == old(app.quit)
    {
      var item := SkinItem(name.value, path.value, ToUpper(sprite.value), ToUpper(mugshot.value));
      if edit.Some? {
        app.items := app.items[edit.value := item];
      } else {
        app.items := app.items + [item];
      }
    }

    /** `ItemPrompt::handle_event`: Tab and BackTab move the focus, Esc
        closes the prompt, Enter submits and closes it once every field
        is done, and any other key edits the current field, whose new
        value is `typed`, and validates it. Answers whether the prompt
        stays open. The key's kind is not looked at: a repeat or a
        release acts like a press. */
    method HandleKey(code: KeyCode, typed: string, app: App, onDisk: string -> bool) returns (open: bool)
      requires edit.Some? ==> edit.value < |app.items|
      modifies this, app
      ensures app.quit == old(app.quit)
      ensures open <==> !(code == Esc || (code == Enter && old(Ready())))
      ensures app.items == if code == Enter && old(Ready()) then
          (if old(edit).Some? then old(app.items)[old(edit).value := old(Submitted())] else old(app.items) + [old(Submitted())])
        else old(app.items)
      ensures code == Tab ==> itemField == Next(old(itemField))
      ensures code == BackTab ==> itemField == Previous(old(itemField))
      ensures !(code in {Tab, BackTab, Esc, Enter}) ==>
        itemField == old(itemField) && Get(itemField).value == typed
        && (Get(itemField).status == Done <==> Problem(itemField, typed, onDisk).None?)
      ensures old(Consistent()) ==> Consistent()
    {
      open := true;
      match code {
        case Tab => AdvanceField();
        case BackTab => RetreatField();
        case Esc => open := false;
        case Enter =>
          if Ready() {
            Submit(app);
            open := false;
          }
        case _ =>
          Put(itemField, Get(itemField).(value := typed));
          ValidateField(onDisk);
      }
    }
  }

  /** Submitting a valid item keeps every item valid: an edit touches only
      its own row, an addition only grows the list. */
  lemma SubmitKeepsItems(items: seq<SkinItem>, item: SkinItem, edit: Option<nat>)
    requires forall i :: 0 <= i < |items| ==> ItemOk(items[i])
    requires ItemOk(item) && (edit.Some? ==> edit.value < |items|)
    ensures var after := if edit.Some? then items[edit.value := item] else items + [item];
      (forall i :: 0 <= i < |after| ==> ItemOk(after[i]))
      && |after| == (if edit.Some? then |items| else |items| + 1)
      && forall i :: 0 <= i < |items| && edit != Some(i) ==> after[i] == items[i]
  {
  }

  /** The keys the model tells apart. */
  datatype KeyCode = Char(c: char) | Esc | Enter | Tab | BackTab | Up | Down | Other

  /** `KeyEventKind`: whether the terminal reports the key going down,
      repeating, or coming up. */
  datatype KeyKind = Press | Repeat | Release

  /** What `MainContext::handle_event` does with a key event, given the
      selected row and the number of items. */
  datatype Action = OpenQuit | OpenAdd | OpenEdit(index: nat) | Remove(index: nat) | OpenConvert | Nothing

  function MainAction(code: KeyCode, kind: KeyKind, selected: Option<nat>, count: nat): (a: Action)
  {
    if kind != Press then Nothing
    else match code
    case Char(c) =>
      if c == 'q' then OpenQuit
      else if c == 'a' then OpenAdd
      else if c == 'e' && selected.Some? then OpenEdit(selected.value)
      else if c == 'd' && selected.Some? then Remove(selected.value)
      else Nothing
    case Esc => OpenQuit
    case Enter => if count > 0 then OpenConvert else Nothing
    case _ => Nothing
  }

  /** Only pressed keys act. Only `d` removes, and only the selected row;
      Enter opens the convert prompt exactly when there are items; `q` and
      Esc always ask to quit. */
  lemma MainActions(code: KeyCode, kind: KeyKind, selected: Option<nat>, count: nat)
    ensures var a := MainAction(code, kind, selected, count);
      (kind != Press ==> a == Nothing)
      && (a.Remove? <==> kind == Press && code == Char('d') && selected.Some?)
      && (a.Remove? ==> a.index == selected.value)
      && (a.OpenEdit? <==> kind == Press && code == Char('e') && selected.Some?)
      && (a == OpenConvert <==> kind == Press && code == Enter && count > 0)
      && (a == OpenQuit <==> kind == Press && (code == Char('q') || code == Esc))
  {
  }

  /** Removing row `i` closes the gap: the rows before stay, the rows
      after move up by one. */
  lemma RemoveRow(items: seq<SkinItem>, i: nat)
    requires i < |items|
    ensures var after := items[..i] + items[i + 1..];
      |after| == |items| - 1
      && (forall j :: 0 <= j < i ==> after[j] == items[j])
      && (forall j :: i <= j < |after| ==> after[j] == items[j + 1])
      && forall x :: x in after ==> x in items
  {
  }

  /** What is open above the item table: the quit question, an item
      prompt, the WAD name prompt, the question whether to make fists,
      or the closing message. */
  datatype Screen =
    | QuitConfirm
    | ItemEntry(prompt: ItemPrompt)
    | FileEntry(file: ConvertPrompt)
    | FistsConfirm(fileName: string)
    | Finished(success: Success)

  /** `App`: the items and the open sub-context. */
  class App {
    var quit: bool
    var items: seq<SkinItem>
    var subcontext: Option<Screen>

    /** Every item came through a consistent prompt. */
    ghost predicate Valid()
      reads this
    {
      forall i :: 0 <= i < |items| ==> ItemOk(items[i])
    }

    /** `App::default`. */
    constructor ()
      ensures !quit && items == [] && subcontext == None && Valid()
    {
      quit := false;
      items := [];
      subcontext := None;
    }

    /** `MainContext::handle_event` for a key event; only a pressed key
        acts. Indexing the items with the selected row panics when it is
        past the end; the table keeps the selection inside the list. */
    method HandleMainKey(code: KeyCode, kind: KeyKind, selected: Option<nat>)
      requires selected.Some? ==> selected.value < |items|
      modifies this
      ensures quit == old(quit)
      ensures var a := MainAction(code, kind, selected, |old(items)|);
        match a
        case Remove(i) => (items == old(items)[..i] + old(items)[i + 1..] && subcontext == old(subcontext))
        case Nothing => (items == old(items) && subcontext == old(subcontext))
        case OpenQuit => (items == old(items) && subcontext == Some(QuitConfirm))
        case OpenAdd =>
          (items == old(items) && subcontext.Some? && subcontext.value.ItemEntry?
           && fresh(subcontext.value.prompt) && subcontext.value.prompt.edit == None)
        case OpenEdit(i) =>
          (items == old(items) && subcontext.Some? && subcontext.value.ItemEntry?
           && fresh(subcontext.value.prompt) && subcontext.value.prompt.edit == Some(i)
           && subcontext.value.prompt.Submitted() == items[i].(sprite := ToUpper(items[i].sprite), mugshot := ToUpper(items[i].mugshot)))
        case OpenConvert =>
          (items == old(items) && subcontext.Some? && subcontext.value.FileEntry?
           && fresh(subcontext.value.file))
      ensures old(Valid()) ==> Valid()
    {
      var a := MainAction(code, kind, selected, |items|);
      if a == OpenQuit {
        subcontext := Some(QuitConfirm);
      } else if a == OpenAdd {
        var p := new ItemPrompt.Add();
        subcontext := Some(ItemEntry(p));
      } else if a.OpenEdit? {
        var p := new ItemPrompt.Edit(items[a.index], a.index);
        subcontext := Some(ItemEntry(p));
      } else if a.Remove? {
        items := items[..a.index] + items[a.index + 1..];
      } else if a == OpenConvert {
        var p := new ConvertPrompt();
        subcontext := Some(FileEntry(p));
      }
    }

    /** `QuitConfirm::handle_event`: on a pressed key, `y` or Esc quits,
        `n` or Down closes the question, any other key leaves it open;
        repeats and releases change nothing. */
    method HandleQuitKey(code: KeyCode, kind: KeyKind)
      requires subcontext == Some(QuitConfirm)
      modifies this
      ensures items == old(items)
      ensures quit <==> old(quit) || (kind == Press && (code == Char('y') || code == Esc))
      ensures subcontext == if kind == Press && (code == Char('n') || code == Down) then None else Some(QuitConfirm)
    {
      if kind == Press {
        if code == Char('y') || code == Esc {
          quit := true;
        } else if code == Char('n') || code == Down {
          subcontext := None;
        }
      }
    }

    /** `Success::handle_event`: any key event quits, whatever its kind. */
    method HandleSuccessKey()
      modifies this
      ensures quit && items == old(items) && subcontext == old(subcontext)
    {
      quit := true;
    }
  }

  /** `FistsConfirm::handle_event`: Esc closes the question, `y` ends with
      the fist WAD named as well, `n` without it, and any other key leaves
      the question open, whatever the kind of the key event. The two WADs
      themselves are written by `convert_all`, which is not part of this
      model. */
  function FistsAnswer(code: KeyCode, fileName: string): (next: Option<Screen>)
  {
    match code
    case Esc => None
    case Char(c) =>
      if c == 'y' then Some(Finished(NewWithFists(fileName)))
      else if c == 'n' then Some(Finished(NewSuccess(fileName)))
      else Some(FistsConfirm(fileName))
    case _ => Some(FistsConfirm(fileName))
  }

  /** Only `y` names a fist WAD, and the WAD named is always the one
      typed. */
  lemma FistsAnswers(code: KeyCode, fileName: string)
    ensures var next := FistsAnswer(code, fileName);
      (next.Some? && next.value.Finished? ==> next.value.success.fileName == fileName)
      && (next.Some? && next.value.Finished? && next.value.success.fistsFileName.Some? <==> code == Char('y'))
      && (next.None? <==> code == Esc)
  {
  }

  /** The prompt for the name of the WAD to write. */
  class ConvertPrompt {
    var fileName: TextState
    var error: string

    /** A name marked done ends in `.wad`. */
    predicate Valid()
      reads this
    {
      fileName.status == Done ==> EndsWith(fileName.value, ".wad")
    }

    /** `ConvertPrompt::default`: empty and focused. */
    constructor ()
      ensures fileName == TextState("", Pending, true) && error == "" && Valid()
    {
      fileName := TextState("", Pending, true);
      error := "";
    }

    /** `ConvertPrompt::validate`: done exactly when the name ends in
        `.wad`, with the error line cleared, and aborted with a reason
        otherwise. */
    method Validate()
      modifies this
      ensures fileName == old(fileName).(status := if EndsWith(fileName.value, ".wad") then Done else Aborted)
      ensures error == "" <==> fileName.status == Done
      ensures Valid()
    {
      fileName := fileName.(status := Aborted);
      if !EndsWith(fileName.value, ".wad") {
        error := "Must be a wad file!";
      } else {
        fileName := fileName.(status := Done);
        error := "";
      }
    }

    /** `ConvertPrompt::handle_event`. Esc closes the prompt. Enter on a
        validated name asks about fists when an ACS compiler was found
        (`hasAcc`) and otherwise ends with the WAD alone; before the name
        is valid Enter does nothing. Any other key edits the name, whose
        new value is `typed`, and validates it. As in the item prompt, the
        key's kind is not looked at. The conversion itself is
        `convert_all`, which is not part of this model. */
    method HandleKey(code: KeyCode, typed: string, hasAcc: bool) returns (next: Option<Screen>)
      requires Valid()
      modifies this
      ensures Valid()
      ensures code == Esc ==> next == None
      ensures code == Enter && old(fileName).status == Done ==>
        next == Some(if hasAcc then FistsConfirm(old(fileName).value) else Finished(NewSuccess(old(fileName).value)))
      ensures code == Enter && old(fileName).status != Done ==> next == Some(FileEntry(this)) && fileName == old(fileName)
      ensures code != Esc && code != Enter ==>
        next == Some(FileEntry(this)) && fileName.value == typed
        && (fileName.status == Done <==> EndsWith(typed, ".wad"))
      ensures next.Some? && next.value.Finished? ==> EndsWith(next.value.success.fileName, ".wad")
      ensures next.Some? && next.value.FistsConfirm? ==> EndsWith(next.value.fileName, ".wad")
    {
      if code == Esc {
        return None;
      } else if code == Enter {
        if fileName.status == Done {
          if hasAcc {
            return Some(FistsConfirm(fileName.value));
          }
          return Some(Finished(NewSuccess(fileName.value)));
        }
        return Some(FileEntry(this));
      }
      fileName := fileName.(value := typed);
      Validate();
      return Some(FileEntry(this));
    }
  }

  /** The closing message: the WAD written, and the fist WAD if one was. */
  datatype Success = Success(fileName: string, fistsFileName: Option<string>)

  /** `Success::new`. */
  function NewSuccess(fileName: string): (s: Success)
    ensures s.fileName == fileName && s.fistsFileName.None?
  {
    Success(fileName, None)
  }

  /** `Success::new_with_fists`: the fist WAD's name is the file name
      with every `.` replaced by `_fists.`. */
  function NewWithFists(fileName: string): (s: Success)
    ensures s.fileName == fileName && s.fistsFileName.Some?
  {
    Success(fileName, Some(Replace(fileName, '.', "_fists.")))
  }

  /** For a name with a single dot, the fist WAD is named by the stem,
      `_fists` and the extension, and so differs from the WAD itself. */
  lemma FistsFileName(base: string, ext: string)
    requires '.' !in base && '.' !in ext
    ensures NewWithFists(base + "." + ext).fistsFileName == Some(base + "_fists." + ext)
    ensures base + "_fists." + ext != base + "." + ext
  {
    ReplaceAppend(base + ".", ext, '.', "_fists.");
    ReplaceAppend(base, ".", '.', "_fists.");
    assert Replace(".", '.', "_fists.") == "_fists." by {
      assert "."[1..] == [];
    }
    Sprites.ReplaceFree(base, '.', "_fists.");
    Sprites.ReplaceFree(ext, '.', "_fists.");
    assert |base + "_fists." + ext| == |base + "." + ext| + 6;
  }
}
