/** The mode editor (ModeEditScreen.js): a mode has 15 recipe slots, 10 effect slots
    and a 25-entry 0/1 recipe inclusion mask. Slot arrays are JavaScript arrays shared
    by reference between mode objects, so they are objects here (`JsArray`), and a mode
    object, which the screen only ever copies shallowly, is a value holding two of them. */
module ModeEdit {
  import opened Js

  const RecipeSlots: nat := 15
  const EffectSlots: nat := 10
  const MaskLength: nat := 25

  /** The recipe slot object for an included recipe, `{icon: "recipes.png"}`. */
  const LitRecipe: Value := Obj(map["icon" := Str("recipes.png")])

  const NextIcon: Value := Str("recipenext-grey.png")
  const BlankIcon: Value := Str("recipeblank-grey.png")

  /** A JavaScript array: several mode objects may hold the same one. */
  class JsArray {
    var items: seq<Value>

    constructor (init: seq<Value>)
      ensures items == init
    {
      items := init;
    }

    /** `array.push(v)`. */
    method Push(v: Value)
      modifies this
      ensures items == old(items) + [v]
    {
      items := items + [v];
    }
  }

  datatype SlotType = Recipes | Effects

  /** A mode object. `{...mode}` copies this value: the copy holds the same arrays. */
  datatype Mode = Mode(id: int, name: string, description: string, enabled: bool,
                       recipes: JsArray, effects: JsArray)
  {
    /** `mode[type]`. */
    function Slots(t: SlotType): JsArray
    {
      if t == Recipes then recipes else effects
    }
  }

  /** `isItemEmpty`: an entry with no keys. */
  predicate IsItemEmpty(item: Value)
  {
    HasNoKeys(item)
  }

  /** `getFirstEmpty`: the smallest index of an entry with no keys, or -1. */
  function GetFirstEmpty(list: seq<Value>): (r: int)
    ensures -1 <= r < |list|
    ensures r >= 0 ==> IsItemEmpty(list[r]) && forall j :: 0 <= j < r ==> !IsItemEmpty(list[j])
    ensures r == -1 ==> forall j :: 0 <= j < |list| ==> !IsItemEmpty(list[j])
  {
    FindIndex(list, IsItemEmpty)
  }

  /** The first empty index is determined by the entries up to it. */
  lemma FirstEmptyIs(list: seq<Value>, k: int)
    requires 0 <= k < |list| && IsItemEmpty(list[k])
    requires forall j :: 0 <= j < k ==> !IsItemEmpty(list[j])
    ensures GetFirstEmpty(list) == k
  {
  }

  /** `recipe_mask.filter(x => x === 1).length`. */
  function CountOnes(mask: seq<Value>): (n: nat)
    ensures n <= |mask|
    ensures n == 0 <==> forall i :: 0 <= i < |mask| ==> mask[i] != Num(1)
  {
    if |mask| == 0 then 0
    else CountOnes(mask[..|mask| - 1]) + (if mask[|mask| - 1] == Num(1) then 1 else 0)
  }

  /** The 15 recipe slots showing `count` included recipes: lit ones first, then `{}`. */
  function LitRecipes(count: nat): (s: seq<Value>)
    ensures |s| == RecipeSlots
    ensures forall i :: 0 <= i < RecipeSlots ==> s[i] == if i < count then LitRecipe else EmptyObject
  {
    seq(RecipeSlots, i requires 0 <= i < RecipeSlots => if i < count then LitRecipe else EmptyObject)
  }

  /** After the recipe slots are lit for `count` recipes, the "+" slot (the first
      empty one) is slot `count` when fewer than 15 are included; with 15 or more, it
      is the first empty entry past the 15 slots, if any. */
  lemma LitRecipesFirstEmpty(count: nat, rest: seq<Value>)
    ensures var fe := GetFirstEmpty(LitRecipes(count) + rest);
      if count < RecipeSlots then fe == count
      else fe == (if GetFirstEmpty(rest) < 0 then -1 else RecipeSlots + GetFirstEmpty(rest))
  {
    var list := LitRecipes(count) + rest;
    assert !IsItemEmpty(LitRecipe);
    if count < RecipeSlots {
      assert list[count] == EmptyObject;
      forall j | 0 <= j < count ensures !IsItemEmpty(list[j]) {
        assert list[j] == LitRecipe;
      }
      FirstEmptyIs(list, count);
    } else {
      forall j | 0 <= j < RecipeSlots ensures !IsItemEmpty(list[j]) {
        assert list[j] == LitRecipe;
      }
      var f := GetFirstEmpty(rest);
      if f < 0 {
        forall j | RecipeSlots <= j < |list| ensures !IsItemEmpty(list[j]) {
          assert list[j] == rest[j - RecipeSlots];
        }
      } else {
        forall j | 0 <= j < RecipeSlots + f ensures !IsItemEmpty(list[j]) {
          if j >= RecipeSlots {
            assert list[j] == rest[j - RecipeSlots];
          }
        }
        assert list[RecipeSlots + f] == rest[f];
        FirstEmptyIs(list, RecipeSlots + f);
      }
    }
  }

  /** `getIcon` for the slot at position `index` of a row whose first empty index is
      `firstEmpty`. */
  function SlotIcon(item: Value, index: int, firstEmpty: int): Value
  {
    if index == firstEmpty then NextIcon
    else if item.Obj? && "icon" in item.fields then item.fields["icon"]
    else BlankIcon
  }

  /** The slot's `disabled` flag in `renderRow`. */
  predicate SlotDisabled(index: int, firstEmpty: int)
  {
    index > firstEmpty
  }

  /** In a rendered row, the clickable slots are exactly the filled prefix and the "+"
      slot (the first empty one), which shows the next icon; a full list disables
      every slot; a filled slot shows its own icon or the blank one. */
  lemma RowRendering(list: seq<Value>, p: int)
    requires 0 <= p < |list|
    ensures var fe := GetFirstEmpty(list);
      (!SlotDisabled(p, fe) <==> 0 <= fe && p <= fe) &&
      (!SlotDisabled(p, fe) ==> (p == fe && IsItemEmpty(list[p])) || (p < fe && !IsItemEmpty(list[p]))) &&
      (fe == -1 ==> SlotDisabled(p, fe)) &&
      (p == fe ==> SlotIcon(list[p], p, fe) == NextIcon) &&
      (p != fe ==>
         SlotIcon(list[p], p, fe) ==
           (if list[p].Obj? && "icon" in list[p].fields then list[p].fields["icon"] else BlankIcon))
  {
  }

  /** Where pressing a slot leads (`onPressItem`). */
  datatype PressTarget =
    | OpenRecipeList
    | OpenArmModePicker
    | OpenEffectList
    | OpenStateEditor(item: Value, removable: bool)

  function PressItem(t: SlotType, list: seq<Value>, index: nat): PressTarget
    requires index < |list|
  {
    if t == Recipes then OpenRecipeList
    else if index == 0 && IsItemEmpty(list[index]) then OpenArmModePicker
    else if IsItemEmpty(list[index]) then OpenEffectList
    else OpenStateEditor(list[index], index == GetFirstEmpty(list) - 1)
  }

  /** An empty effect slot opens a picker (the arm-mode one for slot 0); a filled one
      opens the state editor, which offers removal exactly for the last filled slot
      before the first empty one, and never in a full list. */
  lemma EffectPressRule(list: seq<Value>, index: nat)
    requires index < |list|
    ensures var r := PressItem(Effects, list, index);
      (r.OpenStateEditor? <==> !IsItemEmpty(list[index])) &&
      (r == OpenArmModePicker <==> index == 0 && IsItemEmpty(list[index])) &&
      (r.OpenStateEditor? ==>
         r.item == list[index] &&
         (r.removable <==> index + 1 == GetFirstEmpty(list)) &&
         (r.removable ==>
            IsItemEmpty(list[index + 1]) && forall j :: 0 <= j <= index ==> !IsItemEmpty(list[j]))) &&
      (GetFirstEmpty(list) == -1 ==> !(r.OpenStateEditor? && r.removable))
  {
  }

  /** On an enabled effect slot: the "+" slot opens a picker, any slot before it the
      state editor. */
  lemma EnabledEffectPress(list: seq<Value>, index: nat)
    requires index < |list| && !SlotDisabled(index, GetFirstEmpty(list))
    ensures index == GetFirstEmpty(list) ==>
      PressItem(Effects, list, index) == (if index == 0 then OpenArmModePicker else OpenEffectList)
    ensures index < GetFirstEmpty(list) ==> PressItem(Effects, list, index).OpenStateEditor?
  {
  }

  /** The object `onSave` hands to the naming screen: the mode with `recipes`
      replaced by the mask. */
  datatype SavedMode = SavedMode(id: int, name: string, description: string, enabled: bool,
                                 recipes: seq<Value>, effects: JsArray)

  datatype SaveOutcome = NeedEffect | OpenModeName(saved: SavedMode, newMode: bool)

  class ModeEditScreen {
    /** `state.mode`; `None` is the initial `{}`. */
    var mode: Option<Mode>
    var recipeMask: seq<Value>
    /** `state.effects`: the effects catalogue fetched at mount. */
    var effects: Option<seq<Value>>
    var unmounted: bool
    /** `navigation.state.params.mode !== null`. */
    var editing: bool
    /** `empty_mode.recipes`: one module-level array shared by every screen. */
    const template: JsArray

    /** A loaded mode has its 15 recipe slots. */
    ghost predicate Valid()
      reads this, if mode.Some? then {mode.value.recipes} else {}
    {
      mode.Some? ==> |mode.value.recipes.items| >= RecipeSlots
    }

    constructor (emptyModeRecipes: JsArray)
      ensures template == emptyModeRecipes && mode == None && recipeMask == []
      ensures effects == None && !unmounted && !editing
      ensures Valid()
    {
      template := emptyModeRecipes;
      mode := None;
      recipeMask := [];
      effects := None;
      unmounted := false;
      editing := false;
    }

    method WillUnmount()
      modifies this`unmounted
      ensures unmounted
    {
      unmounted := true;
    }

    /** Light the 15 recipe slots of `recipes` for `count` included recipes, in place. */
    static method LightRecipes(recipes: JsArray, count: nat)
      requires |recipes.items| >= RecipeSlots
      modifies recipes
      ensures recipes.items == LitRecipes(count) + old(recipes.items)[RecipeSlots..]
    {
      var i := 0;
      while i < RecipeSlots
        invariant 0 <= i <= RecipeSlots
        invariant |recipes.items| == |old(recipes.items)|
        invariant forall j :: 0 <= j < i ==> recipes.items[j] == if j < count then LitRecipe else EmptyObject
        invariant recipes.items[i..] == old(recipes.items)[i..]
      {
        recipes.items := recipes.items[i := if i < count then LitRecipe else EmptyObject];
        i := i + 1;
      }
      assert recipes.items == recipes.items[..RecipeSlots] + recipes.items[RecipeSlots..];
    }

    /** `componentWillMount`: the unmounted flag is cleared, the effects catalogue is
        fetched, and `unmountedMeanwhile` says whether the screen was left while the
        fetch ran. Once the catalogue came back to a mounted screen, the passed mode is
        edited, or a new one is created as the source does (`CreateNewMode`). */
    method WillMount(params: Option<Mode>, nextFreeIndex: int, fetchedEffects: Option<seq<Value>>,
                     unmountedMeanwhile: bool)
      requires params.Some? ==> |params.value.recipes.items| >= MaskLength
      modifies this, template, if params.Some? then {params.value.recipes} else {}
      ensures unmounted == unmountedMeanwhile
      ensures fetchedEffects.None? || unmountedMeanwhile ==>
        mode == old(mode) && recipeMask == old(recipeMask) && effects == old(effects) &&
        editing == old(editing) && template.items == old(template.items)
      ensures (fetchedEffects.None? || unmountedMeanwhile) && params.Some? ==>
        params.value.recipes.items == old(params.value.recipes.items)
      ensures params.Some? && params.value.recipes != template ==> template.items == old(template.items)
      ensures fetchedEffects.Some? && !unmountedMeanwhile ==> effects == fetchedEffects && Valid()
      ensures fetchedEffects.Some? && !unmountedMeanwhile && params.Some? ==>
        mode == params && editing &&
        recipeMask == old(params.value.recipes.items)[..MaskLength] &&
        params.value.recipes.items ==
          LitRecipes(CountOnes(recipeMask)) + old(params.value.recipes.items)[RecipeSlots..]
      ensures fetchedEffects.Some? && !unmountedMeanwhile && params.None? ==>
        mode.Some? && mode.value.id == nextFreeIndex && mode.value.recipes == template &&
        fresh(mode.value.effects) && !editing &&
        template.items == old(template.items) + seq(RecipeSlots, _ => EmptyObject) &&
        mode.value.effects.items == seq(EffectSlots, _ => EmptyObject) &&
        recipeMask == seq(MaskLength, _ => Num(0))
    {
      unmounted := unmountedMeanwhile;
      if fetchedEffects.None? || unmounted {
        return;
      }
      effects := fetchedEffects;
      if params.Some? {
        LoadExistingMode(params.value);
      } else {
        CreateNewMode(nextFreeIndex);
      }
    }

    /** Edit an existing mode: copy the mask out of its `recipes`, then rewrite that
        same array's first 15 slots by the count of ones. */
    method LoadExistingMode(m: Mode)
      requires |m.recipes.items| >= MaskLength
      modifies this`mode, this`recipeMask, this`editing, m.recipes
      ensures mode == Some(m) && editing && Valid()
      ensures recipeMask == old(m.recipes.items)[..MaskLength]
      ensures m.recipes.items == LitRecipes(CountOnes(recipeMask)) + old(m.recipes.items)[RecipeSlots..]
    {
      var mask: seq<Value> := [];
      var i := 0;
      while i < MaskLength
        invariant 0 <= i <= MaskLength
        invariant mask == m.recipes.items[..i]
      {
        mask := mask + [m.recipes.items[i]];
        i := i + 1;
      }
      LightRecipes(m.recipes, CountOnes(mask));
      mode := Some(m);
      recipeMask := mask;
      editing := true;
    }

    /** Create a new mode as the source does: `{...empty_mode, id}` keeps the template's
        recipes array, and 15 `{}` are pushed onto THAT array; the effects array is new. */
    method CreateNewMode(nextFreeIndex: int)
      modifies this`mode, this`recipeMask, this`editing, template
      ensures mode.Some? && mode.value.id == nextFreeIndex && mode.value.recipes == template
      ensures fresh(mode.value.effects) && !editing && Valid()
      ensures template.items == old(template.items) + seq(RecipeSlots, _ => EmptyObject)
      ensures mode.value.effects.items == seq(EffectSlots, _ => EmptyObject)
      ensures recipeMask == seq(MaskLength, _ => Num(0))
    {
      var newEffects := new JsArray([]);
      var m := Mode(nextFreeIndex, "", "", false, template, newEffects);
      var i := 0;
      while i < RecipeSlots
        invariant 0 <= i <= RecipeSlots
        invariant template.items == old(template.items) + seq(i, _ => EmptyObject)
        invariant newEffects.items == []
      {
        m.recipes.Push(EmptyObject);
        i := i + 1;
      }
      i := 0;
      while i < EffectSlots
        invariant 0 <= i <= EffectSlots
        invariant newEffects.items == seq(i, _ => EmptyObject)
        invariant template.items == old(template.items) + seq(RecipeSlots, _ => EmptyObject)
      {
        m.effects.Push(EmptyObject);
        i := i + 1;
      }
      var mask: seq<Value> := [];
      i := 0;
      while i < MaskLength
        invariant 0 <= i <= MaskLength
        invariant mask == seq(i, _ => Num(0))
      {
        mask := mask + [Num(0)];
        i := i + 1;
      }
      mode := Some(m);
      recipeMask := mask;
      editing := false;
    }

    /** The evidently intended new mode: its own 15 empty recipe slots, whatever
        earlier screens did to the template (see `TemplateLeaksBetweenScreens`). */
    method CreateNewModeFresh(nextFreeIndex: int)
      modifies this`mode, this`recipeMask, this`editing
      ensures mode.Some? && mode.value.id == nextFreeIndex
      ensures fresh(mode.value.recipes) && fresh(mode.value.effects) && !editing && Valid()
      ensures mode.value.recipes.items == seq(RecipeSlots, _ => EmptyObject)
      ensures mode.value.effects.items == seq(EffectSlots, _ => EmptyObject)
      ensures GetFirstEmpty(mode.value.recipes.items) == 0 && GetFirstEmpty(mode.value.effects.items) == 0
      ensures recipeMask == seq(MaskLength, _ => Num(0))
    {
      var recipes := new JsArray(seq(RecipeSlots, _ => EmptyObject));
      var newEffects := new JsArray(seq(EffectSlots, _ => EmptyObject));
      FirstEmptyIs(recipes.items, 0);
      FirstEmptyIs(newEffects.items, 0);
      mode := Some(Mode(nextFreeIndex, "", "", false, recipes, newEffects));
      recipeMask := seq(MaskLength, _ => Num(0));
      editing := false;
    }

    /** `onChangeRecipes`: store the mask and light one recipe slot per included recipe. */
    method OnChangeRecipes(mask: seq<Value>)
      requires Valid() && mode.Some?
      modifies this`recipeMask, mode.value.recipes
      ensures Valid() && mode == old(mode) && recipeMask == mask
      ensures mode.value.recipes.items ==
        LitRecipes(CountOnes(mask)) + old(mode.value.recipes.items)[RecipeSlots..]
      ensures mode.value.recipes == template ==>
        template.items == LitRecipes(CountOnes(mask)) + old(template.items)[RecipeSlots..]
      ensures mode.value.recipes != template ==> template.items == old(template.items)
    {
      LightRecipes(mode.value.recipes, CountOnes(mask));
      recipeMask := mask;
    }

    /** `onSelect`: write `choice` into exactly `mode[type][index]`. */
    method OnSelect(t: SlotType, index: nat, choice: Value)
      requires Valid() && mode.Some? && index < |mode.value.Slots(t).items|
      modifies mode.value.Slots(t)
      ensures Valid() && mode == old(mode)
      ensures mode.value.Slots(t).items == old(mode.value.Slots(t).items)[index := choice]
    {
      var slots := mode.value.Slots(t);
      slots.items := slots.items[index := choice];
    }

    /** `onRemove`: set exactly `mode[type][index]` to `{}`. */
    method OnRemove(t: SlotType, index: nat)
      requires Valid() && mode.Some? && index < |mode.value.Slots(t).items|
      modifies mode.value.Slots(t)
      ensures Valid() && mode == old(mode)
      ensures mode.value.Slots(t).items == old(mode.value.Slots(t).items)[index := EmptyObject]
    {
      var slots := mode.value.Slots(t);
      slots.items := slots.items[index := EmptyObject];
    }

    /** `onSave`: refuse a mode whose first effect slot is empty; otherwise hand on the
        mode with its recipes replaced by the mask. */
    method OnSave() returns (r: SaveOutcome)
      requires Valid() && mode.Some?
      ensures r.NeedEffect? <==> GetFirstEmpty(mode.value.effects.items) == 0
      ensures r.OpenModeName? ==>
        var m := mode.value;
        r.saved == SavedMode(m.id, m.name, m.description, m.enabled, recipeMask, m.effects) &&
        r.newMode == !editing
    {
      var m := mode.value;
      if GetFirstEmpty(m.effects.items) == 0 {
        r := NeedEffect;
      } else {
        r := OpenModeName(SavedMode(m.id, m.name, m.description, m.enabled, recipeMask, m.effects), !editing);
      }
    }
  }

  /** Two screens creating new modes one after the other, the first one including three
      recipes before it is left: the second mode's recipes array holds 30 entries, and
      its "+" slot is slot 3 although its mask includes no recipe. */
  method TemplateLeaksBetweenScreens() returns (recipeEntries: int, firstEmpty: int, included: nat)
    ensures recipeEntries == 30 && firstEmpty == 3 && included == 0
  {
    var emptyModeRecipes := new JsArray([]);
    var first := new ModeEditScreen(emptyModeRecipes);
    first.WillMount(None, 1, Some([]), false);
    first.OnChangeRecipes([Num(1), Num(1), Num(1)]);
    var second := new ModeEditScreen(emptyModeRecipes);
    second.WillMount(None, 2, Some([]), false);
    var items := second.mode.value.recipes.items;
    recipeEntries := |items|;
    LitRecipesFirstEmpty(3, items[RecipeSlots..]);
    assert items == LitRecipes(3) + items[RecipeSlots..];
    firstEmpty := GetFirstEmpty(items);
    included := CountOnes(second.recipeMask);
  }
}
