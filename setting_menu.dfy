/** The menu settings screen: a list of menu items edited through an add modal and an edit
    modal that share one form (name, price, image and a list of options). */
module SettingMenu {
  import opened Wrappers
  import opened JsString
  import opened JsArray

  /** A JavaScript number as the screen meets it: an integral value, or `NaN` from a
      failed `Number(text)`. */
  datatype JsNumber = Finite(value: int) | NaN

  /** `n || 0`: `NaN` and zero are falsy and become 0. */
  function OrZero(n: JsNumber): (r: JsNumber)
    ensures r.Finite?
    ensures n.Finite? ==> r == n
  {
    if n.NaN? then Finite(0) else n
  }

  /** `price.toString()`. */
  function NumberToString(n: JsNumber): string {
    if n.NaN? then "NaN" else IntToString(n.value)
  }

  /** `Number(text)`, left to the host. */
  type NumberParser = string -> JsNumber

  /** An option object; `updateOption` writes its fields in place, so it is a reference. */
  class MenuOption {
    var name: string
    var price: JsNumber

    constructor (name: string, price: JsNumber)
      ensures this.name == name && this.price == price
    {
      this.name := name;
      this.price := price;
    }
  }

  datatype MenuItem = MenuItem(id: string, name: string, price: JsNumber, image: string, options: Option<seq<MenuOption>>)

  const DefaultMenuName := "เมนูใหม่"
  const PlaceholderImage := "https://www.w3schools.com/w3images/avatar2.png"

  /** Which field `updateOption` writes. */
  datatype OptionKey = NameKey | PriceKey

  // ---------------------------------------------------------------- list operations

  /** The mapping `saveEdit` applies: items with the editing id take the form's values. */
  function ApplyEdit(items: seq<MenuItem>, id: string, name: string, price: JsNumber, image: string,
                     options: seq<MenuOption>): (r: seq<MenuItem>)
    ensures |r| == |items|
    ensures forall i :: 0 <= i < |items| && items[i].id == id ==>
              r[i] == MenuItem(id, name, price, image, Some(options))
    ensures forall i :: 0 <= i < |items| && items[i].id != id ==> r[i] == items[i]
  {
    Map(items, (item: MenuItem) =>
      if item.id == id then item.(name := name, price := price, image := image, options := Some(options)) else item)
  }

  /** Saving the same form twice gives what saving it once gave. */
  lemma ApplyEditIdempotent(items: seq<MenuItem>, id: string, name: string, price: JsNumber, image: string,
                            options: seq<MenuOption>)
    ensures ApplyEdit(ApplyEdit(items, id, name, price, image, options), id, name, price, image, options)
            == ApplyEdit(items, id, name, price, image, options)
  {
  }

  /** The filter `deleteMenu` applies. */
  function RemoveById(items: seq<MenuItem>, id: string): (r: seq<MenuItem>)
    ensures forall i :: 0 <= i < |r| ==> r[i].id != id && r[i] in items
    ensures forall i :: 0 <= i < |items| && items[i].id != id ==> items[i] in r
  {
    Filter(items, (item: MenuItem) => item.id != id)
  }

  /** Deleting an id that is not listed keeps the list as it was. */
  lemma RemoveAbsentId(items: seq<MenuItem>, id: string)
    requires forall i :: 0 <= i < |items| ==> items[i].id != id
    ensures RemoveById(items, id) == items
  {
    FilterAll(items, (item: MenuItem) => item.id != id);
  }

  /** Deleting splits around the list: the survivors of each part, in order. */
  lemma RemoveByIdConcat(a: seq<MenuItem>, b: seq<MenuItem>, id: string)
    ensures RemoveById(a + b, id) == RemoveById(a, id) + RemoveById(b, id)
  {
    FilterConcat(a, b, (item: MenuItem) => item.id != id);
  }

  // ---------------------------------------------------------------- the screen

  class SettingMenuScreen {
    var menuItems: seq<MenuItem>
    var addModalVisible: bool
    var editModalVisible: bool
    var editingItem: Option<MenuItem>
    var menuName: string
    var menuPrice: string
    var menuImage: string
    var menuOptions: seq<MenuOption>

    /** The two seeded menu items, each option a distinct fresh object, and an empty form. */
    constructor ()
      ensures |menuItems| == 2 && menuItems[0].id == "1" && menuItems[1].id == "2"
      ensures menuItems[0].name == "ไข่ดาว" && menuItems[0].price == Finite(15) && menuItems[0].image == PlaceholderImage
      ensures menuItems[1].name == "ข้าวผัด" && menuItems[1].price == Finite(50) && menuItems[1].image == PlaceholderImage
      ensures menuItems[0].options.Some? && |menuItems[0].options.value| == 2
      ensures menuItems[1].options.Some? && |menuItems[1].options.value| == 1
      ensures var cheese, bacon, egg := menuItems[0].options.value[0], menuItems[0].options.value[1],
                                        menuItems[1].options.value[0];
              fresh(cheese) && fresh(bacon) && fresh(egg) && cheese != bacon && egg != cheese && egg != bacon
              && cheese.name == "เพิ่มชีส" && cheese.price == Finite(10)
              && bacon.name == "เพิ่มเบคอน" && bacon.price == Finite(15)
              && egg.name == "เพิ่มไข่" && egg.price == Finite(10)
      ensures !addModalVisible && !editModalVisible && editingItem == None
      ensures menuName == "" && menuPrice == "" && menuImage == "" && menuOptions == []
    {
      var cheese := new MenuOption("เพิ่มชีส", Finite(10));
      var bacon := new MenuOption("เพิ่มเบคอน", Finite(15));
      var egg := new MenuOption("เพิ่มไข่", Finite(10));
      menuItems := [
        MenuItem("1", "ไข่ดาว", Finite(15), PlaceholderImage, Some([cheese, bacon])),
        MenuItem("2", "ข้าวผัด", Finite(50), PlaceholderImage, Some([egg]))
      ];
      addModalVisible := false;
      editModalVisible := false;
      editingItem := None;
      menuName := "";
      menuPrice := "";
      menuImage := "";
      menuOptions := [];
    }

    /** `handleAddMenu()`: an empty form in the add modal. */
    method HandleAddMenu()
      modifies this`menuName, this`menuPrice, this`menuImage, this`menuOptions, this`addModalVisible
      ensures menuName == "" && menuPrice == "" && menuImage == "" && menuOptions == []
      ensures addModalVisible
    {
      menuName := "";
      menuPrice := "";
      menuImage := "";
      menuOptions := [];
      addModalVisible := true;
    }

    /** `saveNewMenu()`: puts one new item, with the defaults for an empty name, a falsy
        price and an empty image, in front of the existing items. */
    method SaveNewMenu(newId: string, number: NumberParser)
      modifies this`menuItems, this`addModalVisible
      ensures |menuItems| == |old(menuItems)| + 1 && menuItems[1..] == old(menuItems)
      ensures var item := menuItems[0];
              item.id == newId
              && item.name == (if menuName == "" then DefaultMenuName else menuName)
              && item.price == OrZero(number(menuPrice))
              && item.image == (if menuImage == "" then PlaceholderImage else menuImage)
              && item.options == Some(menuOptions)
      ensures !addModalVisible
    {
      var newItem := MenuItem(newId,
                              if menuName != "" then menuName else DefaultMenuName,
                              OrZero(number(menuPrice)),
                              if menuImage != "" then menuImage else PlaceholderImage,
                              Some(menuOptions));
      menuItems := [newItem] + menuItems;
      addModalVisible := false;
    }

    /** The add modal's close button. */
    method CloseAddModal()
      modifies this`addModalVisible
      ensures !addModalVisible
    {
      addModalVisible := false;
    }

    /** `handleEditItem(item)`: loads the item into the form. The option list is copied,
        but the option objects in it are the item's own. */
    method HandleEditItem(item: MenuItem)
      modifies this`editingItem, this`menuName, this`menuPrice, this`menuImage, this`menuOptions,
               this`editModalVisible
      ensures editingItem == Some(item) && menuName == item.name && menuImage == item.image
      ensures menuPrice == NumberToString(item.price)
      ensures menuOptions == item.options.GetOr([])
      ensures editModalVisible
    {
      editingItem := Some(item);
      menuName := item.name;
      menuPrice := NumberToString(item.price);
      menuImage := item.image;
      menuOptions := if item.options.Some? then item.options.value else [];
      editModalVisible := true;
    }

    /** `saveEdit()`: writes the form over every item with the editing id and closes the
        modal; without an editing item nothing happens. */
    method SaveEdit(number: NumberParser)
      modifies this`menuItems, this`editModalVisible
      ensures old(editingItem).None? ==> menuItems == old(menuItems) && editModalVisible == old(editModalVisible)
      ensures old(editingItem).Some? ==>
                menuItems == ApplyEdit(old(menuItems), editingItem.value.id, menuName, number(menuPrice),
                                       menuImage, menuOptions)
                && !editModalVisible
    {
      if editingItem.None? {
        return;
      }
      menuItems := ApplyEdit(menuItems, editingItem.value.id, menuName, number(menuPrice), menuImage, menuOptions);
      editModalVisible := false;
    }

    /** `deleteMenu()`: removes every item with the editing id and closes the modal;
        without an editing item nothing happens. */
    method DeleteMenu()
      modifies this`menuItems, this`editModalVisible
      ensures old(editingItem).None? ==> menuItems == old(menuItems) && editModalVisible == old(editModalVisible)
      ensures old(editingItem).Some? ==> menuItems == RemoveById(old(menuItems), editingItem.value.id) && !editModalVisible
    {
      if editingItem.None? {
        return;
      }
      menuItems := RemoveById(menuItems, editingItem.value.id);
      editModalVisible := false;
    }

    /** The edit modal's close button: nothing is written back. */
    method CloseEditModal()
      modifies this`editModalVisible
      ensures !editModalVisible
    {
      editModalVisible := false;
    }

    /** `addOption()`: appends a new empty option object. */
    method AddOption()
      modifies this`menuOptions
      ensures |menuOptions| == |old(menuOptions)| + 1 && menuOptions[..|old(menuOptions)|] == old(menuOptions)
      ensures var added := menuOptions[|menuOptions| - 1]; fresh(added) && added.name == "" && added.price == Finite(0)
    {
      var option := new MenuOption("", Finite(0));
      menuOptions := menuOptions + [option];
    }

    /** `updateOption(index, key, value)`: writes the field of the option object at `index`
        in place. An index outside the list makes the write throw, and nothing changes. */
    method UpdateOption(index: int, key: OptionKey, value: string, number: NumberParser) returns (thrown: bool)
      modifies this`menuOptions, if 0 <= index < |menuOptions| then {menuOptions[index]} else {}
      ensures thrown <==> !(0 <= index < |old(menuOptions)|)
      ensures menuOptions == old(menuOptions)
      ensures !thrown && key == PriceKey ==>
                menuOptions[index].price == number(value) && menuOptions[index].name == old(menuOptions[index].name)
      ensures !thrown && key == NameKey ==>
                menuOptions[index].name == value && menuOptions[index].price == old(menuOptions[index].price)
    {
      var newOptions := menuOptions;
      if !(0 <= index < |newOptions|) {
        return true;
      }
      if key == PriceKey {
        newOptions[index].price := number(value);
      } else {
        newOptions[index].name := value;
      }
      menuOptions := newOptions;
      thrown := false;
    }

    /** `removeOption(index)`: `splice(index, 1)` on a copy of the list. */
    method RemoveOption(index: int)
      modifies this`menuOptions
      ensures menuOptions == SpliceOne(old(menuOptions), index)
      ensures 0 <= index < |old(menuOptions)| ==>
                |menuOptions| == |old(menuOptions)| - 1
                && menuOptions == old(menuOptions)[..index] + old(menuOptions)[index + 1..]
    {
      var newOptions := SpliceOne(menuOptions, index);
      menuOptions := newOptions;
    }

    /** The corrected `handleEditItem`: loads copies of the option objects, so that edits in
        the form reach the list only through `saveEdit`. */
    method HandleEditItemCopying(item: MenuItem)
      modifies this`editingItem, this`menuName, this`menuPrice, this`menuImage, this`menuOptions,
               this`editModalVisible
      ensures editingItem == Some(item) && menuName == item.name && menuImage == item.image
      ensures menuPrice == NumberToString(item.price)
      ensures var source := item.options.GetOr([]);
              |menuOptions| == |source|
              && forall i :: 0 <= i < |source| ==>
                   fresh(menuOptions[i]) && menuOptions[i].name == source[i].name && menuOptions[i].price == source[i].price
      ensures editModalVisible
    {
      var source := item.options.GetOr([]);
      var copies: seq<MenuOption> := [];
      var i := 0;
      while i < |source|
        invariant 0 <= i <= |source| && |copies| == i
        invariant forall j :: 0 <= j < i ==>
                    fresh(copies[j]) && copies[j].name == source[j].name && copies[j].price == source[j].price
      {
        var copy := new MenuOption(source[i].name, source[i].price);
        copies := copies + [copy];
        i := i + 1;
      }
      editingItem := Some(item);
      menuName := item.name;
      menuPrice := NumberToString(item.price);
      menuImage := item.image;
      menuOptions := copies;
      editModalVisible := true;
    }
  }

  /** As written: opening an item in the edit modal, renaming its first option and closing
      the modal without saving leaves the list of items equal to what it was, yet the
      stored item's first option now carries the new name. */
  method CancelledEditLeaks(screen: SettingMenuScreen, item: MenuItem, value: string)
    requires item.options.Some? && |item.options.value| > 0
    modifies screen, item.options.value[0]
    ensures screen.menuItems == old(screen.menuItems)
    ensures item.options.value[0].name == value
  {
    screen.HandleEditItem(item);
    var thrown := screen.UpdateOption(0, NameKey, value, _ => NaN);
    screen.CloseEditModal();
  }

  /** With the copying edit, the same steps leave the stored option as it was. */
  method CancelledCopyingEditKeepsOptions(screen: SettingMenuScreen, item: MenuItem, value: string)
    requires item.options.Some? && |item.options.value| > 0
    modifies screen
    ensures screen.menuItems == old(screen.menuItems)
    ensures item.options.value[0].name == old(item.options.value[0].name)
  {
    screen.HandleEditItemCopying(item);
    var thrown := screen.UpdateOption(0, NameKey, value, _ => NaN);
    screen.CloseEditModal();
  }
}
