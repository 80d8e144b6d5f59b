/** The restaurant menu page: the Add button that either adds an item directly or opens
    the customization dialog, the dialog's form (a required size and optional extra
    toppings), the cart counter and the header badge and avatar. */
module Menu {
  import opened Optional
  import opened Seqs

  /** `MenuItemData` (image left out). */
  datatype MenuItem = MenuItem(
    id: string,
    name: string,
    description: Option<string>,
    price: real,
    dietaryTags: Option<seq<string>>,
    hasCustomizations: bool)

  /** The placeholder menu, category by category: appetizers, main courses, desserts
      (descriptions kept, images left out). */
  function PlaceholderMenu(): seq<seq<MenuItem>> {
    [ [MenuItem("m1", "Garlic Bread", Some("Toasted bread with garlic butter."), 5.99, Some(["Vegetarian"]), true)],
      [MenuItem("m2", "Margherita Pizza", Some("Classic cheese and tomato pizza."), 12.99, Some(["Vegetarian"]), true),
       MenuItem("m3", "Pepperoni Pizza", Some("Pizza with pepperoni slices."), 14.99, None, false)],
      [MenuItem("m4", "Chocolate Lava Cake", Some("Warm chocolate cake with a gooey center."), 7.50, Some(["Vegetarian"]), false)] ]
  }

  /** The customization form's values: `size` and the optional `extraToppings`. */
  datatype CustomizationForm = CustomizationForm(size: string, extraToppings: Option<seq<string>>)

  /** What `handleAddToCart` receives: the item, with the submitted form when customized. */
  datatype CartAddition = CartAddition(item: MenuItem, customizations: Option<CustomizationForm>)

  /** The form's default values, also used on every reset: no size and no toppings. */
  function EmptyCustomization(): CustomizationForm {
    CustomizationForm("", Some([]))
  }

  /** The schema's verdict: the size message when the size is empty, nothing otherwise. */
  function CustomizationError(form: CustomizationForm): (r: Option<string>)
    ensures r.None? <==> |form.size| >= 1
    ensures r.Some? ==> r.value == "Please select a size"
  {
    if |form.size| < 1 then Some("Please select a size") else None
  }

  /** The freshly reset form does not pass the schema. */
  lemma EmptyCustomizationRejected()
    ensures CustomizationError(EmptyCustomization()).Some?
  {
  }

  /** Toppings never decide validity: absent, empty or any list. */
  lemma ToppingsIrrelevant(form: CustomizationForm, toppings: Option<seq<string>>)
    ensures CustomizationError(form.(extraToppings := toppings)) == CustomizationError(form)
  {
  }

  /** The topping checkbox handler: checking appends the topping to the current list
      (an absent list counts as empty), unchecking filters out every occurrence. */
  function CheckTopping(value: Option<seq<string>>, topping: string, checked: bool): (r: Option<seq<string>>)
    ensures checked ==> r == Some(value.GetOr([]) + [topping])
    ensures !checked && value.None? ==> r.None?
    ensures !checked && value.Some? ==>
      r.Some? && topping !in r.value &&
      forall other :: other != topping ==> (other in r.value <==> other in value.value)
    ensures !checked && value.Some? ==> r == Some(RemoveAll(value.value, topping))
    ensures r.Some? ==> RemoveAll(r.value, topping) == RemoveAll(value.GetOr([]), topping)
  {
    if checked then
      RemoveAllAppend(value.GetOr([]), [topping], topping);
      assert RemoveAll([topping], topping) == [];
      Some(value.GetOr([]) + [topping])
    else match value
      case None => None
      case Some(toppings) =>
        RemoveAllIdempotent(toppings, topping);
        Some(RemoveAll(toppings, topping))
  }

  /** Whether the checkbox of `topping` is drawn checked: the list is present and holds
      the topping. An absent list draws every box unchecked, like an empty one. */
  function ToppingChecked(value: Option<seq<string>>, topping: string): (r: bool)
    ensures r <==> topping in value.GetOr([])
    ensures r ==> value.Some?
  {
    value.Some? && topping in value.value
  }

  /** Checking and unchecking a box leaves the other box's state alone and sets this
      box's state to the click's value. */
  lemma CheckToppingSetsOnlyThatBox(value: Option<seq<string>>, topping: string, checked: bool, other: string)
    requires other != topping
    ensures ToppingChecked(CheckTopping(value, topping, checked), topping) == checked
    ensures ToppingChecked(CheckTopping(value, topping, checked), other) == ToppingChecked(value, other)
  {
  }

  /** What the Add button of an item does. */
  datatype AddAction = DirectAdd | OpenCustomization

  /** `onAddToCart`: items with customizations open the dialog, the others are added. */
  function AddActionFor(item: MenuItem): (r: AddAction)
    ensures r == OpenCustomization <==> item.hasCustomizations
  {
    if item.hasCustomizations then OpenCustomization else DirectAdd
  }

  /** `onCustomize`: present only for items with customizations. */
  function HasCustomizeHandler(item: MenuItem): (r: bool)
    ensures r <==> AddActionFor(item) == OpenCustomization
  {
    item.hasCustomizations
  }

  /** On the placeholder menu, Garlic Bread and Margherita Pizza open the dialog, while
      Pepperoni Pizza and the Chocolate Lava Cake go straight to the cart. */
  lemma PlaceholderAddActions()
    ensures AddActionFor(PlaceholderMenu()[0][0]) == OpenCustomization
    ensures AddActionFor(PlaceholderMenu()[1][0]) == OpenCustomization
    ensures AddActionFor(PlaceholderMenu()[1][1]) == DirectAdd
    ensures AddActionFor(PlaceholderMenu()[2][0]) == DirectAdd
  {
  }

  /** Upper-casing of one character: the letters a to z become A to Z, every other
      character is kept. */
  function UpperAscii(c: char): (r: char)
    ensures 'a' <= c <= 'z' ==> 'A' <= r <= 'Z' && r as int == c as int - 32
    ensures !('a' <= c <= 'z') ==> r == c
  {
    if 'a' <= c <= 'z' then (c as int - 32) as char else c
  }

  /** The avatar's fallback initials: the first two characters of the name (fewer for a
      shorter name), upper-cased. */
  function AvatarFallback(name: string): (r: string)
    ensures |r| == if |name| < 2 then |name| else 2
    ensures forall i :: 0 <= i < |r| ==> r[i] == UpperAscii(name[i])
  {
    var prefix := if |name| < 2 then name else name[..2];
    seq(|prefix|, i requires 0 <= i < |prefix| => UpperAscii(prefix[i]))
  }

  lemma PizzaHeavenInitials()
    ensures AvatarFallback("Pizza Heaven") == "PI"
  {
    var r := AvatarFallback("Pizza Heaven");
    assert r[0] == UpperAscii('P') == 'P';
    assert r[1] == UpperAscii('i') == 'I';
  }

  /** The page's state: the dialog, the item being customized, the form and the counter. */
  class RestaurantMenuPage {
    var isCustomizationDialogOpen: bool
    var currentItemForCustomization: Option<MenuItem>
    var cartItemCount: int
    var form: CustomizationForm
    /** Every item handed to `handleAddToCart`, in order. */
    ghost var added: seq<CartAddition>

    ghost predicate Valid()
      reads this
    {
      cartItemCount == |added|
    }

    /** The cart badge in the header is shown exactly when something was added. */
    function CartBadgeShown(): (r: bool)
      reads this
      ensures Valid() ==> (r <==> added != [])
    {
      cartItemCount > 0
    }

    constructor ()
      ensures Valid()
      ensures cartItemCount == 0 && added == [] && !CartBadgeShown()
      ensures !isCustomizationDialogOpen && currentItemForCustomization.None?
      ensures form == EmptyCustomization()
    {
      isCustomizationDialogOpen := false;
      currentItemForCustomization := None;
      cartItemCount := 0;
      form := EmptyCustomization();
      added := [];
    }

    /** `handleAddToCart(addition)`: the counter goes up by one. */
    method HandleAddToCart(addition: CartAddition)
      requires Valid()
      modifies this
      ensures Valid()
      ensures cartItemCount == old(cartItemCount) + 1 && CartBadgeShown()
      ensures added == old(added) + [addition]
      ensures isCustomizationDialogOpen == old(isCustomizationDialogOpen)
      ensures currentItemForCustomization == old(currentItemForCustomization) && form == old(form)
    {
      cartItemCount := cartItemCount + 1;
      added := added + [addition];
    }

    /** `handleCustomizeItem(item)`: remember the item, reset the form, open the dialog. */
    method HandleCustomizeItem(item: MenuItem)
      requires Valid()
      modifies this
      ensures Valid()
      ensures currentItemForCustomization == Some(item) && isCustomizationDialogOpen
      ensures form == EmptyCustomization()
      ensures cartItemCount == old(cartItemCount) && added == old(added)
    {
      currentItemForCustomization := Some(item);
      form := EmptyCustomization();
      isCustomizationDialogOpen := true;
    }

    /** The Add button of a menu item. */
    method ClickAdd(item: MenuItem)
      requires Valid()
      modifies this
      ensures Valid()
      ensures AddActionFor(item) == DirectAdd ==>
        added == old(added) + [CartAddition(item, None)] && CartBadgeShown() &&
        isCustomizationDialogOpen == old(isCustomizationDialogOpen) && form == old(form) &&
        currentItemForCustomization == old(currentItemForCustomization)
      ensures AddActionFor(item) == OpenCustomization ==>
        added == old(added) && isCustomizationDialogOpen &&
        currentItemForCustomization == Some(item) && form == EmptyCustomization()
    {
      if item.hasCustomizations {
        HandleCustomizeItem(item);
      } else {
        HandleAddToCart(CartAddition(item, None));
      }
    }

    /** `onCustomizationSubmit(data)`: add the current item with `data`, if there is one,
        and close the dialog either way. */
    method OnCustomizationSubmit(data: CustomizationForm)
      requires Valid()
      modifies this
      ensures Valid()
      ensures !isCustomizationDialogOpen
      ensures old(currentItemForCustomization).Some? ==>
        added == old(added) + [CartAddition(old(currentItemForCustomization).value, Some(data))]
      ensures old(currentItemForCustomization).None? ==> added == old(added)
      ensures currentItemForCustomization == old(currentItemForCustomization) && form == old(form)
    {
      if currentItemForCustomization.Some? {
        HandleAddToCart(CartAddition(currentItemForCustomization.value, Some(data)));
      }
      isCustomizationDialogOpen := false;
    }

    /** "Save & Add to Cart": the schema runs first; a form without a size stays open
        with its error, a valid one reaches `onCustomizationSubmit`. */
    method SubmitCustomization() returns (error: Option<string>)
      requires Valid()
      modifies this
      ensures Valid()
      ensures error == CustomizationError(old(form))
      ensures form == old(form) && currentItemForCustomization == old(currentItemForCustomization)
      ensures error.Some? ==> added == old(added) && isCustomizationDialogOpen == old(isCustomizationDialogOpen)
      ensures error.None? ==> !isCustomizationDialogOpen
      ensures error.None? ==>
        added == old(added) + (if old(currentItemForCustomization).Some?
                               then [CartAddition(old(currentItemForCustomization).value, Some(old(form)))]
                               else [])
    {
      error := CustomizationError(form);
      if error.None? {
        OnCustomizationSubmit(form);
      }
    }

    /** A size radio button. */
    method SelectSize(size: string)
      modifies this
      ensures form == old(form).(size := size)
      ensures isCustomizationDialogOpen == old(isCustomizationDialogOpen)
      ensures currentItemForCustomization == old(currentItemForCustomization)
      ensures cartItemCount == old(cartItemCount) && added == old(added)
    {
      form := form.(size := size);
    }

    /** A topping checkbox changing to `checked`. */
    method ToggleTopping(topping: string, checked: bool)
      modifies this
      ensures form == old(form).(extraToppings := CheckTopping(old(form).extraToppings, topping, checked))
      ensures isCustomizationDialogOpen == old(isCustomizationDialogOpen)
      ensures currentItemForCustomization == old(currentItemForCustomization)
      ensures cartItemCount == old(cartItemCount) && added == old(added)
    {
      form := form.(extraToppings := CheckTopping(form.extraToppings, topping, checked));
    }

    /** The Cancel button (and any other close of the dialog). */
    method CloseDialog()
      modifies this
      ensures !isCustomizationDialogOpen
      ensures currentItemForCustomization == old(currentItemForCustomization) && form == old(form)
      ensures cartItemCount == old(cartItemCount) && added == old(added)
    {
      isCustomizationDialogOpen := false;
    }
  }
}
