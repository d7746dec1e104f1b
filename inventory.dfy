/** The inventory screen: the low-stock rule, and the add/edit dialog that
    upserts items into the list. Items are plain objects (see `JsObjects`),
    since the dialog writes whatever it holds into them. */
module Inventory {
  import opened Options
  import opened Text
  import opened Seqs
  import opened JsObjects

  function SeededItem(id: int, sku: string, name: string, quantity: int, location: string): Obj {
    map["id" := Num(id), "sku" := Str(sku), "name" := Str(name), "quantity" := Num(quantity), "location" := Str(location)]
  }

  const SeededInventory: seq<Obj> := [
    SeededItem(1, "CAM-PRO-001", "Security Camera Pro", 150, "Main Warehouse"),
    SeededItem(2, "RT-BAS-002", "Wi-Fi Router Basic", 89, "West Coast"),
    SeededItem(3, "DB-SMT-003", "Smart Doorbell", 234, "Main Warehouse"),
    SeededItem(4, "CAM-4K-004", "4K Surveillance Camera", 45, "Texas Depot")
  ]

  /** The dialog's fields, in order. */
  const ItemFields: seq<string> := ["sku", "name", "quantity", "location"]

  /** The form after a save, and before the first one. */
  const EmptyItemForm: Obj := map["sku" := Str(""), "name" := Str(""), "quantity" := Str(""), "location" := Str("")]

  /** What `Number(x) < 100` needs to know about a number: its sign and its
      whole part (no fraction can move a value across the integer 100), or
      that it is NaN. */
  datatype Numeric = NaN | Decimal(negative: bool, whole: nat)

  /** The longest run of decimal digits at the start of `s`. */
  function LeadingDigits(s: string): (r: string)
    ensures |r| <= |s| && r == s[..|r|]
    ensures forall i :: 0 <= i < |r| ==> IsDigit(r[i])
    ensures |r| == |s| || !IsDigit(s[|r|])
  {
    if s != [] && IsDigit(s[0]) then
      var rest := LeadingDigits(s[1..]);
      assert [s[0]] + rest == s[..|rest| + 1];
      [s[0]] + rest
    else []
  }

  predicate AllDigits(s: string) {
    forall i :: 0 <= i < |s| ==> IsDigit(s[i])
  }

  /** A trimmed, non-empty string read as a decimal numeral: an optional sign,
      digits, and an optional '.' followed by digits, with at least one digit
      in all. */
  function ParseDecimal(t: string): (v: Numeric)
    ensures AllDigits(t) && t != [] ==> v == Decimal(false, DigitsValue(t))
  {
    var negative := t != [] && t[0] == '-';
    var body := if t != [] && (t[0] == '+' || t[0] == '-') then t[1..] else t;
    var whole := LeadingDigits(body);
    assert AllDigits(t) && t != [] ==> !IsDigit('-') && !IsDigit('+') && body == t && whole == body;
    var rest := body[|whole|..];
    if rest == [] && whole != [] then
      Decimal(negative, DigitsValue(whole))
    else if rest != [] && rest[0] == '.' && AllDigits(rest[1..]) && (whole != [] || |rest| > 1) then
      Decimal(negative, DigitsValue(whole))
    else
      NaN
  }

  /** `Number(v)`: numbers are themselves; text is trimmed, "" is 0, and
      anything else is read as a decimal numeral. */
  function ToNumber(v: Value): Numeric {
    match v
    case Num(n) => if n < 0 then Decimal(true, -n) else Decimal(false, n)
    case Str(s) => if Trim(s) == "" then Decimal(false, 0) else ParseDecimal(Trim(s))
  }

  /** `isLowStock`: `Number(q) < 100`; NaN is never low. A number is low
      below 100, and a blank text reads as 0 and so is low. */
  predicate IsLowStock(q: Value)
    ensures q.Num? ==> (IsLowStock(q) <==> q.n < 100)
    ensures q.Str? && Trim(q.s) == "" ==> IsLowStock(q)
  {
    var v := ToNumber(q);
    v.Decimal? && (v.negative || v.whole < 100)
  }

  /** For the seeded numeric quantities the rule is a plain comparison. */
  lemma NumericQuantityRule(n: int)
    ensures IsLowStock(Num(n)) <==> n < 100
  {
  }

  /** A cleared quantity box, or one holding only blanks, counts as 0 and so
      as low stock. */
  lemma BlankQuantityIsLow(s: string)
    requires IsBlank(s)
    ensures IsLowStock(Str(s))
  {
    TrimEmptyIffBlank(s);
  }

  /** Text that does not read as a number is never low stock, however small
      it looks. */
  lemma NonNumericIsNotLow(s: string)
    requires Trim(s) != "" && ParseDecimal(Trim(s)) == NaN
    ensures !IsLowStock(Str(s))
  {
  }

  /** Two such texts: a word, and a number followed by a unit. */
  lemma WordQuantitiesAreNotLow()
    ensures !IsLowStock(Str("few"))
    ensures !IsLowStock(Str("5 units"))
  {
    assert !IsSpace('f') && !IsSpace('s');
    assert Trim("few") == "few";
    assert Trim("5 units") == "5 units";
    assert LeadingDigits("few") == "";
    assert LeadingDigits("5 units") == "5";
  }

  /** A string of digits and no white space at either end trims to itself. */
  lemma TrimDigits(s: string)
    requires s != [] && AllDigits(s)
    ensures Trim(s) == s
  {
    assert TrimStart(s) == s;
  }

  /** Typing a number's decimal rendering into the quantity box keeps its
      low-stock verdict: the edited text and the seeded number agree. */
  lemma TypedQuantityAgrees(n: nat)
    ensures IsLowStock(Str(NatToString(n))) <==> IsLowStock(Num(n))
  {
    var s := NatToString(n);
    TrimDigits(s);
    NatToStringRoundTrip(n);
  }

  class InventoryPage {
    var inventory: seq<Obj>
    var editingItem: Option<Obj>
    var formData: Obj

    constructor ()
      ensures inventory == SeededInventory && editingItem == None && formData == EmptyItemForm
    {
      inventory := SeededInventory;
      editingItem := None;
      formData := EmptyItemForm;
    }

    /** The Add button: opens the dialog on `{}`, keeping the form as it is. */
    method Add()
      modifies this
      ensures editingItem == Some(map[])
      ensures inventory == old(inventory) && formData == old(formData)
    {
      editingItem := Some(map[]);
    }

    /** The Edit button: the whole item, id included, goes into the form. */
    method OpenEdit(item: Obj)
      modifies this
      ensures editingItem == Some(item) && formData == item
      ensures inventory == old(inventory)
    {
      editingItem := Some(item);
      formData := item;
    }

    /** Typing in one of the inputs: the field becomes text. */
    method Input(field: string, text: string)
      modifies this
      ensures formData == old(formData)[field := Str(text)]
      ensures inventory == old(inventory) && editingItem == old(editingItem)
    {
      formData := formData[field := Str(text)];
    }

    /** The Cancel button: closes the dialog and keeps the form. */
    method Cancel()
      modifies this
      ensures editingItem == None
      ensures inventory == old(inventory) && formData == old(formData)
    {
      editingItem := None;
    }

    /** `saveItem`; `newId` is the clock reading `Date.now()`. */
    method SaveItem(newId: int)
      modifies this
      ensures inventory == Upsert(old(inventory), old(editingItem), old(formData), newId)
      ensures editingItem == None && formData == EmptyItemForm
    {
      if editingItem.Some? && "id" in editingItem.value && TruthyValue(editingItem.value["id"]) {
        var id := editingItem.value["id"];
        var form := formData;
        inventory := MapWhere(inventory, (x: Obj) => IdIs(x, id), (x: Obj) => Spread(x, form));
      } else {
        inventory := inventory + [Appended(formData, newId)];
      }
      editingItem := None;
      formData := EmptyItemForm;
    }

    /** `deleteItem`; the answer of `window.confirm` is a parameter. */
    method DeleteItem(id: Value, confirmed: bool)
      modifies this
      ensures inventory == RemoveId(old(inventory), id, confirmed)
      ensures editingItem == old(editingItem) && formData == old(formData)
    {
      if confirmed {
        inventory := Filter(inventory, (x: Obj) => !IdIs(x, id));
      }
    }
  }

  /** Edit the first item, cancel, press Add and save: the list ends with a
      second item carrying id 1. */
  method EditCancelAddDuplicatesId(newId: int) returns (ids: seq<Value>)
    ensures |ids| == 5 && ids[0] == Num(1) && ids[4] == Num(1)
  {
    var page := new InventoryPage();
    page.OpenEdit(page.inventory[0]);
    page.Cancel();
    page.Add();
    page.SaveItem(newId);
    StaleFormDuplicatesId(SeededInventory, 0, newId);
    ids := [page.inventory[0]["id"], page.inventory[1]["id"], page.inventory[2]["id"],
            page.inventory[3]["id"], page.inventory[4]["id"]];
  }
}
