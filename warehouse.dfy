/** The warehouse screen: the add/edit dialog that upserts warehouses into
    the list, and the status colour of each card. */
module Warehouse {
  import opened Options
  import opened Seqs
  import opened JsObjects

  const SeededWarehouse: Obj := map[
    "id" := Num(1), "warehouse_name" := Str("Main Warehouse"), "warehouse_code" := Str("WH-001"),
    "city" := Str("New York"), "country" := Str("USA"), "address" := Str("Industrial Area, Block A"),
    "capacity" := Num(10000), "current_stock" := Num(4567), "manager_name" := Str("John Smith"),
    "phone" := Str("+1 234 567 890"), "email" := Str("manager@warehouse.com"), "status" := Str("active")]

  /** `emptyForm`: every field blank, status "active". */
  const EmptyForm: Obj := map[
    "warehouse_name" := Str(""), "warehouse_code" := Str(""), "city" := Str(""), "country" := Str(""),
    "address" := Str(""), "capacity" := Str(""), "current_stock" := Str(""), "manager_name" := Str(""),
    "phone" := Str(""), "email" := Str(""), "status" := Str("active")]

  /** The colour of a status badge; the theme's primary colour is a
      parameter. */
  function StatusColor(status: string, primary: string): (color: string)
    ensures status == "active" ==> color == primary
    ensures status == "maintenance" ==> color == "#f59e0b"
    ensures status != "active" && status != "maintenance" ==> color == "#94a3b8"
  {
    if status == "active" then primary
    else if status == "maintenance" then "#f59e0b"
    else "#94a3b8"
  }

  /** Save checks nothing about the form: whatever it holds, stock above
      capacity included, is spread into the list. */
  lemma SaveDoesNotValidate(list: seq<Obj>, form: Obj, newId: int)
    requires "id" !in form
    ensures Upsert(list, None, form, newId)[|list|] == Spread(map["id" := Num(newId)], form)
    ensures Upsert(list, None, form[ "capacity" := Num(10)][ "current_stock" := Num(20)], newId)[|list|]["current_stock"] == Num(20)
  {
  }

  class WarehousePage {
    var warehouses: seq<Obj>
    var editingWarehouse: Option<Obj>
    var formData: Obj

    constructor ()
      ensures warehouses == [SeededWarehouse] && editingWarehouse == None && formData == EmptyForm
    {
      warehouses := [SeededWarehouse];
      editingWarehouse := None;
      formData := EmptyForm;
    }

    /** The Add button: opens the dialog on `{}`, keeping the form. */
    method Add()
      modifies this
      ensures editingWarehouse == Some(map[])
      ensures warehouses == old(warehouses) && formData == old(formData)
    {
      editingWarehouse := Some(map[]);
    }

    /** `openEdit`: the whole warehouse, id included, becomes the form. */
    method OpenEdit(w: Obj)
      modifies this
      ensures editingWarehouse == Some(w) && formData == w
      ensures warehouses == old(warehouses)
    {
      editingWarehouse := Some(w);
      formData := w;
    }

    /** Typing in an input or picking a status. */
    method Input(key: string, text: string)
      modifies this
      ensures formData == old(formData)[key := Str(text)]
      ensures warehouses == old(warehouses) && editingWarehouse == old(editingWarehouse)
    {
      formData := formData[key := Str(text)];
    }

    /** The Cancel button: closes the dialog and keeps the form. */
    method Cancel()
      modifies this
      ensures editingWarehouse == None
      ensures warehouses == old(warehouses) && formData == old(formData)
    {
      editingWarehouse := None;
    }

    /** `saveWarehouse`; `newId` is the clock reading `Date.now()`. */
    method SaveWarehouse(newId: int)
      modifies this
      ensures warehouses == Upsert(old(warehouses), old(editingWarehouse), old(formData), newId)
      ensures editingWarehouse == None && formData == EmptyForm
    {
      if editingWarehouse.Some? && "id" in editingWarehouse.value && TruthyValue(editingWarehouse.value["id"]) {
        var id := editingWarehouse.value["id"];
        var form := formData;
        warehouses := MapWhere(warehouses, (x: Obj) => IdIs(x, id), (x: Obj) => Spread(x, form));
      } else {
        warehouses := warehouses + [Appended(formData, newId)];
      }
      editingWarehouse := None;
      formData := EmptyForm;
    }
  }

  /** Edit the seeded warehouse, cancel, press Add and save: the list holds
      two warehouses with id 1. */
  method EditCancelAddDuplicatesId(newId: int) returns (ids: seq<Value>)
    ensures ids == [Num(1), Num(1)]
  {
    var page := new WarehousePage();
    page.OpenEdit(page.warehouses[0]);
    page.Cancel();
    page.Add();
    page.SaveWarehouse(newId);
    StaleFormDuplicatesId([SeededWarehouse], 0, newId);
    ids := [page.warehouses[0]["id"], page.warehouses[1]["id"]];
  }
}
