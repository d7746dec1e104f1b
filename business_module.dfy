/** The business modules screen: the add/configure dialog, which upserts
    into the module list, and delete. */
module BusinessModule {
  import opened Options
  import opened Seqs

  /** One module; dates are the `YYYY-MM-DD` text the page stores. */
  datatype Module = Module(id: int, name: string, status: string, lastUpdated: string)

  /** The dialog's two fields. */
  datatype ModuleForm = ModuleForm(name: string, status: string)

  const SeededModules: seq<Module> := [
    Module(1, "Inventory Management", "active", "2024-01-15"),
    Module(2, "Sales & CRM", "active", "2024-01-14"),
    Module(3, "Billing System", "maintenance", "2024-01-10"),
    Module(4, "Reporting Dashboard", "active", "2024-01-12"),
    Module(5, "Customer Portal", "inactive", "2024-01-05")
  ]

  /** The form after every save, and before the first one. */
  const BlankForm := ModuleForm("", "active")

  /** `editingModule`: no dialog (`null`), the dialog opened by Add (`{}`),
      or the dialog opened on a module. */
  datatype Editing = NotEditing | AddingNew | EditingModule(target: Module)

  /** `editingModule?.id` is truthy. */
  predicate EditsExisting(e: Editing) {
    e.EditingModule? && e.target.id != 0
  }

  /** One module with the form spread over it. */
  function Merged(m: Module, form: ModuleForm): (r: Module)
    ensures r.name == form.name && r.status == form.status
    ensures r.id == m.id && r.lastUpdated == m.lastUpdated
  {
    m.(name := form.name, status := form.status)
  }

  /** The list after `saveModule`: an existing module takes the form's name
      and status; otherwise a new module with the clock's id and today's date
      goes at the end. */
  function AfterSave(modules: seq<Module>, e: Editing, form: ModuleForm, newId: int, today: string): (r: seq<Module>)
    ensures EditsExisting(e) ==> |r| == |modules|
    ensures EditsExisting(e) ==> forall i :: 0 <= i < |modules| && modules[i].id != e.target.id ==> r[i] == modules[i]
    ensures EditsExisting(e) ==> forall i :: 0 <= i < |modules| && modules[i].id == e.target.id ==> r[i] == Merged(modules[i], form)
    ensures !EditsExisting(e) ==> |r| == |modules| + 1 && r[..|modules|] == modules
    ensures !EditsExisting(e) ==> r[|modules|] == Module(newId, form.name, form.status, today)
  {
    if EditsExisting(e) then
      var id := e.target.id;
      MapWhere(modules, (m: Module) => m.id == id, (m: Module) => Merged(m, form))
    else
      modules + [Module(newId, form.name, form.status, today)]
  }

  /** The list after a confirmed or declined `deleteModule(id)`. */
  function AfterDelete(modules: seq<Module>, id: int, confirmed: bool): (r: seq<Module>)
    ensures !confirmed ==> r == modules
    ensures confirmed ==> forall m :: m in r <==> m in modules && m.id != id
    ensures confirmed ==> forall m :: multiset(r)[m] == if m.id != id then multiset(modules)[m] else 0
    ensures IsSubsequence(r, modules)
  {
    if confirmed then
      FilterSpec(modules, (m: Module) => m.id != id);
      Filter(modules, (m: Module) => m.id != id)
    else
      SubsequenceOfSelf(modules);
      modules
  }

  /** Adding a module under an unused id and deleting it again gives the
      list back. */
  lemma AddThenDeleteRestores(modules: seq<Module>, form: ModuleForm, newId: int, today: string)
    requires forall m :: m in modules ==> m.id != newId
    ensures AfterDelete(AfterSave(modules, AddingNew, form, newId, today), newId, true) == modules
  {
    var keep := (m: Module) => m.id != newId;
    FilterAppendOne(modules, Module(newId, form.name, form.status, today), keep);
    FilterKeepsAll(modules, keep);
  }

  /** The button on each card. */
  function ConfigureButton(status: string): (caption: string)
    ensures caption == "Configure" <==> status == "active"
    ensures caption == "Activate" <==> status != "active"
  {
    if status == "active" then "Configure" else "Activate"
  }

  class BusinessModulePage {
    var modules: seq<Module>
    var editingModule: Editing
    var formData: ModuleForm

    constructor ()
      ensures modules == SeededModules && editingModule == NotEditing && formData == BlankForm
    {
      modules := SeededModules;
      editingModule := NotEditing;
      formData := BlankForm;
    }

    /** The Add button: the dialog opens on `{}` and the form is kept. */
    method Add()
      modifies this
      ensures editingModule == AddingNew
      ensures modules == old(modules) && formData == old(formData)
    {
      editingModule := AddingNew;
    }

    /** The Configure/Activate button: the dialog opens on the module with its
        name and status in the form. */
    method OpenEdit(m: Module)
      modifies this
      ensures editingModule == EditingModule(m) && formData == ModuleForm(m.name, m.status)
      ensures modules == old(modules)
    {
      editingModule := EditingModule(m);
      formData := ModuleForm(m.name, m.status);
    }

    method EditName(value: string)
      modifies this
      ensures formData == old(formData).(name := value)
      ensures modules == old(modules) && editingModule == old(editingModule)
    {
      formData := formData.(name := value);
    }

    method EditStatus(value: string)
      modifies this
      ensures formData == old(formData).(status := value)
      ensures modules == old(modules) && editingModule == old(editingModule)
    {
      formData := formData.(status := value);
    }

    /** The Cancel button: closes the dialog, keeping the form, so the next
        Add starts from what was there. */
    method Cancel()
      modifies this
      ensures editingModule == NotEditing
      ensures modules == old(modules) && formData == old(formData)
    {
      editingModule := NotEditing;
    }

    /** `saveModule`; the clock's id and today's date are parameters. */
    method SaveModule(newId: int, today: string)
      modifies this
      ensures modules == AfterSave(old(modules), old(editingModule), old(formData), newId, today)
      ensures editingModule == NotEditing && formData == BlankForm
    {
      if editingModule.EditingModule? && editingModule.target.id != 0 {
        var id := editingModule.target.id;
        var form := formData;
        modules := MapWhere(modules, (m: Module) => m.id == id, (m: Module) => Merged(m, form));
      } else {
        modules := modules + [Module(newId, formData.name, formData.status, today)];
      }
      editingModule := NotEditing;
      formData := BlankForm;
    }

    /** `deleteModule`; the answer of `window.confirm` is a parameter. */
    method DeleteModule(id: int, confirmed: bool)
      modifies this
      ensures modules == AfterDelete(old(modules), id, confirmed)
      ensures editingModule == old(editingModule) && formData == old(formData)
    {
      if confirmed {
        modules := Filter(modules, (m: Module) => m.id != id);
      }
    }
  }

  /** Open a module, cancel, then press Add: the new dialog is pre-filled with
      that module's name and status. */
  method CancelKeepsForm(m: Module) returns (form: ModuleForm, e: Editing)
    ensures e == AddingNew && form == ModuleForm(m.name, m.status)
  {
    var page := new BusinessModulePage();
    page.OpenEdit(m);
    page.Cancel();
    page.Add();
    form, e := page.formData, page.editingModule;
  }
}
