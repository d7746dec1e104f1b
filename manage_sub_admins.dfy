/** The sub-admin list: activate/deactivate, delete, and the edit dialog for
    name and email. */
module ManageSubAdmins {
  import opened Options
  import opened Seqs

  datatype SubAdmin = SubAdmin(id: int, name: string, email: string, status: string, created: string)

  /** The edit dialog's two fields. */
  datatype AdminForm = AdminForm(name: string, email: string)

  const SeededSubAdmins: seq<SubAdmin> := [
    SubAdmin(1, "John Doe", "john@example.com", "active", "2024-01-15"),
    SubAdmin(2, "Jane Smith", "jane@example.com", "active", "2024-01-10"),
    SubAdmin(3, "Bob Wilson", "bob@example.com", "inactive", "2024-01-05")
  ]

  /** One admin after a status click: "active" becomes "inactive", anything
      else becomes "active"; nothing else about the admin changes. */
  function Toggled(a: SubAdmin): (b: SubAdmin)
    ensures b.status == "active" <==> a.status != "active"
    ensures b.status in {"active", "inactive"}
    ensures b.id == a.id && b.name == a.name && b.email == a.email && b.created == a.created
  {
    a.(status := if a.status == "active" then "inactive" else "active")
  }

  /** The list after `toggleStatus(id)`. */
  function WithStatusToggled(admins: seq<SubAdmin>, id: int): (r: seq<SubAdmin>)
    ensures |r| == |admins|
    ensures forall i :: 0 <= i < |admins| && admins[i].id != id ==> r[i] == admins[i]
    ensures forall i :: 0 <= i < |admins| && admins[i].id == id ==> r[i] == Toggled(admins[i])
  {
    MapWhere(admins, (a: SubAdmin) => a.id == id, Toggled)
  }

  /** Two clicks restore the list when the admins concerned are "active" or
      "inactive". */
  lemma ToggleTwiceRestores(admins: seq<SubAdmin>, id: int)
    requires forall a :: a in admins && a.id == id ==> a.status == "active" || a.status == "inactive"
    ensures WithStatusToggled(WithStatusToggled(admins, id), id) == admins
  {
    MapWhereUndone(admins, (a: SubAdmin) => a.id == id, Toggled, Toggled);
  }

  /** Any other status does not come back: two clicks turn the admin's
      status into "inactive" and leave the rest of the admin as it was. */
  lemma ToggleTwiceLosesOtherStatus(admins: seq<SubAdmin>, id: int, k: int)
    requires 0 <= k < |admins| && admins[k].id == id
    requires admins[k].status != "active" && admins[k].status != "inactive"
    ensures WithStatusToggled(WithStatusToggled(admins, id), id)[k] == admins[k].(status := "inactive")
  {
    var once := WithStatusToggled(admins, id);
    assert once[k] == admins[k].(status := "active");
  }

  /** The list after a confirmed or declined `deleteSubAdmin(id)`. */
  function AfterDelete(admins: seq<SubAdmin>, id: int, confirmed: bool): (r: seq<SubAdmin>)
    ensures !confirmed ==> r == admins
    ensures confirmed ==> forall a :: a in r <==> a in admins && a.id != id
    ensures confirmed ==> forall a :: multiset(r)[a] == if a.id != id then multiset(admins)[a] else 0
    ensures IsSubsequence(r, admins)
  {
    if confirmed then
      FilterSpec(admins, (a: SubAdmin) => a.id != id);
      Filter(admins, (a: SubAdmin) => a.id != id)
    else
      SubsequenceOfSelf(admins);
      admins
  }

  /** One admin with the dialog's fields spread over it. */
  function Edited(a: SubAdmin, form: AdminForm): (b: SubAdmin)
    ensures b.name == form.name && b.email == form.email
    ensures b.id == a.id && b.status == a.status && b.created == a.created
  {
    a.(name := form.name, email := form.email)
  }

  /** The list after `updateSubAdmin` for the admin with id `id`. */
  function WithEdits(admins: seq<SubAdmin>, id: int, form: AdminForm): (r: seq<SubAdmin>)
    ensures |r| == |admins|
    ensures forall i :: 0 <= i < |admins| && admins[i].id != id ==> r[i] == admins[i]
    ensures forall i :: 0 <= i < |admins| && admins[i].id == id ==> r[i] == Edited(admins[i], form)
  {
    MapWhere(admins, (a: SubAdmin) => a.id == id, (a: SubAdmin) => Edited(a, form))
  }

  /** Saving the dialog unchanged, right after opening it on an admin whose
      id is unique, leaves the list as it was. */
  lemma SavingUnchangedDialogIsNoOp(admins: seq<SubAdmin>, k: int)
    requires 0 <= k < |admins|
    requires forall i :: 0 <= i < |admins| && i != k ==> admins[i].id != admins[k].id
    ensures WithEdits(admins, admins[k].id, AdminForm(admins[k].name, admins[k].email)) == admins
  {
    var r := WithEdits(admins, admins[k].id, AdminForm(admins[k].name, admins[k].email));
    forall i | 0 <= i < |admins| ensures r[i] == admins[i] {
    }
  }

  /** The status button's caption. */
  function StatusButton(status: string): (caption: string)
    ensures caption == "Deactivate" <==> status == "active"
    ensures caption == "Activate" <==> status != "active"
  {
    if status == "active" then "Deactivate" else "Activate"
  }

  class ManageSubAdminsPage {
    var subAdmins: seq<SubAdmin>
    var editingAdmin: Option<SubAdmin>
    var formData: AdminForm

    constructor ()
      ensures subAdmins == SeededSubAdmins && editingAdmin == None && formData == AdminForm("", "")
    {
      subAdmins := SeededSubAdmins;
      editingAdmin := None;
      formData := AdminForm("", "");
    }

    /** `toggleStatus`. */
    method ToggleStatus(id: int)
      modifies this
      ensures subAdmins == WithStatusToggled(old(subAdmins), id)
      ensures editingAdmin == old(editingAdmin) && formData == old(formData)
    {
      subAdmins := MapWhere(subAdmins, (a: SubAdmin) => a.id == id, Toggled);
    }

    /** `deleteSubAdmin`; the answer of `window.confirm` is a parameter. */
    method DeleteSubAdmin(id: int, confirmed: bool)
      modifies this
      ensures subAdmins == AfterDelete(old(subAdmins), id, confirmed)
      ensures editingAdmin == old(editingAdmin) && formData == old(formData)
    {
      if confirmed {
        subAdmins := Filter(subAdmins, (a: SubAdmin) => a.id != id);
      }
    }

    /** `openEdit`: the dialog opens on the admin with only its name and
        email copied into the form. */
    method OpenEdit(admin: SubAdmin)
      modifies this
      ensures editingAdmin == Some(admin) && formData == AdminForm(admin.name, admin.email)
      ensures subAdmins == old(subAdmins)
    {
      editingAdmin := Some(admin);
      formData := AdminForm(admin.name, admin.email);
    }

    /** Typing in the name field. */
    method EditName(value: string)
      modifies this
      ensures formData == old(formData).(name := value)
      ensures subAdmins == old(subAdmins) && editingAdmin == old(editingAdmin)
    {
      formData := formData.(name := value);
    }

    /** Typing in the email field. */
    method EditEmail(value: string)
      modifies this
      ensures formData == old(formData).(email := value)
      ensures subAdmins == old(subAdmins) && editingAdmin == old(editingAdmin)
    {
      formData := formData.(email := value);
    }

    /** `updateSubAdmin`: the edited admin takes the form's name and email
        and the dialog closes. With no admin being edited it reads the id of
        `null` and throws, changing nothing; the dialog's button only exists
        while one is. */
    method UpdateSubAdmin() returns (threw: bool)
      modifies this
      ensures threw <==> old(editingAdmin) == None
      ensures !threw ==>
        (subAdmins == WithEdits(old(subAdmins), old(editingAdmin).value.id, old(formData)) && editingAdmin == None)
      ensures threw ==> subAdmins == old(subAdmins) && editingAdmin == old(editingAdmin)
      ensures formData == old(formData)
    {
      if editingAdmin == None {
        return true;
      }
      var id := editingAdmin.value.id;
      var form := formData;
      subAdmins := MapWhere(subAdmins, (a: SubAdmin) => a.id == id, (a: SubAdmin) => Edited(a, form));
      editingAdmin := None;
      threw := false;
    }

    /** The dialog's Cancel button. */
    method Cancel()
      modifies this
      ensures editingAdmin == None
      ensures subAdmins == old(subAdmins) && formData == old(formData)
    {
      editingAdmin := None;
    }
  }
}
