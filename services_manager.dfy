/** The admin screen for services: one form used both to edit an existing
    service and to add a new one. Saving updates when a service is being
    edited and creates otherwise; saving and cancelling reset the form. */
module ServicesManager {
  import opened Wrappers
  import opened Remote
  import opened ServicesHook

  /** The form's initial and reset contents. */
  const DefaultFields: ServiceFields :=
    ServiceFields("", "", 0, "Scissors", "general", true, 0)

  /** JavaScript truthiness of `editingId`: set and not the empty string. */
  predicate IsSet(editingId: Option<string>)
  {
    editingId.Some? && editingId.value != ""
  }

  /** A service added from the untouched form is active, so the public list
      shows it once the create and its refetch succeed. */
  lemma DefaultFormCreatesVisibleService(c: ServicesHook.Cache, newId: string)
    ensures Row(newId, DefaultFields) in Create(c, DefaultFields, newId, Ok, Ok).services
  {
    CreatedShownIffActive(c, DefaultFields, newId);
  }

  /** The screen: its form state and the services hook it drives. */
  class ServiceForm {
    const hook: ServicesCache
    var editingId: Option<string>
    var showAddForm: bool
    var formData: ServiceFields

    ghost predicate IsReset()
      reads this
    {
      editingId.None? && !showAddForm && formData == DefaultFields
    }

    constructor (hook: ServicesCache)
      ensures this.hook == hook && IsReset()
    {
      this.hook := hook;
      editingId := None;
      showAddForm := false;
      formData := DefaultFields;
    }

    /** The "add" button. */
    method OpenAddForm()
      modifies this
      ensures showAddForm && editingId == old(editingId) && formData == old(formData)
    {
      showAddForm := true;
    }

    /** `handleEdit(service)`: the form takes the service's columns. */
    method Edit(service: Service)
      modifies this
      ensures editingId == Some(service.id) && formData == FieldsOf(service)
      ensures showAddForm == old(showAddForm)
    {
      editingId := Some(service.id);
      formData := FieldsOf(service);
    }

    /** `handleSave`: exactly one write, chosen by `editingId`, then the
        reset, whatever the write's outcome. */
    method Save(newId: string, write: Status, read: Status)
      modifies this, hook
      ensures IsSet(old(editingId)) ==>
        hook.State() == Update(old(hook.State()), old(editingId).value, old(formData), write, read)
      ensures !IsSet(old(editingId)) ==>
        hook.State() == Create(old(hook.State()), old(formData), newId, write, read)
      ensures IsReset()
    {
      if IsSet(editingId) {
        hook.UpdateService(editingId.value, formData, write, read);
      } else {
        hook.CreateService(formData, newId, write, read);
      }
      editingId := None;
      showAddForm := false;
      formData := DefaultFields;
    }

    /** `handleCancel`: the same reset, with no remote call. */
    method Cancel()
      modifies this
      ensures IsReset()
    {
      editingId := None;
      showAddForm := false;
      formData := DefaultFields;
    }

    /** `handleDelete(id)`, `confirmed` being the answer to the dialog. */
    method Delete(id: string, confirmed: bool, write: Status, read: Status)
      modifies hook
      ensures confirmed ==> hook.State() == ServicesHook.Delete(old(hook.State()), id, write, read)
      ensures !confirmed ==> hook.State() == old(hook.State())
    {
      if confirmed {
        hook.DeleteService(id, write, read);
      }
    }
  }
}
