/** The admin screen for the contact record: a form copied from the cached
    record whenever that record changes, edited, saved through the hook, and
    restored from the record on cancel. */
module ContactManager {
  import opened Wrappers
  import opened Remote
  import opened ContactInfoHook

  const EmptyFields: ContactFields := ContactFields("", "", "")

  function DisplayedPhone(info: Option<ContactInfo>): string
  {
    Displayed(info, (c: ContactInfo) => c.phone, "Non défini")
  }

  function DisplayedEmail(info: Option<ContactInfo>): string
  {
    Displayed(info, (c: ContactInfo) => c.email, "Non défini")
  }

  function DisplayedAddress(info: Option<ContactInfo>): string
  {
    Displayed(info, (c: ContactInfo) => c.address, "Non définie")
  }

  /** The displayed fields are never blank. */
  lemma DisplayedNeverEmpty(info: Option<ContactInfo>)
    ensures DisplayedPhone(info) != "" && DisplayedEmail(info) != "" && DisplayedAddress(info) != ""
    ensures info.None? ==>
      DisplayedPhone(info) == "Non défini" && DisplayedEmail(info) == "Non défini" &&
      DisplayedAddress(info) == "Non définie"
  {
  }

  /** The form (and so the save button) is rendered only when the hook is
      neither loading nor in error. */
  predicate Saveable(c: ContactInfoHook.Cache)
  {
    !c.loading && c.error.None?
  }

  /** A call as the screen issues it: saves only happen from a rendered form. */
  function ManagedStep(c: ContactInfoHook.Cache, op: Op): ContactInfoHook.Cache
  {
    if op.UpdateOp? && !Saveable(c) then c else Step(c, op)
  }

  function ManagedRun(c: ContactInfoHook.Cache, ops: seq<Op>): ContactInfoHook.Cache
    decreases |ops|
  {
    if ops == [] then c else ManagedRun(ManagedStep(c, ops[0]), ops[1..])
  }

  /** The backend reports `PGRST116` only for a `single()` that found no
      row, which the model derives from the table; a failing call carries
      some other code. */
  predicate NoSpuriousNoRows(ops: seq<Op>)
  {
    forall i :: 0 <= i < |ops| ==> ops[i].read.Err? ==> ops[i].read.failure.code != NoRows
  }

  /** At most one contact row, and whenever the form is shown the cached
      record is the table's row, if any. */
  ghost predicate Consistent(c: ContactInfoHook.Cache)
  {
    |c.table| <= 1 &&
    (Saveable(c) ==> c.contactInfo == if c.table == [] then None else Some(c.table[0]))
  }

  lemma {:induction false} ConsistentKept(c: ContactInfoHook.Cache, ops: seq<Op>)
    requires Consistent(c) && NoSpuriousNoRows(ops)
    ensures Consistent(ManagedRun(c, ops))
    decreases |ops|
  {
    if ops != [] {
      assert ops[0].read.Err? ==> ops[0].read.failure.code != NoRows;
      assert NoSpuriousNoRows(ops[1..]) by {
        forall i | 0 <= i < |ops[1..]| ensures ops[1..][i] == ops[i + 1] { }
      }
      ConsistentKept(ManagedStep(c, ops[0]), ops[1..]);
    }
  }

  /** Starting from at most one row, saving through the screen never creates
      a second contact row. */
  lemma SingleContactRow(table: seq<ContactInfo>, ops: seq<Op>)
    requires |table| <= 1 && NoSpuriousNoRows(ops)
    ensures |ManagedRun(Initial(table), ops).table| <= 1
  {
    ConsistentKept(Initial(table), ops);
  }

  /** The screen: its form state and the contact hook it drives. */
  class ContactForm {
    const hook: ContactCache
    var editing: bool
    var formData: ContactFields

    constructor (hook: ContactCache)
      ensures this.hook == hook && !editing && formData == EmptyFields
    {
      this.hook := hook;
      editing := false;
      formData := EmptyFields;
    }

    /** The effect that runs when `contactInfo` changes. */
    method SyncFromContactInfo()
      modifies this
      ensures hook.contactInfo.Some? ==> formData == FieldsOf(hook.contactInfo.value)
      ensures hook.contactInfo.None? ==> formData == old(formData)
      ensures editing == old(editing)
    {
      if hook.contactInfo.Some? {
        formData := FieldsOf(hook.contactInfo.value);
      }
    }

    method Edit()
      modifies this
      ensures editing && formData == old(formData)
    {
      editing := true;
    }

    /** `handleSave`: the form is sent, then editing ends whatever the outcome. */
    method Save(newId: string, write: Status, read: Status)
      modifies this, hook
      ensures hook.State() == ContactInfoHook.Update(old(hook.State()), old(formData), newId, write, read)
      ensures !editing && formData == old(formData)
    {
      hook.UpdateContactInfo(formData, newId, write, read);
      editing := false;
    }

    /** `handleCancel`: the form is restored from the record, if there is one. */
    method Cancel()
      modifies this
      ensures hook.contactInfo.Some? ==> formData == FieldsOf(hook.contactInfo.value)
      ensures hook.contactInfo.None? ==> formData == old(formData)
      ensures !editing
    {
      SyncFromContactInfo();
      editing := false;
    }
  }
}
