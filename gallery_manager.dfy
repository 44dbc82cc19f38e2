/** The admin screen for gallery images: one form to edit an image's
    metadata or to upload a new picture with its metadata. Saving updates,
    uploads, or does nothing, and always resets the form. */
module GalleryManager {
  import opened Wrappers
  import opened Remote
  import opened GalleryHook

  /** The form's initial and reset contents. */
  const DefaultFields: ImageFields := ImageFields("", "", "salon", false, 0)

  predicate IsSet(editingId: Option<string>)
  {
    editingId.Some? && editingId.value != ""
  }

  /** The file `handleFileChange` keeps: the first picked file, or the
      current selection when nothing was picked. */
  function PickedFile(files: Option<seq<File>>, selected: Option<File>): (r: Option<File>)
    ensures files.Some? && |files.value| > 0 ==> r == Some(files.value[0])
    ensures !(files.Some? && |files.value| > 0) ==> r == selected
  {
    if files.Some? && |files.value| > 0 then Some(files.value[0]) else selected
  }

  /** The upload form's save button is disabled exactly when no file is
      selected. */
  function SaveDisabled(selected: Option<File>): (d: bool)
    ensures d <==> selected.None?
  {
    selected.None?
  }

  /** The screen: its form state and the gallery hook it drives. */
  class ImageForm {
    const hook: ImagesCache
    var editingId: Option<string>
    var showUploadForm: bool
    var formData: ImageFields
    var selectedFile: Option<File>

    ghost predicate IsReset()
      reads this
    {
      editingId.None? && !showUploadForm && formData == DefaultFields && selectedFile.None?
    }

    constructor (hook: ImagesCache)
      ensures this.hook == hook && IsReset()
    {
      this.hook := hook;
      editingId := None;
      showUploadForm := false;
      formData := DefaultFields;
      selectedFile := None;
    }

    method OpenUploadForm()
      modifies this
      ensures showUploadForm
      ensures editingId == old(editingId) && formData == old(formData) && selectedFile == old(selectedFile)
    {
      showUploadForm := true;
    }

    /** `handleEdit(image)`: the form takes the image's metadata. */
    method Edit(image: GalleryImage)
      modifies this
      ensures editingId == Some(image.id) && formData == FieldsOf(image)
      ensures showUploadForm == old(showUploadForm) && selectedFile == old(selectedFile)
    {
      editingId := Some(image.id);
      formData := FieldsOf(image);
    }

    /** `handleFileChange` with the input's file list (`null` is `None`). */
    method FileChange(files: Option<seq<File>>)
      modifies this
      ensures selectedFile == PickedFile(files, old(selectedFile))
      ensures editingId == old(editingId) && formData == old(formData) && showUploadForm == old(showUploadForm)
    {
      if files.Some? && |files.value| > 0 {
        selectedFile := Some(files.value[0]);
      }
    }

    /** `handleSave`: an update when an image is being edited, else an
        upload when the save button is enabled (a file is selected), else no
        remote call; then the reset. */
    method Save(token: string, resolve: string -> string, newId: string,
                upload: Status, write: Status, read: Status)
      modifies this, hook
      ensures IsSet(old(editingId)) ==>
        hook.State() == Update(old(hook.State()), old(editingId).value, old(formData), write, read)
      ensures !IsSet(old(editingId)) && !SaveDisabled(old(selectedFile)) ==>
        hook.State() == Upload(old(hook.State()), old(selectedFile).value, old(formData), token,
                               resolve, newId, upload, write, read)
      ensures !IsSet(old(editingId)) && SaveDisabled(old(selectedFile)) ==>
        hook.State() == old(hook.State())
      ensures IsReset()
    {
      ghost var before := hook.State();
      ghost var after := before;
      if IsSet(editingId) {
        hook.UpdateImage(editingId.value, formData, write, read);
        after := hook.State();
      } else if selectedFile.Some? {
        hook.UploadImage(selectedFile.value, formData, token, resolve, newId, upload, write, read);
        after := hook.State();
      }
      Cancel();
      assert hook.State() == after;
    }

    /** `handleCancel` */
    method Cancel()
      modifies this
      ensures IsReset()
    {
      editingId := None;
      showUploadForm := false;
      formData := DefaultFields;
      selectedFile := None;
    }

    /** `handleDelete(id)`, `confirmed` being the answer to the dialog. */
    method Delete(id: string, confirmed: bool, write: Status, read: Status)
      modifies hook
      ensures confirmed ==> hook.State() == GalleryHook.Delete(old(hook.State()), id, write, read)
      ensures !confirmed ==> hook.State() == old(hook.State())
    {
      if confirmed {
        hook.DeleteImage(id, write, read);
      }
    }
  }
}
