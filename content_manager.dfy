/** The admin screen for the site's texts: one edit buffer per field, keyed
    `section + "." + key`, over the site-content hook. */
module ContentManager {
  import opened Wrappers
  import opened Remote
  import opened SiteContentHook

  datatype FieldSpec = FieldSpec(key: string, caption: string, kind: string)
  datatype SectionSpec = SectionSpec(section: string, title: string, fields: seq<FieldSpec>)

  /** `contentSections`: the fields the screen offers for editing. */
  const ContentSections: seq<SectionSpec> := [
    SectionSpec("hero", "Section Hero", [
      FieldSpec("title_line1", "Titre ligne 1", "text"),
      FieldSpec("title_line2", "Titre ligne 2", "text"),
      FieldSpec("subtitle", "Sous-titre", "textarea")]),
    SectionSpec("about", "Section À Propos", [
      FieldSpec("title", "Titre", "text"),
      FieldSpec("description", "Description", "textarea")]),
    SectionSpec("services", "Section Prestations", [
      FieldSpec("title", "Titre", "text"),
      FieldSpec("description", "Description", "textarea")]),
    SectionSpec("gallery", "Section Galerie", [
      FieldSpec("title", "Titre", "text"),
      FieldSpec("description", "Description", "textarea")]),
    SectionSpec("contact", "Section Contact", [
      FieldSpec("title", "Titre", "text"),
      FieldSpec("description", "Description", "textarea")])
  ]

  /** `${section}.${key}` */
  function EditKey(section: string, key: string): (e: string)
    ensures |e| == |section| + 1 + |key|
    ensures e[..|section|] == section && e[|section|] == '.' && e[|section| + 1..] == key
  {
    section + "." + key
  }

  /** In the buffer key of a dot-free section, the first dot ends the section. */
  lemma FirstDot(section: string, key: string)
    requires '.' !in section
    ensures EditKey(section, key)[|section|] == '.'
    ensures forall i :: 0 <= i < |section| ==> EditKey(section, key)[i] != '.'
  {
    assert forall i :: 0 <= i < |section| ==> EditKey(section, key)[i] == section[i];
  }

  /** For sections without a dot the buffer key determines the field. */
  lemma EditKeyInjective(s1: string, k1: string, s2: string, k2: string)
    requires '.' !in s1 && '.' !in s2
    requires EditKey(s1, k1) == EditKey(s2, k2)
    ensures s1 == s2 && k1 == k2
  {
    var e := EditKey(s1, k1);
    FirstDot(s1, k1);
    FirstDot(s2, k2);
    assert |s1| == |s2|;
    assert s1 == e[..|s1|] == s2;
    assert k1 == e[|s1| + 1..] == k2;
  }

  /** With a dot in a section name, two different fields would share one
      buffer entry: section `a.b` with key `k`, and section `a` with key `b.k`. */
  lemma EditKeyCollision(a: string, b: string, k: string)
    ensures a + "." + b != a
    ensures EditKey(a + "." + b, k) == EditKey(a, b + "." + k)
  {
    assert |a + "." + b| > |a|;
  }

  /** The offered fields never share a buffer entry: every section name is
      dot-free, and each section lists each key once. */
  lemma OfferedFieldsHaveOwnEntries(i: int, a: int, j: int, b: int)
    requires 0 <= i < |ContentSections| && 0 <= a < |ContentSections[i].fields|
    requires 0 <= j < |ContentSections| && 0 <= b < |ContentSections[j].fields|
    requires i != j || a != b
    ensures EditKey(ContentSections[i].section, ContentSections[i].fields[a].key) !=
            EditKey(ContentSections[j].section, ContentSections[j].fields[b].key)
  {
    var s1, s2 := ContentSections[i].section, ContentSections[j].section;
    var k1, k2 := ContentSections[i].fields[a].key, ContentSections[j].fields[b].key;
    assert '.' !in s1 && '.' !in s2;
    if EditKey(s1, k1) == EditKey(s2, k2) {
      EditKeyInjective(s1, k1, s2, k2);
      assert false;
    }
  }

  /** `isEditing(section, key)` */
  function IsEditing(editing: map<string, string>, section: string, key: string): bool
  {
    EditKey(section, key) in editing
  }

  /** `getEditingValue(section, key)`: `editingContent[k] || ''`. Since the
      fallback is itself empty, this is exactly the buffered value. */
  function EditingValue(editing: map<string, string>, section: string, key: string): (v: string)
    ensures IsEditing(editing, section, key) ==> v == editing[EditKey(section, key)]
    ensures !IsEditing(editing, section, key) ==> v == ""
  {
    var k := EditKey(section, key);
    if k in editing && editing[k] != "" then editing[k] else ""
  }

  /** The screen: its buffer and the site-content hook it reads. */
  class ContentEditor {
    const hook: ContentCache
    var editingContent: map<string, string>

    constructor (hook: ContentCache)
      ensures this.hook == hook && editingContent == map[]
    {
      this.hook := hook;
      editingContent := map[];
    }

    /** `handleEdit`: buffer the displayed value (default `''`). */
    method Edit(section: string, key: string)
      modifies this
      ensures editingContent ==
        old(editingContent)[EditKey(section, key) := GetContent(hook.content, section, key, "")]
      ensures IsEditing(editingContent, section, key)
      ensures EditingValue(editingContent, section, key) == GetContent(hook.content, section, key, "")
    {
      var currentValue := GetContent(hook.content, section, key, "");
      editingContent := editingContent[EditKey(section, key) := currentValue];
    }

    method Change(section: string, key: string, value: string)
      modifies this
      ensures editingContent == old(editingContent)[EditKey(section, key) := value]
      ensures EditingValue(editingContent, section, key) == value
    {
      editingContent := editingContent[EditKey(section, key) := value];
    }

    method Cancel(section: string, key: string)
      modifies this
      ensures editingContent == old(editingContent) - {EditKey(section, key)}
      ensures !IsEditing(editingContent, section, key)
    {
      editingContent := editingContent - {EditKey(section, key)};
    }

    /** `handleSave`: nothing without a buffer for the field; otherwise the
        buffered value is upserted and the buffer dropped, whatever the
        outcome. When both calls succeed the page then reads the new value. */
    method Save(section: string, key: string, newId: string, write: Status, read: Status)
      modifies this, hook
      ensures EditKey(section, key) !in old(editingContent) ==>
        editingContent == old(editingContent) && hook.State() == old(hook.State())
      ensures EditKey(section, key) in old(editingContent) ==>
        editingContent == old(editingContent) - {EditKey(section, key)} &&
        hook.State() == Update(old(hook.State()), section, key,
                               old(editingContent)[EditKey(section, key)], newId, write, read)
      ensures EditKey(section, key) in old(editingContent) && write.Ok? && read.Ok? ==>
        GetContent(hook.content, section, key, "") == old(editingContent)[EditKey(section, key)]
      ensures !IsEditing(editingContent, section, key)
    {
      var editKey := EditKey(section, key);
      if editKey in editingContent {
        var newValue := editingContent[editKey];
        hook.UpdateContent(section, key, newValue, newId, write, read);
        editingContent := editingContent - {editKey};
      }
    }
  }
}
