/** The public contact section: the opening-hours rows with their
    open/closed rule, and the contact fields and headings with their fixed
    fallbacks. */
module ContactSection {
  import opened Wrappers
  import opened SiteContentHook
  import opened OpeningHoursHook
  import opened ContactInfoHook

  /** A time that is present and not the empty string (JavaScript truthy). */
  predicate Given(t: Option<string>)
  {
    t.Some? && t.value != ""
  }

  /** The right-hand text of an hours row. */
  function HoursLabel(h: OpeningHour): (text: string)
    ensures text != ""
  {
    if h.isOpen && Given(h.openingTime) && Given(h.closingTime)
    then FormatTime(h.openingTime) + " - " + FormatTime(h.closingTime)
    else "Fermé"
  }

  /** A row reads `Fermé` exactly when the day is closed or a time is
      missing or empty; otherwise it shows both times, each cut to `HH:MM`,
      around " - ". */
  lemma HoursLabelRule(h: OpeningHour)
    ensures HoursLabel(h) == "Fermé" <==> !(h.isOpen && Given(h.openingTime) && Given(h.closingTime))
    ensures h.isOpen && Given(h.openingTime) && Given(h.closingTime) ==>
      HoursLabel(h) == FormatTime(h.openingTime) + " - " + FormatTime(h.closingTime) &&
      |FormatTime(h.openingTime)| > 0 && |FormatTime(h.closingTime)| > 0
  {
    if h.isOpen && Given(h.openingTime) && Given(h.closingTime) {
      var a := FormatTime(h.openingTime);
      var text := HoursLabel(h);
      assert text[|a|] == ' ';
      assert ' ' !in "Fermé";
    }
  }

  const DefaultAddress: string := "8 Rue Henry Chéron\n14100 Lisieux"
  const DefaultPhone: string := "02 31 XX XX XX"
  const DefaultEmail: string := "contact@normandie-coiffure.fr"

  function Address(info: Option<ContactInfo>): string
  {
    Displayed(info, (c: ContactInfo) => c.address, DefaultAddress)
  }

  function Phone(info: Option<ContactInfo>): string
  {
    Displayed(info, (c: ContactInfo) => c.phone, DefaultPhone)
  }

  function Email(info: Option<ContactInfo>): string
  {
    Displayed(info, (c: ContactInfo) => c.email, DefaultEmail)
  }

  /** Without a record every field shows the salon's fixed details, a stored
      non-empty field shows itself, and no field is ever blank. */
  lemma ContactFallbacks(info: Option<ContactInfo>)
    ensures info.None? ==>
      Address(info) == DefaultAddress && Phone(info) == DefaultPhone && Email(info) == DefaultEmail
    ensures info.Some? && info.value.phone != "" ==> Phone(info) == info.value.phone
    ensures info.Some? && info.value.email != "" ==> Email(info) == info.value.email
    ensures info.Some? && info.value.address != "" ==> Address(info) == info.value.address
    ensures Address(info) != "" && Phone(info) != "" && Email(info) != ""
  {
  }

  const DefaultTitle: string := "Contact & Horaires"
  const DefaultDescription: string :=
    "Situés au cœur de Lisieux, nous vous accueillons dans un cadre chaleureux pour des services de coiffure homme, femme et soins de la barbe."

  /** The section's heading: the stored `contact.title`, or the fixed text. */
  function Title(content: Content): (t: string)
    ensures t != ""
    ensures "contact" in content && "title" in content["contact"] && content["contact"]["title"] != "" ==>
      t == content["contact"]["title"]
  {
    GetContent(content, "contact", "title", DefaultTitle)
  }

  function Description(content: Content): (t: string)
    ensures t != ""
    ensures "contact" in content && "description" in content["contact"] && content["contact"]["description"] != "" ==>
      t == content["contact"]["description"]
  {
    GetContent(content, "contact", "description", DefaultDescription)
  }
}
