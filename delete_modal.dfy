/** The delete confirmation dialog: a stateless view of its props. */
module DeleteModal {
  import opened Common
  import opened StringReplace

  /** The marker in the titled message that the item's title takes the place of. */
  const Placeholder := "{title}"

  /** The dialog's texts in one language. */
  datatype Texts = Texts(
    title: string,
    message: string,
    messageWithTitle: string,
    cancel: string,
    delete: string,
    deleting: string)

  function TextsFor(lang: Lang): Texts {
    match lang
    case En => Texts("Delete Item", "Are you sure you want to delete this item?",
                     TemplatePrefix(En) + Placeholder + TemplateSuffix(En), "Cancel", "Delete", "Deleting...")
    case Ru => Texts("Удалить элемент", "Вы уверены, что хотите удалить этот элемент?",
                     TemplatePrefix(Ru) + Placeholder + TemplateSuffix(Ru), "Отмена", "Удалить", "Удаление...")
    case Uz => Texts("Elementni o'chirish", "Ushbu elementni o'chirishga ishonchingiz komilmi?",
                     TemplatePrefix(Uz) + Placeholder + TemplateSuffix(Uz), "Bekor qilish", "O'chirish", "O'chilmoqda...")
  }

  /** The props the dialog reads; `isDeleting` may be left out (`None`). */
  datatype Props = Props(isOpen: bool, itemTitle: Option<string>, isDeleting: Option<bool>)

  /** What an open dialog shows. */
  datatype DeleteView = DeleteView(
    heading: string,
    message: string,
    closeDisabled: bool,
    cancelDisabled: bool,
    confirmDisabled: bool,
    confirmLabel: string)

  /** A title that is present and not empty (a truthy `itemTitle`). */
  predicate HasTitle(itemTitle: Option<string>) {
    itemTitle.Some? && itemTitle.value != ""
  }

  /** `itemTitle ? t.messageWithTitle.replace('{title}', itemTitle) : t.message`, as the
      runtime evaluates it: the title is read as a replacement template. */
  function MessageAsWritten(t: Texts, itemTitle: Option<string>): (m: string)
    ensures !HasTitle(itemTitle) ==> m == t.message
    ensures HasTitle(itemTitle) && IndexOf(t.messageWithTitle, Placeholder).None? ==> m == t.messageWithTitle
  {
    if HasTitle(itemTitle) then ReplaceFirst(t.messageWithTitle, Placeholder, itemTitle.value) else t.message
  }

  /** The message with the title put in literally, as the dialog evidently means it. */
  function Message(t: Texts, itemTitle: Option<string>): (m: string)
    ensures !HasTitle(itemTitle) ==> m == t.message
    ensures HasTitle(itemTitle) && IndexOf(t.messageWithTitle, Placeholder).None? ==> m == t.messageWithTitle
  {
    if HasTitle(itemTitle) then ReplaceFirstLiterally(t.messageWithTitle, Placeholder, itemTitle.value) else t.message
  }

  /** `isDeleting = false` */
  function Deleting(p: Props): (d: bool)
    ensures p.isDeleting.None? ==> !d
    ensures p.isDeleting.Some? ==> d == p.isDeleting.value
  {
    p.isDeleting.GetOr(false)
  }

  /** The dialog: nothing when closed; otherwise the three buttons are disabled exactly
      while deleting, and the confirm button says so. */
  function Render(t: Texts, p: Props): (v: Option<DeleteView>)
    ensures v.None? <==> !p.isOpen
    ensures v.Some? ==> v.value.heading == t.title && v.value.message == Message(t, p.itemTitle)
    ensures v.Some? ==>
      && (v.value.closeDisabled <==> Deleting(p))
      && (v.value.cancelDisabled <==> Deleting(p))
      && (v.value.confirmDisabled <==> Deleting(p))
    ensures v.Some? ==> v.value.confirmLabel == (if Deleting(p) then t.deleting else t.delete)
    ensures v.Some? && (HasTitle(p.itemTitle) ==> '$' !in p.itemTitle.value) ==>
      v.value.message == MessageAsWritten(t, p.itemTitle)
  {
    if !p.isOpen then None
    else
      AsWrittenAgreesWithoutDollar(t, p.itemTitle);
      var d := Deleting(p);
      Some(DeleteView(t.title, Message(t, p.itemTitle), d, d, d, if d then t.deleting else t.delete))
  }

  /** A template `a + "{title}" + b` with no `{` before the marker shows `a`, the title
      as typed, then `b`. */
  lemma TitleFillsMarker(t: Texts, title: string, a: string, b: string)
    requires title != ""
    requires t.messageWithTitle == a + Placeholder + b && '{' !in a
    ensures Message(t, Some(title)) == a + title + b
  {
    FirstOccurrence(a, Placeholder, b);
    var s := t.messageWithTitle;
    assert s[..|a|] == a;
    assert s[|a| + |Placeholder|..] == b;
  }

  /** No `{` comes before the marker of the titled message, in any language. */
  lemma PrefixesHaveNoBrace(lang: Lang)
    ensures '{' !in TemplatePrefix(lang)
  {
    match lang
    case En =>
    case Ru =>
    case Uz =>
  }

  /** The titled message around its marker: `'Are you sure you want to delete "{title}"?'`
      and its Russian and Uzbek counterparts. */
  function TemplatePrefix(lang: Lang): string {
    match lang
    case En => "Are you sure you want to delete \""
    case Ru => "Вы уверены, что хотите удалить \""
    case Uz => "\""
  }

  function TemplateSuffix(lang: Lang): string {
    match lang
    case En => "\"?"
    case Ru => "\"?"
    case Uz => "\" ni o'chirishga ishonchingiz komilmi?"
  }

  /** In every language a non-empty title appears, as typed and in quotes, inside the
      fixed text; an absent or empty one gives the plain message. */
  lemma MessagesInEveryLanguage(lang: Lang, itemTitle: Option<string>)
    ensures HasTitle(itemTitle) ==>
      Message(TextsFor(lang), itemTitle) == TemplatePrefix(lang) + itemTitle.value + TemplateSuffix(lang)
    ensures !HasTitle(itemTitle) ==> Message(TextsFor(lang), itemTitle) == TextsFor(lang).message
  {
    if HasTitle(itemTitle) {
      PrefixesHaveNoBrace(lang);
      TitleFillsMarker(TextsFor(lang), itemTitle.value, TemplatePrefix(lang), TemplateSuffix(lang));
    }
  }

  /** The confirm label tells the two states apart in every language. */
  lemma LabelsDistinguishDeleting(lang: Lang, p: Props)
    requires p.isOpen
    ensures Render(TextsFor(lang), p).value.confirmLabel == TextsFor(lang).deleting <==> Deleting(p)
  {
  }

  /** The code as written agrees with the intended message for titles without `$`. */
  lemma AsWrittenAgreesWithoutDollar(t: Texts, itemTitle: Option<string>)
    ensures (HasTitle(itemTitle) ==> '$' !in itemTitle.value) ==> MessageAsWritten(t, itemTitle) == Message(t, itemTitle)
  {
    if HasTitle(itemTitle) && '$' !in itemTitle.value {
      LiteralAgreesWithoutDollar(t.messageWithTitle, Placeholder, itemTitle.value);
    }
  }

  /** A title `$&` is read as "the matched text": the code as written shows the marker
      itself instead of the title. */
  lemma DollarTitleShowsMarker()
    ensures MessageAsWritten(TextsFor(En), Some("$&")) == TextsFor(En).messageWithTitle
    ensures Message(TextsFor(En), Some("$&")) == TemplatePrefix(En) + "$&" + TemplateSuffix(En)
  {
    var a, b := TemplatePrefix(En), TemplateSuffix(En);
    PrefixesHaveNoBrace(En);
    ReplaceAfterPrefix(a, Placeholder, b, "$&");
    ExpandSpecials(Placeholder, a, b);
    MessagesInEveryLanguage(En, Some("$&"));
  }
}
