/** The item form dialog (create or edit): its three text fields and busy flag, the
    effect that fills or clears them, the submit handler split at its await point,
    and what the open dialog shows. */
module WishlistModal {
  import opened Common
  import opened Items
  import Api

  /** The texts the dialog's logic chooses between, in one language. */
  datatype Texts = Texts(
    createTitle: string,
    editTitle: string,
    cancel: string,
    save: string,
    create: string,
    saving: string)

  function TextsFor(lang: Lang): Texts {
    match lang
    case En => Texts("Add New Item", "Edit Item", "Cancel", "Save", "Create", "Saving...")
    case Ru => Texts("Добавить новый товар", "Редактировать товар", "Отмена", "Сохранить", "Создать", "Сохранение...")
    case Uz => Texts("Yangi mahsulot qo'shish", "Mahsulotni tahrirlash", "Bekor qilish", "Saqlash", "Yaratish", "Saqlanmoqda...")
  }

  /** The dialog's state fields, as one value. */
  datatype FormState = FormState(title: string, imageUrl: string, productUrl: string, isSubmitting: bool)

  const InitialState := FormState("", "", "", false)

  /** The submit button's label. */
  function SubmitLabel(t: Texts, isSubmitting: bool, mode: FormMode): string {
    if isSubmitting then t.saving else if mode == CreateMode then t.create else t.save
  }

  /** In every language the three labels differ: the label tells whether the form is
      busy and, when it is not, which mode it is in. */
  lemma SubmitLabelDeterminesState(lang: Lang, s1: bool, m1: FormMode, s2: bool, m2: FormMode)
    ensures SubmitLabel(TextsFor(lang), s1, m1) == SubmitLabel(TextsFor(lang), s2, m2) <==>
      s1 == s2 && (!s1 ==> m1 == m2)
  {
  }

  /** What the open dialog shows. */
  datatype ItemFormView = ItemFormView(
    heading: string,
    cancelDisabled: bool,
    submitDisabled: bool,
    submitLabel: string,
    showsPreview: bool)

  /** The dialog for a state: nothing when closed; the image preview appears for a
      non-empty image URL. */
  function Render(isOpen: bool, mode: FormMode, t: Texts, s: FormState): (v: Option<ItemFormView>)
    ensures v.None? <==> !isOpen
    ensures v.Some? ==> v.value.heading == (if mode == CreateMode then t.createTitle else t.editTitle)
    ensures v.Some? ==> (v.value.cancelDisabled <==> s.isSubmitting) && (v.value.submitDisabled <==> s.isSubmitting)
    ensures v.Some? ==> v.value.submitLabel == SubmitLabel(t, s.isSubmitting, mode)
    ensures v.Some? ==> (v.value.showsPreview <==> s.imageUrl != "")
  {
    if !isOpen then None
    else Some(ItemFormView(
      if mode == CreateMode then t.createTitle else t.editTitle,
      s.isSubmitting, s.isSubmitting, SubmitLabel(t, s.isSubmitting, mode), s.imageUrl != ""))
  }

  /** The form edits an item exactly when one is given and the mode is edit. */
  predicate Prefills(item: Option<Item>, mode: FormMode) {
    item.Some? && mode == EditMode
  }

  class Form {
    var title: string
    var imageUrl: string
    var productUrl: string
    var isSubmitting: bool

    function Snapshot(): FormState
      reads this
    {
      FormState(title, imageUrl, productUrl, isSubmitting)
    }

    constructor ()
      ensures Snapshot() == InitialState
    {
      title, imageUrl, productUrl, isSubmitting := "", "", "", false;
    }

    /** The effect run when the item, the mode or the open flag changes: the fields
        take the item's values when editing one, and are cleared otherwise. */
    method Sync(item: Option<Item>, mode: FormMode)
      modifies this
      ensures Prefills(item, mode) ==>
        Snapshot() == old(Snapshot()).(title := item.value.title, imageUrl := item.value.imageurl, productUrl := item.value.producturl)
      ensures !Prefills(item, mode) ==>
        Snapshot() == old(Snapshot()).(title := "", imageUrl := "", productUrl := "")
    {
      if item.Some? && mode == EditMode {
        title := item.value.title;
        imageUrl := item.value.imageurl;
        productUrl := item.value.producturl;
      } else {
        title := "";
        imageUrl := "";
        productUrl := "";
      }
    }

    /** `handleSubmit` up to its await: the form turns busy and sends every field. */
    method StartSubmit() returns (dto: CreateDto)
      modifies this
      ensures dto == CreateDto(old(title), old(imageUrl), old(productUrl))
      ensures Snapshot() == old(Snapshot()).(isSubmitting := true)
    {
      isSubmitting := true;
      dto := CreateDto(title, imageUrl, productUrl);
    }

    /** `handleSubmit` after its await: the dialog closes only when the call was
        fulfilled; either way the form is no longer busy, and its fields are kept. */
    method FinishSubmit(outcome: Settled) returns (closed: bool)
      modifies this
      ensures closed <==> outcome.Fulfilled?
      ensures Snapshot() == old(Snapshot()).(isSubmitting := false)
    {
      closed := outcome.Fulfilled?;
      isSubmitting := false;
    }

    /** The whole submit, for a call that settles with `outcome`. */
    method Submit(outcome: Settled) returns (dto: CreateDto, closed: bool)
      modifies this
      ensures dto == CreateDto(old(title), old(imageUrl), old(productUrl))
      ensures closed <==> outcome.Fulfilled?
      ensures Snapshot() == old(Snapshot()).(isSubmitting := false)
    {
      dto := StartSubmit();
      closed := FinishSubmit(outcome);
    }

    method EditTitle(value: string)
      modifies this
      ensures Snapshot() == old(Snapshot()).(title := value)
    {
      title := value;
    }

    method EditImageUrl(value: string)
      modifies this
      ensures Snapshot() == old(Snapshot()).(imageUrl := value)
    {
      imageUrl := value;
    }

    method EditProductUrl(value: string)
      modifies this
      ensures Snapshot() == old(Snapshot()).(productUrl := value)
    {
      productUrl := value;
    }
  }

  /** Opening the form on an item and submitting it unchanged sends the item's own
      fields, and as an update it carries every field under both spellings. */
  lemma UnchangedEditSendsItem(item: Item, s: FormState, id: string, ownerId: string, p: map<string, string>)
    requires s.title == item.title && s.imageUrl == item.imageurl && s.productUrl == item.producturl
    requires var dto := CreateDto(s.title, s.imageUrl, s.productUrl);
      Api.IsUpdatePayload(p, id, ownerId, UpdateDto(Some(dto.title), Some(dto.imageurl), Some(dto.producturl)))
    ensures p.Keys == {"id", "owner_id", "title", "imageurl", "imageUrl", "producturl", "productUrl"}
    ensures p["title"] == item.title && p["imageurl"] == p["imageUrl"] == item.imageurl
    ensures p["producturl"] == p["productUrl"] == item.producturl
  {
    Api.FullUpdatePayload(p, id, ownerId, CreateDto(s.title, s.imageUrl, s.productUrl));
  }
}
