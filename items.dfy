/** The canonical wishlist item, the forms' DTOs, the loosely typed remote record,
    and the normalizer that turns the latter into the former. */
module Items {
  import opened Common
  import Decimal

  /** Where an item comes from: client-only demo data, or the remote store. */
  datatype Source = Local | Api

  datatype Item = Item(id: string, title: string, imageurl: string, producturl: string, source: Source)

  /** What the create form sends: all three fields. */
  datatype CreateDto = CreateDto(title: string, imageurl: string, producturl: string)

  /** A partial update: only the supplied fields change. */
  datatype UpdateDto = UpdateDto(title: Option<string>, imageurl: Option<string>, producturl: Option<string>)

  /** Whether the item form creates a new item or edits the selected one. */
  datatype FormMode = CreateMode | EditMode

  /** An identifier as the remote store may send it: a string or a number. */
  datatype IdValue = IdText(text: string) | IdNumber(number: Decimal.SafeInteger)

  /** A remote record as declared at the API boundary. Field names are those the
      store uses; `_id` and `ID` become `underscoreId` and `capitalId`. */
  datatype ApiRecord = ApiRecord(
    id: Field<IdValue>,
    underscoreId: Field<IdValue>,
    capitalId: Field<IdValue>,
    slug: Field<IdValue>,
    title: Field<string>,
    imageurl: Field<string>,
    imageUrl: Field<string>,
    producturl: Field<string>,
    productUrl: Field<string>)

  /** What `record?.f` reads when the record itself is null or undefined. */
  const NoFields := ApiRecord(Undefined, Undefined, Undefined, Undefined, Undefined, Undefined, Undefined, Undefined, Undefined)

  /** `String(v)` */
  function IdString(v: IdValue): string {
    match v
    case IdText(s) => s
    case IdNumber(n) => Decimal.IntToDecimal(n)
  }

  /** JavaScript truthiness of an identifier field: "" and 0 are falsy. */
  predicate IdTruthy(f: Field<IdValue>) {
    match f
    case Val(IdText(s)) => s != ""
    case Val(IdNumber(n)) => n != 0
    case _ => false
  }

  /** `record?.slug ? `${record.slug}` : undefined` */
  function SlugCandidate(slug: Field<IdValue>): Field<IdValue> {
    if IdTruthy(slug) then Val(IdText(IdString(slug.value))) else Undefined
  }

  /** `id ?? _id ?? ID ?? (slug ? `${slug}` : undefined)` */
  function RawId(rec: ApiRecord): Field<IdValue> {
    rec.id.OrElse(rec.underscoreId).OrElse(rec.capitalId).OrElse(SlugCandidate(rec.slug))
  }

  /** The fields a possibly missing record offers to `?.`. */
  function FieldsOf(item: Option<ApiRecord>): ApiRecord {
    item.GetOr(NoFields)
  }

  /** Canonical item from a remote record (null/undefined is `None`). `fallbackId`
      stands for the id the runtime would generate (a random UUID or a
      timestamp-and-random string); it is used only when the record carries none. */
  function Normalize(item: Option<ApiRecord>, fallbackId: string): (r: Item)
    // identifier resolution order: id, then _id, then ID, then a truthy slug, then the fallback
    ensures var f := FieldsOf(item);
      && (f.id.Val? ==> r.id == IdString(f.id.value))
      && (!f.id.Val? && f.underscoreId.Val? ==> r.id == IdString(f.underscoreId.value))
      && (!f.id.Val? && !f.underscoreId.Val? && f.capitalId.Val? ==> r.id == IdString(f.capitalId.value))
      && (!f.id.Val? && !f.underscoreId.Val? && !f.capitalId.Val? && IdTruthy(f.slug) ==> r.id == IdString(f.slug.value))
      && (!f.id.Val? && !f.underscoreId.Val? && !f.capitalId.Val? && !IdTruthy(f.slug) ==> r.id == fallbackId)
    // text fields: the lowercase spelling first, even when it is "", then camelCase, then ""
    ensures var f := FieldsOf(item);
      && r.title == (if f.title.Val? then f.title.value else "")
      && r.imageurl == (if f.imageurl.Val? then f.imageurl.value else if f.imageUrl.Val? then f.imageUrl.value else "")
      && r.producturl == (if f.producturl.Val? then f.producturl.value else if f.productUrl.Val? then f.productUrl.value else "")
    ensures r.source == Api
    // a missing record degrades to empty fields and never fails
    ensures item.None? ==> r == Item(fallbackId, "", "", "", Api)
  {
    var f := FieldsOf(item);
    var rawId := RawId(f);
    Item(
      if rawId.Val? then IdString(rawId.value) else fallbackId,
      f.title.OrDefault(""),
      f.imageurl.OrElse(f.imageUrl).OrDefault(""),
      f.producturl.OrElse(f.productUrl).OrDefault(""),
      Api)
  }

  /** Whether the record names its own identifier in any of the four places. */
  predicate CarriesId(item: Option<ApiRecord>) {
    var f := FieldsOf(item);
    f.id.Val? || f.underscoreId.Val? || f.capitalId.Val? || IdTruthy(f.slug)
  }

  /** The fallback never matters when the record carries an id, and otherwise it is the id. */
  lemma FallbackUsedOnlyWithoutId(item: Option<ApiRecord>, fallback1: string, fallback2: string)
    ensures CarriesId(item) ==> Normalize(item, fallback1) == Normalize(item, fallback2)
    ensures !CarriesId(item) ==> Normalize(item, fallback1).id == fallback1
    ensures Normalize(item, fallback1).(id := fallback2) == Normalize(item, fallback2).(id := fallback2)
  {
  }

  /** A present `id` wins over every other identifier field, and a numeric one prints in decimal. */
  lemma PresentIdWins(rec: ApiRecord, fallback: string)
    requires rec.id.Val?
    ensures Normalize(Some(rec), fallback).id == IdString(rec.id.value)
    ensures rec.id.value.IdNumber? && rec.id.value.number == 5 ==> Normalize(Some(rec), fallback).id == "5"
  {
  }
}
