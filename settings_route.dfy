/**
 * The settings API route over the settings collection, which the route keeps to a
 * single document: `GET` returns it, creating one from the schema defaults when there
 * is none; `PUT` creates it from the body or copies the body's fields onto it.
 */
module SettingsRoute {
  import opened Wrappers
  import InvoiceForm

  /** A field value, by its schema type. */
  datatype Value = Str(s: string) | Flag(b: bool) | Num(n: real)

  datatype Kind = StrKind | FlagKind | NumKind

  function KindOf(v: Value): Kind {
    match v
    case Str(_) => StrKind
    case Flag(_) => FlagKind
    case Num(_) => NumKind
  }

  /** A settings document: field name to value. */
  type Doc = map<string, Value>

  /** The schema's fields and their types. */
  function Schema(): map<string, Kind> {
    map[
      "storeName" := StrKind,
      "storeNameEn" := StrKind,
      "storeDescription" := StrKind,
      "storeDescriptionEn" := StrKind,
      "phone" := StrKind,
      "email" := StrKind,
      "address" := StrKind,
      "city" := StrKind,
      "vatEnabled" := FlagKind,
      "vatPercentage" := NumKind,
      "currency" := StrKind,
      "logo" := StrKind,
      "banner" := StrKind,
      "instagram" := StrKind,
      "instagramEnabled" := FlagKind,
      "facebook" := StrKind,
      "facebookEnabled" := FlagKind,
      "twitter" := StrKind,
      "twitterEnabled" := FlagKind,
      "pinterest" := StrKind,
      "pinterestEnabled" := FlagKind,
      "tiktok" := StrKind,
      "tiktokEnabled" := FlagKind,
      "snapchat" := StrKind,
      "snapchatEnabled" := FlagKind,
      "defaultLanguage" := StrKind
    ]
  }

  /** The schema's defaults. */
  function Defaults(): Doc {
    map[
      "storeName" := Str("أريج الأخوان"),
      "storeNameEn" := Str("Areej Al Aqhwan"),
      "storeDescription" := Str("متجر الزهور والهدايا الفاخرة"),
      "storeDescriptionEn" := Str("Premium Flower and Gift Shop"),
      "phone" := Str(""),
      "email" := Str(""),
      "address" := Str(""),
      "city" := Str(""),
      "vatEnabled" := Flag(true),
      "vatPercentage" := Num(15.0),
      "currency" := Str("SAR"),
      "logo" := Str(""),
      "banner" := Str(""),
      "instagram" := Str(""),
      "instagramEnabled" := Flag(false),
      "facebook" := Str(""),
      "facebookEnabled" := Flag(false),
      "twitter" := Str(""),
      "twitterEnabled" := Flag(false),
      "pinterest" := Str(""),
      "pinterestEnabled" := Flag(false),
      "tiktok" := Str(""),
      "tiktokEnabled" := Flag(false),
      "snapchat" := Str(""),
      "snapchatEnabled" := Flag(false),
      "defaultLanguage" := Str("ar")
    ]
  }

  /** Every schema field is present with its type, `defaultLanguage` is one of the two
      languages, and there is nothing else. */
  predicate WellTyped(d: Doc) {
    && d.Keys == Schema().Keys
    && (forall k :: k in d ==> KindOf(d[k]) == Schema()[k])
    && "defaultLanguage" in d && d["defaultLanguage"] in {Str("ar"), Str("en")}
  }

  /** The part of a body the strict schema keeps: its schema fields. */
  function Known(body: Doc): (r: Doc)
    ensures r.Keys == body.Keys * Schema().Keys
    ensures forall k :: k in r ==> r[k] == body[k]
  {
    map k | k in body && k in Schema() :: body[k]
  }

  /** Whether saving the body's fields passes the schema: each has its declared type and
      the language is in the enumeration. */
  predicate Acceptable(body: Doc) {
    && (forall k :: k in Known(body) ==> KindOf(Known(body)[k]) == Schema()[k])
    && ("defaultLanguage" in body ==> body["defaultLanguage"] in {Str("ar"), Str("en")})
  }

  /** `Object.assign(settings, body)` restricted to the schema. */
  function Merge(d: Doc, body: Doc): (r: Doc)
    ensures forall k :: k in Schema() && k in d ==>
              k in r && r[k] == (if k in body then body[k] else d[k])
    ensures r.Keys == d.Keys + Known(body).Keys
  {
    d + Known(body)
  }

  lemma DefaultsWellTyped()
    ensures WellTyped(Defaults())
  {
  }

  /** The defaults the rest of the shop relies on. */
  lemma DefaultValues()
    ensures var d := Defaults();
            && d["vatEnabled"] == Flag(true) && d["vatPercentage"] == Num(15.0)
            && d["currency"] == Str("SAR") && d["defaultLanguage"] == Str("ar")
  {
  }

  /** Copying an acceptable body onto a well-typed document keeps it well typed: every
      field the body names takes the body's value and every other field keeps its own. */
  lemma MergeWellTyped(d: Doc, body: Doc)
    requires WellTyped(d) && Acceptable(body)
    ensures WellTyped(Merge(d, body))
    ensures forall k :: k in Schema() ==> Merge(d, body)[k] == if k in body then body[k] else d[k]
  {
    var r := Merge(d, body);
    assert r.Keys == Schema().Keys;
  }

  /** Writing the same body twice is writing it once. */
  lemma MergeIdempotent(d: Doc, body: Doc)
    ensures Merge(Merge(d, body), body) == Merge(d, body)
  {
  }

  /** What the invoice form reads from the settings. */
  function VatView(d: Doc): InvoiceForm.VatSettings
    requires WellTyped(d)
  {
    InvoiceForm.VatSettings(d["vatEnabled"].b, d["vatPercentage"].n)
  }

  /** With the defaults the invoice form adds 15% VAT. */
  lemma DefaultVat(afterDiscount: real)
    ensures InvoiceForm.VatAmount(afterDiscount, Some(VatView(Defaults()))) == afterDiscount * 15.0 / 100.0
  {
    DefaultsWellTyped();
  }

  datatype Response = Ok(doc: Doc) | Failed(status: nat, error: string)

  const MsgUpdateFailed: string := "Failed to update settings"

  class SettingsStore {
    /** The settings collection. */
    var docs: seq<Doc>

    /** At most one document, and it is well typed. */
    ghost predicate Valid()
      reads this
    {
      |docs| <= 1 && (forall i :: 0 <= i < |docs| ==> WellTyped(docs[i]))
    }

    constructor()
      ensures Valid() && docs == []
    {
      docs := [];
    }

    /** `GET /api/settings` */
    method Get() returns (d: Doc)
      requires Valid()
      modifies this
      ensures Valid() && |docs| == 1 && d == docs[0]
      ensures old(docs) == [] ==> d == Defaults()
      ensures old(docs) != [] ==> docs == old(docs)
    {
      if docs == [] {
        DefaultsWellTyped();
        docs := [Defaults()];
      }
      d := docs[0];
    }

    /** `PUT /api/settings` */
    method Put(body: Doc) returns (resp: Response)
      requires Valid()
      modifies this
      ensures Valid()
      ensures !Acceptable(body) ==> resp == Failed(500, MsgUpdateFailed) && docs == old(docs)
      ensures Acceptable(body) && old(docs) == [] ==>
                docs == [Merge(Defaults(), body)] && resp == Ok(docs[0])
      ensures Acceptable(body) && old(docs) != [] ==>
                docs == [Merge(old(docs)[0], body)] && resp == Ok(docs[0])
    {
      if !Acceptable(body) {
        return Failed(500, MsgUpdateFailed);
      }
      var d: Doc;
      if docs == [] {
        d := Defaults();
        DefaultsWellTyped();
      } else {
        d := docs[0];
      }
      MergeWellTyped(d, body);
      docs := [Merge(d, body)];
      resp := Ok(docs[0]);
    }
  }

  /** Any sequence of reads and writes leaves a single document: a `PUT` after a `GET`
      updates the document the `GET` created. */
  method GetThenPut(store: SettingsStore, body: Doc) returns (resp: Response)
    requires store.Valid() && store.docs == [] && Acceptable(body)
    modifies store
    ensures store.Valid() && |store.docs| == 1
    ensures store.docs[0] == Merge(Defaults(), body)
  {
    var _ := store.Get();
    resp := store.Put(body);
  }
}
