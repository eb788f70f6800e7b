/**
 * `CreateItemService` of CreateItemService.swift: which item endpoint a
 * save or an image upload goes to, the `ItemDTO` it sends, and how the
 * upload's reply is reported. The service holds two constants, whether the
 * item is new and the signed-in user's id, and forwards to the client, so
 * it is modelled as a value and functions over the client's `Wire`.
 */
module CreateItemService {
  import opened Wrappers
  import opened Lists
  import opened Http
  import opened AppState
  import opened Categories
  import opened Items
  import opened Endpoints
  import opened ApiClient
  import Decimal

  datatype Service = Service(isNew: bool, userId: int)

  /** The error for an image that cannot be turned into JPEG data. */
  const OversizeMessage := "Слишком большая картинка"

  /** `isNew ? .saveItem : .updateItem` */
  function SaveEndpoint(s: Service): Endpoint {
    ItemEndpoint(if s.isNew then SaveItem else UpdateItem)
  }

  /** `isNew ? .loadImage : .updateImage` */
  function ImageEndpoint(s: Service): Endpoint {
    ItemEndpoint(if s.isNew then LoadImage else UpdateImage)
  }

  /** The DTO `createItem` sends: the item's own fields, the ids of its choices, and the service's user as seller. */
  function MakeDTO(s: Service, item: Item): ItemDTO
  {
    ItemDTO(item.id, item.status.id, item.name, item.price, item.description, item.location.id,
            Keys(item.categories, (c: Category) => c.id), s.userId)
  }

  /** `createItem(_:completion:)` */
  function CreateItemRun(w: Wire, s: Service, item: Item): (Outcome<Body>, Wire) {
    FetchRun(w, Describe(SaveEndpoint(s)), ItemParams(MakeDTO(s, item)))
  }

  /** What `uploadImage` reports for the client's outcome: the file name, or the client's error unchanged. */
  function FileName(o: Outcome<PhotoUploadResponse>): Outcome<string>
  {
    match o
    case Pending => Pending
    case Done(Success(response)) => Done(Success(response.filename))
    case Done(Failure(e)) => Done(Failure(e))
  }

  /** `uploadImage(_:for:completion:)`; `jpeg` is the image's JPEG data, absent when it cannot be produced. */
  function UploadImageRun(w: Wire, s: Service, jpeg: Option<seq<bv8>>, itemId: int): (Outcome<string>, Wire) {
    if jpeg.None? then (Done(Failure(DataCorrupted(OversizeMessage))), w)
    else
      var u := UploadRun(w, Describe(ImageEndpoint(s)), jpeg.value, itemId);
      (FileName(u.0), u.1)
  }

  /** A new item is created at `api/v1/item/create`, an existing one saved at `api/v1/item/update`, both by POST with a token. */
  lemma SaveEndpointChoice(s: Service)
    ensures GetEndpoint(SaveEndpoint(s)) == ItemBase + (if s.isNew then "create" else "update")
    ensures Method(SaveEndpoint(s)) == Post && AuthRequired(SaveEndpoint(s))
  {
  }

  /** A new item's image goes to `api/v1/objects`, an existing one's to `api/v1/objects/update`. */
  lemma ImageEndpointChoice(s: Service)
    ensures GetEndpoint(ImageEndpoint(s)) == if s.isNew then "api/v1/objects" else "api/v1/objects/update"
    ensures AuthRequired(ImageEndpoint(s))
  {
  }

  /** With a live token, saving sends one POST to the chosen endpoint, carrying the DTO as its body. */
  lemma CreateItemSendsDTO(w: Wire, s: Service, item: Item)
    requires ReadToken(w.state).0.Some?
    ensures var r := CreateItemRun(w, s, item);
            var req := r.1.sent[|w.sent|];
            && |r.1.sent| > |w.sent|
            && req.url == UrlString(SaveEndpoint(s)) && req.httpMethod == Post
            && req.body == JsonBody(ItemParams(MakeDTO(s, item)))
            && Bearer(ReadToken(w.state).0.value) in req.headers
  {
    var e := Describe(SaveEndpoint(s));
    var p := ItemParams(MakeDTO(s, item));
    var token := ReadToken(w.state).0;
    FetchWithTokenSendsRequest(w, e, p);
    BodyOnlyBeyondGet(e, p, token);
    CatalogueHasNoAuthorization(SaveEndpoint(s));
    BearerIffRequiredAndPresent(e, token);
  }

  /** Image data that cannot be produced fails with `.dataCorrupted` and sends nothing. */
  lemma NoJpegSendsNothing(w: Wire, s: Service, itemId: int)
    ensures UploadImageRun(w, s, None, itemId) == (Done(Failure(DataCorrupted(OversizeMessage))), w)
  {
  }

  /** Otherwise the upload's file name is reported on success and its error passed on unchanged. */
  lemma UploadImageReports(w: Wire, s: Service, data: seq<bv8>, itemId: int)
    ensures var u := UploadRun(w, Describe(ImageEndpoint(s)), data, itemId);
            var r := UploadImageRun(w, s, Some(data), itemId);
            && r.1 == u.1
            && (u.0.Done? && u.0.result.Success? ==> r.0 == Done(Success(u.0.result.value.filename)))
            && (u.0.Done? && u.0.result.Failure? ==> r.0 == Done(Failure(u.0.result.error)))
  {
  }
}
