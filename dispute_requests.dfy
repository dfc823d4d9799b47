/**
 * The request side of disputes.go: the parameters of each operation, the
 * method and path each one uses, the List query and the JSON bodies of
 * Create, Update and Submit. Fields tagged omitempty are left out of a body
 * when they hold their zero value.
 */
module DisputeRequests {
  import opened Wrappers
  import opened Json
  import opened Requestor

  // ---------------------------------------------------------------------
  // Products
  // ---------------------------------------------------------------------

  /** A product of the disputed order; every field is omitempty. */
  datatype Product = Product(
    name: string,
    description: string,
    image: string,
    sku: string,
    quantity: int,
    amount: int,
    url: string)

  /** The fields of Product with their tags, in declaration order. */
  function ProductFields(p: Product): seq<Field>
  {
    [
      Field("name", JString(p.name), true),
      Field("description", JString(p.description), true),
      Field("image", JString(p.image), true),
      Field("sku", JString(p.sku), true),
      Field("quantity", JInt(p.quantity), true),
      Field("amount", JInt(p.amount), true),
      Field("url", JString(p.url), true)]
  }

  /** The JSON object of a product. */
  function ProductJson(p: Product): map<string, Json>
  {
    EncodeStruct(ProductFields(p))
  }

  /** The product a decoder fills from a JSON object. */
  function ProductOf(m: map<string, Json>): Product
  {
    Product(StringAt(m, "name"), StringAt(m, "description"), StringAt(m, "image"), StringAt(m, "sku"),
            IntAt(m, "quantity"), IntAt(m, "amount"), StringAt(m, "url"))
  }

  lemma ProductTagsDistinct(p: Product)
    ensures DistinctTags(ProductFields(p))
  {
  }

  /** Dropping empty members loses nothing: decoding a product's object gives the product back. */
  lemma ProductRoundTrip(p: Product)
    ensures ProductOf(ProductJson(p)) == p
  {
    ProductTagsDistinct(p);
    ReadBack(ProductFields(p), 0);
    ReadBack(ProductFields(p), 1);
    ReadBack(ProductFields(p), 2);
    ReadBack(ProductFields(p), 3);
    ReadBack(ProductFields(p), 4);
    ReadBack(ProductFields(p), 5);
    ReadBack(ProductFields(p), 6);
  }

  function ProductsJson(ps: seq<Product>): (items: seq<Json>)
    ensures |items| == |ps|
  {
    seq(|ps|, i requires 0 <= i < |ps| => JObject(ProductJson(ps[i])))
  }

  function ProductsOf(items: seq<Json>): (ps: seq<Product>)
    ensures |ps| == |items|
  {
    seq(|items|, i requires 0 <= i < |items| => ProductOf(if items[i].JObject? then items[i].members else map[]))
  }

  /** A list of products survives encoding and decoding element by element. */
  lemma ProductsRoundTrip(ps: seq<Product>)
    ensures ProductsOf(ProductsJson(ps)) == ps
  {
    forall i | 0 <= i < |ps| ensures ProductsOf(ProductsJson(ps))[i] == ps[i] {
      ProductRoundTrip(ps[i]);
    }
  }

  // ---------------------------------------------------------------------
  // Update and Submit
  // ---------------------------------------------------------------------

  /** UpdateDisputeParams: the dispute id, nine mutable fields and the per-call client. */
  datatype UpdateParams = UpdateParams(
    id: string,
    userId: string,
    account: string,
    force: bool,
    queue: bool,
    template: string,
    charge: string,
    fields: map<string, Json>,
    products: seq<Product>,
    referenceUrl: string,
    optHTTP: HttpClient?)

  /** The tags of updateDisputeBody. */
  const UpdateKeys: set<string> :=
    {"template", "charge", "account", "user_id", "reference_url", "force", "queue", "fields", "products"}

  /** updateDisputeBody as newUpdateDisputeBody fills it from the parameters: every field omitempty. */
  function UpdateFields(p: UpdateParams): seq<Field>
  {
    [
      Field("template", JString(p.template), true),
      Field("charge", JString(p.charge), true),
      Field("account", JString(p.account), true),
      Field("user_id", JString(p.userId), true),
      Field("reference_url", JString(p.referenceUrl), true),
      Field("force", JBool(p.force), true),
      Field("queue", JBool(p.queue), true),
      Field("fields", JObject(p.fields), true),
      Field("products", JArray(ProductsJson(p.products)), true)]
  }

  /**
   * newUpdateDisputeBody: the encoded updateDisputeBody. Each of the nine
   * tags is present exactly when its field is not at its zero value.
   */
  function UpdateBody(p: UpdateParams): (r: map<string, Json>)
    ensures "template" in r <==> p.template != ""
    ensures "charge" in r <==> p.charge != ""
    ensures "account" in r <==> p.account != ""
    ensures "user_id" in r <==> p.userId != ""
    ensures "reference_url" in r <==> p.referenceUrl != ""
    ensures "force" in r <==> p.force
    ensures "queue" in r <==> p.queue
    ensures "fields" in r <==> p.fields != map[]
    ensures "products" in r <==> |p.products| > 0
  {
    UpdateTextPresence(p);
    UpdateRestPresence(p);
    EncodeStruct(UpdateFields(p))
  }

  /** The five text fields of an update body are there exactly when non-empty. */
  lemma UpdateTextPresence(p: UpdateParams)
    ensures var r := EncodeStruct(UpdateFields(p));
      && ("template" in r <==> p.template != "") && ("charge" in r <==> p.charge != "")
      && ("account" in r <==> p.account != "") && ("user_id" in r <==> p.userId != "")
      && ("reference_url" in r <==> p.referenceUrl != "")
  {
    var fs := UpdateFields(p);
    UpdateTagsDistinct(p);
    EncodeLookup(fs, 0);
    EncodeLookup(fs, 1);
    EncodeLookup(fs, 2);
    EncodeLookup(fs, 3);
    EncodeLookup(fs, 4);
  }

  /** The flags, the evidence fields and the products of an update body are there exactly when set. */
  lemma UpdateRestPresence(p: UpdateParams)
    ensures var r := EncodeStruct(UpdateFields(p));
      && ("force" in r <==> p.force) && ("queue" in r <==> p.queue)
      && ("fields" in r <==> p.fields != map[]) && ("products" in r <==> |p.products| > 0)
  {
    var fs := UpdateFields(p);
    UpdateTagsDistinct(p);
    EncodeLookup(fs, 5);
    EncodeLookup(fs, 6);
    EncodeLookup(fs, 7);
    EncodeLookup(fs, 8);
  }

  lemma UpdateTagsDistinct(p: UpdateParams)
    ensures DistinctTags(UpdateFields(p))
  {
  }

  /**
   * An update body holds only updateDisputeBody's tags and never an empty
   * value: the id and the per-call client are never sent, and neither is a
   * field left at its zero value.
   */
  lemma UpdateBodySparse(p: UpdateParams, k: string)
    requires k in UpdateBody(p)
    ensures k in UpdateKeys && !IsEmptyValue(UpdateBody(p)[k])
  {
    UpdateTagsDistinct(p);
    EncodeMembers(UpdateFields(p), k);
  }

  /** The update parameters a body stands for, read back field by field. */
  function UpdateParamsOf(m: map<string, Json>): UpdateParams
  {
    UpdateParams("", StringAt(m, "user_id"), StringAt(m, "account"), BoolAt(m, "force"), BoolAt(m, "queue"),
                 StringAt(m, "template"), StringAt(m, "charge"), ObjectAt(m, "fields"),
                 ProductsOf(ArrayAt(m, "products")), StringAt(m, "reference_url"), null)
  }

  /** The part of the parameters a body can carry: everything but the id and the client. */
  function Mutable(p: UpdateParams): UpdateParams
  {
    p.(id := "", optHTTP := null)
  }

  /** No mutable field is dropped or invented: the body reads back as the parameters' mutable part. */
  lemma UpdateBodyRoundTrip(p: UpdateParams)
    ensures UpdateParamsOf(UpdateBody(p)) == Mutable(p)
  {
    UpdateTagsDistinct(p);
    ReadBack(UpdateFields(p), 0);
    ReadBack(UpdateFields(p), 1);
    ReadBack(UpdateFields(p), 2);
    ReadBack(UpdateFields(p), 3);
    ReadBack(UpdateFields(p), 4);
    ReadBack(UpdateFields(p), 5);
    ReadBack(UpdateFields(p), 6);
    ReadBack(UpdateFields(p), 7);
    ReadBack(UpdateFields(p), 8);
    ProductsRoundTrip(p.products);
  }

  /** Force alone gives the body {"force": true} and nothing else. */
  lemma ForceOnlyBody(id: string, client: HttpClient?)
    ensures UpdateBody(UpdateParams(id, "", "", true, false, "", "", map[], [], "", client))
         == map["force" := JBool(true)]
  {
    var p := UpdateParams(id, "", "", true, false, "", "", map[], [], "", client);
    var body := UpdateBody(p);
    UpdateTagsDistinct(p);
    EncodeLookup(UpdateFields(p), 5);
    forall k | k in body ensures k == "force" {
      EncodeMembers(UpdateFields(p), k);
    }
  }

  // ---------------------------------------------------------------------
  // Create
  // ---------------------------------------------------------------------

  /** CreateDisputeParams. */
  datatype CreateParams = CreateParams(
    id: string,
    charge: string,
    customer: string,
    reason: string,
    chargedAt: string,
    disputedAt: string,
    dueBy: string,
    currency: string,
    amount: int,
    processor: string,
    state: string,
    reversalCurrency: string,
    fee: int,
    reversalAmount: int,
    reversalTotal: int,
    isChargeRefundable: bool,
    submittedCount: int,
    addressLine1Check: string,
    addressZipCheck: string,
    cvcCheck: string,
    template: string,
    fields: map<string, Json>,
    products: seq<Product>,
    userId: string,
    kind: string,
    submit: bool,
    queue: bool,
    referenceUrl: string,
    optHTTP: HttpClient?)

  /** The tags without omitempty: present in every Create body. */
  const CreateRequiredKeys: set<string> :=
    {"id", "charge", "reason", "charged_at", "disputed_at", "due_by", "currency", "amount"}

  /** The omitempty tags of a Create body. */
  const CreateOptionalKeys: set<string> :=
    {"customer", "processor", "state", "reversal_currency", "fee", "reversal_amount", "reversal_total", "is_charge_refundable", "submitted_count", "address_line1_check", "address_zip_check", "cvc_check", "template", "fields", "products", "user_id", "kind", "submit", "queue", "reference_url"}

  /** The charge and its dates: id through due_by. */
  function CreateChargeFields(p: CreateParams): seq<Field>
  {
    [
      Field("id", JString(p.id), false),
      Field("charge", JString(p.charge), false),
      Field("customer", JString(p.customer), true),
      Field("reason", JString(p.reason), false),
      Field("charged_at", JString(p.chargedAt), false),
      Field("disputed_at", JString(p.disputedAt), false),
      Field("due_by", JString(p.dueBy), false)
    ]
  }

  /** The amounts and processor state: currency through reversal_amount. */
  function CreateAmountFields(p: CreateParams): seq<Field>
  {
    [
      Field("currency", JString(p.currency), false),
      Field("amount", JInt(p.amount), false),
      Field("processor", JString(p.processor), true),
      Field("state", JString(p.state), true),
      Field("reversal_currency", JString(p.reversalCurrency), true),
      Field("fee", JInt(p.fee), true),
      Field("reversal_amount", JInt(p.reversalAmount), true)
    ]
  }

  /** The balance withdrawal and the checks: reversal_total through template. */
  function CreateCheckFields(p: CreateParams): seq<Field>
  {
    [
      Field("reversal_total", JInt(p.reversalTotal), true),
      Field("is_charge_refundable", JBool(p.isChargeRefundable), true),
      Field("submitted_count", JInt(p.submittedCount), true),
      Field("address_line1_check", JString(p.addressLine1Check), true),
      Field("address_zip_check", JString(p.addressZipCheck), true),
      Field("cvc_check", JString(p.cvcCheck), true),
      Field("template", JString(p.template), true)
    ]
  }

  /** The evidence and the flags: fields through reference_url. */
  function CreateEvidenceFields(p: CreateParams): seq<Field>
  {
    [
      Field("fields", JObject(p.fields), true),
      Field("products", JArray(ProductsJson(p.products)), true),
      Field("user_id", JString(p.userId), true),
      Field("kind", JString(p.kind), true),
      Field("submit", JBool(p.submit), true),
      Field("queue", JBool(p.queue), true),
      Field("reference_url", JString(p.referenceUrl), true)
    ]
  }

  /**
   * The serialised fields of CreateDisputeParams in declaration order, in
   * four runs of seven; the per-call client is tagged "-" and is not one.
   */
  function CreateFields(p: CreateParams): seq<Field>
  {
    CreateChargeFields(p) + CreateAmountFields(p) + CreateCheckFields(p) + CreateEvidenceFields(p)
  }

  /**
   * The Create body: the parameters encoded as they are. The eight tags
   * without omitempty are always there, even when their fields are empty.
   */
  function CreateBody(p: CreateParams): (r: map<string, Json>)
    ensures CreateRequiredKeys <= r.Keys
  {
    CreateRequiredPresent(p);
    EncodeStruct(CreateFields(p))
  }

  lemma CreateChargeFieldsDistinct(p: CreateParams)
    ensures DistinctTags(CreateChargeFields(p))
  {
  }

  lemma CreateAmountFieldsDistinct(p: CreateParams)
    ensures DistinctTags(CreateAmountFields(p))
  {
  }

  lemma CreateCheckFieldsDistinct(p: CreateParams)
    ensures DistinctTags(CreateCheckFields(p))
  {
  }

  lemma CreateEvidenceFieldsDistinct(p: CreateParams)
    ensures DistinctTags(CreateEvidenceFields(p))
  {
  }

  lemma CreateChargeFieldsApart1(p: CreateParams)
    ensures TagsDisjoint(CreateChargeFields(p), CreateAmountFields(p))
  {
  }

  lemma CreateChargeFieldsApart2(p: CreateParams)
    ensures TagsDisjoint(CreateChargeFields(p), CreateCheckFields(p))
  {
  }

  lemma CreateChargeFieldsApart3(p: CreateParams)
    ensures TagsDisjoint(CreateChargeFields(p), CreateEvidenceFields(p))
  {
  }

  lemma CreateAmountFieldsApart2(p: CreateParams)
    ensures TagsDisjoint(CreateAmountFields(p), CreateCheckFields(p))
  {
  }

  lemma CreateAmountFieldsApart3(p: CreateParams)
    ensures TagsDisjoint(CreateAmountFields(p), CreateEvidenceFields(p))
  {
  }

  lemma CreateCheckFieldsApart3(p: CreateParams)
    ensures TagsDisjoint(CreateCheckFields(p), CreateEvidenceFields(p))
  {
  }

  /** No two fields of CreateDisputeParams share a tag. */
  lemma CreateTagsDistinct(p: CreateParams)
    ensures DistinctTags(CreateFields(p))
  {
    var a, b, c, d := CreateChargeFields(p), CreateAmountFields(p), CreateCheckFields(p), CreateEvidenceFields(p);
    CreateChargeFieldsDistinct(p);
    CreateAmountFieldsDistinct(p);
    CreateCheckFieldsDistinct(p);
    CreateEvidenceFieldsDistinct(p);
    CreateChargeFieldsApart1(p);
    CreateChargeFieldsApart2(p);
    CreateChargeFieldsApart3(p);
    CreateAmountFieldsApart2(p);
    CreateAmountFieldsApart3(p);
    CreateCheckFieldsApart3(p);
    DistinctTagsAppend(a, b);
    TagsDisjointAppend(a, b, c);
    DistinctTagsAppend(a + b, c);
    TagsDisjointAppend(a, b, d);
    TagsDisjointAppend(a + b, c, d);
    DistinctTagsAppend(a + b + c, d);
  }

  /** The eight tags without omitempty are written whatever their values. */
  lemma CreateRequiredPresent(p: CreateParams)
    ensures CreateRequiredKeys <= EncodeStruct(CreateFields(p)).Keys
  {
    var fs := CreateFields(p);
    CreateTagsDistinct(p);
    EncodeLookup(fs, 0);
    EncodeLookup(fs, 1);
    EncodeLookup(fs, 3);
    EncodeLookup(fs, 4);
    EncodeLookup(fs, 5);
    EncodeLookup(fs, 6);
    EncodeLookup(fs, 7);
    EncodeLookup(fs, 8);
  }

  /**
   * Every key of a Create body is one of CreateDisputeParams' tags, and an
   * omitempty tag is only there with a non-empty value.
   */
  lemma CreateBodySparse(p: CreateParams, k: string)
    requires k in CreateBody(p)
    ensures k in CreateRequiredKeys + CreateOptionalKeys
    ensures k !in CreateRequiredKeys ==> !IsEmptyValue(CreateBody(p)[k])
  {
    CreateStructSparse(p, k);
  }

  /** CreateBodySparse, stated on the encoding itself. */
  lemma CreateStructSparse(p: CreateParams, k: string)
    requires k in EncodeStruct(CreateFields(p))
    ensures k in CreateRequiredKeys + CreateOptionalKeys
    ensures k !in CreateRequiredKeys ==> !IsEmptyValue(EncodeStruct(CreateFields(p))[k])
  {
    CreateTagsDistinct(p);
    EncodeMembers(CreateFields(p), k);
  }

  /** The create parameters a body stands for. */
  function CreateParamsOf(m: map<string, Json>): CreateParams
  {
    CreateParams(
      StringAt(m, "id"),
      StringAt(m, "charge"),
      StringAt(m, "customer"),
      StringAt(m, "reason"),
      StringAt(m, "charged_at"),
      StringAt(m, "disputed_at"),
      StringAt(m, "due_by"),
      StringAt(m, "currency"),
      IntAt(m, "amount"),
      StringAt(m, "processor"),
      StringAt(m, "state"),
      StringAt(m, "reversal_currency"),
      IntAt(m, "fee"),
      IntAt(m, "reversal_amount"),
      IntAt(m, "reversal_total"),
      BoolAt(m, "is_charge_refundable"),
      IntAt(m, "submitted_count"),
      StringAt(m, "address_line1_check"),
      StringAt(m, "address_zip_check"),
      StringAt(m, "cvc_check"),
      StringAt(m, "template"),
      ObjectAt(m, "fields"),
      ProductsOf(ArrayAt(m, "products")),
      StringAt(m, "user_id"),
      StringAt(m, "kind"),
      BoolAt(m, "submit"),
      BoolAt(m, "queue"),
      StringAt(m, "reference_url"),
      null)
  }

  /** Each run of fields reads back from the Create body as it was sent. */
  lemma CreateChargeRoundTrip(p: CreateParams)
    ensures && StringAt(CreateBody(p), "id") == p.id
            && StringAt(CreateBody(p), "charge") == p.charge
            && StringAt(CreateBody(p), "customer") == p.customer
            && StringAt(CreateBody(p), "reason") == p.reason
            && StringAt(CreateBody(p), "charged_at") == p.chargedAt
            && StringAt(CreateBody(p), "disputed_at") == p.disputedAt
            && StringAt(CreateBody(p), "due_by") == p.dueBy
  {
    CreateTagsDistinct(p);
    ReadBack(CreateFields(p), 0);
    ReadBack(CreateFields(p), 1);
    ReadBack(CreateFields(p), 2);
    ReadBack(CreateFields(p), 3);
    ReadBack(CreateFields(p), 4);
    ReadBack(CreateFields(p), 5);
    ReadBack(CreateFields(p), 6);
  }

  lemma CreateAmountRoundTrip(p: CreateParams)
    ensures && StringAt(CreateBody(p), "currency") == p.currency
            && IntAt(CreateBody(p), "amount") == p.amount
            && StringAt(CreateBody(p), "processor") == p.processor
            && StringAt(CreateBody(p), "state") == p.state
            && StringAt(CreateBody(p), "reversal_currency") == p.reversalCurrency
            && IntAt(CreateBody(p), "fee") == p.fee
            && IntAt(CreateBody(p), "reversal_amount") == p.reversalAmount
  {
    CreateTagsDistinct(p);
    ReadBack(CreateFields(p), 7);
    ReadBack(CreateFields(p), 8);
    ReadBack(CreateFields(p), 9);
    ReadBack(CreateFields(p), 10);
    ReadBack(CreateFields(p), 11);
    ReadBack(CreateFields(p), 12);
    ReadBack(CreateFields(p), 13);
  }

  lemma CreateCheckRoundTrip(p: CreateParams)
    ensures && IntAt(CreateBody(p), "reversal_total") == p.reversalTotal
            && BoolAt(CreateBody(p), "is_charge_refundable") == p.isChargeRefundable
            && IntAt(CreateBody(p), "submitted_count") == p.submittedCount
            && StringAt(CreateBody(p), "address_line1_check") == p.addressLine1Check
            && StringAt(CreateBody(p), "address_zip_check") == p.addressZipCheck
            && StringAt(CreateBody(p), "cvc_check") == p.cvcCheck
            && StringAt(CreateBody(p), "template") == p.template
  {
    CreateTagsDistinct(p);
    ReadBack(CreateFields(p), 14);
    ReadBack(CreateFields(p), 15);
    ReadBack(CreateFields(p), 16);
    ReadBack(CreateFields(p), 17);
    ReadBack(CreateFields(p), 18);
    ReadBack(CreateFields(p), 19);
    ReadBack(CreateFields(p), 20);
  }

  lemma CreateEvidenceRoundTrip(p: CreateParams)
    ensures && ObjectAt(CreateBody(p), "fields") == p.fields
            && ProductsOf(ArrayAt(CreateBody(p), "products")) == p.products
            && StringAt(CreateBody(p), "user_id") == p.userId
            && StringAt(CreateBody(p), "kind") == p.kind
            && BoolAt(CreateBody(p), "submit") == p.submit
            && BoolAt(CreateBody(p), "queue") == p.queue
            && StringAt(CreateBody(p), "reference_url") == p.referenceUrl
  {
    CreateTagsDistinct(p);
    ReadBack(CreateFields(p), 21);
    ReadBack(CreateFields(p), 22);
    ReadBack(CreateFields(p), 23);
    ReadBack(CreateFields(p), 24);
    ReadBack(CreateFields(p), 25);
    ReadBack(CreateFields(p), 26);
    ReadBack(CreateFields(p), 27);
    ProductsRoundTrip(p.products);
  }

  /** Every field but the per-call client survives the Create body. */
  lemma CreateBodyRoundTrip(p: CreateParams)
    ensures CreateParamsOf(CreateBody(p)) == p.(optHTTP := null)
  {
    CreateChargeRoundTrip(p);
    CreateAmountRoundTrip(p);
    CreateCheckRoundTrip(p);
    CreateEvidenceRoundTrip(p);
  }

  // ---------------------------------------------------------------------
  // List
  // ---------------------------------------------------------------------

  /** ListDisputesParams. */
  datatype ListParams = ListParams(
    limit: int,
    startingAfter: string,
    endingBefore: string,
    state: string,
    optHTTP: HttpClient?)

  /**
   * Go's string(n) for an integer n: the one code point n, or U+FFFD when n
   * is not a Unicode scalar value. It is not n's decimal digits.
   */
  function RuneString(n: int): (r: string)
    ensures |r| == 1
    ensures (0 <= n < 0xD800 || 0xE000 <= n < 0x11_0000) ==> r[0] as int == n
    ensures !(0 <= n < 0xD800 || 0xE000 <= n < 0x11_0000) ==> r == ['�']
  {
    if 0 <= n < 0xD800 || 0xE000 <= n < 0x11_0000 then [n as char] else ['�']
  }

  const ListKeys: set<string> := {"limit", "starting_after", "ending_before", "state"}

  /** The List query: limit when positive, one cursor with starting_after first, state when set. */
  function ListQuery(p: ListParams): (q: Values)
    ensures q.Keys <= ListKeys
    ensures ("limit" in q <==> p.limit > 0) && ("limit" in q ==> q["limit"] == RuneString(p.limit))
    ensures ("starting_after" in q <==> p.startingAfter != "")
    ensures "starting_after" in q ==> q["starting_after"] == p.startingAfter
    ensures ("ending_before" in q <==> p.startingAfter == "" && p.endingBefore != "")
    ensures "ending_before" in q ==> q["ending_before"] == p.endingBefore
    ensures !("starting_after" in q && "ending_before" in q)
    ensures ("state" in q <==> p.state != "") && ("state" in q ==> q["state"] == p.state)
  {
    map k | k in ListKeys && (
              || (k == "limit" && p.limit > 0)
              || (k == "starting_after" && p.startingAfter != "")
              || (k == "ending_before" && p.startingAfter == "" && p.endingBefore != "")
              || (k == "state" && p.state != ""))
          :: if k == "limit" then RuneString(p.limit)
             else if k == "starting_after" then p.startingAfter
             else if k == "ending_before" then p.endingBefore
             else p.state
  }

  /** A limit of ten is sent as the one character U+000A, not as "10". */
  lemma LimitIsOneCodePoint()
    ensures ListQuery(ListParams(10, "", "", "", null))["limit"] == "\n"
  {
  }

  // ---------------------------------------------------------------------
  // Route table
  // ---------------------------------------------------------------------

  /** RetrieveDisputeParams, used by Retrieve and Response. */
  datatype RetrieveParams = RetrieveParams(id: string, optHTTP: HttpClient?)

  /** AcceptDisputeParams. */
  datatype AcceptParams = AcceptParams(id: string, optHTTP: HttpClient?)

  /** One call of the Disputes resource with its parameters. */
  datatype Call =
    | CreateCall(createParams: CreateParams)
    | RetrieveCall(retrieveParams: RetrieveParams)
    | ResponseCall(responseParams: RetrieveParams)
    | ListCall(listParams: ListParams)
    | UpdateCall(updateParams: UpdateParams)
    | SubmitCall(submitParams: UpdateParams)
    | AcceptCall(acceptParams: AcceptParams)

  /** What an operation hands to newAPIRequestor besides the client. */
  datatype Route = Route(httpMethod: string, path: string, body: Option<Json>, query: Option<Values>)

  /**
   * The method, path, body and query of each operation. Only Create, Update
   * and Submit send a body, Update and Submit the same one, and only List a
   * query.
   */
  function RouteOf(c: Call): (r: Route)
    ensures r.body.Some? <==> c.CreateCall? || c.UpdateCall? || c.SubmitCall?
    ensures r.query.Some? <==> c.ListCall?
    ensures c.UpdateCall? ==> r.body == Some(JObject(UpdateBody(c.updateParams)))
    ensures c.SubmitCall? ==> r.body == Some(JObject(UpdateBody(c.submitParams)))
    ensures c.CreateCall? ==> r.body == Some(JObject(CreateBody(c.createParams)))
    ensures c.ListCall? ==> r.query == Some(ListQuery(c.listParams))
    ensures c.CreateCall? ==> r.httpMethod == "POST" && r.path == "disputes"
    ensures c.RetrieveCall? ==> r.httpMethod == "GET" && r.path == "disputes/" + c.retrieveParams.id
    ensures c.ResponseCall? ==> r.httpMethod == "GET" && r.path == "disputes/" + c.responseParams.id + "/response"
    ensures c.ListCall? ==> r.httpMethod == "GET" && r.path == "disputes"
    ensures c.UpdateCall? ==> r.httpMethod == "PUT" && r.path == "disputes/" + c.updateParams.id
    ensures c.SubmitCall? ==> r.httpMethod == "POST" && r.path == "disputes/" + c.submitParams.id + "/submit"
    ensures c.AcceptCall? ==> r.httpMethod == "POST" && r.path == "disputes/" + c.acceptParams.id + "/accept"
  {
    match c
    case CreateCall(p) => Route("POST", "disputes", Some(JObject(CreateBody(p))), None)
    case RetrieveCall(p) => Route("GET", "disputes/" + p.id, None, None)
    case ResponseCall(p) => Route("GET", "disputes/" + p.id + "/response", None, None)
    case ListCall(p) => Route("GET", "disputes", None, Some(ListQuery(p)))
    case UpdateCall(p) => Route("PUT", "disputes/" + p.id, Some(JObject(UpdateBody(p))), None)
    case SubmitCall(p) => Route("POST", "disputes/" + p.id + "/submit", Some(JObject(UpdateBody(p))), None)
    case AcceptCall(p) => Route("POST", "disputes/" + p.id + "/accept", None, None)
  }

  /** The per-call client an operation's parameters carry. */
  function OptClient(c: Call): HttpClient?
  {
    match c
    case CreateCall(p) => p.optHTTP
    case RetrieveCall(p) => p.optHTTP
    case ResponseCall(p) => p.optHTTP
    case ListCall(p) => p.optHTTP
    case UpdateCall(p) => p.optHTTP
    case SubmitCall(p) => p.optHTTP
    case AcceptCall(p) => p.optHTTP
  }
}
