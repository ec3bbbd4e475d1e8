/** app/api/example/get_example.py: the module-level `items` list with its create, read,
    update and delete endpoints, and the fixed demo data behind `/items-paged`. */
module Items {
  import opened Wrappers
  import opened Strings
  import opened Http
  import opened Errors
  import Response
  import opened Pagination
  import opened Middlewares

  /** `Item`: `description` defaults to None. */
  datatype Item = Item(id: int, name: string, description: Option<string>)

  /** No two items share an id. */
  predicate UniqueIds(items: seq<Item>) {
    forall i, j :: 0 <= i < j < |items| ==> items[i].id != items[j].id
  }

  /** Whether some item has the id. */
  predicate HasId(items: seq<Item>, id: int) {
    exists i :: 0 <= i < |items| && items[i].id == id
  }

  /** The position of the first item with the id, if any. */
  function FirstIndex(items: seq<Item>, id: int): (r: Option<nat>)
    ensures r.None? <==> !HasId(items, id)
    ensures r.Some? ==> r.value < |items| && items[r.value].id == id
                        && forall j :: 0 <= j < r.value ==> items[j].id != id
  {
    if items == [] then None
    else if items[0].id == id then Some(0)
    else match FirstIndex(items[1..], id)
      case None =>
        assert forall i :: 1 <= i < |items| ==> items[i] == items[1..][i - 1];
        None
      case Some(k) =>
        assert forall j :: 1 <= j < k + 1 ==> items[j] == items[1..][j - 1];
        Some(k + 1)
  }

  /** The 404 of read, update and delete. */
  const NotFound404: HttpException :=
    HttpException(404, JObject(map["code" := JStr("E_NOT_FOUND"), "message" := JStr("Item not found")]), map[])

  /** The 400 of a create with a taken id. */
  const Duplicate400: HttpException :=
    HttpException(400, JObject(map["code" := JStr("E_BAD_REQUEST"), "message" := JStr("Item with this ID already exists")]), map[])

  /** Both errors carry the code `from_status` gives their status, so the handler's envelope
      and the detail agree, and the handler answers them without crashing. */
  lemma ItemErrorsAreConsistent(requestId: Option<string>)
    ensures NotFound404.detail.fields["code"] == JStr(Value(FromStatus(404)))
    ensures Duplicate400.detail.fields["code"] == JStr(Value(FromStatus(400)))
    ensures HttpExceptionHandler(NotFound404, requestId).Success?
    ensures HttpExceptionHandler(NotFound404, requestId).value.content["message"] == JStr("Item not found")
    ensures HttpExceptionHandler(Duplicate400, requestId).Success?
    ensures HttpExceptionHandler(Duplicate400, requestId).value.content["message"] == JStr("Item with this ID already exists")
  {
    assert "message" in NotFound404.detail.fields;
    assert "message" in Duplicate400.detail.fields;
  }

  /** The success envelope of one item. */
  function ItemEnvelope(item: Item): (r: Response.SuccessResponse<Item>)
    ensures r.code == "OK" && r.data == Some(item) && r.meta == None
  {
    Response.Success(Some(item), None)
  }

  /** The `items` list. */
  class ItemStore {
    var items: seq<Item>

    constructor ()
      ensures items == []
    {
      items := [];
    }

    /** `read_items()`: the whole list, unchanged. */
    method ReadItems() returns (r: Response.SuccessResponse<seq<Item>>)
      ensures r.code == "OK" && r.data == Some(items) && r.meta == None
    {
      r := Response.Success(Some(items), None);
    }

    /** `read_item(item_id)`: the first item with the id, else the 404. */
    method ReadItem(id: int) returns (r: Result<Response.SuccessResponse<Item>, HttpException>)
      ensures FirstIndex(items, id).None? ==> r == Failure(NotFound404)
      ensures FirstIndex(items, id).Some? ==> r == Success(ItemEnvelope(items[FirstIndex(items, id).value]))
    {
      var i := 0;
      while i < |items|
        invariant 0 <= i <= |items|
        invariant forall j :: 0 <= j < i ==> items[j].id != id
      {
        if items[i].id == id {
          r := Success(ItemEnvelope(items[i]));
          return;
        }
        i := i + 1;
      }
      r := Failure(NotFound404);
    }

    /** `create_item(item)`: a taken id is the 400 and changes nothing; otherwise the item
        is appended. */
    method CreateItem(item: Item) returns (r: Result<Response.SuccessResponse<Item>, HttpException>)
      modifies this
      ensures HasId(old(items), item.id) ==> r == Failure(Duplicate400) && items == old(items)
      ensures !HasId(old(items), item.id) ==> r == Success(ItemEnvelope(item)) && items == old(items) + [item]
    {
      var i := 0;
      while i < |items|
        invariant 0 <= i <= |items|
        invariant forall j :: 0 <= j < i ==> items[j].id != item.id
      {
        if items[i].id == item.id {
          r := Failure(Duplicate400);
          return;
        }
        i := i + 1;
      }
      items := items + [item];
      r := Success(ItemEnvelope(item));
    }

    /** `update_item(item_id, updated_item)`: the first item with the id is replaced; no match
        is the 404 and changes nothing. */
    method UpdateItem(id: int, updated: Item) returns (r: Result<Response.SuccessResponse<Item>, HttpException>)
      modifies this
      ensures FirstIndex(old(items), id).None? ==> r == Failure(NotFound404) && items == old(items)
      ensures FirstIndex(old(items), id).Some? ==>
                r == Success(ItemEnvelope(updated)) && items == old(items)[FirstIndex(old(items), id).value := updated]
    {
      var i := 0;
      while i < |items|
        invariant 0 <= i <= |items|
        invariant forall j :: 0 <= j < i ==> items[j].id != id
      {
        if items[i].id == id {
          items := items[i := updated];
          r := Success(ItemEnvelope(updated));
          return;
        }
        i := i + 1;
      }
      r := Failure(NotFound404);
    }

    /** `delete_item(item_id)`: the first item with the id is removed and returned, the rest
        keep their order; no match is the 404 and changes nothing. */
    method DeleteItem(id: int) returns (r: Result<Response.SuccessResponse<Item>, HttpException>)
      modifies this
      ensures FirstIndex(old(items), id).None? ==> r == Failure(NotFound404) && items == old(items)
      ensures FirstIndex(old(items), id).Some? ==>
                var k := FirstIndex(old(items), id).value;
                r == Success(ItemEnvelope(old(items)[k])) && items == old(items)[..k] + old(items)[k + 1..]
    {
      var i := 0;
      while i < |items|
        invariant 0 <= i <= |items|
        invariant forall j :: 0 <= j < i ==> items[j].id != id
      {
        if items[i].id == id {
          var removed := items[i];
          items := items[..i] + items[i + 1..];
          r := Success(ItemEnvelope(removed));
          return;
        }
        i := i + 1;
      }
      r := Failure(NotFound404);
    }
  }

  /** A create that succeeds keeps the ids unique. */
  lemma CreateKeepsIdsUnique(items: seq<Item>, item: Item)
    requires UniqueIds(items) && !HasId(items, item.id)
    ensures UniqueIds(items + [item])
  {
    var s := items + [item];
    forall i, j | 0 <= i < j < |s| ensures s[i].id != s[j].id {
      if j == |items| {
        assert s[i] == items[i];
      }
    }
  }

  /** A delete keeps the ids unique, and the deleted id is then gone. */
  lemma DeleteKeepsIdsUnique(items: seq<Item>, k: nat)
    requires UniqueIds(items) && k < |items|
    ensures UniqueIds(items[..k] + items[k + 1..])
    ensures !HasId(items[..k] + items[k + 1..], items[k].id)
  {
    var s := items[..k] + items[k + 1..];
    assert forall i :: 0 <= i < |s| ==> s[i] == (if i < k then items[i] else items[i + 1]);
  }

  /** An update that keeps the item's id keeps the ids unique. */
  lemma UpdateKeepingIdKeepsIdsUnique(items: seq<Item>, k: nat, updated: Item)
    requires UniqueIds(items) && k < |items| && updated.id == items[k].id
    ensures UniqueIds(items[k := updated])
  {
  }

  /** The update does not check the new item's id, so updating item 1 with an item carrying
      id 2 leaves two items with id 2. */
  lemma UpdateMayDuplicateIds()
    ensures var items := [Item(1, "a", None), Item(2, "b", None)];
            && UniqueIds(items)
            && FirstIndex(items, 1) == Some(0)
            && !UniqueIds(items[0 := Item(2, "c", None)])
  {
    var items := [Item(1, "a", None), Item(2, "b", None)];
    var after := items[0 := Item(2, "c", None)];
    assert after[0].id == after[1].id;
  }

  // ---------------------------------------------------------------- response models

  function ItemJson(item: Item): (j: Json)
    ensures j.JObject? && j.fields.Keys == {"id", "name", "description"}
  {
    JObject(map["id" := JInt(item.id), "name" := JStr(item.name), "description" := OptText(item.description)])
  }

  /** `SuccessResponse[Item](data=item).model_dump()`. */
  function EnvelopeJson(r: Response.SuccessResponse<Item>): (j: Json)
    ensures j.JObject? && j.fields.Keys == {"code", "message", "data", "meta"}
  {
    JObject(map["code" := JStr(r.code), "message" := JStr(r.message),
                "data" := (match r.data case Some(it) => ItemJson(it) case None => JNull), "meta" := JNull])
  }

  /** Whether a returned value validates against the declared `response_model=Item`: a
      dict with an int "id" and a str "name". */
  predicate FitsItemModel(j: Json) {
    j.JObject? && "id" in j.fields && j.fields["id"].JInt? && "name" in j.fields && j.fields["name"].JStr?
  }

  /** Whether a returned value validates against `SuccessResponse[Item]`. */
  predicate FitsEnvelopeModel(j: Json) {
    j.JObject? && "code" in j.fields && j.fields["code"].JStr? && "message" in j.fields && j.fields["message"].JStr?
    && "data" in j.fields && (j.fields["data"] == JNull || FitsItemModel(j.fields["data"]))
  }

  /** What the client receives for a returned value as written: FastAPI checks it against
      `response_model=Item`, and a mismatch raises, which the catch-all handler answers with
      a 500 (`crashText` is the text of that error). */
  function ServeAsWritten(returned: Json, requestId: Option<string>, crashText: string): (r: JsonResponse)
    ensures FitsItemModel(returned) ==> r.status == 200
    ensures !FitsItemModel(returned) ==> r == UnhandledHandler(requestId, crashText)
  {
    if FitsItemModel(returned) then JsonResponse(200, returned.fields, map[]) else UnhandledHandler(requestId, crashText)
  }

  /** The single-item endpoints return the envelope, which has no "id", so the declared
      response model rejects every successful `read_item`, create, update and delete, after
      the change to `items` has been made. */
  lemma EnvelopeNeverFitsItemModel(item: Item, requestId: Option<string>, crashText: string)
    ensures !FitsItemModel(EnvelopeJson(ItemEnvelope(item)))
    ensures ServeAsWritten(EnvelopeJson(ItemEnvelope(item)), requestId, crashText).status == 500
  {
  }

  /** With `response_model=SuccessResponse[Item]` the envelope is served as it is. */
  function ServeCorrected(returned: Json, requestId: Option<string>, crashText: string): (r: JsonResponse)
    ensures FitsEnvelopeModel(returned) ==> r.status == 200 && r.content == returned.fields
    ensures !FitsEnvelopeModel(returned) ==> r == UnhandledHandler(requestId, crashText)
  {
    if FitsEnvelopeModel(returned) then JsonResponse(200, returned.fields, map[]) else UnhandledHandler(requestId, crashText)
  }

  lemma EnvelopeFitsCorrectedModel(item: Item, requestId: Option<string>, crashText: string)
    ensures FitsEnvelopeModel(EnvelopeJson(ItemEnvelope(item)))
    ensures ServeCorrected(EnvelopeJson(ItemEnvelope(item)), requestId, crashText).status == 200
    ensures ServeCorrected(EnvelopeJson(ItemEnvelope(item)), requestId, crashText).content["data"] == ItemJson(item)
  {
  }

  /** The JSON of a list of items, one object per item, in order. */
  function ItemsJson(items: seq<Item>): (js: seq<Json>)
    ensures |js| == |items|
    ensures forall i :: 0 <= i < |items| ==> js[i] == ItemJson(items[i])
  {
    if items == [] then [] else [ItemJson(items[0])] + ItemsJson(items[1..])
  }

  /** `SuccessResponse[List[Item]](data=items).model_dump()`, what `read_items` returns. */
  function ListEnvelopeJson(r: Response.SuccessResponse<seq<Item>>): (j: Json)
    ensures j.JObject? && j.fields.Keys == {"code", "message", "data", "meta"}
    ensures j.fields["data"] == (if r.data.Some? then JList(ItemsJson(r.data.value)) else JNull)
  {
    JObject(map["code" := JStr(r.code), "message" := JStr(r.message),
                "data" := (match r.data case Some(xs) => JList(ItemsJson(xs)) case None => JNull), "meta" := JNull])
  }

  /** Whether a returned value validates against the declared `response_model=List[Item]`:
      a list whose every element fits `Item`. */
  predicate FitsItemListModel(j: Json) {
    j.JList? && forall i :: 0 <= i < |j.elems| ==> FitsItemModel(j.elems[i])
  }

  /** Whether a returned value validates against `SuccessResponse[List[Item]]`. */
  predicate FitsListEnvelopeModel(j: Json) {
    j.JObject? && "code" in j.fields && j.fields["code"].JStr? && "message" in j.fields && j.fields["message"].JStr?
    && "data" in j.fields && (j.fields["data"] == JNull || FitsItemListModel(j.fields["data"]))
  }

  /** What the client of `GET /items/` receives: a list body that fits is sent with 200,
      anything else makes the response validation raise, and the catch-all handler
      answers. */
  datatype ListReply = ListServed(body: Json) | ListAnswered(reply: JsonResponse)

  function ServeListAsWritten(returned: Json, requestId: Option<string>, crashText: string): (r: ListReply)
    ensures FitsItemListModel(returned) ==> r == ListServed(returned)
    ensures !FitsItemListModel(returned) ==> r == ListAnswered(UnhandledHandler(requestId, crashText))
  {
    if FitsItemListModel(returned) then ListServed(returned) else ListAnswered(UnhandledHandler(requestId, crashText))
  }

  /** `read_items` returns the envelope, a dict, where `response_model=List[Item]` expects a
      list: whatever the store holds, even nothing, `GET /items/` is answered with the 500. */
  lemma ListEnvelopeNeverFitsItemListModel(items: seq<Item>, requestId: Option<string>, crashText: string)
    ensures !FitsItemListModel(ListEnvelopeJson(Response.Success(Some(items), None)))
    ensures ServeListAsWritten(ListEnvelopeJson(Response.Success(Some(items), None)), requestId, crashText)
            == ListAnswered(UnhandledHandler(requestId, crashText))
    ensures UnhandledHandler(requestId, crashText).status == 500
  {
  }

  /** With `response_model=SuccessResponse[List[Item]]` the envelope is served as it is. */
  function ServeListCorrected(returned: Json, requestId: Option<string>, crashText: string): (r: JsonResponse)
    ensures FitsListEnvelopeModel(returned) ==> r.status == 200 && r.content == returned.fields
    ensures !FitsListEnvelopeModel(returned) ==> r == UnhandledHandler(requestId, crashText)
  {
    if FitsListEnvelopeModel(returned) then JsonResponse(200, returned.fields, map[]) else UnhandledHandler(requestId, crashText)
  }

  /** Under the corrected model `GET /items/` answers 200 with the whole list, item by item. */
  lemma ListEnvelopeFitsCorrectedModel(items: seq<Item>, requestId: Option<string>, crashText: string)
    ensures FitsListEnvelopeModel(ListEnvelopeJson(Response.Success(Some(items), None)))
    ensures var r := ServeListCorrected(ListEnvelopeJson(Response.Success(Some(items), None)), requestId, crashText);
            r.status == 200 && r.content["data"] == JList(ItemsJson(items))
  {
    var js := ItemsJson(items);
    forall i | 0 <= i < |js| ensures FitsItemModel(js[i]) {
      assert js[i] == ItemJson(items[i]);
    }
  }

  // ---------------------------------------------------------------- items_paged

  /** One demo row: `{"id": i, "name": f"item-{i}"}`. */
  datatype DemoItem = DemoItem(id: int, name: string)

  const DemoTotal: nat := 200

  /** The 200 demo rows, ids 1 to 200. */
  function DemoItems(): (r: seq<DemoItem>)
    ensures |r| == DemoTotal
    ensures forall i :: 0 <= i < |r| ==> r[i] == DemoItem(i + 1, "item-" + IntToString(i + 1))
  {
    seq(200, i requires 0 <= i < 200 => DemoItem(i + 1, "item-" + IntToString(i + 1)))
  }

  /** Python's `xs[lo:hi]` for `0 <= lo`, `0 <= hi`: both bounds are clamped to the length. */
  function Slice<T>(xs: seq<T>, lo: nat, hi: nat): (r: seq<T>)
    ensures |r| == if lo >= |xs| || hi <= lo then 0 else (if hi <= |xs| then hi else |xs|) - lo
    ensures forall k :: 0 <= k < |r| ==> r[k] == xs[lo + k]
  {
    var h := if hi <= |xs| then hi else |xs|;
    if lo >= h then [] else xs[lo..h]
  }

  /** `items_paged(paging)`: the page's slice of the demo rows and the meta for 200 rows. */
  function ItemsPaged(q: ValidPageQuery): (r: Response.SuccessResponse<seq<DemoItem>>)
    ensures r.code == "OK" && r.data.Some? && r.meta == Some(ToMeta(q, DemoTotal))
    ensures |r.data.value| == Max(0, Min(Limit(q), DemoTotal - Offset(q)))
    ensures forall k :: 0 <= k < |r.data.value| ==>
              Offset(q) + k < DemoTotal && r.data.value[k] == DemoItems()[Offset(q) + k]
    ensures forall k :: 0 <= k < |r.data.value| ==> r.data.value[k].id == Offset(q) + k + 1
  {
    Response.Success(Some(Slice(DemoItems(), Offset(q), Offset(q) + Limit(q))), Some(ToMeta(q, DemoTotal)))
  }

  /** A page is full exactly when `has_next` holds or it ends on the last row, and a page
      past the end is empty. */
  lemma ItemsPagedAgreesWithMeta(q: ValidPageQuery)
    ensures var r := ItemsPaged(q);
            && (r.meta.value.hasNext ==> |r.data.value| == Limit(q))
            && (Offset(q) >= DemoTotal ==> r.data.value == [] && !r.meta.value.hasNext)
            && (r.meta.value.hasNext <==> Offset(q) + |r.data.value| < DemoTotal)
  {
  }
}
