/**
 * The products controller: the existence resolver, the read handler, and
 * the list handler with its three aggregate variants.
 */
module Products {
  import opened Wrappers
  import opened Json
  import opened Express

  const ProductNotFound := "Product cannot be found"

  /** The `locals` key the resolver writes and `read` reads. */
  const ProductKey := "product"

  /** The four collection queries of the products service. */
  datatype Query = AllProducts | OutOfStockCount | PriceSummary | TotalWeightByProduct

  /**
   * What the products service answers: `read` finds what `records` holds
   * unless the read fails; what each query resolves with is left open.
   */
  datatype ProductsApi = ProductsApi(
    records: map<string, Fields>,
    readFault: Option<Error>,
    answer: Query -> Reply<Value>)
  {
    function Read(id: string): Reply<Option<Fields>> {
      if readFault.Some? then Failed(readFault.value)
      else Resolved(if id in records then Some(records[id]) else None)
    }
  }

  /** A call made into the products service. */
  datatype ProductCall = ReadCall(id: string) | QueryCall(query: Query)

  /** The products service, with the log of the calls made into it. */
  class ProductsService {
    const api: ProductsApi
    var calls: seq<ProductCall>

    constructor (api: ProductsApi)
      ensures this.api == api && calls == []
    {
      this.api := api;
      calls := [];
    }

    method Read(id: string) returns (r: Reply<Option<Fields>>)
      modifies this
      ensures calls == old(calls) + [ReadCall(id)] && r == api.Read(id)
    {
      calls := calls + [ReadCall(id)];
      r := api.Read(id);
    }

    /** `list()`, `listOutOfStockCount()`, `listPriceSummary()` or `listTotalWeightByProduct()`. */
    method Ask(query: Query) returns (r: Reply<Value>)
      modifies this
      ensures calls == old(calls) + [QueryCall(query)] && r == api.answer(query)
    {
      calls := calls + [QueryCall(query)];
      r := api.answer(query);
    }
  }

  // ----------------------------------------------------------------- resolver

  /**
   * `productExists`: one read by the route id; a hit stores the record in
   * `locals.product` and continues, a miss fails with 404 and leaves `res`
   * alone, a failed read rejects (and, unwrapped, is forwarded to nobody).
   */
  function ExistsEffect(api: ProductsApi, req: Request, x: Exchange, calls: seq<ProductCall>): (e: Effect<ProductCall>)
    ensures e.calls == calls + [ReadCall(req.routeId)]
    ensures api.readFault.Some? ==> e.outcome == Rejected(api.readFault.value) && e.exchange == x
    ensures api.readFault.None? && req.routeId in api.records ==>
      e.outcome == Continue && e.exchange == x.(locals := x.locals[ProductKey := api.records[req.routeId]])
    ensures api.readFault.None? && req.routeId !in api.records ==>
      e.outcome == Fail(Signal(404, ProductNotFound)) && e.exchange == x
  {
    var calls' := calls + [ReadCall(req.routeId)];
    match api.Read(req.routeId)
    case Failed(err) => Effect(Rejected(err), x, calls')
    case Resolved(found) =>
      if found.Some? then Effect(Continue, x.(locals := x.locals[ProductKey := found.value]), calls')
      else Effect(Fail(Signal(404, ProductNotFound)), x, calls')
  }

  method ProductExists(req: Request, res: Res, svc: ProductsService) returns (o: Outcome)
    modifies res, svc
    ensures Effect(o, res.View(), svc.calls) == ExistsEffect(svc.api, req, old(res.View()), old(svc.calls))
  {
    var reply := svc.Read(req.routeId);
    match reply {
      case Failed(err) =>
        o := Rejected(err);
      case Resolved(found) =>
        if found.Some? {
          res.locals := res.locals[ProductKey := found.value];
          o := Continue;
        } else {
          o := Fail(Signal(404, ProductNotFound));
        }
    }
  }

  // ----------------------------------------------------------------- handlers

  /** `const { product: data } = res.locals`: the resolved record, or `undefined`. */
  function ResolvedProduct(x: Exchange): (v: Value)
    ensures ProductKey in x.locals ==> v == Obj(x.locals[ProductKey])
    ensures ProductKey !in x.locals ==> v == Undefined
  {
    if ProductKey in x.locals then Obj(x.locals[ProductKey]) else Undefined
  }

  /**
   * `read`: answers `{ data }` with what the resolver left in `locals`;
   * it never calls the service and always responds.
   */
  function ReadEffect(x: Exchange, calls: seq<ProductCall>): (e: Effect<ProductCall>)
    ensures e.outcome.Responded? && e.outcome.body == Some(DataBody(ResolvedProduct(x)))
    ensures e.outcome.status == x.statusCode
    ensures e.exchange == x.(body := e.outcome.body, finished := true)
    ensures e.calls == calls
  {
    var body := Some(DataBody(ResolvedProduct(x)));
    Effect(Responded(x.statusCode, body), x.(body := body, finished := true), calls)
  }

  /** The read handler takes no service: it cannot look anything up. */
  method Read(res: Res) returns (o: Outcome)
    modifies res
    ensures Effect(o, res.View(), []) == ReadEffect(old(res.View()), [])
  {
    res.Json(DataBody(ResolvedProduct(res.View())));
    o := Responded(res.statusCode, res.body);
  }

  /** `list` and the aggregate handlers: one query, its result answered as `{ data }`. */
  function ListingEffect(query: Query, api: ProductsApi, x: Exchange, calls: seq<ProductCall>): (e: Effect<ProductCall>)
    ensures e.calls == calls + [QueryCall(query)]
    ensures api.answer(query).Resolved? ==>
      var body := Some(DataBody(api.answer(query).value));
      e.outcome == Responded(x.statusCode, body) && e.exchange == x.(body := body, finished := true)
    ensures api.answer(query).Failed? ==> e.outcome == Rejected(api.answer(query).error) && e.exchange == x
  {
    var calls' := calls + [QueryCall(query)];
    match api.answer(query)
    case Failed(err) => Effect(Rejected(err), x, calls')
    case Resolved(data) =>
      var body := Some(DataBody(data));
      Effect(Responded(x.statusCode, body), x.(body := body, finished := true), calls')
  }

  /** Awaits one query and answers `{ data }` with what it resolved with. */
  method RespondWith(query: Query, res: Res, svc: ProductsService) returns (o: Outcome)
    modifies res, svc
    ensures Effect(o, res.View(), svc.calls) == ListingEffect(query, svc.api, old(res.View()), old(svc.calls))
  {
    var reply := svc.Ask(query);
    match reply {
      case Failed(err) =>
        o := Rejected(err);
      case Resolved(data) =>
        res.Json(DataBody(data));
        o := Responded(res.statusCode, res.body);
    }
  }

  method List(res: Res, svc: ProductsService) returns (o: Outcome)
    modifies res, svc
    ensures Effect(o, res.View(), svc.calls) == ListingEffect(AllProducts, svc.api, old(res.View()), old(svc.calls))
  {
    o := RespondWith(AllProducts, res, svc);
  }

  method ListOutOfStockCount(res: Res, svc: ProductsService) returns (o: Outcome)
    modifies res, svc
    ensures Effect(o, res.View(), svc.calls) == ListingEffect(OutOfStockCount, svc.api, old(res.View()), old(svc.calls))
  {
    o := RespondWith(OutOfStockCount, res, svc);
  }

  method ListPriceSummary(res: Res, svc: ProductsService) returns (o: Outcome)
    modifies res, svc
    ensures Effect(o, res.View(), svc.calls) == ListingEffect(PriceSummary, svc.api, old(res.View()), old(svc.calls))
  {
    o := RespondWith(PriceSummary, res, svc);
  }

  method ListTotalWeightByProduct(res: Res, svc: ProductsService) returns (o: Outcome)
    modifies res, svc
    ensures Effect(o, res.View(), svc.calls) == ListingEffect(TotalWeightByProduct, svc.api, old(res.View()), old(svc.calls))
  {
    o := RespondWith(TotalWeightByProduct, res, svc);
  }
}
