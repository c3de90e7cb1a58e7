/**
 * The middleware chain: the stages the controllers export, the executor
 * that runs a route's stages left to right until one does not continue,
 * and what each exported route does as a whole.
 */
module Pipeline {
  import opened Wrappers
  import opened Json
  import opened Express
  import Suppliers
  import Products

  /** Every middleware function the two controllers define. */
  datatype Action =
    | HasOnlyValidProperties
    | HasRequiredProperties
    | SupplierExists
    | CreateSupplier
    | UpdateSupplier
    | DestroySupplier
    | ProductExists
    | ReadProduct
    | ListProducts
    | ListOutOfStockCount
    | ListPriceSummary
    | ListTotalWeightByProduct

  /** A stage of a route: a middleware function, bare or wrapped by `asyncErrorBoundary`. */
  datatype Stage = Plain(action: Action) | Guarded(action: Action)

  /** What stays fixed during one request: the request, the services' answers, the required-fields check. */
  datatype Env = Env(
    req: Request,
    suppliers: Suppliers.SuppliersApi,
    products: Products.ProductsApi,
    hasProperties: Suppliers.RequiredCheck)

  /** What one request changes: its response object and the calls made into each service. */
  datatype World = World(
    exchange: Exchange,
    supplierCalls: seq<Suppliers.SupplierCall>,
    productCalls: seq<Products.ProductCall>)

  function OnSuppliers(e: Effect<Suppliers.SupplierCall>, w: World): (Outcome, World) {
    (e.outcome, w.(exchange := e.exchange, supplierCalls := e.calls))
  }

  function OnProducts(e: Effect<Products.ProductCall>, w: World): (Outcome, World) {
    (e.outcome, w.(exchange := e.exchange, productCalls := e.calls))
  }

  /** A stage that never awaits anything, and so can never reject. */
  predicate Synchronous(a: Action) {
    a.HasOnlyValidProperties? || a.HasRequiredProperties? || a.ReadProduct?
  }

  /**
   * What one middleware function does. Service logs only grow; the two field
   * validators change nothing; a synchronous function never rejects; a
   * resolver writes no `locals` key but its own.
   */
  function Perform(a: Action, env: Env, w: World): (r: (Outcome, World))
    ensures w.supplierCalls <= r.1.supplierCalls && w.productCalls <= r.1.productCalls
    ensures a.HasOnlyValidProperties? || a.HasRequiredProperties? ==> r.1 == w
    ensures Synchronous(a) ==> !r.0.Rejected?
    ensures a.SupplierExists? ==> r.1.exchange.locals.Keys <= w.exchange.locals.Keys + {Suppliers.SupplierKey}
    ensures a.ProductExists? ==> r.1.exchange.locals.Keys <= w.exchange.locals.Keys + {Products.ProductKey}
  {
    match a
    case HasOnlyValidProperties => (Suppliers.HasOnlyValidProperties(env.req), w)
    case HasRequiredProperties => (Suppliers.HasRequiredProperties(env.hasProperties, env.req), w)
    case SupplierExists => OnSuppliers(Suppliers.ExistsEffect(env.suppliers, env.req, w.exchange, w.supplierCalls), w)
    case CreateSupplier => OnSuppliers(Suppliers.CreateEffect(env.suppliers, env.req, w.exchange, w.supplierCalls), w)
    case UpdateSupplier => OnSuppliers(Suppliers.UpdateEffect(env.suppliers, env.req, w.exchange, w.supplierCalls), w)
    case DestroySupplier => OnSuppliers(Suppliers.DestroyEffect(env.suppliers, w.exchange, w.supplierCalls), w)
    case ProductExists => OnProducts(Products.ExistsEffect(env.products, env.req, w.exchange, w.productCalls), w)
    case ReadProduct => OnProducts(Products.ReadEffect(w.exchange, w.productCalls), w)
    case ListProducts => OnProducts(Products.ListingEffect(Products.AllProducts, env.products, w.exchange, w.productCalls), w)
    case ListOutOfStockCount => OnProducts(Products.ListingEffect(Products.OutOfStockCount, env.products, w.exchange, w.productCalls), w)
    case ListPriceSummary => OnProducts(Products.ListingEffect(Products.PriceSummary, env.products, w.exchange, w.productCalls), w)
    case ListTotalWeightByProduct => OnProducts(Products.ListingEffect(Products.TotalWeightByProduct, env.products, w.exchange, w.productCalls), w)
  }

  /**
   * One stage: the function, and the boundary around it when there is one.
   * A wrapped stage never rejects; it changes the world as its function does.
   */
  function Step(s: Stage, env: Env, w: World): (r: (Outcome, World))
    ensures s.Guarded? || Synchronous(s.action) ==> !r.0.Rejected?
    ensures r.1 == Perform(s.action, env, w).1
  {
    var (o, w') := Perform(s.action, env, w);
    (if s.Guarded? then Boundary(o) else o, w')
  }

  /**
   * Runs the stages left to right and stops at the first outcome that is not
   * Continue. Service calls are only ever appended, and a chain whose async
   * stages are all wrapped never ends in an unforwarded rejection.
   */
  function Execute(chain: seq<Stage>, env: Env, w: World): (r: (Outcome, World))
    ensures w.supplierCalls <= r.1.supplierCalls && w.productCalls <= r.1.productCalls
    ensures (forall i :: 0 <= i < |chain| ==> chain[i].Guarded? || Synchronous(chain[i].action)) ==> !r.0.Rejected?
    decreases |chain|
  {
    if chain == [] then (Continue, w)
    else
      var (o, w') := Step(chain[0], env, w);
      if o.Continue? then Execute(chain[1..], env, w') else (o, w')
  }

  // ---------------------------------------------------------------- executor

  function Snapshot(res: Res, suppliers: Suppliers.SuppliersService, products: Products.ProductsService): World
    reads res, suppliers, products
  {
    World(res.View(), suppliers.calls, products.calls)
  }

  /**
   * The router's walk over a route's stages: each stage runs on the shared
   * `res` and services, and the walk ends at the first stage that does not
   * call `next()`.
   */
  method Run(chain: seq<Stage>, req: Request, check: Suppliers.RequiredCheck, res: Res,
             suppliers: Suppliers.SuppliersService, products: Products.ProductsService)
    returns (o: Outcome)
    modifies res, suppliers, products
    ensures (o, Snapshot(res, suppliers, products))
         == Execute(chain, Env(req, suppliers.api, products.api, check), old(Snapshot(res, suppliers, products)))
  {
    var env := Env(req, suppliers.api, products.api, check);
    o := Continue;
    var i := 0;
    while i < |chain| && o.Continue?
      invariant 0 <= i <= |chain|
      invariant Execute(chain, env, old(Snapshot(res, suppliers, products)))
             == if o.Continue? then Execute(chain[i..], env, Snapshot(res, suppliers, products))
                else (o, Snapshot(res, suppliers, products))
    {
      ghost var before := Snapshot(res, suppliers, products);
      var stage := chain[i];
      var r: Outcome;
      match stage.action {
        case HasOnlyValidProperties => r := Suppliers.HasOnlyValidProperties(req);
        case HasRequiredProperties => r := Suppliers.HasRequiredProperties(check, req);
        case SupplierExists => r := Suppliers.SupplierExists(req, res, suppliers);
        case CreateSupplier => r := Suppliers.Create(req, res, suppliers);
        case UpdateSupplier => r := Suppliers.Update(req, res, suppliers);
        case DestroySupplier => r := Suppliers.Destroy(res, suppliers);
        case ProductExists => r := Products.ProductExists(req, res, products);
        case ReadProduct => r := Products.Read(res);
        case ListProducts => r := Products.List(res, products);
        case ListOutOfStockCount => r := Products.ListOutOfStockCount(res, products);
        case ListPriceSummary => r := Products.ListPriceSummary(res, products);
        case ListTotalWeightByProduct => r := Products.ListTotalWeightByProduct(res, products);
      }
      if stage.Guarded? {
        r := Boundary(r);
      }
      assert (r, Snapshot(res, suppliers, products)) == Step(stage, env, before);
      assert chain[i..][0] == stage && chain[i..][1..] == chain[i + 1..];
      o := r;
      i := i + 1;
    }
  }

  // ------------------------------------------------------- executor properties

  /**
   * Running two chains one after the other is running their concatenation;
   * in particular, nothing after a stage that does not continue ever runs.
   */
  lemma {:induction false} ExecuteAppend(a: seq<Stage>, b: seq<Stage>, env: Env, w: World)
    ensures Execute(a + b, env, w)
         == (var (o, w') := Execute(a, env, w); if o.Continue? then Execute(b, env, w') else (o, w'))
  {
    if a == [] {
      assert a + b == b;
    } else {
      assert (a + b)[0] == a[0] && (a + b)[1..] == a[1..] + b;
      var (o, w') := Step(a[0], env, w);
      if o.Continue? {
        ExecuteAppend(a[1..], b, env, w');
      }
    }
  }

  lemma PerformFinishesOnlyWhenResponding(a: Action, env: Env, w: World)
    requires !w.exchange.finished
    ensures Perform(a, env, w).1.exchange.finished <==> Perform(a, env, w).0.Responded?
  {
  }

  /**
   * A request that has not been answered yet is answered by a chain exactly
   * when the chain ends in Responded: no guard writes a response, and no
   * stage runs after one has.
   */
  lemma {:induction false} FinishedIffResponded(chain: seq<Stage>, env: Env, w: World)
    requires !w.exchange.finished
    ensures Execute(chain, env, w).1.exchange.finished <==> Execute(chain, env, w).0.Responded?
  {
    if chain != [] {
      PerformFinishesOnlyWhenResponding(chain[0].action, env, w);
      var (o, w') := Step(chain[0], env, w);
      if o.Continue? {
        FinishedIffResponded(chain[1..], env, w');
      }
    }
  }

  // ------------------------------------------------------------ the routes

  /** `suppliers.create`. */
  const SuppliersCreate: seq<Stage> :=
    [Plain(HasOnlyValidProperties), Plain(HasRequiredProperties), Guarded(CreateSupplier)]

  /** `suppliers.update`. */
  const SuppliersUpdate: seq<Stage> :=
    [Guarded(SupplierExists), Plain(HasOnlyValidProperties), Plain(HasRequiredProperties), Guarded(UpdateSupplier)]

  /** `suppliers.delete`. */
  const SuppliersDelete: seq<Stage> := [Guarded(SupplierExists), Guarded(DestroySupplier)]

  /** `products.read`. */
  const ProductsRead: seq<Stage> := [Plain(ProductExists), Plain(ReadProduct)]

  /** `products.list` and the three aggregate routes, by the query they run. */
  function ProductsListing(q: Products.Query): (chain: seq<Stage>)
    ensures |chain| == 1
    ensures chain[0].Guarded? <==> !q.AllProducts?
  {
    match q
    case AllProducts => [Plain(ListProducts)]
    case OutOfStockCount => [Guarded(ListOutOfStockCount)]
    case PriceSummary => [Guarded(ListPriceSummary)]
    case TotalWeightByProduct => [Guarded(ListTotalWeightByProduct)]
  }

  // -------------------------------------------------------- route properties

  /**
   * `suppliers.create`: the service's create runs exactly when both validators
   * continue, with the payload as it came, and a resolved create answers 201
   * with `{ data: created }`; a failed create reaches the error channel.
   */
  lemma SuppliersCreateRoute(env: Env, w: World)
    ensures
      var (o, w') := Execute(SuppliersCreate, env, w);
      var valid := Suppliers.HasOnlyValidProperties(env.req);
      var required := Suppliers.HasRequiredProperties(env.hasProperties, env.req);
      var reply := env.suppliers.create(env.req.data);
      && (w'.supplierCalls != w.supplierCalls <==> valid.Continue? && required.Continue?)
      && (!valid.Continue? ==> o == valid && w' == w)
      && (valid.Continue? && !required.Continue? ==> o == required && w' == w)
      && (valid.Continue? && required.Continue? ==>
            && w'.supplierCalls == w.supplierCalls + [Suppliers.CreateCall(env.req.data)]
            && w'.productCalls == w.productCalls
            && w'.exchange.locals == w.exchange.locals
            && (reply.Resolved? ==> o == Responded(201, Some(DataBody(reply.value))))
            && (reply.Failed? ==> o == Fail(reply.error) && w'.exchange == w.exchange))
  {
    assert SuppliersCreate[1..] == [Plain(HasRequiredProperties), Guarded(CreateSupplier)];
    assert SuppliersCreate[1..][1..] == [Guarded(CreateSupplier)];
  }

  /**
   * `suppliers.update`: the existence check comes first, so an unknown id
   * fails with 404 whatever the body holds; for a known id the service
   * receives the payload merged with the stored `supplier_id`.
   */
  lemma SuppliersUpdateRoute(env: Env, w: World)
    ensures
      var (o, w') := Execute(SuppliersUpdate, env, w);
      var id := env.req.routeId;
      var valid := Suppliers.HasOnlyValidProperties(env.req);
      var required := Suppliers.HasRequiredProperties(env.hasProperties, env.req);
      && w'.productCalls == w.productCalls
      && (env.suppliers.readFault.Some? ==>
            o == Fail(env.suppliers.readFault.value) && w' == w.(supplierCalls := w.supplierCalls + [Suppliers.ReadCall(id)]))
      && (env.suppliers.readFault.None? && id !in env.suppliers.records ==>
            o == Fail(Signal(404, Suppliers.SupplierNotFound))
            && w' == w.(supplierCalls := w.supplierCalls + [Suppliers.ReadCall(id)]))
      && (env.suppliers.readFault.None? && id in env.suppliers.records ==>
            var stored := env.suppliers.records[id];
            var x := w.exchange.(locals := w.exchange.locals[Suppliers.SupplierKey := stored]);
            var record := Suppliers.UpdatedSupplier(env.req.data, stored);
            var reply := env.suppliers.update(record);
            && (!valid.Continue? ==>
                  o == valid && w' == World(x, w.supplierCalls + [Suppliers.ReadCall(id)], w.productCalls))
            && (valid.Continue? && !required.Continue? ==>
                  o == required && w' == World(x, w.supplierCalls + [Suppliers.ReadCall(id)], w.productCalls))
            && (valid.Continue? && required.Continue? ==>
                  && w'.supplierCalls == w.supplierCalls + [Suppliers.ReadCall(id), Suppliers.UpdateCall(record)]
                  && Suppliers.SupplierId !in Keys(Suppliers.Payload(env.req))
                  && Keys(record) == Keys(Suppliers.Payload(env.req)) + [Suppliers.SupplierId]
                  && Lookup(record, Suppliers.SupplierId) == Lookup(stored, Suppliers.SupplierId)
                  && (reply.Resolved? ==> o == Responded(w.exchange.statusCode, Some(DataBody(reply.value))))
                  && (reply.Failed? ==> o == Fail(reply.error) && w'.exchange == x)))
  {
    var rest := SuppliersUpdate[1..];
    assert SuppliersUpdate == [Guarded(SupplierExists)] + rest;
    ExecuteAppend([Guarded(SupplierExists)], rest, env, w);
    UpdateExistsStage(env, w);
    var id := env.req.routeId;
    if env.suppliers.readFault.None? && id in env.suppliers.records {
      var stored := env.suppliers.records[id];
      var x := w.exchange.(locals := w.exchange.locals[Suppliers.SupplierKey := stored]);
      UpdateAfterExists(env, World(x, w.supplierCalls + [Suppliers.ReadCall(id)], w.productCalls));
    }
  }

  /** The wrapped `supplierExists` that opens `suppliers.update` and `suppliers.delete`. */
  lemma UpdateExistsStage(env: Env, w: World)
    ensures
      var (o, w') := Execute([Guarded(SupplierExists)], env, w);
      var id := env.req.routeId;
      var w1 := w.(supplierCalls := w.supplierCalls + [Suppliers.ReadCall(id)]);
      && (env.suppliers.readFault.Some? ==> o == Fail(env.suppliers.readFault.value) && w' == w1)
      && (env.suppliers.readFault.None? && id !in env.suppliers.records ==>
            o == Fail(Signal(404, Suppliers.SupplierNotFound)) && w' == w1)
      && (env.suppliers.readFault.None? && id in env.suppliers.records ==>
            o == Continue
            && w' == w1.(exchange := w.exchange.(locals := w.exchange.locals[Suppliers.SupplierKey := env.suppliers.records[id]])))
  {
    assert [Guarded(SupplierExists)][1..] == [];
  }

  /** The three stages of `suppliers.update` that run once the supplier was found. */
  lemma UpdateAfterExists(env: Env, w: World)
    requires Suppliers.SupplierKey in w.exchange.locals
    ensures
      var (o, w') := Execute(SuppliersUpdate[1..], env, w);
      var valid := Suppliers.HasOnlyValidProperties(env.req);
      var required := Suppliers.HasRequiredProperties(env.hasProperties, env.req);
      var record := Suppliers.UpdatedSupplier(env.req.data, w.exchange.locals[Suppliers.SupplierKey]);
      var reply := env.suppliers.update(record);
      && (!valid.Continue? ==> o == valid && w' == w)
      && (valid.Continue? && !required.Continue? ==> o == required && w' == w)
      && (valid.Continue? && required.Continue? ==>
            && w'.productCalls == w.productCalls
            && w'.supplierCalls == w.supplierCalls + [Suppliers.UpdateCall(record)]
            && Suppliers.SupplierId !in Keys(Suppliers.Payload(env.req))
            && Keys(record) == Keys(Suppliers.Payload(env.req)) + [Suppliers.SupplierId]
            && (reply.Resolved? ==> o == Responded(w.exchange.statusCode, Some(DataBody(reply.value))))
            && (reply.Failed? ==> o == Fail(reply.error) && w'.exchange == w.exchange))
  {
    var rest := SuppliersUpdate[1..];
    assert rest == [Plain(HasOnlyValidProperties)] + rest[1..];
    assert rest[1..] == [Plain(HasRequiredProperties), Guarded(UpdateSupplier)];
    assert rest[1..][1..] == [Guarded(UpdateSupplier)];
    var valid := Suppliers.HasOnlyValidProperties(env.req);
    var required := Suppliers.HasRequiredProperties(env.hasProperties, env.req);
    assert Execute(rest, env, w) == if valid.Continue? then Execute(rest[1..], env, w) else (valid, w);
    if valid.Continue? {
      assert Execute(rest[1..], env, w) == if required.Continue? then Execute(rest[1..][1..], env, w) else (required, w);
      Suppliers.AllowedPayloadGainsId(env.req, w.exchange.locals[Suppliers.SupplierKey]);
    }
  }

  /** An unknown supplier id is reported even when the body also holds fields that are not allowed. */
  lemma UpdateChecksExistenceBeforeFields(env: Env, w: World)
    requires env.suppliers.readFault.None? && env.req.routeId !in env.suppliers.records
    requires Suppliers.HasOnlyValidProperties(env.req).Fail?
    ensures Execute(SuppliersUpdate, env, w).0 == Fail(Signal(404, Suppliers.SupplierNotFound))
  {
    SuppliersUpdateRoute(env, w);
  }

  /**
   * `suppliers.delete`: deletes by the stored record's `supplier_id` and, once
   * the delete resolves, answers 204 with no body whatever it resolved with.
   */
  lemma SuppliersDeleteRoute(env: Env, w: World)
    ensures
      var (o, w') := Execute(SuppliersDelete, env, w);
      var id := env.req.routeId;
      && w'.productCalls == w.productCalls
      && (env.suppliers.readFault.Some? ==>
            o == Fail(env.suppliers.readFault.value) && w' == w.(supplierCalls := w.supplierCalls + [Suppliers.ReadCall(id)]))
      && (env.suppliers.readFault.None? && id !in env.suppliers.records ==>
            o == Fail(Signal(404, Suppliers.SupplierNotFound))
            && w' == w.(supplierCalls := w.supplierCalls + [Suppliers.ReadCall(id)]))
      && (env.suppliers.readFault.None? && id in env.suppliers.records ==>
            var stored := env.suppliers.records[id];
            var supplierId := Lookup(stored, Suppliers.SupplierId);
            var reply := env.suppliers.delete(supplierId);
            && w'.supplierCalls == w.supplierCalls + [Suppliers.ReadCall(id), Suppliers.DeleteCall(supplierId)]
            && w'.exchange.locals == w.exchange.locals[Suppliers.SupplierKey := stored]
            && (reply.Resolved? ==> o == Responded(204, None) && w'.exchange.body == None)
            && (reply.Failed? ==> o == Fail(reply.error)))
  {
    assert SuppliersDelete[1..] == [Guarded(DestroySupplier)];
  }

  /**
   * `products.read`: the handler answers with the record the resolver put in
   * `locals`, which is what the store holds for the id, and the service is read
   * once; an unknown id fails with 404 and nothing is answered. A failed read
   * is not wrapped, so it stays a rejection.
   */
  lemma ProductsReadRoute(env: Env, w: World)
    ensures
      var (o, w') := Execute(ProductsRead, env, w);
      var id := env.req.routeId;
      && w'.supplierCalls == w.supplierCalls
      && w'.productCalls == w.productCalls + [Products.ReadCall(id)]
      && (env.products.readFault.Some? ==> o == Rejected(env.products.readFault.value) && w'.exchange == w.exchange)
      && (env.products.readFault.None? && id !in env.products.records ==>
            o == Fail(Signal(404, Products.ProductNotFound)) && w'.exchange == w.exchange)
      && (env.products.readFault.None? && id in env.products.records ==>
            var stored := env.products.records[id];
            && w'.exchange.locals == w.exchange.locals[Products.ProductKey := stored]
            && o == Responded(w.exchange.statusCode, Some(DataBody(Obj(stored))))
            && w'.exchange.finished)
  {
    assert ProductsRead[1..] == [Plain(ReadProduct)];
  }

  /**
   * `products.list` and the aggregate routes: one query, answered as
   * `{ data }`. Only the aggregates are wrapped, so only their failures reach
   * the error channel.
   */
  lemma ProductsListingRoute(q: Products.Query, env: Env, w: World)
    ensures
      var (o, w') := Execute(ProductsListing(q), env, w);
      var reply := env.products.answer(q);
      && w'.supplierCalls == w.supplierCalls
      && w'.productCalls == w.productCalls + [Products.QueryCall(q)]
      && w'.exchange.locals == w.exchange.locals
      && (reply.Resolved? ==> o == Responded(w.exchange.statusCode, Some(DataBody(reply.value))))
      && (reply.Failed? ==> o == if q.AllProducts? then Rejected(reply.error) else Fail(reply.error))
  {
  }
}
