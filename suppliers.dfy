/**
 * The suppliers controller: the allow-list validator, the required-fields
 * check, the existence resolver and the create, update and delete handlers.
 */
module Suppliers {
  import opened Wrappers
  import opened Json
  import opened Express

  /** The fields a supplier payload may carry. */
  const ValidProperties: seq<string> := [
    "supplier_name",
    "supplier_address_line_1",
    "supplier_address_line_2",
    "supplier_city",
    "supplier_state",
    "supplier_zip",
    "supplier_phone",
    "supplier_email",
    "supplier_notes",
    "supplier_type_of_goods"
  ]

  /** The fields `hasRequiredProperties` is built with. */
  const RequiredProperties: seq<string> := ["supplier_name", "supplier_email"]

  const InvalidFieldsPrefix := "Invalid field(s): "
  const SupplierNotFound := "Supplier cannot be found"

  /** The `locals` key the resolver writes and the handlers read. */
  const SupplierKey := "supplier"
  /** The identifier field of a supplier record. */
  const SupplierId := "supplier_id"

  /** `const { data = {} } = req.body`. */
  function Payload(req: Request): (f: Fields)
    ensures req.data.None? ==> f == []
    ensures req.data.Some? ==> f == req.data.value
  {
    req.data.GetOr([])
  }

  // ---------------------------------------------------------------- validators

  /**
   * The keys that are not allowed, in the order the payload lists them. An
   * object's keys are distinct, and for distinct keys the two clauses below
   * (the same elements, kept in order) leave exactly one possible result.
   */
  function InvalidFields(keys: seq<string>): (r: seq<string>)
    ensures forall k :: k in r <==> k in keys && k !in ValidProperties
    ensures Subsequence(r, keys)
  {
    if keys == [] then []
    else if keys[0] in ValidProperties then InvalidFields(keys[1..])
    else
      var r := [keys[0]] + InvalidFields(keys[1..]);
      assert r[1..] == InvalidFields(keys[1..]);
      r
  }

  /**
   * `hasOnlyValidProperties`: continues exactly when every key of the payload
   * is allowed; otherwise fails with 400 and the rejected keys joined by ", ".
   * It calls `next` on every path, so it never responds and never rejects.
   */
  function HasOnlyValidProperties(req: Request): (o: Outcome)
    ensures o.Continue? || o.Fail?
    ensures o.Continue? <==> forall k :: k in Keys(Payload(req)) ==> k in ValidProperties
    ensures o.Fail? ==> o.error == Signal(400, InvalidFieldsPrefix + Join(InvalidFields(Keys(Payload(req))), ", "))
  {
    var invalid := InvalidFields(Keys(Payload(req)));
    if |invalid| > 0 then
      assert invalid[0] in invalid;
      Fail(Signal(400, InvalidFieldsPrefix + Join(invalid, ", ")))
    else Continue
  }

  /** Two unknown fields are named in payload order after the allowed one is skipped. */
  lemma InvalidFieldsMessage()
    ensures HasOnlyValidProperties(Request("1", Some([("supplier_name", Str("Acme")), ("colour", Str("red")), ("size", Num(3))])))
         == Fail(Signal(400, "Invalid field(s): colour, size"))
  {
    var payload := [("supplier_name", Str("Acme")), ("colour", Str("red")), ("size", Num(3))];
    var req := Request("1", Some(payload));
    assert Payload(req) == payload;
    assert Keys(payload) == ["supplier_name", "colour", "size"];
    InvalidColourAndSize();
    JoinColourAndSize();
    assert InvalidFieldsPrefix + "colour, size" == "Invalid field(s): colour, size";
    assert HasOnlyValidProperties(req) == Fail(Signal(400, InvalidFieldsPrefix + "colour, size"));
  }

  lemma InvalidColourAndSize()
    ensures InvalidFields(["supplier_name", "colour", "size"]) == ["colour", "size"]
  {
    var keys := ["supplier_name", "colour", "size"];
    assert InvalidFields(["size"]) == ["size"] by {
      assert "size" !in ValidProperties;
    }
    assert InvalidFields(["colour", "size"]) == ["colour", "size"] by {
      assert "colour" !in ValidProperties;
      assert ["colour", "size"][1..] == ["size"];
    }
    assert "supplier_name" in ValidProperties;
    assert keys[1..] == ["colour", "size"];
  }

  lemma JoinColourAndSize()
    ensures Join(["colour", "size"], ", ") == "colour, size"
  {
    assert ["colour", "size"][1..] == ["size"];
  }

  /**
   * The verdict of `hasProperties(...names)` on a payload: None to continue,
   * or the error it passes to `next`. Its rules and messages are not part of
   * this model.
   */
  type RequiredCheck = (seq<string>, Option<Fields>) -> Option<Error>

  /** `hasRequiredProperties`: the abstract check applied to the supplier's required fields. */
  function HasRequiredProperties(check: RequiredCheck, req: Request): (o: Outcome)
    ensures o.Continue? || o.Fail?
    ensures o.Continue? <==> check(RequiredProperties, req.data).None?
    ensures o.Fail? ==> o.error == check(RequiredProperties, req.data).value
  {
    match check(RequiredProperties, req.data)
    case None => Continue
    case Some(err) => Fail(err)
  }

  // ------------------------------------------------------------------ service

  /**
   * What the suppliers service answers: `read` finds what `records` holds
   * unless the read fails; the other replies are left open.
   */
  datatype SuppliersApi = SuppliersApi(
    records: map<string, Fields>,
    readFault: Option<Error>,
    create: Option<Fields> -> Reply<Value>,
    update: Fields -> Reply<Value>,
    delete: Value -> Reply<Value>)
  {
    function Read(id: string): Reply<Option<Fields>> {
      if readFault.Some? then Failed(readFault.value)
      else Resolved(if id in records then Some(records[id]) else None)
    }
  }

  /** A call made into the suppliers service. */
  datatype SupplierCall =
    | ReadCall(id: string)
    | CreateCall(data: Option<Fields>)
    | UpdateCall(record: Fields)
    | DeleteCall(supplierId: Value)

  /** The suppliers service, with the log of the calls made into it. */
  class SuppliersService {
    const api: SuppliersApi
    var calls: seq<SupplierCall>

    constructor (api: SuppliersApi)
      ensures this.api == api && calls == []
    {
      this.api := api;
      calls := [];
    }

    method Read(id: string) returns (r: Reply<Option<Fields>>)
      modifies this
      ensures calls == old(calls) + [ReadCall(id)] && r == api.Read(id)
    {
      calls := calls + [ReadCall(id)];
      r := api.Read(id);
    }

    method Create(data: Option<Fields>) returns (r: Reply<Value>)
      modifies this
      ensures calls == old(calls) + [CreateCall(data)] && r == api.create(data)
    {
      calls := calls + [CreateCall(data)];
      r := api.create(data);
    }

    method Update(record: Fields) returns (r: Reply<Value>)
      modifies this
      ensures calls == old(calls) + [UpdateCall(record)] && r == api.update(record)
    {
      calls := calls + [UpdateCall(record)];
      r := api.update(record);
    }

    method Delete(supplierId: Value) returns (r: Reply<Value>)
      modifies this
      ensures calls == old(calls) + [DeleteCall(supplierId)] && r == api.delete(supplierId)
    {
      calls := calls + [DeleteCall(supplierId)];
      r := api.delete(supplierId);
    }
  }

  // ----------------------------------------------------------------- resolver

  /**
   * `supplierExists`: one read by the route id; a hit stores the record in
   * `locals.supplier` and continues, a miss fails with 404 and leaves `res`
   * alone, a failed read rejects.
   */
  function ExistsEffect(api: SuppliersApi, req: Request, x: Exchange, calls: seq<SupplierCall>): (e: Effect<SupplierCall>)
    ensures e.calls == calls + [ReadCall(req.routeId)]
    ensures api.readFault.Some? ==> e.outcome == Rejected(api.readFault.value) && e.exchange == x
    ensures api.readFault.None? && req.routeId in api.records ==>
      e.outcome == Continue && e.exchange == x.(locals := x.locals[SupplierKey := api.records[req.routeId]])
    ensures api.readFault.None? && req.routeId !in api.records ==>
      e.outcome == Fail(Signal(404, SupplierNotFound)) && e.exchange == x
  {
    var calls' := calls + [ReadCall(req.routeId)];
    match api.Read(req.routeId)
    case Failed(err) => Effect(Rejected(err), x, calls')
    case Resolved(found) =>
      if found.Some? then Effect(Continue, x.(locals := x.locals[SupplierKey := found.value]), calls')
      else Effect(Fail(Signal(404, SupplierNotFound)), x, calls')
  }

  method SupplierExists(req: Request, res: Res, svc: SuppliersService) returns (o: Outcome)
    modifies res, svc
    ensures Effect(o, res.View(), svc.calls) == ExistsEffect(svc.api, req, old(res.View()), old(svc.calls))
  {
    var reply := svc.Read(req.routeId);
    match reply {
      case Failed(err) =>
        o := Rejected(err);
      case Resolved(found) =>
        if found.Some? {
          res.locals := res.locals[SupplierKey := found.value];
          o := Continue;
        } else {
          o := Fail(Signal(404, SupplierNotFound));
        }
    }
  }

  // ----------------------------------------------------------------- handlers

  /** `create`: hands the payload to the service as it came and answers 201 with the created record. */
  function CreateEffect(api: SuppliersApi, req: Request, x: Exchange, calls: seq<SupplierCall>): (e: Effect<SupplierCall>)
    ensures e.calls == calls + [CreateCall(req.data)]
    ensures api.create(req.data).Resolved? ==>
      var body := Some(DataBody(api.create(req.data).value));
      e.outcome == Responded(201, body) && e.exchange == x.(statusCode := 201, body := body, finished := true)
    ensures api.create(req.data).Failed? ==> e.outcome == Rejected(api.create(req.data).error) && e.exchange == x
  {
    var calls' := calls + [CreateCall(req.data)];
    match api.create(req.data)
    case Failed(err) => Effect(Rejected(err), x, calls')
    case Resolved(created) =>
      var body := Some(DataBody(created));
      Effect(Responded(201, body), x.(statusCode := 201, body := body, finished := true), calls')
  }

  method Create(req: Request, res: Res, svc: SuppliersService) returns (o: Outcome)
    modifies res, svc
    ensures Effect(o, res.View(), svc.calls) == CreateEffect(svc.api, req, old(res.View()), old(svc.calls))
  {
    var reply := svc.Create(req.data);
    match reply {
      case Failed(err) =>
        o := Rejected(err);
      case Resolved(created) =>
        res.Status(201);
        res.Json(DataBody(created));
        o := Responded(res.statusCode, res.body);
    }
  }

  /**
   * `{ ...req.body.data, supplier_id: supplier.supplier_id }`: the resolved
   * supplier's identifier always wins, every other key keeps its payload value.
   */
  function UpdatedSupplier(data: Option<Fields>, supplier: Fields): (r: Fields)
    ensures Lookup(r, SupplierId) == Lookup(supplier, SupplierId)
    ensures forall k :: k != SupplierId ==> Lookup(r, k) == Lookup(data.GetOr([]), k)
    ensures Keys(r) == if SupplierId in Keys(data.GetOr([])) then Keys(data.GetOr([])) else Keys(data.GetOr([])) + [SupplierId]
    ensures DistinctKeys(data.GetOr([])) ==> DistinctKeys(r)
  {
    PutKeepsKeysDistinct(data.GetOr([]), SupplierId, Lookup(supplier, SupplierId));
    Put(data.GetOr([]), SupplierId, Lookup(supplier, SupplierId))
  }

  /**
   * `supplier_id` is not an allowed field, so a payload that passes the
   * allow-list never carries one and the merge adds it as the last key.
   */
  lemma AllowedPayloadGainsId(req: Request, supplier: Fields)
    requires HasOnlyValidProperties(req).Continue?
    ensures SupplierId !in Keys(Payload(req))
    ensures Keys(UpdatedSupplier(req.data, supplier)) == Keys(Payload(req)) + [SupplierId]
  {
    assert SupplierId !in ValidProperties;
  }

  /**
   * The handler alone: a payload naming another `supplier_id` cannot move the
   * update to another supplier. On the route the allow-list rejects such a
   * payload before the merge runs.
   */
  lemma UpdatedSupplierKeepsStoredId()
    ensures
      var r := UpdatedSupplier(Some([("supplier_name", Str("B")), ("supplier_id", Num(999))]),
                               [("supplier_id", Num(7)), ("supplier_name", Str("A"))]);
      r == [("supplier_name", Str("B")), ("supplier_id", Num(7))]
  {
  }

  /**
   * `update`: sends the merge of the payload and the resolved supplier's id
   * and answers with the updated record; without a resolved supplier the
   * property access throws before the service is called.
   */
  function UpdateEffect(api: SuppliersApi, req: Request, x: Exchange, calls: seq<SupplierCall>): (e: Effect<SupplierCall>)
    ensures SupplierKey !in x.locals ==> e == Effect(Rejected(Thrown("TypeError")), x, calls)
    ensures SupplierKey in x.locals ==>
      var record := UpdatedSupplier(req.data, x.locals[SupplierKey]);
      && e.calls == calls + [UpdateCall(record)]
      && (api.update(record).Resolved? ==>
            var body := Some(DataBody(api.update(record).value));
            e.outcome == Responded(x.statusCode, body) && e.exchange == x.(body := body, finished := true))
      && (api.update(record).Failed? ==> e.outcome == Rejected(api.update(record).error) && e.exchange == x)
  {
    if SupplierKey !in x.locals then Effect(Rejected(Thrown("TypeError")), x, calls)
    else
      var record := UpdatedSupplier(req.data, x.locals[SupplierKey]);
      var calls' := calls + [UpdateCall(record)];
      match api.update(record)
      case Failed(err) => Effect(Rejected(err), x, calls')
      case Resolved(updated) =>
        var body := Some(DataBody(updated));
        Effect(Responded(x.statusCode, body), x.(body := body, finished := true), calls')
  }

  method Update(req: Request, res: Res, svc: SuppliersService) returns (o: Outcome)
    modifies res, svc
    ensures Effect(o, res.View(), svc.calls) == UpdateEffect(svc.api, req, old(res.View()), old(svc.calls))
  {
    if SupplierKey !in res.locals {
      o := Rejected(Thrown("TypeError"));
      return;
    }
    var record := UpdatedSupplier(req.data, res.locals[SupplierKey]);
    var reply := svc.Update(record);
    match reply {
      case Failed(err) =>
        o := Rejected(err);
      case Resolved(updated) =>
        res.Json(DataBody(updated));
        o := Responded(res.statusCode, res.body);
    }
  }

  /**
   * `destroy`: deletes by the resolved supplier's `supplier_id` and answers
   * 204 with no body, whatever the service resolved with.
   */
  function DestroyEffect(api: SuppliersApi, x: Exchange, calls: seq<SupplierCall>): (e: Effect<SupplierCall>)
    ensures SupplierKey !in x.locals ==> e == Effect(Rejected(Thrown("TypeError")), x, calls)
    ensures SupplierKey in x.locals ==>
      var id := Lookup(x.locals[SupplierKey], SupplierId);
      && e.calls == calls + [DeleteCall(id)]
      && (api.delete(id).Resolved? ==>
            e.outcome == Responded(204, None) && e.exchange == x.(statusCode := 204, body := None, finished := true))
      && (api.delete(id).Failed? ==> e.outcome == Rejected(api.delete(id).error) && e.exchange == x)
  {
    if SupplierKey !in x.locals then Effect(Rejected(Thrown("TypeError")), x, calls)
    else
      var id := Lookup(x.locals[SupplierKey], SupplierId);
      var calls' := calls + [DeleteCall(id)];
      match api.delete(id)
      case Failed(err) => Effect(Rejected(err), x, calls')
      case Resolved(_) => Effect(Responded(204, None), x.(statusCode := 204, body := None, finished := true), calls')
  }

  method Destroy(res: Res, svc: SuppliersService) returns (o: Outcome)
    modifies res, svc
    ensures Effect(o, res.View(), svc.calls) == DestroyEffect(svc.api, old(res.View()), old(svc.calls))
  {
    if SupplierKey !in res.locals {
      o := Rejected(Thrown("TypeError"));
      return;
    }
    var supplier := res.locals[SupplierKey];
    var reply := svc.Delete(Lookup(supplier, SupplierId));
    match reply {
      case Failed(err) =>
        o := Rejected(err);
      case Resolved(_) =>
        res.SendStatus(204);
        o := Responded(res.statusCode, res.body);
    }
  }
}
