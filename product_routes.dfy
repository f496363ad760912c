/**
  The product and usage-log handlers (server/routes/productRoutes.js) over
  the `Products` and `UsageLogs` tables. Every product query is scoped by
  `where: { id, userId }` with the caller's id from the token, and a usage
  log is reached only through a product the caller owns.
*/
module ProductRoutes {
  import opened Common
  import opened AuthMiddleware
  import Tables

  /** A row of `Products` (server/models/Product.js); the column `type` is named `productType` here. */
  datatype Product = Product(
    userId: int,
    name: string,
    productType: Option<string>,
    frequency: Option<string>,
    startDate: Option<Day>,
    stopDate: Option<Day>)

  /** The keys POST /product destructures from the body; `endDate` is not a column of `Products`. */
  datatype ProductBody = ProductBody(
    name: Option<string>,
    productType: Option<string>,
    frequency: Option<string>,
    startDate: Option<Day>,
    endDate: Option<Day>)

  /**
    A body merged by PUT /product/:id: every column key it carries,
    `userId` included, absent, null or with a value; keys that are not
    columns are dropped before the update and so do not appear.
  */
  datatype ProductPatch = ProductPatch(
    userId: Field<int>,
    name: Field<string>,
    productType: Field<string>,
    frequency: Field<string>,
    startDate: Field<Day>,
    stopDate: Field<Day>)
  {
    /** The body sets a NOT NULL column (`name`, `userId`) to null, which validation refuses. */
    predicate NullsRequired() {
      userId.Null? || name.Null?
    }

    /** The body carries no column key, so `update` has only `updatedAt` to write. */
    predicate SetsNothing() {
      && userId.Absent? && name.Absent? && productType.Absent?
      && frequency.Absent? && startDate.Absent? && stopDate.Absent?
    }
  }

  /** A row of `UsageLogs` (server/models/UsageLog.js). */
  datatype UsageLog = UsageLog(
    productId: int,
    dateUsed: Day,
    notes: Option<string>,
    sideEffects: Option<string>)

  /** The keys the usage-log handlers read from the body. */
  datatype LogBody = LogBody(
    notes: Field<string>,
    dateUsed: Field<Day>,
    sideEffects: Field<string>)

  /**
    `product` after `update(patch)`: each key the patch carries overwrites
    its column, a null clearing it; a null for a NOT NULL column fails
    validation and there is no updated row.
  */
  function MergeProduct(product: Product, patch: ProductPatch): (r: Option<Product>)
    ensures r.None? <==> patch.NullsRequired()
  {
    if patch.NullsRequired() then None
    else Some(Product(
      patch.userId.ApplyToRequired(product.userId),
      patch.name.ApplyToRequired(product.name),
      patch.productType.ApplyTo(product.productType),
      patch.frequency.ApplyTo(product.frequency),
      patch.startDate.ApplyTo(product.startDate),
      patch.stopDate.ApplyTo(product.stopDate)))
  }

  /**
    `log` after `log.update({ notes, dateUsed, sideEffects })`: undefined
    values are omitted, null clears notes or sideEffects, and a null
    dateUsed fails validation, leaving no updated row.
  */
  function MergeLog(log: UsageLog, body: LogBody): (r: Option<UsageLog>)
    ensures r.None? <==> body.dateUsed.Null?
  {
    if body.dateUsed.Null? then None
    else Some(UsageLog(
      log.productId,
      body.dateUsed.ApplyToRequired(log.dateUsed),
      body.notes.ApplyTo(log.notes),
      body.sideEffects.ApplyTo(log.sideEffects)))
  }

  /** A PUT is idempotent: sending the same body twice leaves the row as sending it once. */
  lemma MergeProductIdempotent(product: Product, patch: ProductPatch)
    requires !patch.NullsRequired()
    ensures MergeProduct(MergeProduct(product, patch).value, patch) == MergeProduct(product, patch)
  {
  }

  /** A body that carries no column changes nothing. */
  lemma MergeProductEmpty(product: Product)
    ensures MergeProduct(product, ProductPatch(Absent, Absent, Absent, Absent, Absent, Absent)) == Some(product)
  {
  }

  /** A body may carry `userId`, so a PUT by the owner can hand the product to another user. */
  lemma MergeProductCanChangeOwner(product: Product, other: int)
    ensures MergeProduct(product, ProductPatch(Value(other), Absent, Absent, Absent, Absent, Absent)).value.userId == other
  {
  }

  /**
    Null dates clear the columns, as when the edit screen sends
    `startDate || null` and `stopDate || null` for empty fields; the other
    columns follow the body as usual.
  */
  lemma MergeProductNullDatesClear(product: Product, patch: ProductPatch)
    requires !patch.NullsRequired()
    requires patch.startDate.Null? && patch.stopDate.Null?
    ensures MergeProduct(product, patch).value.startDate.None?
    ensures MergeProduct(product, patch).value.stopDate.None?
  {
  }

  /** A usage-log update never moves the log to another product, and an empty body changes nothing. */
  lemma MergeLogKeepsProduct(log: UsageLog, body: LogBody)
    ensures MergeLog(log, body).Some? ==> MergeLog(log, body).value.productId == log.productId
    ensures body == LogBody(Absent, Absent, Absent) ==> MergeLog(log, body) == Some(log)
  {
  }

  /** A null for notes or sideEffects clears that column, while a date, if sent, is kept. */
  lemma MergeLogNullClears(log: UsageLog, body: LogBody)
    requires body.notes.Null? && body.sideEffects.Null? && !body.dateUsed.Null?
    ensures MergeLog(log, body) == Some(UsageLog(log.productId, body.dateUsed.ApplyToRequired(log.dateUsed), None, None))
  {
  }

  /** The usage logs left once the product `productId` is deleted and the delete cascades. */
  function LogsWithoutProduct(logs: map<int, UsageLog>, productId: int): (r: map<int, UsageLog>)
    ensures forall l :: l in r <==> l in logs && logs[l].productId != productId
    ensures forall l :: l in r ==> r[l] == logs[l]
  {
    map l | l in logs && logs[l].productId != productId :: logs[l]
  }

  class ProductStore {
    var products: map<int, Product>
    var usageLogs: map<int, UsageLog>
    var nextProductId: int
    var nextLogId: int

    /** Ids are allocated from counters and never reused. */
    ghost predicate Valid()
      reads this
    {
      && 1 <= nextProductId && 1 <= nextLogId
      && (forall id :: id in products ==> 1 <= id < nextProductId)
      && (forall id :: id in usageLogs ==> 1 <= id < nextLogId)
    }

    constructor ()
      ensures Valid() && products == map[] && usageLogs == map[]
    {
      products := map[];
      usageLogs := map[];
      nextProductId := 1;
      nextLogId := 1;
    }

    /** The row `Product.findOne({ where: { id, userId } })` finds. */
    predicate Owned(id: int, userId: int)
      reads this
    {
      id in products && products[id].userId == userId
    }

    /** GET /product: the caller's products. */
    method ListProducts(authorization: Option<string>, verify: Verifier)
      returns (status: Status, rows: map<int, Product>)
      ensures var a := Authenticate(authorization, verify);
        if !a.Authenticated? then status == a.Status() && rows == map[]
        else
          && status == 200
          && (forall id :: id in rows <==> id in products && products[id].userId == a.user.userId)
          && (forall id :: id in rows ==> rows[id] == products[id])
    {
      var auth := Authenticate(authorization, verify);
      if !auth.Authenticated? {
        return auth.Status(), map[];
      }
      var userId := auth.user.userId;
      rows := Tables.Select(products, (p: Product) => p.userId == userId);
      status := 200;
    }

    /** POST /product: a new row owned by the caller, holding the five body keys that are columns. */
    method CreateProduct(authorization: Option<string>, verify: Verifier, body: ProductBody)
      returns (status: Status, created: Option<(int, Product)>)
      requires Valid()
      modifies this
      ensures Valid()
      ensures usageLogs == old(usageLogs) && nextLogId == old(nextLogId)
      ensures var a := Authenticate(authorization, verify);
        if !a.Authenticated? || body.name.None? then
          && status == (if a.Authenticated? then 500 else a.Status())
          && created.None? && products == old(products) && nextProductId == old(nextProductId)
        else
          && status == 201 && created.Some?
          && created.value.0 !in old(products)
          && created.value.1 == Product(a.user.userId, body.name.value, body.productType,
                                        body.frequency, body.startDate, None)
          && products == old(products)[created.value.0 := created.value.1]
    {
      var auth := Authenticate(authorization, verify);
      if !auth.Authenticated? {
        return auth.Status(), None;
      }
      if body.name.None? {
        // `name` is declared allowNull: false; the validation error is caught
        return 500, None;
      }
      var row := Product(auth.user.userId, body.name.value, body.productType, body.frequency, body.startDate, None);
      var id := nextProductId;
      products := products[id := row];
      nextProductId := nextProductId + 1;
      status, created := 201, Some((id, row));
    }

    /**
      PUT /product/:id: merge the body into the row matching id and the
      caller; 500 when the body nulls `name` or `userId`, whatever the row;
      404 when none matches. A body with no column key is 404 as well: the
      static `update` then returns `[0]` without running a query.
    */
    method UpdateProduct(authorization: Option<string>, verify: Verifier, id: int, patch: ProductPatch)
      returns (status: Status)
      requires Valid()
      modifies this
      ensures Valid()
      ensures usageLogs == old(usageLogs) && nextProductId == old(nextProductId) && nextLogId == old(nextLogId)
      ensures var a := Authenticate(authorization, verify);
        if !a.Authenticated? then status == a.Status() && products == old(products)
        else if patch.NullsRequired() then status == 500 && products == old(products)
        else if patch.SetsNothing() then status == 404 && products == old(products)
        else if !old(Owned(id, a.user.userId)) then status == 404 && products == old(products)
        else status == 200 && products == old(products)[id := MergeProduct(old(products)[id], patch).value]
    {
      var auth := Authenticate(authorization, verify);
      if !auth.Authenticated? {
        return auth.Status();
      }
      if patch.NullsRequired() {
        // the static `update` validates the values before it queries, and the `catch` answers 500
        return 500;
      }
      if patch.SetsNothing() {
        // only `updatedAt` is left to write, so no row counts as updated
        return 404;
      }
      if !Owned(id, auth.user.userId) {
        return 404;
      }
      products := products[id := MergeProduct(products[id], patch).value];
      status := 200;
    }

    /**
      DELETE /product/:id: remove the row matching id and the caller; 404
      when none matches. The `UsageLogs.productId` foreign key that `sync`
      creates for `Product.hasMany(UsageLog)` cascades the delete to the
      product's usage logs.
    */
    method DeleteProduct(authorization: Option<string>, verify: Verifier, id: int)
      returns (status: Status)
      requires Valid()
      modifies this
      ensures Valid()
      ensures nextProductId == old(nextProductId) && nextLogId == old(nextLogId)
      ensures var a := Authenticate(authorization, verify);
        if !a.Authenticated? then status == a.Status() && products == old(products) && usageLogs == old(usageLogs)
        else if !old(Owned(id, a.user.userId)) then
          status == 404 && products == old(products) && usageLogs == old(usageLogs)
        else
          && status == 200 && products == old(products) - {id}
          && usageLogs == LogsWithoutProduct(old(usageLogs), id)
    {
      var auth := Authenticate(authorization, verify);
      if !auth.Authenticated? {
        return auth.Status();
      }
      if !Owned(id, auth.user.userId) {
        return 404;
      }
      products := products - {id};
      usageLogs := LogsWithoutProduct(usageLogs, id);
      status := 200;
    }

    /** GET /product/:id: the row matching id and the caller, 404 otherwise. */
    method GetProduct(authorization: Option<string>, verify: Verifier, id: int)
      returns (status: Status, product: Option<Product>)
      ensures var a := Authenticate(authorization, verify);
        if !a.Authenticated? then status == a.Status() && product.None?
        else if !Owned(id, a.user.userId) then status == 404 && product.None?
        else status == 200 && product == Some(products[id])
    {
      var auth := Authenticate(authorization, verify);
      if !auth.Authenticated? {
        return auth.Status(), None;
      }
      if !Owned(id, auth.user.userId) {
        return 404, None;
      }
      status, product := 200, Some(products[id]);
    }

    /**
      POST /product/:id/log: one new log under a product the caller owns;
      dateUsed defaults to today when left out. A null dateUsed skips the
      default and fails the NOT NULL check, and with no `try` the request
      is left unanswered.
    */
    method CreateUsageLog(authorization: Option<string>, verify: Verifier, id: int, body: LogBody, today: Day)
      returns (status: Status, created: Option<(int, UsageLog)>)
      requires Valid()
      modifies this
      ensures Valid()
      ensures products == old(products) && nextProductId == old(nextProductId)
      ensures var a := Authenticate(authorization, verify);
        if !a.Authenticated? || !Owned(id, a.user.userId) || body.dateUsed.Null? then
          && status == (if !a.Authenticated? then a.Status() else if !Owned(id, a.user.userId) then 404 else Unanswered)
          && created.None? && usageLogs == old(usageLogs) && nextLogId == old(nextLogId)
        else
          && status == 201 && created.Some?
          && created.value.0 !in old(usageLogs)
          && created.value.1 == UsageLog(id, body.dateUsed.ApplyToRequired(today), body.notes.OrNull(), None)
          && usageLogs == old(usageLogs)[created.value.0 := created.value.1]
    {
      var auth := Authenticate(authorization, verify);
      if !auth.Authenticated? {
        return auth.Status(), None;
      }
      if !Owned(id, auth.user.userId) {
        return 404, None;
      }
      if body.dateUsed.Null? {
        return Unanswered, None;
      }
      var log := UsageLog(id, body.dateUsed.ApplyToRequired(today), body.notes.OrNull(), None);
      var logId := nextLogId;
      usageLogs := usageLogs[logId := log];
      nextLogId := nextLogId + 1;
      status, created := 201, Some((logId, log));
    }

    /** GET /product/:id/logs: the logs of a product the caller owns, latest dateUsed first. */
    method ListUsageLogs(authorization: Option<string>, verify: Verifier, id: int)
      returns (status: Status, logs: seq<(int, UsageLog)>)
      requires Valid()
      ensures var a := Authenticate(authorization, verify);
        if !a.Authenticated? || !Owned(id, a.user.userId) then
          status == (if a.Authenticated? then 404 else a.Status()) && logs == []
        else
          && status == 200
          && (forall e :: e in logs <==> e.0 in usageLogs && usageLogs[e.0] == e.1 && e.1.productId == id)
          && Tables.SortedDesc(logs, (log: UsageLog) => log.dateUsed)
          && Tables.DistinctIds(logs)
    {
      var auth := Authenticate(authorization, verify);
      if !auth.Authenticated? {
        return auth.Status(), [];
      }
      if !Owned(id, auth.user.userId) {
        return 404, [];
      }
      logs := Tables.Ordered(usageLogs, nextLogId, (log: UsageLog) => log.productId == id,
                             (log: UsageLog) => log.dateUsed);
      status := 200;
    }

    /** GET /product/:productId/logs/:logId: 404 unless the product is the caller's and the log belongs to it. */
    method GetUsageLog(authorization: Option<string>, verify: Verifier, productId: int, logId: int)
      returns (status: Status, log: Option<UsageLog>)
      ensures var a := Authenticate(authorization, verify);
        if !a.Authenticated? then status == a.Status() && log.None?
        else if !Owned(productId, a.user.userId)
             || !(logId in usageLogs && usageLogs[logId].productId == productId) then
          status == 404 && log.None?
        else status == 200 && log == Some(usageLogs[logId])
    {
      var auth := Authenticate(authorization, verify);
      if !auth.Authenticated? {
        return auth.Status(), None;
      }
      if !Owned(productId, auth.user.userId) {
        return 404, None;
      }
      if !(logId in usageLogs && usageLogs[logId].productId == productId) {
        return 404, None;
      }
      status, log := 200, Some(usageLogs[logId]);
    }

    /**
      PUT /product/:id/logs/:logId: after both checks, update notes,
      dateUsed and sideEffects of that log; a null dateUsed leaves the
      request unanswered.
    */
    method UpdateUsageLog(authorization: Option<string>, verify: Verifier, id: int, logId: int, body: LogBody)
      returns (status: Status, log: Option<UsageLog>)
      requires Valid()
      modifies this
      ensures Valid()
      ensures products == old(products) && nextProductId == old(nextProductId) && nextLogId == old(nextLogId)
      ensures var a := Authenticate(authorization, verify);
        if !a.Authenticated? then status == a.Status() && log.None? && usageLogs == old(usageLogs)
        else if !old(Owned(id, a.user.userId))
             || !(logId in old(usageLogs) && old(usageLogs)[logId].productId == id) then
          status == 404 && log.None? && usageLogs == old(usageLogs)
        else if body.dateUsed.Null? then
          status == Unanswered && log.None? && usageLogs == old(usageLogs)
        else
          && status == 200
          && log == MergeLog(old(usageLogs)[logId], body)
          && usageLogs == old(usageLogs)[logId := log.value]
    {
      var auth := Authenticate(authorization, verify);
      if !auth.Authenticated? {
        return auth.Status(), None;
      }
      if !Owned(id, auth.user.userId) {
        return 404, None;
      }
      if !(logId in usageLogs && usageLogs[logId].productId == id) {
        return 404, None;
      }
      if body.dateUsed.Null? {
        // `log.update` fails validation outside any `try`
        return Unanswered, None;
      }
      var updated := MergeLog(usageLogs[logId], body).value;
      usageLogs := usageLogs[logId := updated];
      status, log := 200, Some(updated);
    }
  }

  /** The owner of a product, sending PUT /product/:id a body with no column key, is answered 404. */
  method OwnerEmptyUpdateIsNotFound(authorization: Option<string>, verify: Verifier, name: string)
    returns (status: Status)
    requires Authenticate(authorization, verify).Authenticated?
    ensures status == 404
  {
    var store := new ProductStore();
    var createStatus, created := store.CreateProduct(authorization, verify, ProductBody(Some(name), None, None, None, None));
    status := store.UpdateProduct(authorization, verify, created.value.0,
                                  ProductPatch(Absent, Absent, Absent, Absent, Absent, Absent));
  }
}
