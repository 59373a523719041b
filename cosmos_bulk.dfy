/**
 * BulkOperations: the static factories that build one immutable bulk item
 * operation per kind (create, read, replace, upsert, delete, patch).
 *
 * Every factory throws a NullPointerException (checkNotNull) for a null
 * required argument, replaces null per-item request options with a freshly
 * constructed default, and fixes which fields the operation carries: an id or
 * none, the item or the patch operations as payload, or no payload. The
 * partition key and the caller context are carried through unchanged.
 */
module CosmosBulk {
  import opened JavaLang

  datatype CosmosItemOperationType = Create | Delete | Read | Replace | Upsert | Patch

  /** A partition key value; its components are not inspected by the factories. */
  datatype PartitionKey = PartitionKey(tag: nat)

  /** The ordered list of patch steps applied to one item; opaque to the factories. */
  datatype CosmosPatchOperations = CosmosPatchOperations(tag: nat)

  /** The caller's document type (the factories' type parameter); opaque to the factories. */
  datatype Item = Item(tag: nat)

  /** The caller's context type, handed back with the operation's response; opaque to the factories. */
  datatype Context = Context(tag: nat)

  /**
   * Per-item request options. `settings` stands for the option values a caller
   * may have set; 0 is a freshly constructed object with none set.
   */
  datatype BulkItemRequestOptions = BulkItemRequestOptions(settings: nat)
  {
    /** toRequestOptions(): the conversion keeps which options object it was made from. */
    function ToRequestOptions(): (r: RequestOptions)
      ensures r.FromItemOptions? && r.itemOptions == this
    {
      FromItemOptions(this)
    }
  }

  /** The per-item request options of a patch, a class of their own. */
  datatype BulkPatchItemRequestOptions = BulkPatchItemRequestOptions(settings: nat)
  {
    /** toRequestOptions(): the conversion keeps which options object it was made from. */
    function ToRequestOptions(): (r: RequestOptions)
      ensures r.FromPatchOptions? && r.patchOptions == this
    {
      FromPatchOptions(this)
    }
  }

  /** The internal request options an operation is executed with, by the options object they came from. */
  datatype RequestOptions =
    | FromItemOptions(itemOptions: BulkItemRequestOptions)
    | FromPatchOptions(patchOptions: BulkPatchItemRequestOptions)

  /** `new BulkItemRequestOptions()` */
  const NewItemOptions: BulkItemRequestOptions := BulkItemRequestOptions(0)

  /** `new BulkPatchItemRequestOptions()` */
  const NewPatchOptions: BulkPatchItemRequestOptions := BulkPatchItemRequestOptions(0)

  /** The immutable operation built by a factory (ItemBulkOperation). */
  datatype ItemBulkOperation<T, C> = ItemBulkOperation(
    operationType: CosmosItemOperationType,
    id: Nullable<string>,
    partitionKey: PartitionKey,
    requestOptions: RequestOptions,
    item: Nullable<T>,
    context: Nullable<C>)

  /** The exceptions checkNotNull throws. */
  const ItemMissing := NullPointerException(NonNull("expected non-null item"))
  const IdMissing := NullPointerException(NonNull("expected non-null id"))
  const PartitionKeyMissing := NullPointerException(NonNull("expected non-null partitionKey"))
  const PatchOperationsMissing := NullPointerException(NonNull("expected non-null cosmosPatchOperations"))

  type BulkResult<T, C> = Result<ItemBulkOperation<T, C>, NullPointerException>

  /** The kinds that address an existing item and therefore carry its id. */
  predicate CarriesId(kind: CosmosItemOperationType) {
    kind in {Read, Delete, Replace, Patch}
  }

  /** The kinds that send a body: the item itself, or the patch operations. */
  predicate CarriesPayload(kind: CosmosItemOperationType) {
    kind in {Create, Replace, Upsert, Patch}
  }

  /** The shape rule for an operation: id and payload are present exactly as its kind demands. */
  predicate WellShaped<T, C>(op: ItemBulkOperation<T, C>) {
    && (op.id.NonNull? <==> CarriesId(op.operationType))
    && (op.item.NonNull? <==> CarriesPayload(op.operationType))
  }

  /** `if (requestOptions == null) requestOptions = new BulkItemRequestOptions();` */
  function ItemOptionsOrDefault(requestOptions: Nullable<BulkItemRequestOptions>): (r: BulkItemRequestOptions)
    ensures requestOptions.NonNull? ==> r == requestOptions.value
    ensures requestOptions.Null? ==> r == NewItemOptions
  {
    if requestOptions.Null? then NewItemOptions else requestOptions.value
  }

  /** `if (requestOptions == null) requestOptions = new BulkPatchItemRequestOptions();` */
  function PatchOptionsOrDefault(requestOptions: Nullable<BulkPatchItemRequestOptions>): (r: BulkPatchItemRequestOptions)
    ensures requestOptions.NonNull? ==> r == requestOptions.value
    ensures requestOptions.Null? ==> r == NewPatchOptions
  {
    if requestOptions.Null? then NewPatchOptions else requestOptions.value
  }

  // ---------------------------------------------------------------- create

  function GetCreateItemOperationFull(
    item: Nullable<Item>,
    partitionKey: Nullable<PartitionKey>,
    requestOptions: Nullable<BulkItemRequestOptions>,
    context: Nullable<Context>): (r: BulkResult<Item, Context>)
    ensures r.Ok? <==> item.NonNull? && partitionKey.NonNull?
    ensures item.Null? ==> r == Err(ItemMissing)
    ensures item.NonNull? && partitionKey.Null? ==> r == Err(PartitionKeyMissing)
    ensures r.Ok? ==>
      && WellShaped(r.value)
      && r.value.operationType == Create
      && r.value.id == Null
      && r.value.item == item
      && r.value.partitionKey == partitionKey.value
      && r.value.requestOptions == FromItemOptions(ItemOptionsOrDefault(requestOptions))
      && r.value.context == context
  {
    if item.Null? then Err(ItemMissing)
    else if partitionKey.Null? then Err(PartitionKeyMissing)
    else
      var options := ItemOptionsOrDefault(requestOptions);
      Ok(ItemBulkOperation(Create, Null, partitionKey.value, options.ToRequestOptions(), item, context))
  }

  function GetCreateItemOperation(item: Nullable<Item>, partitionKey: Nullable<PartitionKey>): (r: BulkResult<Item, Context>)
    ensures r == GetCreateItemOperationFull(item, partitionKey, NonNull(NewItemOptions), Null)
  {
    if item.Null? then Err(ItemMissing)
    else if partitionKey.Null? then Err(PartitionKeyMissing)
    else GetCreateItemOperationFull(item, partitionKey, NonNull(NewItemOptions), Null)
  }

  function GetCreateItemOperationWithContext(
    item: Nullable<Item>,
    partitionKey: Nullable<PartitionKey>,
    context: Nullable<Context>): (r: BulkResult<Item, Context>)
    ensures r == GetCreateItemOperationFull(item, partitionKey, NonNull(NewItemOptions), context)
  {
    if item.Null? then Err(ItemMissing)
    else if partitionKey.Null? then Err(PartitionKeyMissing)
    else GetCreateItemOperationFull(item, partitionKey, NonNull(NewItemOptions), context)
  }

  function GetCreateItemOperationWithOptions(
    item: Nullable<Item>,
    partitionKey: Nullable<PartitionKey>,
    requestOptions: Nullable<BulkItemRequestOptions>): (r: BulkResult<Item, Context>)
    ensures r == GetCreateItemOperationFull(item, partitionKey, NonNull(ItemOptionsOrDefault(requestOptions)), Null)
  {
    if item.Null? then Err(ItemMissing)
    else if partitionKey.Null? then Err(PartitionKeyMissing)
    else GetCreateItemOperationFull(item, partitionKey, requestOptions, Null)
  }

  // ---------------------------------------------------------------- delete

  function GetDeleteItemOperationFull(
    id: Nullable<string>,
    partitionKey: Nullable<PartitionKey>,
    requestOptions: Nullable<BulkItemRequestOptions>,
    context: Nullable<Context>): (r: BulkResult<Item, Context>)
    ensures r.Ok? <==> id.NonNull? && partitionKey.NonNull?
    ensures id.Null? ==> r == Err(IdMissing)
    ensures id.NonNull? && partitionKey.Null? ==> r == Err(PartitionKeyMissing)
    ensures r.Ok? ==>
      && WellShaped(r.value)
      && r.value.operationType == Delete
      && r.value.id == id
      && r.value.item == Null
      && r.value.partitionKey == partitionKey.value
      && r.value.requestOptions == FromItemOptions(ItemOptionsOrDefault(requestOptions))
      && r.value.context == context
  {
    if id.Null? then Err(IdMissing)
    else if partitionKey.Null? then Err(PartitionKeyMissing)
    else
      var options := ItemOptionsOrDefault(requestOptions);
      Ok(ItemBulkOperation(Delete, id, partitionKey.value, options.ToRequestOptions(), Null, context))
  }

  function GetDeleteItemOperationWithOptions(
    id: Nullable<string>,
    partitionKey: Nullable<PartitionKey>,
    requestOptions: Nullable<BulkItemRequestOptions>): (r: BulkResult<Item, Context>)
    ensures r == GetDeleteItemOperationFull(id, partitionKey, NonNull(ItemOptionsOrDefault(requestOptions)), Null)
  {
    if id.Null? then Err(IdMissing)
    else if partitionKey.Null? then Err(PartitionKeyMissing)
    else
      var options := ItemOptionsOrDefault(requestOptions);
      GetDeleteItemOperationFull(id, partitionKey, NonNull(options), Null)
  }

  /** The two-argument delete overload delegates to the options overload, not to the full one. */
  function GetDeleteItemOperation(id: Nullable<string>, partitionKey: Nullable<PartitionKey>): (r: BulkResult<Item, Context>)
    ensures r == GetDeleteItemOperationFull(id, partitionKey, NonNull(NewItemOptions), Null)
  {
    if id.Null? then Err(IdMissing)
    else if partitionKey.Null? then Err(PartitionKeyMissing)
    else GetDeleteItemOperationWithOptions(id, partitionKey, NonNull(NewItemOptions))
  }

  function GetDeleteItemOperationWithContext(
    id: Nullable<string>,
    partitionKey: Nullable<PartitionKey>,
    context: Nullable<Context>): (r: BulkResult<Item, Context>)
    ensures r == GetDeleteItemOperationFull(id, partitionKey, NonNull(NewItemOptions), context)
  {
    if id.Null? then Err(IdMissing)
    else if partitionKey.Null? then Err(PartitionKeyMissing)
    else GetDeleteItemOperationFull(id, partitionKey, NonNull(NewItemOptions), context)
  }

  // ---------------------------------------------------------------- read

  function GetReadItemOperationFull(
    id: Nullable<string>,
    partitionKey: Nullable<PartitionKey>,
    requestOptions: Nullable<BulkItemRequestOptions>,
    context: Nullable<Context>): (r: BulkResult<Item, Context>)
    ensures r.Ok? <==> id.NonNull? && partitionKey.NonNull?
    ensures id.Null? ==> r == Err(IdMissing)
    ensures id.NonNull? && partitionKey.Null? ==> r == Err(PartitionKeyMissing)
    ensures r.Ok? ==>
      && WellShaped(r.value)
      && r.value.operationType == Read
      && r.value.id == id
      && r.value.item == Null
      && r.value.partitionKey == partitionKey.value
      && r.value.requestOptions == FromItemOptions(ItemOptionsOrDefault(requestOptions))
      && r.value.context == context
  {
    if id.Null? then Err(IdMissing)
    else if partitionKey.Null? then Err(PartitionKeyMissing)
    else
      var options := ItemOptionsOrDefault(requestOptions);
      Ok(ItemBulkOperation(Read, id, partitionKey.value, options.ToRequestOptions(), Null, context))
  }

  function GetReadItemOperation(id: Nullable<string>, partitionKey: Nullable<PartitionKey>): (r: BulkResult<Item, Context>)
    ensures r == GetReadItemOperationFull(id, partitionKey, NonNull(NewItemOptions), Null)
  {
    if id.Null? then Err(IdMissing)
    else if partitionKey.Null? then Err(PartitionKeyMissing)
    else GetReadItemOperationFull(id, partitionKey, NonNull(NewItemOptions), Null)
  }

  function GetReadItemOperationWithContext(
    id: Nullable<string>,
    partitionKey: Nullable<PartitionKey>,
    context: Nullable<Context>): (r: BulkResult<Item, Context>)
    ensures r == GetReadItemOperationFull(id, partitionKey, NonNull(NewItemOptions), context)
  {
    if id.Null? then Err(IdMissing)
    else if partitionKey.Null? then Err(PartitionKeyMissing)
    else GetReadItemOperationFull(id, partitionKey, NonNull(NewItemOptions), context)
  }

  function GetReadItemOperationWithOptions(
    id: Nullable<string>,
    partitionKey: Nullable<PartitionKey>,
    requestOptions: Nullable<BulkItemRequestOptions>): (r: BulkResult<Item, Context>)
    ensures r == GetReadItemOperationFull(id, partitionKey, NonNull(ItemOptionsOrDefault(requestOptions)), Null)
  {
    if id.Null? then Err(IdMissing)
    else if partitionKey.Null? then Err(PartitionKeyMissing)
    else GetReadItemOperationFull(id, partitionKey, requestOptions, Null)
  }

  // ---------------------------------------------------------------- replace

  function GetReplaceItemOperationFull(
    id: Nullable<string>,
    item: Nullable<Item>,
    partitionKey: Nullable<PartitionKey>,
    requestOptions: Nullable<BulkItemRequestOptions>,
    context: Nullable<Context>): (r: BulkResult<Item, Context>)
    ensures r.Ok? <==> item.NonNull? && id.NonNull? && partitionKey.NonNull?
    ensures item.Null? ==> r == Err(ItemMissing)
    ensures item.NonNull? && id.Null? ==> r == Err(IdMissing)
    ensures item.NonNull? && id.NonNull? && partitionKey.Null? ==> r == Err(PartitionKeyMissing)
    ensures r.Ok? ==>
      && WellShaped(r.value)
      && r.value.operationType == Replace
      && r.value.id == id
      && r.value.item == item
      && r.value.partitionKey == partitionKey.value
      && r.value.requestOptions == FromItemOptions(ItemOptionsOrDefault(requestOptions))
      && r.value.context == context
  {
    if item.Null? then Err(ItemMissing)
    else if id.Null? then Err(IdMissing)
    else if partitionKey.Null? then Err(PartitionKeyMissing)
    else
      var options := ItemOptionsOrDefault(requestOptions);
      Ok(ItemBulkOperation(Replace, id, partitionKey.value, options.ToRequestOptions(), item, context))
  }

  function GetReplaceItemOperation(
    id: Nullable<string>,
    item: Nullable<Item>,
    partitionKey: Nullable<PartitionKey>): (r: BulkResult<Item, Context>)
    ensures r == GetReplaceItemOperationFull(id, item, partitionKey, NonNull(NewItemOptions), Null)
  {
    if item.Null? then Err(ItemMissing)
    else if id.Null? then Err(IdMissing)
    else if partitionKey.Null? then Err(PartitionKeyMissing)
    else GetReplaceItemOperationFull(id, item, partitionKey, NonNull(NewItemOptions), Null)
  }

  function GetReplaceItemOperationWithContext(
    id: Nullable<string>,
    item: Nullable<Item>,
    partitionKey: Nullable<PartitionKey>,
    context: Nullable<Context>): (r: BulkResult<Item, Context>)
    ensures r == GetReplaceItemOperationFull(id, item, partitionKey, NonNull(NewItemOptions), context)
  {
    if item.Null? then Err(ItemMissing)
    else if id.Null? then Err(IdMissing)
    else if partitionKey.Null? then Err(PartitionKeyMissing)
    else GetReplaceItemOperationFull(id, item, partitionKey, NonNull(NewItemOptions), context)
  }

  function GetReplaceItemOperationWithOptions(
    id: Nullable<string>,
    item: Nullable<Item>,
    partitionKey: Nullable<PartitionKey>,
    requestOptions: Nullable<BulkItemRequestOptions>): (r: BulkResult<Item, Context>)
    ensures r == GetReplaceItemOperationFull(id, item, partitionKey, NonNull(ItemOptionsOrDefault(requestOptions)), Null)
  {
    if item.Null? then Err(ItemMissing)
    else if id.Null? then Err(IdMissing)
    else if partitionKey.Null? then Err(PartitionKeyMissing)
    else GetReplaceItemOperationFull(id, item, partitionKey, requestOptions, Null)
  }

  // ---------------------------------------------------------------- upsert

  function GetUpsertItemOperationFull(
    item: Nullable<Item>,
    partitionKey: Nullable<PartitionKey>,
    requestOptions: Nullable<BulkItemRequestOptions>,
    context: Nullable<Context>): (r: BulkResult<Item, Context>)
    ensures r.Ok? <==> item.NonNull? && partitionKey.NonNull?
    ensures item.Null? ==> r == Err(ItemMissing)
    ensures item.NonNull? && partitionKey.Null? ==> r == Err(PartitionKeyMissing)
    ensures r.Ok? ==>
      && WellShaped(r.value)
      && r.value.operationType == Upsert
      && r.value.id == Null
      && r.value.item == item
      && r.value.partitionKey == partitionKey.value
      && r.value.requestOptions == FromItemOptions(ItemOptionsOrDefault(requestOptions))
      && r.value.context == context
  {
    if item.Null? then Err(ItemMissing)
    else if partitionKey.Null? then Err(PartitionKeyMissing)
    else
      var options := ItemOptionsOrDefault(requestOptions);
      Ok(ItemBulkOperation(Upsert, Null, partitionKey.value, options.ToRequestOptions(), item, context))
  }

  function GetUpsertItemOperation(item: Nullable<Item>, partitionKey: Nullable<PartitionKey>): (r: BulkResult<Item, Context>)
    ensures r == GetUpsertItemOperationFull(item, partitionKey, NonNull(NewItemOptions), Null)
  {
    if item.Null? then Err(ItemMissing)
    else if partitionKey.Null? then Err(PartitionKeyMissing)
    else GetUpsertItemOperationFull(item, partitionKey, NonNull(NewItemOptions), Null)
  }

  function GetUpsertItemOperationWithContext(
    item: Nullable<Item>,
    partitionKey: Nullable<PartitionKey>,
    context: Nullable<Context>): (r: BulkResult<Item, Context>)
    ensures r == GetUpsertItemOperationFull(item, partitionKey, NonNull(NewItemOptions), context)
  {
    if item.Null? then Err(ItemMissing)
    else if partitionKey.Null? then Err(PartitionKeyMissing)
    else GetUpsertItemOperationFull(item, partitionKey, NonNull(NewItemOptions), context)
  }

  function GetUpsertItemOperationWithOptions(
    item: Nullable<Item>,
    partitionKey: Nullable<PartitionKey>,
    requestOptions: Nullable<BulkItemRequestOptions>): (r: BulkResult<Item, Context>)
    ensures r == GetUpsertItemOperationFull(item, partitionKey, NonNull(ItemOptionsOrDefault(requestOptions)), Null)
  {
    if item.Null? then Err(ItemMissing)
    else if partitionKey.Null? then Err(PartitionKeyMissing)
    else GetUpsertItemOperationFull(item, partitionKey, requestOptions, Null)
  }

  // ---------------------------------------------------------------- patch

  function GetPatchItemOperationFull(
    id: Nullable<string>,
    partitionKey: Nullable<PartitionKey>,
    cosmosPatchOperations: Nullable<CosmosPatchOperations>,
    requestOptions: Nullable<BulkPatchItemRequestOptions>,
    context: Nullable<Context>): (r: BulkResult<CosmosPatchOperations, Context>)
    ensures r.Ok? <==> id.NonNull? && partitionKey.NonNull? && cosmosPatchOperations.NonNull?
    ensures id.Null? ==> r == Err(IdMissing)
    ensures id.NonNull? && partitionKey.Null? ==> r == Err(PartitionKeyMissing)
    ensures id.NonNull? && partitionKey.NonNull? && cosmosPatchOperations.Null? ==> r == Err(PatchOperationsMissing)
    ensures r.Ok? ==>
      && WellShaped(r.value)
      && r.value.operationType == Patch
      && r.value.id == id
      && r.value.item == cosmosPatchOperations
      && r.value.partitionKey == partitionKey.value
      && r.value.requestOptions == FromPatchOptions(PatchOptionsOrDefault(requestOptions))
      && r.value.context == context
  {
    if id.Null? then Err(IdMissing)
    else if partitionKey.Null? then Err(PartitionKeyMissing)
    else if cosmosPatchOperations.Null? then Err(PatchOperationsMissing)
    else
      var options := PatchOptionsOrDefault(requestOptions);
      Ok(ItemBulkOperation(Patch, id, partitionKey.value, options.ToRequestOptions(), cosmosPatchOperations, context))
  }

  function GetPatchItemOperation(
    id: Nullable<string>,
    partitionKey: Nullable<PartitionKey>,
    cosmosPatchOperations: Nullable<CosmosPatchOperations>): (r: BulkResult<CosmosPatchOperations, Context>)
    ensures r == GetPatchItemOperationFull(id, partitionKey, cosmosPatchOperations, NonNull(NewPatchOptions), Null)
  {
    if id.Null? then Err(IdMissing)
    else if partitionKey.Null? then Err(PartitionKeyMissing)
    else if cosmosPatchOperations.Null? then Err(PatchOperationsMissing)
    else GetPatchItemOperationFull(id, partitionKey, cosmosPatchOperations, NonNull(NewPatchOptions), Null)
  }

  function GetPatchItemOperationWithContext(
    id: Nullable<string>,
    partitionKey: Nullable<PartitionKey>,
    cosmosPatchOperations: Nullable<CosmosPatchOperations>,
    context: Nullable<Context>): (r: BulkResult<CosmosPatchOperations, Context>)
    ensures r == GetPatchItemOperationFull(id, partitionKey, cosmosPatchOperations, NonNull(NewPatchOptions), context)
  {
    if id.Null? then Err(IdMissing)
    else if partitionKey.Null? then Err(PartitionKeyMissing)
    else if cosmosPatchOperations.Null? then Err(PatchOperationsMissing)
    else GetPatchItemOperationFull(id, partitionKey, cosmosPatchOperations, NonNull(NewPatchOptions), context)
  }

  function GetPatchItemOperationWithOptions(
    id: Nullable<string>,
    partitionKey: Nullable<PartitionKey>,
    cosmosPatchOperations: Nullable<CosmosPatchOperations>,
    requestOptions: Nullable<BulkPatchItemRequestOptions>): (r: BulkResult<CosmosPatchOperations, Context>)
    ensures r == GetPatchItemOperationFull(id, partitionKey, cosmosPatchOperations, NonNull(PatchOptionsOrDefault(requestOptions)), Null)
  {
    if id.Null? then Err(IdMissing)
    else if partitionKey.Null? then Err(PartitionKeyMissing)
    else if cosmosPatchOperations.Null? then Err(PatchOperationsMissing)
    else GetPatchItemOperationFull(id, partitionKey, cosmosPatchOperations, requestOptions, Null)
  }

  // ---------------------------------------------------------------- properties across factories

  /** Upsert builds exactly what Create builds, apart from the operation type. */
  lemma UpsertIsCreateButForKind(
    item: Nullable<Item>,
    partitionKey: Nullable<PartitionKey>,
    requestOptions: Nullable<BulkItemRequestOptions>,
    context: Nullable<Context>)
    ensures var created := GetCreateItemOperationFull(item, partitionKey, requestOptions, context);
            var upserted := GetUpsertItemOperationFull(item, partitionKey, requestOptions, context);
            && (created.Err? ==> upserted == created)
            && (created.Ok? ==> upserted == Ok(created.value.(operationType := Upsert)))
  {
  }

  /** Read builds exactly what Delete builds, apart from the operation type. */
  lemma ReadIsDeleteButForKind(
    id: Nullable<string>,
    partitionKey: Nullable<PartitionKey>,
    requestOptions: Nullable<BulkItemRequestOptions>,
    context: Nullable<Context>)
    ensures var deleted := GetDeleteItemOperationFull(id, partitionKey, requestOptions, context);
            var read := GetReadItemOperationFull(id, partitionKey, requestOptions, context);
            && (deleted.Err? ==> read == deleted)
            && (deleted.Ok? ==> read == Ok(deleted.value.(operationType := Read)))
  {
  }

  /**
   * Passing null options is the same as passing a freshly constructed default
   * options object, for every kind (the patch kind uses the patch defaults).
   */
  lemma NullOptionsAreDefaultOptions(
    id: Nullable<string>,
    item: Nullable<Item>,
    partitionKey: Nullable<PartitionKey>,
    ops: Nullable<CosmosPatchOperations>,
    context: Nullable<Context>)
    ensures GetCreateItemOperationFull(item, partitionKey, Null, context)
         == GetCreateItemOperationFull(item, partitionKey, NonNull(NewItemOptions), context)
    ensures GetDeleteItemOperationFull(id, partitionKey, Null, context)
         == GetDeleteItemOperationFull(id, partitionKey, NonNull(NewItemOptions), context)
    ensures GetReadItemOperationFull(id, partitionKey, Null, context)
         == GetReadItemOperationFull(id, partitionKey, NonNull(NewItemOptions), context)
    ensures GetReplaceItemOperationFull(id, item, partitionKey, Null, context)
         == GetReplaceItemOperationFull(id, item, partitionKey, NonNull(NewItemOptions), context)
    ensures GetUpsertItemOperationFull(item, partitionKey, Null, context)
         == GetUpsertItemOperationFull(item, partitionKey, NonNull(NewItemOptions), context)
    ensures GetPatchItemOperationFull(id, partitionKey, ops, Null, context)
         == GetPatchItemOperationFull(id, partitionKey, ops, NonNull(NewPatchOptions), context)
  {
  }

  /**
   * A null partition key is rejected by every factory, whatever the other
   * arguments, and no operation is built.
   */
  lemma NullPartitionKeyAlwaysRejected(
    id: Nullable<string>,
    item: Nullable<Item>,
    ops: Nullable<CosmosPatchOperations>,
    itemOptions: Nullable<BulkItemRequestOptions>,
    patchOptions: Nullable<BulkPatchItemRequestOptions>,
    context: Nullable<Context>)
    ensures GetCreateItemOperationFull(item, Null, itemOptions, context).Err?
    ensures GetDeleteItemOperationFull(id, Null, itemOptions, context).Err?
    ensures GetReadItemOperationFull(id, Null, itemOptions, context).Err?
    ensures GetReplaceItemOperationFull(id, item, Null, itemOptions, context).Err?
    ensures GetUpsertItemOperationFull(item, Null, itemOptions, context).Err?
    ensures GetPatchItemOperationFull(id, Null, ops, patchOptions, context).Err?
  {
  }
}
