/**
 * The shape checks `analyzeSalesData` makes before any computation. The
 * JavaScript tests (falsy value, `Array.isArray`, `length === 0`,
 * `typeof options`) are encoded in the datatypes below.
 */
module Validation {
  import opened Wrappers
  import opened SalesTypes

  /** A collection field as it may arrive: missing or falsy, some non-array value, or an array. */
  datatype Field<T> = Missing | NotArray | Array(elems: seq<T>)

  /** The `data` argument when it is present. */
  datatype RawData = RawData(
    sellers: Field<Seller>,
    products: Field<Product>,
    purchaseRecords: Field<PurchaseRecord>)

  /** The `options` argument: absent, not an object, or an object with possibly-missing strategies. */
  datatype RawOptions =
    | NoOptions
    | NotObject
    | OptionsObject(calculateRevenue: Option<RevenueFn>, calculateBonus: Option<BonusFn>)

  /**
   * The three thrown errors, one per message: bad data is reported first,
   * then options that are not an object, then a missing strategy.
   */
  datatype InputError = InvalidData | OptionsNotObject | MissingStrategy

  /** Input that passed validation. */
  datatype ValidInput = ValidInput(
    sellers: seq<Seller>,
    products: seq<Product>,
    records: seq<PurchaseRecord>,
    calculateRevenue: RevenueFn,
    calculateBonus: BonusFn)

  /** An array with at least one element. */
  predicate NonEmptyArray<T>(f: Field<T>) {
    f.Array? && |f.elems| > 0
  }

  /** `data` is present and its three collections are non-empty arrays. */
  predicate DataWellShaped(data: Option<RawData>) {
    && data.Some?
    && NonEmptyArray(data.value.sellers)
    && NonEmptyArray(data.value.products)
    && NonEmptyArray(data.value.purchaseRecords)
  }

  function Validate(data: Option<RawData>, options: RawOptions): (r: Result<ValidInput, InputError>)
    ensures data.None? ==> r.Failure? && r.error == InvalidData
    ensures data.Some? && !NonEmptyArray(data.value.sellers) ==> r.Failure? && r.error == InvalidData
    ensures data.Some? && !NonEmptyArray(data.value.products) ==> r.Failure? && r.error == InvalidData
    ensures data.Some? && !NonEmptyArray(data.value.purchaseRecords) ==> r.Failure? && r.error == InvalidData
    ensures r.Failure? && r.error == InvalidData <==> !DataWellShaped(data)
    ensures r.Failure? && r.error == OptionsNotObject <==>
              && DataWellShaped(data)
              && !options.OptionsObject?
    ensures r.Failure? && r.error == MissingStrategy <==>
              && DataWellShaped(data)
              && options.OptionsObject?
              && (options.calculateRevenue.None? || options.calculateBonus.None?)
    ensures r.Success? ==>
              && data.Some? && options.OptionsObject?
              && r.value.sellers == data.value.sellers.elems && |r.value.sellers| > 0
              && r.value.products == data.value.products.elems && |r.value.products| > 0
              && r.value.records == data.value.purchaseRecords.elems && |r.value.records| > 0
              && options.calculateRevenue == Some(r.value.calculateRevenue)
              && options.calculateBonus == Some(r.value.calculateBonus)
  {
    if data.None?
       || !NonEmptyArray(data.value.sellers)
       || !NonEmptyArray(data.value.products)
       || !NonEmptyArray(data.value.purchaseRecords)
    then Failure(InvalidData)
    else if !options.OptionsObject? then Failure(OptionsNotObject)
    else if options.calculateRevenue.None? || options.calculateBonus.None? then Failure(MissingStrategy)
    else Success(ValidInput(
      data.value.sellers.elems,
      data.value.products.elems,
      data.value.purchaseRecords.elems,
      options.calculateRevenue.value,
      options.calculateBonus.value))
  }

  /** Validation succeeds exactly when every collection is a non-empty array and both strategies are given. */
  lemma ValidateAcceptsExactlyWellShapedInput(data: Option<RawData>, options: RawOptions)
    ensures Validate(data, options).Success? <==>
              && data.Some?
              && NonEmptyArray(data.value.sellers)
              && NonEmptyArray(data.value.products)
              && NonEmptyArray(data.value.purchaseRecords)
              && options.OptionsObject?
              && options.calculateRevenue.Some?
              && options.calculateBonus.Some?
  {
  }
}
