/** The size a create request asks for. */
module Capacity {
  import opened Decimal
  import opened Wrappers

  const GIB: int := 1024 * 1024 * 1024
  const MINIMUM_VOLUME_SIZE: int := 1 * GIB
  const DEFAULT_VOLUME_SIZE: int := 16 * GIB
  const ZVOL_BLOCK: int := 16 * 1024
  const EXTENT_BLOCK: int := 512

  /** A size a volume can have. */
  type VolumeSize = n: int | MINIMUM_VOLUME_SIZE <= n <= INT64_MAX && n % GIB == 0 witness DEFAULT_VOLUME_SIZE

  datatype Range = Range(requiredBytes: Int64, limitBytes: Int64)

  datatype SizeError =
    | LimitBelowRequired
    | RequiredBelowMinimum
    | LimitBelowMinimum
    | LimitNotMultiple
    | RequiredNotMultiple

  /** What a requested range must look like to be served. A bound that is not positive is not set. */
  predicate Acceptable(range: Option<Range>) {
    range.Some? ==>
      var required, limit := range.value.requiredBytes, range.value.limitBytes;
      && (required > 0 ==> required % GIB == 0)
      && (limit > 0 ==> limit % GIB == 0)
      && (required > 0 && limit > 0 ==> required <= limit)
  }

  function ExtractStorage(range: Option<Range>): (r: Result<Int64, SizeError>)
    ensures r.Ok? <==> Acceptable(range)
    ensures r.Ok? ==> r.value >= MINIMUM_VOLUME_SIZE && r.value % GIB == 0
    ensures r.Ok? && range.Some? && range.value.requiredBytes > 0 ==> r.value == range.value.requiredBytes
    ensures r.Ok? && range.Some? && range.value.limitBytes > 0 ==> r.value <= range.value.limitBytes
    ensures r.Ok? && range.Some? && range.value.limitBytes > 0 && range.value.requiredBytes <= 0 ==>
      r.value == range.value.limitBytes
    ensures r.Ok? && (range.None? || (range.value.requiredBytes <= 0 && range.value.limitBytes <= 0)) ==>
      r.value == DEFAULT_VOLUME_SIZE
  {
    if range.None? then Ok(DEFAULT_VOLUME_SIZE)
    else
      var required, limit := range.value.requiredBytes, range.value.limitBytes;
      var requiredSet, limitSet := 0 < required, 0 < limit;
      if !requiredSet && !limitSet then Ok(DEFAULT_VOLUME_SIZE)
      else if requiredSet && limitSet && limit < required then Err(LimitBelowRequired)
      else if requiredSet && !limitSet && required < MINIMUM_VOLUME_SIZE then Err(RequiredBelowMinimum)
      else if limitSet && limit < MINIMUM_VOLUME_SIZE then Err(LimitBelowMinimum)
      else if limitSet && limit % GIB != 0 then Err(LimitNotMultiple)
      else if requiredSet && required % GIB != 0 then Err(RequiredNotMultiple)
      else if requiredSet && limitSet && required == limit then Ok(required)
      else if requiredSet then Ok(required)
      else Ok(limit)
  }

  /** Every size handed to the store fills whole zvol blocks and whole extent blocks. */
  lemma SizeFillsBlocks(range: Option<Range>)
    requires ExtractStorage(range).Ok?
    ensures ExtractStorage(range).value % ZVOL_BLOCK == 0
    ensures ExtractStorage(range).value % EXTENT_BLOCK == 0
  {
    WholeBlocks(ExtractStorage(range).value);
  }

  lemma WholeBlocks(size: int)
    requires size % GIB == 0
    ensures size % ZVOL_BLOCK == 0 && size % EXTENT_BLOCK == 0
  {
    var gibs := size / GIB;
    assert size == (gibs * 65536) * ZVOL_BLOCK;
    assert size == (gibs * 2097152) * EXTENT_BLOCK;
  }

  /** The sizes served, in plain numbers: whole GiBs, the limit not below what is required, 16 GiB by default. */
  lemma SizesServed(required: Int64, limit: Int64)
    ensures ExtractStorage(None) == Ok(17179869184)
    ensures
      var r := ExtractStorage(Some(Range(required, limit)));
      && (r.Ok? <==>
            && (required <= 0 || required % 1073741824 == 0) && (limit <= 0 || limit % 1073741824 == 0)
            && (required <= 0 || limit <= 0 || required <= limit))
      && (r.Ok? ==> r.value == if required > 0 then required else if limit > 0 then limit else 17179869184)
  {
  }
}
