/**
 * Item 8 (chapter2/item8_avoid_finalizers_and_cleaners): `FileResource`, a
 * closeable resource holding a simulated file buffer. It is open until
 * `close`, which releases the buffer; nothing reopens it. The console
 * messages are not modelled.
 */
module FileResources {
  import opened Lang

  const BYTES_PER_MB: int := 1024 * 1024

  /** `sizeInMB * 1024 * 1024` evaluated left to right in 32-bit `int` arithmetic. */
  function ContentSize(sizeInMB: int32): (r: int32)
    ensures r == Wrap(sizeInMB as int * BYTES_PER_MB)
  {
    var kilobytes := Mul32(sizeInMB, 1024);
    assert kilobytes as int * 1024 == 1024 * Wrap(sizeInMB as int * 1024) as int;
    WrapMul(1024, sizeInMB as int * 1024);
    Mul32(kilobytes, 1024)
  }

  /** Up to 2047 MB the size is exact. */
  lemma ContentSizeExact(sizeInMB: int32)
    requires 0 <= sizeInMB < 2048
    ensures ContentSize(sizeInMB) as int == sizeInMB as int * BYTES_PER_MB
  {
  }

  /**
   * From 2048 MB on the product overflows: 2048 MB wraps to a negative
   * size and 4096 MB to an empty buffer.
   */
  lemma ContentSizeOverflows()
    ensures ContentSize(2048) == -0x8000_0000
    ensures ContentSize(4096) == 0
  {
  }

  class FileResource {
    const filename: string
    var closed: bool
    var fileContent: array?<bv8>

    /** The buffer is held exactly while the resource is open. */
    ghost predicate Valid()
      reads this
    {
      closed <==> fileContent == null
    }

    /** The constructor once the buffer size is known to be valid. */
    constructor (filename: string, size: int32)
      requires size >= 0
      ensures Valid() && this.filename == filename && !closed
      ensures fileContent != null && fresh(fileContent) && fileContent.Length == size as int
    {
      this.filename := filename;
      closed := false;
      fileContent := new bv8[size];
    }

    /** `writeData()`: refused once closed; it changes nothing either way. */
    method WriteData() returns (r: Outcome)
      ensures closed ==> r == Fail(IllegalStateException)
      ensures !closed ==> r == Pass
    {
      if closed {
        return Fail(IllegalStateException);
      }
      r := Pass;
    }

    /** `close()`: the first call closes and releases the buffer; later calls do nothing. */
    method Close()
      requires Valid()
      modifies this
      ensures Valid() && closed && fileContent == null
      ensures old(closed) ==> unchanged(this)
    {
      if closed {
        return;
      }
      closed := true;
      fileContent := null;
    }
  }

  /**
   * `new FileResource(filename, sizeInMB)`: the buffer of
   * `sizeInMB * 1024 * 1024` bytes cannot be allocated when that `int` is
   * negative.
   */
  method NewFileResource(filename: string, sizeInMB: int32) returns (r: Result<FileResource>)
    ensures ContentSize(sizeInMB) < 0 <==> r == Err(NegativeArraySizeException)
    ensures r.Ok? ==> && fresh(r.value) && r.value.Valid() && !r.value.closed
                      && r.value.filename == filename
                      && r.value.fileContent != null && fresh(r.value.fileContent)
                      && r.value.fileContent.Length == ContentSize(sizeInMB) as int
  {
    var size := ContentSize(sizeInMB);
    if size < 0 {
      return Err(NegativeArraySizeException);
    }
    var resource := new FileResource(filename, size);
    r := Ok(resource);
  }

  /**
   * Write, close, close again, write: the first write passes, the second
   * close changes nothing, and the write after closing fails.
   */
  method WriteAfterClose() returns (before: Outcome, after: Outcome, closed: bool)
    ensures before == Pass && after == Fail(IllegalStateException) && closed
  {
    var resource := new FileResource("test.txt", ContentSize(1));
    before := resource.WriteData();
    resource.Close();
    resource.Close();
    after := resource.WriteData();
    closed := resource.closed;
  }
}
