/** The byte counters a network-statistics summary reports, and the running
    sum every usage getter of the application computes over them. */
module Buckets {

  /** One `NetworkStats.Bucket`: the UID its traffic is attributed to and the
      bytes received and transmitted in the queried window. */
  datatype Bucket = Bucket(uid: int, rxBytes: int, txBytes: int)

  /** The divisor of the `/ (1024 * 1024)` byte-to-megabyte conversion. */
  const BYTES_PER_MB: int := 1024 * 1024

  function Bytes(b: Bucket): int {
    b.rxBytes + b.txBytes
  }

  /** Sum of rxBytes + txBytes over the buckets, in the order a summary
      cursor hands them out (defined on the last bucket, so that a loop over
      a growing prefix extends it one step at a time). */
  function TotalBytes(buckets: seq<Bucket>): int {
    if buckets == [] then 0
    else TotalBytes(buckets[..|buckets| - 1]) + Bytes(buckets[|buckets| - 1])
  }

  /** The platform never reports negative counters. */
  predicate NonNegative(buckets: seq<Bucket>) {
    forall i :: 0 <= i < |buckets| ==> buckets[i].rxBytes >= 0 && buckets[i].txBytes >= 0
  }

  /** Splitting a summary into two consecutive parts splits its total. */
  lemma {:induction false} TotalBytesAppend(a: seq<Bucket>, b: seq<Bucket>)
    ensures TotalBytes(a + b) == TotalBytes(a) + TotalBytes(b)
  {
    if b == [] {
      assert a + b == a;
    } else {
      var front := b[..|b| - 1];
      assert (a + b)[..|a + b| - 1] == a + front;
      assert (a + b)[|a + b| - 1] == b[|b| - 1];
      TotalBytesAppend(a, front);
    }
  }

  /** A sum of non-negative counters is never negative. */
  lemma {:induction false} TotalBytesNonNegative(buckets: seq<Bucket>)
    requires NonNegative(buckets)
    ensures TotalBytes(buckets) >= 0
  {
    if buckets != [] {
      var front := buckets[..|buckets| - 1];
      assert NonNegative(front) by {
        forall i | 0 <= i < |front| ensures front[i] == buckets[i] { }
      }
      TotalBytesNonNegative(front);
    }
  }

  /** Bytes to megabytes: `bytes.toDouble() / (1024 * 1024)`, exactly. */
  function ToMB(bytes: int): (mb: real)
    ensures mb * (BYTES_PER_MB as real) == bytes as real
    ensures bytes >= 0 ==> mb >= 0.0
  {
    bytes as real / BYTES_PER_MB as real
  }

  /** The `totalBytes += bucket.rxBytes + bucket.txBytes` loop over a
      summary cursor. */
  method SumBytes(buckets: seq<Bucket>) returns (totalBytes: int)
    ensures totalBytes == TotalBytes(buckets)
  {
    totalBytes := 0;
    var i := 0;
    while i < |buckets|
      invariant 0 <= i <= |buckets|
      invariant totalBytes == TotalBytes(buckets[..i])
    {
      assert buckets[..i + 1][..i] == buckets[..i];
      totalBytes := totalBytes + buckets[i].rxBytes + buckets[i].txBytes;
      i := i + 1;
    }
    assert buckets[..i] == buckets;
  }
}
