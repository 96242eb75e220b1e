/**
 dispatcher/poll/loop.go and pzsvc/http.go: how much disk and memory a task is given, from the
 sizes S3 reports for the job's input files.
 */
module Sizing {
  import opened Common

  /** What a HEAD request to S3 comes back with. */
  datatype HeadReply = RequestFailed | Reply(status: string, contentLength: string)

  const BYTES_PER_MB := 1000000
  const MIN_INT := -0x8000_0000_0000_0000
  const MAX_INT := 0x7FFF_FFFF_FFFF_FFFF

  predicate IsDigit(c: char) { '0' <= c <= '9' }

  function DigitsValue(s: string): nat
    requires forall i :: 0 <= i < |s| ==> IsDigit(s[i])
  {
    if s == "" then 0
    else
      assert IsDigit(s[|s| - 1]);
      10 * DigitsValue(s[..|s| - 1]) + (s[|s| - 1] as int - '0' as int)
  }

  /** strconv.Atoi on a 64-bit machine: an optional sign, then one or more digits, in range. */
  function Atoi(s: string): Option<int> {
    var digits := if s != "" && (s[0] == '+' || s[0] == '-') then s[1..] else s;
    if digits == "" || exists i :: 0 <= i < |digits| && !IsDigit(digits[i]) then None
    else
      var size: int := DigitsValue(digits);
      var v := if s[0] == '-' then -size else size;
      if MIN_INT <= v <= MAX_INT then Some(v) else None
  }

  /** The decimal digits of a number. */
  function Decimal(n: nat): (s: string)
    ensures s != "" && forall i :: 0 <= i < |s| ==> IsDigit(s[i])
  {
    var last := "0123456789"[n % 10];
    if n < 10 then [last] else Decimal(n / 10) + [last]
  }

  lemma {:induction false} DigitsOfDecimal(n: nat)
    ensures DigitsValue(Decimal(n)) == n
  {
    var s := Decimal(n);
    assert s[|s| - 1] as int - '0' as int == n % 10;
    if n < 10 {
      assert s[..|s| - 1] == "";
    } else {
      DigitsOfDecimal(n / 10);
      assert s[..|s| - 1] == Decimal(n / 10);
    }
  }

  /** What digits behind an optional sign are read as. */
  lemma AtoiOfDigits(sign: string, s: string)
    requires sign == "" || sign == "+" || sign == "-"
    requires s != "" && forall i :: 0 <= i < |s| ==> IsDigit(s[i])
    ensures
      var v: int := if sign == "-" then 0 - DigitsValue(s) else DigitsValue(s);
      Atoi(sign + s) == if MIN_INT <= v <= MAX_INT then Some(v) else None
  {
    var t := sign + s;
    if sign == "" {
      assert t == s && IsDigit(s[0]);
    } else {
      assert t[0] == sign[0] && t[1..] == s;
    }
  }

  /** Numbers that fit are read back from their decimal digits, with any sign. */
  lemma AtoiReadsDecimal(n: nat)
    ensures n <= MAX_INT ==> Atoi("" + Decimal(n)) == Some(n) && Atoi("+" + Decimal(n)) == Some(n)
    ensures n > MAX_INT ==> Atoi("" + Decimal(n)) == None
    ensures n <= MAX_INT + 1 ==> Atoi("-" + Decimal(n)).Some? && Atoi("-" + Decimal(n)).value + n == 0
  {
    DigitsOfDecimal(n);
    AtoiOfDigits("", Decimal(n));
    AtoiOfDigits("+", Decimal(n));
    AtoiOfDigits("-", Decimal(n));
  }

  /** Go's integer division by a positive number: rounds towards zero. */
  function TruncDiv(a: int, b: int): int
    requires b > 0
  {
    if a >= 0 then a / b else -((-a) / b)
  }

  /** The number of bytes the reply reports, when it reports one. */
  function ReportedBytes(reply: HeadReply): Option<int> {
    if reply.RequestFailed? || reply.status != "200 OK" || reply.contentLength == "" then None
    else Atoi(reply.contentLength)
  }

  function SizeMB(reply: HeadReply): Result<int> {
    match ReportedBytes(reply)
    case Some(n) => Success(TruncDiv(n, BYTES_PER_MB))
    case None => Failure(SizeError(reply))
  }

  function SizeError(reply: HeadReply): string
    requires ReportedBytes(reply).None?
  {
    if reply.RequestFailed? then "Error during HEAD request to S3 Service."
    else if reply.status != "200 OK" then "Non-OK HTTP Status received from S3 Service HEAD request: " + reply.status
    else if reply.contentLength == "" then "No content-length header found in S3 HEAD request."
    else "Content-Length Header from S3 HEAD Request is not a number."
  }

  /** The size is reported in whole megabytes: never more than the file, less than one megabyte short. */
  method GetS3FileSizeInMegabytes(reply: HeadReply) returns (r: Result<int>)
    ensures r == SizeMB(reply)
    ensures r.Failure? ==>
              r.error == if reply.RequestFailed? then "Error during HEAD request to S3 Service."
                         else if reply.status != "200 OK" then
                           "Non-OK HTTP Status received from S3 Service HEAD request: " + reply.status
                         else if reply.contentLength == "" then
                           "No content-length header found in S3 HEAD request."
                         else "Content-Length Header from S3 HEAD Request is not a number."
    ensures r.Success? ==>
              && var n := ReportedBytes(reply).value;
              && (n >= 0 ==> BYTES_PER_MB * r.value <= n < BYTES_PER_MB * (r.value + 1))
              && (n <= 0 ==> BYTES_PER_MB * (r.value - 1) < n <= BYTES_PER_MB * r.value)
  {
    if reply.RequestFailed? {
      return Failure("Error during HEAD request to S3 Service.");
    }
    if reply.status != "200 OK" {
      return Failure("Non-OK HTTP Status received from S3 Service HEAD request: " + reply.status);
    }
    if reply.contentLength == "" {
      return Failure("No content-length header found in S3 HEAD request.");
    }
    var fileSize := Atoi(reply.contentLength);
    if fileSize.None? {
      return Failure("Content-Length Header from S3 HEAD Request is not a number.");
    }
    return Success(TruncDiv(fileSize.value, 1000000));
  }

  predicate Sized(url: string, head: string -> HeadReply) {
    Contains(url, "amazonaws") && SizeMB(head(url)).Success?
  }

  /** A file has a size exactly if "amazonaws" is somewhere in its URL and S3 answers 200 OK with a number. */
  lemma SizedExactly(url: string, head: string -> HeadReply)
    ensures Sized(url, head) <==>
              && (exists a, b: string :: url == a + "amazonaws" + b)
              && head(url).Reply? && head(url).status == "200 OK" && Atoi(head(url).contentLength).Some?
    ensures Sized(url, head) ==> Bytes(url, head) == Atoi(head(url).contentLength).value
  {
    ContainsExactly(url, "amazonaws");
  }

  function MB(url: string, head: string -> HeadReply): int {
    if Sized(url, head) then SizeMB(head(url)).value else 0
  }

  function Bytes(url: string, head: string -> HeadReply): int {
    if Sized(url, head) then ReportedBytes(head(url)).value else 0
  }

  predicate AllSized(urls: seq<string>, head: string -> HeadReply) {
    forall i :: 0 <= i < |urls| ==> Sized(urls[i], head)
  }

  function Sum(urls: seq<string>, measure: string -> int): int {
    if urls == [] then 0 else Sum(urls[..|urls| - 1], measure) + measure(urls[|urls| - 1])
  }

  function TotalMB(urls: seq<string>, head: string -> HeadReply): int {
    Sum(urls, u => MB(u, head))
  }

  function TotalBytes(urls: seq<string>, head: string -> HeadReply): int {
    Sum(urls, u => Bytes(u, head))
  }

  /** All or nothing: the sum of the sizes if every file has one, else 0. */
  function EstimateMB(urls: seq<string>, head: string -> HeadReply): int {
    if AllSized(urls, head) then TotalMB(urls, head) else 0
  }

  method CalculateAWSInputFileSizeMB(urls: seq<string>, head: string -> HeadReply) returns (total: int)
    ensures total == EstimateMB(urls, head)
    ensures !AllSized(urls, head) ==> total == 0
  {
    total := 0;
    for i := 0 to |urls|
      invariant AllSized(urls[..i], head)
      invariant total == TotalMB(urls[..i], head)
    {
      assert urls[..i + 1][..i] == urls[..i];
      if Contains(urls[i], "amazonaws") {
        var fileSize := GetS3FileSizeInMegabytes(head(urls[i]));
        if fileSize.Success? {
          total := total + fileSize.value;
        } else {
          assert !Sized(urls[i], head);
          return 0;
        }
      } else {
        assert !Sized(urls[i], head);
        return 0;
      }
    }
    assert urls[..|urls|] == urls;
  }

  /** The estimate file by file: whole megabytes, rounded towards zero; one file without a size, and it is 0. */
  lemma EstimateByFile(urls: seq<string>, url: string, head: string -> HeadReply)
    ensures EstimateMB([], head) == 0
    ensures !Sized(url, head) ==> EstimateMB(urls + [url], head) == 0
    ensures AllSized(urls + [url], head) ==>
              && AllSized(urls, head)
              && var n := Bytes(url, head);
              && (n >= 0 ==> EstimateMB(urls + [url], head) == EstimateMB(urls, head) + n / 1000000)
              && (n < 0 ==> EstimateMB(urls + [url], head) == EstimateMB(urls, head) - (-n) / 1000000)
  {
    assert (urls + [url])[|urls|] == url && (urls + [url])[..|urls|] == urls;
    if AllSized(urls + [url], head) {
      assert forall i :: 0 <= i < |urls| ==> Sized((urls + [url])[i], head);
    }
  }

  // ---- order does not matter ----

  lemma {:induction false} SumAppend(a: seq<string>, b: seq<string>, m: string -> int)
    ensures Sum(a + b, m) == Sum(a, m) + Sum(b, m)
  {
    if b == [] {
      assert a + b == a;
    } else {
      assert (a + b)[..|a + b| - 1] == a + b[..|b| - 1];
      SumAppend(a, b[..|b| - 1], m);
    }
  }

  lemma {:induction false} SumPermuted(a: seq<string>, b: seq<string>, m: string -> int)
    requires multiset(a) == multiset(b)
    ensures Sum(a, m) == Sum(b, m)
    decreases |a|
  {
    assert |a| == |multiset(a)| && |b| == |multiset(b)|;
    if a != [] {
      var init, u := a[..|a| - 1], a[|a| - 1];
      assert a == init + [u];
      assert u in multiset(a) && u in multiset(b);
      var k :| 0 <= k < |b| && b[k] == u;
      var b' := b[..k] + b[k + 1..];
      assert b == b[..k] + [u] + b[k + 1..];
      assert multiset(init) == multiset(a) - multiset{u} == multiset(b) - multiset{u} == multiset(b');
      SumPermuted(init, b', m);
      SumAppend(b[..k] + [u], b[k + 1..], m);
      SumAppend(b[..k], [u], m);
      SumAppend(b[..k], b[k + 1..], m);
      assert [u][..0] == [];
    }
  }

  lemma EstimatePermuted(a: seq<string>, b: seq<string>, head: string -> HeadReply)
    requires multiset(a) == multiset(b)
    ensures EstimateMB(a, head) == EstimateMB(b, head)
  {
    SumPermuted(a, b, u => MB(u, head));
    assert AllSized(a, head) == (forall u :: u in multiset(a) ==> Sized(u, head));
    assert AllSized(b, head) == (forall u :: u in multiset(b) ==> Sized(u, head));
  }

  // ---- how far the estimate is from the true size ----

  /** Rounding each file towards zero loses less than one megabyte per file, on either side. */
  lemma {:induction false} TotalsWithinRounding(urls: seq<string>, head: string -> HeadReply)
    ensures -(BYTES_PER_MB - 1) * |urls|
         <= TotalBytes(urls, head) - BYTES_PER_MB * TotalMB(urls, head)
         <= (BYTES_PER_MB - 1) * |urls|
    ensures (forall i :: 0 <= i < |urls| ==> Bytes(urls[i], head) >= 0) ==>
              0 <= TotalBytes(urls, head) - BYTES_PER_MB * TotalMB(urls, head) && 0 <= TotalMB(urls, head)
  {
    if urls != [] {
      var init, u := urls[..|urls| - 1], urls[|urls| - 1];
      TotalsWithinRounding(init, head);
      assert forall i :: 0 <= i < |init| ==> init[i] == urls[i];
      var n := Bytes(u, head);
      assert MB(u, head) == TruncDiv(n, BYTES_PER_MB);
    }
  }

  /** For files of known, non-negative size the total is at most n - 1 megabytes too small, never too large. */
  lemma EstimateErrorBound(urls: seq<string>, head: string -> HeadReply)
    requires urls != [] && AllSized(urls, head)
    requires forall i :: 0 <= i < |urls| ==> Bytes(urls[i], head) >= 0
    ensures EstimateMB(urls, head) <= TotalBytes(urls, head) / BYTES_PER_MB
                                   <= EstimateMB(urls, head) + |urls| - 1
  {
    TotalsWithinRounding(urls, head);
    var b, t, n := TotalBytes(urls, head), EstimateMB(urls, head), |urls|;
    assert b < BYTES_PER_MB * (t + n);
  }

  function Copies(url: string, n: nat): (urls: seq<string>)
    ensures |urls| == n
  {
    if n == 0 then [] else Copies(url, n - 1) + [url]
  }

  lemma {:induction false} SumOfCopies(url: string, n: nat, m: string -> int)
    ensures Sum(Copies(url, n), m) == n * m(url)
  {
    if n > 0 {
      assert Copies(url, n)[..n - 1] == Copies(url, n - 1);
      SumOfCopies(url, n - 1, m);
      assert n * m(url) == (n - 1) * m(url) + m(url);
    }
  }

  /** The bound is met: n files one byte short of a megabyte lose n - 1 whole megabytes. */
  lemma ErrorBoundIsMet(url: string, n: nat, head: string -> HeadReply)
    requires 1 <= n <= BYTES_PER_MB
    requires Sized(url, head) && Bytes(url, head) == BYTES_PER_MB - 1
    ensures TotalMB(Copies(url, n), head) == 0
    ensures TotalBytes(Copies(url, n), head) / BYTES_PER_MB == n - 1
  {
    SumOfCopies(url, n, u => MB(u, head));
    SumOfCopies(url, n, u => Bytes(u, head));
    assert MB(url, head) == 0;
    MillionMinusOne(n);
  }

  lemma MillionMinusOne(n: nat)
    ensures n * (BYTES_PER_MB - 1) == 999999 * n
    ensures 1 <= n <= BYTES_PER_MB ==> 999999 * n / BYTES_PER_MB == n - 1
  {
  }

  // ---- limits ----

  const DEFAULT_TASK_DISK_MB := 6142

  method CalculateDiskAndMemoryLimits(
    urls: seq<string>, head: string -> HeadReply, defaultDiskMB: int, defaultMemoryMB: int)
    returns (diskMB: int, memoryMB: int)
    ensures diskMB == DiskMB(EstimateMB(urls, head), defaultDiskMB)
    ensures memoryMB == MemoryMB(EstimateMB(urls, head), defaultMemoryMB)
    ensures EstimateMB(urls, head) <= 0 ==> diskMB == defaultDiskMB && memoryMB == defaultMemoryMB
    ensures EstimateMB(urls, head) > 0 ==>
              && diskMB == 4096 + 2 * EstimateMB(urls, head)
              && memoryMB == defaultMemoryMB + 5 * EstimateMB(urls, head)
    ensures memoryMB >= defaultMemoryMB
  {
    diskMB, memoryMB := defaultDiskMB, defaultMemoryMB;
    var inputSize := CalculateAWSInputFileSizeMB(urls, head);
    if inputSize > 0 {
      diskMB := 4096 + inputSize * 2;
      memoryMB := memoryMB + inputSize * 5;
    }
  }

  function DiskMB(inputSize: int, defaultDiskMB: int): int {
    if inputSize > 0 then 4096 + inputSize * 2 else defaultDiskMB
  }

  function MemoryMB(inputSize: int, defaultMemoryMB: int): int {
    if inputSize > 0 then defaultMemoryMB + inputSize * 5 else defaultMemoryMB
  }

  /**
   With files of known size, the limits grow with the estimate and fall short of the limits for the
   true size by at most 2 and 5 megabytes for every file but one.
   */
  lemma LimitsTrackTrueSize(urls: seq<string>, head: string -> HeadReply, defaultDiskMB: int, defaultMemoryMB: int)
    requires urls != [] && AllSized(urls, head) && EstimateMB(urls, head) > 0
    requires forall i :: 0 <= i < |urls| ==> Bytes(urls[i], head) >= 0
    ensures
      var t, trueMB := EstimateMB(urls, head), TotalBytes(urls, head) / BYTES_PER_MB;
      && 0 <= DiskMB(trueMB, defaultDiskMB) - DiskMB(t, defaultDiskMB) <= 2 * (|urls| - 1)
      && 0 <= MemoryMB(trueMB, defaultMemoryMB) - MemoryMB(t, defaultMemoryMB) <= 5 * (|urls| - 1)
      && (forall s :: 0 < s < t ==> DiskMB(s, defaultDiskMB) < DiskMB(t, defaultDiskMB))
      && (forall s :: 0 < s < t ==> MemoryMB(s, defaultMemoryMB) < MemoryMB(t, defaultMemoryMB))
  {
    EstimateErrorBound(urls, head);
  }

  /** Asking S3 can shrink the disk: below 1023 MB of input the task gets less than the default. */
  lemma DynamicDiskBelowDefault(t: int)
    requires t > 0
    ensures DiskMB(t, DEFAULT_TASK_DISK_MB) >= DEFAULT_TASK_DISK_MB <==> t >= 1023
  {
  }

  // ---- machine integers ----

  lemma {:induction false} SumMagnitude(urls: seq<string>, head: string -> HeadReply)
    ensures -9223372036854 * |urls| <= TotalMB(urls, head) <= 9223372036854 * |urls|
  {
    if urls != [] {
      SumMagnitude(urls[..|urls| - 1], head);
      var u := urls[|urls| - 1];
      if Sized(u, head) {
        assert MIN_INT <= ReportedBytes(head(u)).value <= MAX_INT;
      }
    }
  }

  /** Up to 199000 input files, no 64-bit integer of the computation wraps around. */
  lemma NoWrapAround(urls: seq<string>, k: nat, head: string -> HeadReply, defaultMemoryMB: int)
    requires k <= |urls| <= 199000
    requires 0 < defaultMemoryMB < 0x8000_0000
    ensures MIN_INT <= TotalMB(urls[..k], head) <= MAX_INT
    ensures MIN_INT <= 4096 + 2 * EstimateMB(urls, head) <= MAX_INT
    ensures MIN_INT <= defaultMemoryMB + 5 * EstimateMB(urls, head) <= MAX_INT
  {
    SumMagnitude(urls[..k], head);
    SumMagnitude(urls, head);
  }
}
