/** Reading a stored object in chunks. Each read asks for an inclusive byte range, so a chunk
    holds one byte more than the chunk size says. */
module RangedReader {

  import opened Entities

  /** An inclusive byte range, as a Range header spells it. */
  datatype Request = Request(first: nat, last: nat)

  datatype Event = Chunk(bytes: seq<Byte>) | Unsatisfiable | End

  /** A range is satisfiable if its first byte is a byte of the object; what lies past the end is
      left off (section 2.1 of RFC 7233). */
  function Respond(body: seq<Byte>, r: Request): Event {
    if r.first < |body| && r.first <= r.last then
      Chunk(body[r.first..if r.last + 1 <= |body| then r.last + 1 else |body|])
    else Unsatisfiable
  }

  /** The range that the reader asks for at a position. */
  function RequestAt(pos: nat, maxLen: nat, chunkSize: nat): Request
    requires pos <= maxLen
  {
    Request(pos, if pos + chunkSize < maxLen then pos + chunkSize else maxLen)
  }

  /** All requests from a position on. */
  function Requests(pos: nat, maxLen: nat, chunkSize: nat): seq<Request>
    decreases maxLen + 1 - pos
  {
    if pos > maxLen then []
    else
      var r := RequestAt(pos, maxLen, chunkSize);
      [r] + Requests(r.last + 1, maxLen, chunkSize)
  }

  /** What a reader delivers before it ends or is destroyed, and whether it ends without an error. */
  datatype Reading = Reading(bytes: seq<Byte>, complete: bool)

  function Read(body: seq<Byte>, pos: nat, chunkSize: nat): Reading
    decreases |body| + 1 - pos
  {
    if pos > |body| then Reading([], true)
    else
      var r := RequestAt(pos, |body|, chunkSize);
      match Respond(body, r)
      case Chunk(bytes) =>
        var rest := Read(body, r.last + 1, chunkSize);
        Reading(bytes + rest.bytes, rest.complete)
      case _ => Reading([], false)
  }

  // ----- The requests -----

  /** How many whole chunks of `c` bytes fit into `n`, and what is left over. */
  function Whole(n: nat, c: nat): nat
    requires c > 0
  {
    n / c
  }

  function Rest(n: nat, c: nat): nat
    requires c > 0
  {
    n % c
  }

  function Times(k: nat, c: nat): nat { k * c }

  lemma TimesStep(k: nat, c: nat)
    ensures Times(0, c) == 0 && Times(k + 1, c) == Times(k, c) + c
  {
    assert (k + 1) * c == k * c + c;
  }

  lemma {:induction false} TimesGrows(j: nat, k: nat, c: nat)
    requires j <= k
    ensures Times(j, c) <= Times(k, c)
    decreases k
  {
    if j < k {
      hide Times;
      TimesGrows(j, k - 1, c);
      TimesStep(k - 1, c);
    }
  }

  lemma WholeAndRest(n: nat, c: nat)
    requires c > 0
    ensures n == Times(Whole(n, c), c) + Rest(n, c) && Rest(n, c) < c
  {
  }

  lemma WholeIsUnique(n: nat, c: nat, q: nat, r: nat)
    requires c > 0 && r < c && n == Times(q, c) + r
    ensures Whole(n, c) == q && Rest(n, c) == r
  {
    WholeAndRest(n, c);
    var q' := Whole(n, c);
    hide Times, Whole, Rest;
    if q' < q {
      TimesGrows(q' + 1, q, c);
      TimesStep(q', c);
    } else if q < q' {
      TimesGrows(q + 1, q', c);
      TimesStep(q, c);
    }
  }

  lemma OneChunkMore(n: nat, c: nat)
    requires c > 0
    ensures n < c ==> Whole(n, c) == 0 && Rest(n, c) == n
    ensures n >= c ==> Whole(n, c) == Whole(n - c, c) + 1 && Rest(n, c) == Rest(n - c, c)
  {
    hide Times, Whole, Rest;
    TimesStep(0, c);
    if n < c {
      WholeIsUnique(n, c, 0, n);
    } else {
      WholeAndRest(n - c, c);
      TimesStep(Whole(n - c, c), c);
      WholeIsUnique(n, c, Whole(n - c, c) + 1, Rest(n - c, c));
    }
  }

  /** Request number `k` starts k chunks behind the first. There are as many requests as the length
      has whole chunks, and one more. */
  lemma {:induction false} RequestsAreRegular(pos: nat, maxLen: nat, chunkSize: nat, k: nat)
    requires pos <= maxLen && k < |Requests(pos, maxLen, chunkSize)|
    ensures |Requests(pos, maxLen, chunkSize)| == Whole(maxLen - pos, chunkSize + 1) + 1
    ensures pos + Times(k, chunkSize + 1) <= maxLen
    ensures Requests(pos, maxLen, chunkSize)[k] == RequestAt(pos + Times(k, chunkSize + 1), maxLen, chunkSize)
    decreases maxLen + 1 - pos
  {
    hide Times, Whole;
    var c := chunkSize + 1;
    TimesStep(0, c);
    OneChunkMore(maxLen - pos, c);
    if pos + chunkSize < maxLen {
      assert Requests(pos, maxLen, chunkSize) == [RequestAt(pos, maxLen, chunkSize)] + Requests(pos + c, maxLen, chunkSize);
      RequestsAreRegular(pos + c, maxLen, chunkSize, if k == 0 then 0 else k - 1);
      if k > 0 { TimesStep(k - 1, c); }
    } else {
      assert Requests(maxLen + 1, maxLen, chunkSize) == [];
      if k == 0 { assert Times(k, c) == 0; }
    }
  }

  /** The requests start one behind the other, and the first starts at the first byte. */
  lemma RequestsAreContiguous(maxLen: nat, chunkSize: nat, k: nat)
    requires k < |Requests(0, maxLen, chunkSize)|
    ensures var rs := Requests(0, maxLen, chunkSize);
      && rs[0].first == 0 && rs[k].first <= rs[k].last <= maxLen
      && (k > 0 ==> rs[k].first == rs[k - 1].last + 1)
      && (k == |rs| - 1 <==> rs[k].last == maxLen)
  {
    hide Times, Whole, Rest;
    var c, n := chunkSize + 1, |Requests(0, maxLen, chunkSize)|;
    RequestsAreRegular(0, maxLen, chunkSize, 0);
    RequestsAreRegular(0, maxLen, chunkSize, k);
    TimesStep(0, c);
    if k > 0 {
      RequestsAreRegular(0, maxLen, chunkSize, k - 1);
      TimesStep(k - 1, c);
    }
    WholeAndRest(maxLen, c);
    TimesStep(k, c);
    if k < n - 1 { TimesGrows(k + 1, n - 1, c); }
  }

  // ----- What is delivered -----

  /** The reader delivers every byte from its position on, and then ends without an error unless
      its last request starts exactly at the end of the object. */
  lemma {:induction false} ReadFrom(body: seq<Byte>, pos: nat, chunkSize: nat)
    requires pos <= |body|
    ensures Read(body, pos, chunkSize).bytes == body[pos..]
    ensures Read(body, pos, chunkSize).complete <==> Rest(|body| - pos, chunkSize + 1) != 0
    decreases |body| + 1 - pos
  {
    hide Rest, Whole;
    var c := chunkSize + 1;
    OneChunkMore(|body| - pos, c);
    if pos == |body| {
    } else if pos + chunkSize < |body| {
      ReadFrom(body, pos + c, chunkSize);
      assert body[pos..pos + c] + body[pos + c..] == body[pos..];
    } else {
      assert Read(body, |body| + 1, chunkSize) == Reading([], true);
      assert body[pos..|body|] == body[pos..];
    }
  }

  /** An object is read whole and without an error exactly when one more than the chunk size does
      not divide its length. Otherwise (the empty object included) every byte is delivered, and
      then the last request, which starts at the very end, is refused. */
  lemma ReaderIsExact(body: seq<Byte>, chunkSize: nat)
    ensures Read(body, 0, chunkSize).bytes == body
    ensures Read(body, 0, chunkSize).complete <==> |body| % (chunkSize + 1) != 0
    ensures |Requests(0, |body|, chunkSize)| == |body| / (chunkSize + 1) + 1
  {
    ReadFrom(body, 0, chunkSize);
    assert Requests(0, |body|, chunkSize) != [];
    RequestsAreRegular(0, |body|, chunkSize, 0);
  }

  /** Only the last request can be refused, and it is refused exactly when it starts at the end. */
  lemma OnlyTheLastRequestIsRefused(body: seq<Byte>, chunkSize: nat, k: nat)
    requires k < |Requests(0, |body|, chunkSize)|
    ensures var rs := Requests(0, |body|, chunkSize);
      Respond(body, rs[k]).Unsatisfiable? <==> k == |rs| - 1 && |body| % (chunkSize + 1) == 0
  {
    var rs := Requests(0, |body|, chunkSize);
    RequestsAreContiguous(|body|, chunkSize, k);
    RequestsAreRegular(0, |body|, chunkSize, k);
    WholeAndRest(|body|, chunkSize + 1);
    assert Rest(|body|, chunkSize + 1) == |body| % (chunkSize + 1);
    hide Times, Whole, Rest;
    if k < |rs| - 1 {
      TimesGrows(k + 1, |rs| - 1, chunkSize + 1);
      TimesStep(k, chunkSize + 1);
    }
  }

  // ----- The stream object -----

  class InteractiveS3Stream {
    var currPos: nat
    const chunkSize: nat
    const maxLen: nat

    constructor (maxLen: nat, chunkSize: nat)
      ensures currPos == 0 && this.maxLen == maxLen && this.chunkSize == chunkSize
    {
      currPos, this.maxLen, this.chunkSize := 0, maxLen, chunkSize;
    }

    /** What is left to come terminates the reader. */
    function Left(): nat
      reads this`currPos
    {
      if currPos <= maxLen then maxLen + 1 - currPos else 0
    }

    /** One pull of the consumer: at most one request, answered from the object. */
    method ReadNext(body: seq<Byte>) returns (e: Event)
      requires |body| == maxLen
      modifies this`currPos
      ensures old(currPos) > maxLen ==> e == End && currPos == old(currPos)
      ensures old(currPos) <= maxLen ==>
        && e == Respond(body, RequestAt(old(currPos), maxLen, chunkSize)) && Left() < old(Left())
      ensures var before, after := Read(body, old(currPos), chunkSize), Read(body, currPos, chunkSize);
        match e
        case Chunk(bytes) => before == Reading(bytes + after.bytes, after.complete)
        case Unsatisfiable => before == Reading([], false)
        case End => before == Reading([], true)
    {
      if currPos > maxLen {
        return End;
      }
      var maybeRange := currPos + chunkSize;
      var rangeToApply := if maybeRange < maxLen then maybeRange else maxLen;
      e := Respond(body, Request(currPos, rangeToApply));
      currPos := rangeToApply + 1;
    }
  }
}
