/** `RequestCodeGenerator`: a counter that hands out request codes 1, 2, ...,
    999999 and then starts again at 1. The two modules of the repository hold
    identical copies of it; each copy is one object of the class below. */
module RequestCodes {
  import opened Base

  const MAX_REQUEST_CODE: int32 := 999999

  /** The code `generate()` returns when the counter holds `last`. */
  function NextCode(last: int32): (code: int32)
    ensures 0 <= last ==> 1 <= code <= MAX_REQUEST_CODE
    ensures 0 <= last ==> code as int == last as int + 1 || code == 1
  {
    if last >= MAX_REQUEST_CODE then 1 else last + 1
  }

  /** The counter after `k` calls of `generate()` starting from `last`. */
  function CodeAfter(last: int32, k: nat): int32
  {
    if k == 0 then last else NextCode(CodeAfter(last, k - 1))
  }

  /** Starting from the initial counter 0, the k-th code of a cycle is k. */
  lemma {:induction false} CodesFromZero(k: nat)
    requires k <= MAX_REQUEST_CODE as nat
    ensures CodeAfter(0, k) == k as int32
  {
    if k > 0 {
      CodesFromZero(k - 1);
    }
  }

  /** Call MAX_REQUEST_CODE + 1 wraps around to 1, and from then on the codes
      repeat with period MAX_REQUEST_CODE. */
  lemma {:induction false} CodesWrapAround(k: nat)
    requires 1 <= k
    ensures CodeAfter(0, MAX_REQUEST_CODE as nat + k) == CodeAfter(0, k)
  {
    if k == 1 {
      CodesFromZero(MAX_REQUEST_CODE as nat);
    } else {
      CodesWrapAround(k - 1);
    }
  }

  /** Within one cycle no code is handed out twice. */
  lemma CodesDistinctWithinCycle(i: nat, j: nat)
    requires 1 <= i < j <= MAX_REQUEST_CODE as nat
    ensures CodeAfter(0, i) != CodeAfter(0, j)
  {
    CodesFromZero(i);
    CodesFromZero(j);
  }

  /** Two consecutive codes differ by one unless the second call wraps around. */
  lemma ConsecutiveCodes(last: int32)
    requires 0 <= last
    requires NextCode(last) < MAX_REQUEST_CODE
    ensures NextCode(NextCode(last)) == NextCode(last) + 1
  {
  }

  class RequestCodeGenerator {
    /** `lastRequestCode`: the code handed out last, 0 before the first call. */
    var lastRequestCode: int32

    ghost predicate Valid()
      reads this
    {
      0 <= lastRequestCode <= MAX_REQUEST_CODE
    }

    constructor ()
      ensures Valid() && lastRequestCode == 0
    {
      lastRequestCode := 0;
    }

    /** `generate()`: reset the counter once it has reached the ceiling, then
        pre-increment it and return it. */
    method Generate() returns (code: int32)
      modifies this
      ensures code == lastRequestCode == NextCode(old(lastRequestCode))
      ensures old(lastRequestCode) < MAX_REQUEST_CODE ==> code == old(lastRequestCode) + 1
      ensures old(lastRequestCode) >= MAX_REQUEST_CODE ==> code == 1
      ensures old(Valid()) ==> Valid() && 1 <= code <= MAX_REQUEST_CODE
    {
      if lastRequestCode >= MAX_REQUEST_CODE {
        lastRequestCode := 0;
      }
      lastRequestCode := lastRequestCode + 1;
      code := lastRequestCode;
    }
  }
}
