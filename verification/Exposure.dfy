/**
 What calls in flight can still cost.
 */
module Exposure {
  /** `n` calls at the most a call can cost. */
  function Worth(n: nat, most: real): real {
    if n == 0 then 0.0 else Worth(n - 1, most) + most
  }

  lemma {:induction false} WorthIs(n: nat, most: real)
    ensures Worth(n, most) == n as real * most
  {
    if n > 0 {
      WorthIs(n - 1, most);
      assert n as real * most == (n - 1) as real * most + most;
    }
  }

  lemma {:induction false} WorthMonotone(m: nat, n: nat, most: real)
    requires m <= n && most >= 0.0
    ensures Worth(m, most) <= Worth(n, most)
  {
    if m < n {
      WorthMonotone(m, n - 1, most);
    }
  }
}
