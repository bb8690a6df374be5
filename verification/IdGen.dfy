/** JsonRequest.IdGen: request ids from a wrapping 32-bit counter. */
module IdGen {
  const LIMIT := 0x8000_0000

  /** The value `x + 1` of a Java int. */
  function Increment(x: int): int
    requires -LIMIT <= x < LIMIT
  {
    if x == LIMIT - 1 then -LIMIT else x + 1
  }

  /** nextId: the counter and the id returned, from counter c. */
  function Step(c: int): (r: (int, int))
    requires -LIMIT <= c < LIMIT
    ensures -LIMIT <= r.0 < LIMIT
  {
    if c < 0 then (1, 1) else (Increment(c), c)
  }

  /** The counter after n calls. */
  function Counter(n: nat): (c: int)
    ensures -LIMIT <= c < LIMIT
  {
    if n == 0 then 0 else Step(Counter(n - 1)).0
  }

  /** What call number n returns, counting from 0. */
  function Id(n: nat): int { Step(Counter(n)).1 }

  lemma {:induction false} CounterIs(n: nat)
    ensures Counter(n) == if n > 0 && n % LIMIT == 0 then -LIMIT else n % LIMIT
  {
    if n > 0 {
      CounterIs(n - 1);
    }
  }

  /** Call n returns n while that fits, and n mod 2^31 after that, with 1 in the place of 0. */
  lemma IdIs(n: nat)
    ensures Id(n) == if n <= 2147483647 then n else if n % 2147483648 == 0 then 1 else n % 2147483648
    ensures 0 <= Id(n) <= 2147483647
  {
    CounterIs(n);
  }

  /** Ids fewer than 2^31 - 1 calls apart are equal only in the pair of consecutive calls at a wrap. */
  lemma EqualIds(m: nat, n: nat)
    requires m < n < m + 2147483647
    ensures Id(m) == Id(n) <==> n == m + 1 && m > 0 && m % 2147483648 == 0
  {
    IdIs(m);
    IdIs(n);
    Remainders(m, n);
  }

  lemma Remainders(m: nat, n: nat)
    requires m < n < m + LIMIT
    ensures n % LIMIT == if m % LIMIT + (n - m) < LIMIT then m % LIMIT + (n - m) else m % LIMIT + (n - m) - LIMIT
  {
    var q, r := m / LIMIT, m % LIMIT;
    assert m == q * LIMIT + r;
    if r + (n - m) < LIMIT {
      assert n == q * LIMIT + (r + (n - m));
    } else {
      assert n == (q + 1) * LIMIT + (r + (n - m) - LIMIT);
    }
  }

  /** The distance is as large as it can be: from every wrap on, 1 comes back 2^31 - 1 calls later. */
  lemma RepeatsAtWraps(k: nat)
    requires k > 0
    ensures Id((k - 1) * 2147483648 + 1) == Id(k * 2147483648) == 1
  {
    IdIs((k - 1) * LIMIT + 1);
    IdIs(k * LIMIT);
    assert (k * LIMIT) % LIMIT == 0 && k * LIMIT >= LIMIT;
    assert ((k - 1) * LIMIT + 1) % LIMIT == 1;
  }

  class Generator {
    var id: int            // the AtomicInteger
    ghost var calls: nat

    ghost predicate Valid()
      reads this
    {
      id == Counter(calls)
    }

    constructor ()
      ensures Valid() && calls == 0
    {
      id, calls := 0, 0;
    }

    /** nextId */
    method NextId() returns (next: int)
      requires Valid()
      modifies this
      ensures Valid() && calls == old(calls) + 1 && next == Id(old(calls))
    {
      next := id;
      id := Increment(id);
      if next < 0 {
        next := 1;
        id := next;
      }
      calls := calls + 1;
    }
  }
}
