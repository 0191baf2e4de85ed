/** Small building blocks shared by the scanner model: an optional value,
    the "append only the present results" filter used by both scan loops,
    and the integer progress percentage. */
module Base {

  datatype Option<+T> = None | Some(value: T)

  /** The value of a request field, or its default when the field is absent. */
  function OrElse<T>(o: Option<T>, default: T): T
  {
    if o.Some? then o.value else default
  }

  /** The present values of `s`, in order. Both scan loops append a host's
      result only when it is not `None`. */
  function Somes<T>(s: seq<Option<T>>): (r: seq<T>)
    ensures |r| <= |s|
    decreases |s|
  {
    if s == [] then []
    else Somes(s[..|s| - 1]) + (if s[|s| - 1].Some? then [s[|s| - 1].value] else [])
  }

  /** A value is kept exactly when it was present somewhere in the input. */
  lemma {:induction false} SomesMembership<T>(s: seq<Option<T>>, x: T)
    ensures x in Somes(s) <==> Some(x) in s
    decreases |s|
  {
    if s != [] {
      var init := s[..|s| - 1];
      SomesMembership(init, x);
      assert s == init + [s[|s| - 1]];
    }
  }

  /** Extending the input by its next element extends the kept values by
      that element when it is present. */
  lemma SomesStep<T>(s: seq<Option<T>>, i: nat)
    requires i < |s|
    ensures Somes(s[..i + 1]) == Somes(s[..i]) + (if s[i].Some? then [s[i].value] else [])
  {
    assert s[..i + 1][..i] == s[..i];
  }

  /** `int(scanned / total * 100)` on integers: the floor of the percentage. */
  function Percent(scanned: nat, total: nat): (p: nat)
    requires total > 0
    ensures scanned <= total ==> p <= 100
    ensures scanned == total ==> p == 100
  {
    PercentBounds(scanned, total);
    scanned * 100 / total
  }

  lemma PercentBounds(scanned: nat, total: nat)
    requires total > 0
    ensures scanned * 100 / total >= 0
    ensures scanned <= total ==> scanned * 100 / total <= 100
    ensures scanned == total ==> scanned * 100 / total == 100
  {
    var a := scanned * 100;
    if scanned <= total {
      QuotientBelow(a, total, 101);
    }
    if scanned == total {
      QuotientAbove(a, total, 100);
    }
  }

  /** A quotient is below `m` when the dividend is below `d * m`. */
  lemma QuotientBelow(a: nat, d: nat, m: nat)
    requires d > 0 && a < d * m
    ensures a / d < m
  {
    var q := a / d;
    assert d * q <= a;
    if q >= m {
      MultiplyMonotone(d, m, q);
    }
  }

  /** A quotient is at least `m` when the dividend is at least `d * m`. */
  lemma QuotientAbove(a: nat, d: nat, m: nat)
    requires d > 0 && d * m <= a
    ensures m <= a / d
  {
    var q := a / d;
    assert a < d * (q + 1);
    if q + 1 <= m {
      MultiplyMonotone(d, q + 1, m);
    }
  }

  lemma MultiplyMonotone(d: nat, m: nat, q: nat)
    requires m <= q
    ensures d * m <= d * q
  {
    assert d * q == d * m + d * (q - m);
  }

  /** The percentage reaches 100 only when every counted address was scanned:
      while `scanned < total` it stays strictly below 100. */
  lemma PercentFullOnlyAtTotal(scanned: nat, total: nat)
    requires 0 < total && scanned <= total
    ensures Percent(scanned, total) == 100 <==> scanned == total
  {
    if scanned < total {
      assert scanned * 100 < total * 100;
      QuotientBelow(scanned * 100, total, 100);
    }
  }
}
