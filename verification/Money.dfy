// Amounts in minor units and their int64 arithmetic (internal/ledger/models.go).
module Money {
  import opened Seqs

  const TWO_63: int := 0x8000_0000_0000_0000
  const TWO_64: int := 0x1_0000_0000_0000_0000

  /** What fits a Go int64. */
  predicate Fits(x: int) { -TWO_63 <= x < TWO_63 }

  type Int64 = x: int | -TWO_63 <= x < TWO_63

  type Id = nat

  datatype Entry = Entry(account: Id, amount: Int64)

  /** int64 conversion: 2^64 is added or taken away until the value fits. */
  function Wrap(x: int): Int64
    decreases if Fits(x) then 0 else Abs(x)
  {
    if Fits(x) then x else if x < 0 then Wrap(x + TWO_64) else Wrap(x - TWO_64)
  }

  /** The exact sum of the amounts. */
  function Total(es: seq<Entry>): int {
    if es == [] then 0 else Total(es[..|es| - 1]) + es[|es| - 1].amount
  }

  /** The exact sum of the amounts on one account. */
  function Net(es: seq<Entry>, a: Id): int {
    if es == [] then 0
    else Net(es[..|es| - 1], a) + if es[|es| - 1].account == a then es[|es| - 1].amount else 0
  }

  function Abs(x: int): nat { if x < 0 then -x else x }

  /** The sum of the absolute amounts of a request. */
  function Magnitude(es: seq<Entry>): nat {
    if es == [] then 0 else Magnitude(es[..|es| - 1]) + Abs(es[|es| - 1].amount)
  }

  /** The condition a caller can check before sending a request. */
  predicate Small(es: seq<Entry>) { Magnitude(es) < TWO_63 }

  function Accounts(es: seq<Entry>): set<Id> { set e | e in es :: e.account }

  /** Wrap(x) is the one int64 congruent to x modulo 2^64. */
  lemma {:induction false} WrapMeaning(x: int)
    ensures (x - Wrap(x)) % TWO_64 == 0
    ensures Fits(x) <==> Wrap(x) == x
    decreases if Fits(x) then 0 else Abs(x)
  {
    if !Fits(x) {
      WrapMeaning(if x < 0 then x + TWO_64 else x - TWO_64);
    }
  }

  /** Two numbers congruent modulo 2^64 wrap to the same int64. */
  lemma WrapCongruent(x: int, y: int)
    requires (x - y) % TWO_64 == 0
    ensures Wrap(x) == Wrap(y)
  {
    WrapMeaning(x);
    WrapMeaning(y);
    SameInt64(x, y, Wrap(x), Wrap(y));
  }

  lemma SameInt64(x: int, y: int, v: Int64, w: Int64)
    requires (x - y) % TWO_64 == 0 && (x - v) % TWO_64 == 0 && (y - w) % TWO_64 == 0
    ensures v == w
  {
    var a, b, c := (x - y) / TWO_64, (x - v) / TWO_64, (y - w) / TWO_64;
    assert x - y == TWO_64 * a && x - v == TWO_64 * b && y - w == TWO_64 * c;
    assert v - w == TWO_64 * (a - b + c);
  }

  lemma WrapAdd(x: int, y: int)
    ensures Wrap(Wrap(x) + y) == Wrap(x + y)
  {
    WrapMeaning(x);
    WrapCongruent(Wrap(x) + y, x + y);
  }

  lemma {:induction false} NetConcat(es: seq<Entry>, fs: seq<Entry>, a: Id)
    ensures Net(es + fs, a) == Net(es, a) + Net(fs, a)
  {
    if fs == [] {
      assert es + fs == es;
    } else {
      assert (es + fs)[..|es + fs| - 1] == es + fs[..|fs| - 1];
      NetConcat(es, fs[..|fs| - 1], a);
    }
  }

  /** Taking out one entry takes out its amount. */
  lemma NetWithout(es: seq<Entry>, j: nat, a: Id)
    requires j < |es|
    ensures Net(es, a) == Net(Without(es, j), a) + if es[j].account == a then es[j].amount else 0
  {
    var x := es[j];
    assert es == (es[..j] + [x]) + es[j + 1..];
    NetConcat(es[..j] + [x], es[j + 1..], a);
    NetConcat(es[..j], [x], a);
    NetConcat(es[..j], es[j + 1..], a);
    assert [x][..0] == [];
  }

  /** The net effect on an account does not depend on the order of the entries. */
  lemma {:induction false} NetPermutation(es: seq<Entry>, fs: seq<Entry>, a: Id)
    requires multiset(es) == multiset(fs)
    ensures Net(es, a) == Net(fs, a)
    decreases |es|
  {
    if es == [] {
      assert |multiset(fs)| == 0;
    } else {
      assert es[0] in multiset(fs);
      var j :| 0 <= j < |fs| && fs[j] == es[0];
      BagWithout(es, 0);
      BagWithout(fs, j);
      NetPermutation(Without(es, 0), Without(fs, j), a);
      NetWithout(es, 0, a);
      NetWithout(fs, j, a);
    }
  }

  lemma {:induction false} AccountsPermutation(es: seq<Entry>, fs: seq<Entry>)
    requires multiset(es) == multiset(fs)
    ensures Accounts(es) == Accounts(fs)
  {
    forall e ensures e in es <==> e in fs {
      assert e in es <==> e in multiset(es);
      assert e in fs <==> e in multiset(fs);
    }
  }

  lemma {:induction false} NetOfStranger(es: seq<Entry>, a: Id)
    requires a !in Accounts(es)
    ensures Net(es, a) == 0
  {
    if es != [] {
      assert es[|es| - 1] in es;
      assert forall e :: e in es[..|es| - 1] ==> e in es;
      NetOfStranger(es[..|es| - 1], a);
    }
  }

  lemma {:induction false} MagnitudeBounds(es: seq<Entry>, a: Id)
    ensures Abs(Total(es)) <= Magnitude(es)
    ensures Abs(Net(es, a)) <= Magnitude(es)
  {
    if es != [] {
      MagnitudeBounds(es[..|es| - 1], a);
    }
  }

  /** models.go Sum: the int64 accumulator ends at the exact sum modulo 2^64. */
  method Sum(entries: seq<Entry>) returns (total: Int64)
    ensures total == Wrap(Total(entries))
  {
    total := 0;
    for i := 0 to |entries|
      invariant total == Wrap(Total(entries[..i]))
    {
      assert entries[..i + 1][..i] == entries[..i];
      WrapAdd(Total(entries[..i]), entries[i].amount);
      total := Wrap(total + entries[i].amount);
    }
    assert entries[..|entries|] == entries;
  }

  /** The account ids of a request, each once, in order of first occurrence. */
  function FirstSeen(es: seq<Entry>): (ids: seq<Id>)
    ensures forall x :: x in ids <==> x in Accounts(es)
    ensures forall i, j :: 0 <= i < j < |ids| ==> ids[i] != ids[j]
  {
    if es == [] then []
    else
      var init, a := es[..|es| - 1], es[|es| - 1].account;
      assert es == init + [es[|es| - 1]];
      assert Accounts(es) == Accounts(init) + {a};
      if a in FirstSeen(init) then FirstSeen(init) else FirstSeen(init) + [a]
  }
}
