/**
 * The per-ingredient running total that both ingredient aggregators of the
 * system build: for each contribution, an entry for its ingredient name is
 * created with the contribution's unit if there is none yet, and the
 * contribution's amount is added to it. The outcome is stated once, as
 * `Tally`, over the list of contributions in the order they are visited.
 */
module Tallies {
  import opened Types

  /** One contribution to a total: an ingredient name, an amount and the ingredient's unit. */
  datatype Entry = Entry(name: string, amount: int, unit: string)

  type Totals = map<string, IngredientTotal>

  function Names(es: seq<Entry>): set<string>
  {
    set i | 0 <= i < |es| :: es[i].name
  }

  /** The sum of the amounts contributed to ingredient `n`. */
  function Sum(es: seq<Entry>, n: string): int
  {
    if es == [] then 0
    else Sum(es[..|es| - 1], n) + (if es[|es| - 1].name == n then es[|es| - 1].amount else 0)
  }

  /** The position of the first contribution to ingredient `n`. */
  function FirstIndex(es: seq<Entry>, n: string): (i: nat)
    requires n in Names(es)
    ensures i < |es| && es[i].name == n
    ensures forall j :: 0 <= j < i ==> es[j].name != n
  {
    if es[0].name == n then 0
    else
      var k :| 0 <= k < |es| && es[k].name == n;
      assert es[1..][k - 1] == es[k];
      1 + FirstIndex(es[1..], n)
  }

  /**
   * The totals after visiting `es`: a key per ingredient that occurs, the
   * sum of its amounts, and the unit of its first occurrence.
   */
  function Tally(es: seq<Entry>): (t: Totals)
    ensures t.Keys == Names(es)
  {
    map n | n in Names(es) :: IngredientTotal(Sum(es, n), es[FirstIndex(es, n)].unit)
  }

  /** One visit: `if (!totals[name]) totals[name] = { amount: 0, unit }; totals[name].amount += amount`. */
  function Add(totals: Totals, e: Entry): Totals
  {
    var current := if e.name in totals then totals[e.name] else IngredientTotal(0, e.unit);
    totals[e.name := IngredientTotal(current.amount + e.amount, current.unit)]
  }

  /** Visiting each of `es` in turn, starting from `totals`. */
  function AddAll(totals: Totals, es: seq<Entry>): Totals
  {
    if es == [] then totals else Add(AddAll(totals, es[..|es| - 1]), es[|es| - 1])
  }

  /** The totals of two runs of contributions, the first run's unit winning. */
  function Merge(t: Totals, u: Totals): (r: Totals)
    ensures r.Keys == t.Keys + u.Keys
  {
    map n | n in t.Keys + u.Keys ::
      IngredientTotal(
        (if n in t then t[n].amount else 0) + (if n in u then u[n].amount else 0),
        if n in t then t[n].unit else u[n].unit)
  }

  // Proofs.

  /**
   * One visit creates or updates the entry of the visited ingredient only:
   * a new entry starts at zero with the contribution's unit, an existing
   * one keeps its unit, and the amount grows by the contribution.
   */
  lemma AddEffect(totals: Totals, e: Entry)
    ensures Add(totals, e).Keys == totals.Keys + {e.name}
    ensures Add(totals, e)[e.name].amount == (if e.name in totals then totals[e.name].amount else 0) + e.amount
    ensures Add(totals, e)[e.name].unit == if e.name in totals then totals[e.name].unit else e.unit
    ensures forall n :: n in totals && n != e.name ==> Add(totals, e)[n] == totals[n]
  {
  }

  lemma {:induction false} SumAbsent(es: seq<Entry>, n: string)
    requires n !in Names(es)
    ensures Sum(es, n) == 0
  {
    if es != [] {
      var init := es[..|es| - 1];
      assert Names(init) <= Names(es) by {
        forall m | m in Names(init) ensures m in Names(es) {
          var i :| 0 <= i < |init| && init[i].name == m;
          assert es[i] == init[i];
        }
      }
      SumAbsent(init, n);
      assert es[|es| - 1].name in Names(es);
    }
  }

  lemma {:induction false} SumAppend(a: seq<Entry>, b: seq<Entry>, n: string)
    ensures Sum(a + b, n) == Sum(a, n) + Sum(b, n)
    decreases |b|
  {
    if b == [] {
      assert a + b == a;
    } else {
      var b' := b[..|b| - 1];
      assert (a + b)[..|a + b| - 1] == a + b';
      assert (a + b)[|a + b| - 1] == b[|b| - 1];
      SumAppend(a, b', n);
    }
  }

  lemma NamesAppend(a: seq<Entry>, b: seq<Entry>)
    ensures Names(a + b) == Names(a) + Names(b)
  {
    forall n | n in Names(a + b)
      ensures n in Names(a) + Names(b)
    {
      var i :| 0 <= i < |a + b| && (a + b)[i].name == n;
      if i >= |a| {
        assert b[i - |a|] == (a + b)[i];
      }
    }
    forall n | n in Names(a) + Names(b)
      ensures n in Names(a + b)
    {
      if n in Names(a) {
        var i :| 0 <= i < |a| && a[i].name == n;
        assert (a + b)[i] == a[i];
      } else {
        var i :| 0 <= i < |b| && b[i].name == n;
        assert (a + b)[|a| + i] == b[i];
      }
    }
  }

  /** The first occurrence in `a + b` lies in `a` when `a` has one, and in `b` otherwise. */
  lemma FirstIndexAppend(a: seq<Entry>, b: seq<Entry>, n: string)
    requires n in Names(a + b)
    ensures n in Names(a) ==> FirstIndex(a + b, n) == FirstIndex(a, n)
    ensures n !in Names(a) ==> n in Names(b) && FirstIndex(a + b, n) == |a| + FirstIndex(b, n)
  {
    NamesAppend(a, b);
    if n in Names(a) {
      var i := FirstIndex(a, n);
      assert (a + b)[i] == a[i];
    } else {
      var i := FirstIndex(b, n);
      assert (a + b)[|a| + i] == b[i];
    }
  }

  /** The unit kept for an ingredient is that of its first contribution. */
  lemma TallyUnitIsFirst(es: seq<Entry>, n: string)
    requires n in Tally(es)
    ensures exists i :: 0 <= i < |es| && es[i].name == n && Tally(es)[n].unit == es[i].unit
                        && forall j :: 0 <= j < i ==> es[j].name != n
  {
    var i := FirstIndex(es, n);
    assert Tally(es)[n].unit == es[i].unit;
  }

  /** No contributions, no keys. */
  lemma TallyEmpty()
    ensures Tally([]) == map[]
  {
  }

  lemma NamesSingle(e: Entry)
    ensures Names([e]) == {e.name}
  {
    assert [e][0] == e;
  }

  lemma SumSingle(e: Entry, n: string)
    ensures Sum([e], n) == if e.name == n then e.amount else 0
  {
    assert [e][..0] == [];
  }

  /** The totals of `es + [e]` at `n`: the sum grows by `e`'s share, the first unit stays. */
  lemma TallySnoc(es: seq<Entry>, e: Entry, n: string)
    requires n in Names(es + [e])
    ensures n in Names(es) ==>
              Tally(es + [e])[n] == IngredientTotal(Sum(es, n) + (if e.name == n then e.amount else 0), Tally(es)[n].unit)
    ensures n !in Names(es) ==> n == e.name && Tally(es + [e])[n] == IngredientTotal(e.amount, e.unit)
  {
    NamesAppend(es, [e]);
    NamesSingle(e);
    FirstIndexAppend(es, [e], n);
    SumAppend(es, [e], n);
    SumSingle(e, n);
    if n !in Names(es) {
      SumAbsent(es, n);
      assert FirstIndex([e], n) == 0;
      assert (es + [e])[|es|] == e;
    } else {
      assert (es + [e])[FirstIndex(es, n)] == es[FirstIndex(es, n)];
    }
  }

  lemma AddTallyAt(es: seq<Entry>, e: Entry, n: string)
    requires n in Names(es + [e])
    ensures n in Add(Tally(es), e) && Add(Tally(es), e)[n] == Tally(es + [e])[n]
  {
    TallySnoc(es, e, n);
    var t := Tally(es);
    if n in Names(es) {
      assert t[n].amount == Sum(es, n);
      if n == e.name {
        assert Add(t, e)[n] == IngredientTotal(t[n].amount + e.amount, t[n].unit);
      } else {
        assert Add(t, e)[n] == t[n];
      }
    } else {
      assert n !in t;
      assert Add(t, e)[n] == IngredientTotal(0 + e.amount, e.unit);
    }
  }

  /** Visiting one more contribution is one `Add` step: the loop body keeps `totals == Tally(visited)`. */
  lemma AddTally(es: seq<Entry>, e: Entry)
    ensures Add(Tally(es), e) == Tally(es + [e])
  {
    var l, r := Add(Tally(es), e), Tally(es + [e]);
    NamesAppend(es, [e]);
    NamesSingle(e);
    assert l.Keys == Names(es) + {e.name} == r.Keys;
    forall n | n in r
      ensures l[n] == r[n]
    {
      AddTallyAt(es, e, n);
    }
  }

  /** An ingredient the first part contributes to: its first unit comes from there. */
  lemma TallyAppendLeft(a: seq<Entry>, b: seq<Entry>, n: string)
    requires n in Names(a)
    ensures n in Names(a + b)
    ensures Tally(a + b)[n] == IngredientTotal(Sum(a, n) + Sum(b, n), Tally(a)[n].unit)
  {
    var ab := a + b;
    var i := FirstIndex(a, n);
    assert ab[i] == a[i];
    assert FirstIndex(ab, n) == i by {
      FirstIndexAppend(a, b, n);
    }
    SumAppend(a, b, n);
  }

  /** An ingredient only the second part contributes to. */
  lemma TallyAppendRight(a: seq<Entry>, b: seq<Entry>, n: string)
    requires n !in Names(a) && n in Names(b)
    ensures n in Names(a + b)
    ensures Tally(a + b)[n] == Tally(b)[n]
  {
    var ab := a + b;
    var i := FirstIndex(b, n);
    assert ab[|a| + i] == b[i];
    assert FirstIndex(ab, n) == |a| + i by {
      FirstIndexAppend(a, b, n);
    }
    SumAppend(a, b, n);
    SumAbsent(a, n);
  }

  lemma TallyAppendAt(a: seq<Entry>, b: seq<Entry>, n: string)
    requires n in Names(a + b)
    ensures Tally(a + b)[n] == Merge(Tally(a), Tally(b))[n]
  {
    assert n in Names(a) || n in Names(b) by {
      NamesAppend(a, b);
    }
    if n in Names(a) {
      TallyAppendLeft(a, b, n);
      if n !in Names(b) {
        SumAbsent(b, n);
      }
    } else {
      TallyAppendRight(a, b, n);
    }
  }

  lemma TallyAppendKeys(a: seq<Entry>, b: seq<Entry>)
    ensures Tally(a + b).Keys == Merge(Tally(a), Tally(b)).Keys
  {
    NamesAppend(a, b);
    assert Tally(a + b).Keys == Names(a + b);
    assert Merge(Tally(a), Tally(b)).Keys == Tally(a).Keys + Tally(b).Keys;
  }

  /** The totals over a concatenation are the merged totals of the parts. */
  lemma TallyAppend(a: seq<Entry>, b: seq<Entry>)
    ensures Tally(a + b) == Merge(Tally(a), Tally(b))
  {
    var l, r := Tally(a + b), Merge(Tally(a), Tally(b));
    TallyAppendKeys(a, b);
    forall n | n in l
      ensures l[n] == r[n]
    {
      TallyAppendAt(a, b, n);
    }
  }

  /** One more step of a loop over `es`. */
  lemma AddAllStep(totals: Totals, es: seq<Entry>, k: nat)
    requires k < |es|
    ensures AddAll(totals, es[..k + 1]) == Add(AddAll(totals, es[..k]), es[k])
  {
    assert es[..k + 1][..k] == es[..k];
  }

  /** A loop over `a + b` is a loop over `a`, then one over `b`. */
  lemma {:induction false} AddAllAppend(totals: Totals, a: seq<Entry>, b: seq<Entry>)
    ensures AddAll(totals, a + b) == AddAll(AddAll(totals, a), b)
    decreases |b|
  {
    if b == [] {
      assert a + b == a;
    } else {
      var b' := b[..|b| - 1];
      assert (a + b)[..|a + b| - 1] == a + b';
      assert (a + b)[|a + b| - 1] == b[|b| - 1];
      AddAllAppend(totals, a, b');
    }
  }

  /** Visiting `more` after `es` gives the totals of `es + more`. */
  lemma {:induction false} AddAllTally(es: seq<Entry>, more: seq<Entry>)
    ensures AddAll(Tally(es), more) == Tally(es + more)
    decreases |more|
  {
    if more == [] {
      assert es + more == es;
    } else {
      var init, last := more[..|more| - 1], more[|more| - 1];
      AddAllTally(es, init);
      AddTally(es + init, last);
      assert es + more == (es + init) + [last];
    }
  }
}
