/** The array idioms the screens share: `indexOf`, `splice(index, 1)`, and the
    select/deselect toggles built from them, with or without a cap on how many
    entries may be selected. */
module Lists {
  import opened Wrappers

  predicate NoDuplicates<T(==)>(xs: seq<T>) {
    forall i, j :: 0 <= i < j < |xs| ==> xs[i] != xs[j]
  }

  /** `xs.indexOf(x)`, with `None` for -1. */
  function IndexOf<T(==)>(xs: seq<T>, x: T): (r: Option<nat>)
    ensures r.None? <==> x !in xs
    ensures r.Some? ==> r.value < |xs| && xs[r.value] == x && x !in xs[..r.value]
  {
    if xs == [] then None
    else if xs[0] == x then Some(0)
    else match IndexOf(xs[1..], x)
      case None => None
      case Some(k) => assert xs[..k + 1] == [xs[0]] + xs[1..][..k]; Some(k + 1)
  }

  /** `copy.splice(index, 1)`: drop position `index`; an index past the end drops nothing. */
  function RemoveAt<T>(xs: seq<T>, index: nat): (r: seq<T>)
    ensures index < |xs| ==> |r| == |xs| - 1
    ensures index >= |xs| ==> r == xs
    ensures forall k :: 0 <= k < index && k < |r| ==> r[k] == xs[k]
    ensures forall k :: index <= k < |r| ==> r[k] == xs[k + 1]
  {
    if index < |xs| then xs[..index] + xs[index + 1..] else xs
  }

  lemma RemoveAtMultiset<T>(xs: seq<T>, index: nat)
    requires index < |xs|
    ensures multiset(RemoveAt(xs, index)) == multiset(xs) - multiset{xs[index]}
  {
    assert xs == xs[..index] + [xs[index]] + xs[index + 1..];
  }

  /** Removing an entry keeps the others distinct. */
  lemma RemoveAtKeepsNoDuplicates<T>(xs: seq<T>, index: nat)
    requires NoDuplicates(xs)
    ensures NoDuplicates(RemoveAt(xs, index))
  {
    var r := RemoveAt(xs, index);
    forall i, j | 0 <= i < j < |r| ensures r[i] != r[j] {
      var i' := if i < index then i else i + 1;
      var j' := if j < index then j else j + 1;
      assert r[i] == xs[i'] && r[j] == xs[j'];
    }
  }

  /** The selection after a click on `x` when there is no cap (the business platform list). */
  function Toggle<T(==)>(xs: seq<T>, x: T): (r: seq<T>)
    ensures x !in xs ==> r == xs + [x]
    ensures x in xs ==> r == RemoveAt(xs, IndexOf(xs, x).value)
  {
    match IndexOf(xs, x)
    case Some(i) => RemoveAt(xs, i)
    case None => xs + [x]
  }

  lemma ToggleKeepsNoDuplicates<T>(xs: seq<T>, x: T)
    requires NoDuplicates(xs)
    ensures NoDuplicates(Toggle(xs, x))
    ensures x in Toggle(xs, x) <==> x !in xs
  {
    match IndexOf(xs, x)
    case Some(i) =>
      RemoveAtKeepsNoDuplicates(xs, i);
      RemoveAtMultiset(xs, i);
      assert multiset(xs)[x] == 1 by {
        assert xs == xs[..i] + [x] + xs[i + 1..];
        var tail := xs[i + 1..];
        assert x !in tail by {
          forall k | 0 <= k < |tail| ensures tail[k] != x {
            assert tail[k] == xs[i + 1 + k];
          }
        }
      }
      assert x !in multiset(Toggle(xs, x));
    case None =>
  }

  /** Selecting an absent entry and then deselecting it restores the list. */
  lemma ToggleTwiceWhenAbsent<T>(xs: seq<T>, x: T)
    requires x !in xs
    ensures Toggle(Toggle(xs, x), x) == xs
  {
    var ys := xs + [x];
    assert IndexOf(ys, x) == Some(|xs|) by {
      assert x !in ys[..|xs|] by { assert ys[..|xs|] == xs; }
    }
  }

  /** Deselecting a present entry and selecting it again moves it to the end. */
  lemma ToggleTwiceWhenPresent<T>(xs: seq<T>, x: T)
    requires NoDuplicates(xs) && x in xs
    ensures Toggle(Toggle(xs, x), x) == RemoveAt(xs, IndexOf(xs, x).value) + [x]
    ensures multiset(Toggle(Toggle(xs, x), x)) == multiset(xs)
  {
    ToggleKeepsNoDuplicates(xs, x);
    var i := IndexOf(xs, x).value;
    RemoveAtMultiset(xs, i);
  }

  datatype ToggleError = CapReached

  /** The selection after a click on `x` when at most `cap` entries may be chosen:
      a chosen entry is removed, a new one is appended below the cap, and at the
      cap the click is refused. */
  function ToggleCapped<T(==)>(xs: seq<T>, x: T, cap: nat): (r: Result<seq<T>, ToggleError>)
    ensures r.Err? <==> x !in xs && |xs| >= cap
    ensures r.Ok? ==> r.value == Toggle(xs, x)
  {
    match IndexOf(xs, x)
    case Some(i) => Ok(RemoveAt(xs, i))
    case None => if |xs| < cap then Ok(xs + [x]) else Err(CapReached)
  }

  /** A capped selection stays duplicate-free and within its cap. */
  lemma ToggleCappedKeepsInvariant<T>(xs: seq<T>, x: T, cap: nat)
    requires NoDuplicates(xs) && |xs| <= cap
    ensures ToggleCapped(xs, x, cap).Ok? ==>
      NoDuplicates(ToggleCapped(xs, x, cap).value) && |ToggleCapped(xs, x, cap).value| <= cap
  {
    ToggleKeepsNoDuplicates(xs, x);
  }

  /** Below the cap, selecting an absent entry and deselecting it restores the list. */
  lemma ToggleCappedTwice<T>(xs: seq<T>, x: T, cap: nat)
    requires x !in xs && |xs| < cap
    ensures ToggleCapped(xs, x, cap) == Ok(xs + [x])
    ensures ToggleCapped(xs + [x], x, cap) == Ok(xs)
  {
    ToggleTwiceWhenAbsent(xs, x);
  }
}
