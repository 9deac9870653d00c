/** List updates the listing forms share: toggling a value in a multi-choice list
    and appending uploads to a capped photo list. */
module Selection {
  import Seqs

  function Other<T(==)>(x: T): T -> bool {
    (y: T) => y != x
  }

  /** `xs.includes(x) ? xs.filter(y => y !== x) : [...xs, x]`. */
  function Toggle<T(==,!new)>(xs: seq<T>, x: T): (ys: seq<T>)
    ensures x in xs ==> x !in ys && forall y :: y != x ==> (y in ys <==> y in xs)
    ensures x !in xs ==> ys == xs + [x]
  {
    if x in xs then Seqs.Filter(xs, Other(x)) else xs + [x]
  }

  /** Toggling the same value twice restores which values are chosen, and restores
      the list itself when the value was not chosen. */
  lemma ToggleTwice<T(!new)>(xs: seq<T>, x: T)
    ensures forall y :: y in Toggle(Toggle(xs, x), x) <==> y in xs
    ensures x !in xs ==> Toggle(Toggle(xs, x), x) == xs
  {
    if x !in xs {
      var ys := xs + [x];
      assert forall k :: 0 <= k < |xs| ==> Other(x)(xs[k]);
      Seqs.FilterConcat(xs, [x], Other(x));
      Seqs.FilterKeepsAll(xs, Other(x));
      Seqs.FilterKeepsNone([x], Other(x));
    }
  }

  /** `[...photos, ...files].slice(0, cap)`. */
  function AppendCapped<T>(photos: seq<T>, files: seq<T>, cap: nat): (r: seq<T>)
    ensures |r| == if |photos| + |files| <= cap then |photos| + |files| else cap
    ensures r == (photos + files)[..|r|]
  {
    var all := photos + files;
    if |all| <= cap then all else all[..cap]
  }

  /** Below the cap nothing is lost: the old photos stay in front, in order, and
      as many new ones follow as fit. */
  lemma AppendCappedKeepsOld<T>(photos: seq<T>, files: seq<T>, cap: nat)
    requires |photos| <= cap
    ensures AppendCapped(photos, files, cap)[..|photos|] == photos
    ensures AppendCapped(photos, files, cap)[|photos|..] == files[..|AppendCapped(photos, files, cap)| - |photos|]
  {
    var r := AppendCapped(photos, files, cap);
    assert (photos + files)[..|r|][..|photos|] == photos;
    assert (photos + files)[..|r|][|photos|..] == files[..|r| - |photos|];
  }

  /** Everything kept is an old photo or a new one. */
  lemma AppendCappedDrawsFrom<T>(photos: seq<T>, files: seq<T>, cap: nat)
    ensures forall p :: p in AppendCapped(photos, files, cap) ==> p in photos || p in files
  {
    var r := AppendCapped(photos, files, cap);
    forall p | p in r ensures p in photos || p in files {
      var k :| 0 <= k < |r| && r[k] == p;
      assert (photos + files)[k] == p;
    }
  }
}
