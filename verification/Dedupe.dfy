/** Order-preserving, first-wins removal of repeated and unnamed entries: the one idea
    behind `dedupeStrings`, `dedupeSuggestedSignals` and `mergeSuggestedSignals`. */
module Dedupe {

  function Self(s: string): string { s }

  function Keys<T>(xs: seq<T>, key: T -> string): (ks: seq<string>)
    ensures |ks| == |xs|
    ensures forall i :: 0 <= i < |xs| ==> ks[i] == key(xs[i])
  {
    seq(|xs|, i requires 0 <= i < |xs| => key(xs[i]))
  }

  /** The entries of `xs` that introduce a new nonempty key outside `taken`. */
  function FirstWins<T>(taken: set<string>, xs: seq<T>, key: T -> string): (r: seq<T>)
    ensures |r| <= |xs|
  {
    if xs == [] then []
    else
      var r := FirstWins(taken, xs[..|xs| - 1], key);
      var x := xs[|xs| - 1];
      if key(x) == "" || key(x) in taken || key(x) in Keys(r, key) then r else r + [x]
  }

  ghost predicate Distinct<T>(xs: seq<T>) {
    forall i, j :: 0 <= i < j < |xs| ==> xs[i] != xs[j]
  }

  /** `r` holds, for each nonempty key of `xs` outside `taken`, the first entry with it. */
  ghost predicate IsFirstFor<T>(taken: set<string>, xs: seq<T>, key: T -> string, i: int, x: T) {
    && 0 <= i < |xs| && xs[i] == x
    && key(x) != "" && key(x) !in taken
    && forall j :: 0 <= j < i ==> key(xs[j]) != key(x)
  }

  lemma {:induction false} FirstWinsKeys<T>(taken: set<string>, xs: seq<T>, key: T -> string)
    ensures Distinct(Keys(FirstWins(taken, xs, key), key))
    ensures forall k :: k in Keys(FirstWins(taken, xs, key), key) <==> k != "" && k !in taken && k in Keys(xs, key)
  {
    if xs == [] {
    } else {
      var init, x := xs[..|xs| - 1], xs[|xs| - 1];
      FirstWinsKeys(taken, init, key);
      var r := FirstWins(taken, init, key);
      assert xs == init + [x];
      assert Keys(xs, key) == Keys(init, key) + [key(x)];
      assert Keys(r + [x], key) == Keys(r, key) + [key(x)];
    }
  }

  /** Which entry wins: every kept entry is the first of `xs` with its key. */
  lemma {:induction false} FirstWinsKeepsFirst<T>(taken: set<string>, xs: seq<T>, key: T -> string, x: T)
    requires x in FirstWins(taken, xs, key)
    ensures exists i :: IsFirstFor(taken, xs, key, i, x)
  {
    var init, y := xs[..|xs| - 1], xs[|xs| - 1];
    var r := FirstWins(taken, init, key);
    FirstWinsKeys(taken, init, key);
    if x in r {
      FirstWinsKeepsFirst(taken, init, key, x);
      var i :| IsFirstFor(taken, init, key, i, x);
      assert IsFirstFor(taken, xs, key, i, x);
    } else {
      assert x == y;
      forall j | 0 <= j < |xs| - 1 ensures key(xs[j]) != key(y) {
        assert Keys(init, key)[j] in Keys(init, key);
      }
      assert IsFirstFor(taken, xs, key, |xs| - 1, y);
    }
  }

  /** Already clean input is left alone, so filtering twice is filtering once. */
  lemma {:induction false} FirstWinsFixpoint<T>(taken: set<string>, xs: seq<T>, key: T -> string)
    requires Distinct(Keys(xs, key))
    requires forall k :: k in Keys(xs, key) ==> k != "" && k !in taken
    ensures FirstWins(taken, xs, key) == xs
  {
    if xs == [] {
    } else {
      var init, x := xs[..|xs| - 1], xs[|xs| - 1];
      assert xs == init + [x];
      var ks := Keys(xs, key);
      assert Keys(init, key) == ks[..|init|];
      assert ks[|init|] in ks;
      forall k | k in Keys(init, key) ensures k != "" && k !in taken { assert k in ks; }
      FirstWinsFixpoint(taken, init, key);
      forall j | 0 <= j < |init| ensures Keys(init, key)[j] != key(x) {
        assert ks[j] != ks[|init|];
      }
    }
  }

  /** Once every key is taken there is nothing left to add. */
  lemma {:induction false} FirstWinsNothingLeft<T>(taken: set<string>, xs: seq<T>, key: T -> string)
    requires forall k :: k in Keys(xs, key) ==> k == "" || k in taken
    ensures FirstWins(taken, xs, key) == []
  {
    if xs == [] {
    } else {
      var init, x := xs[..|xs| - 1], xs[|xs| - 1];
      assert xs == init + [x];
      assert Keys(xs, key) == Keys(init, key) + [key(x)];
      FirstWinsNothingLeft(taken, init, key);
    }
  }

  /** Dropping an unnamed entry early makes no difference. */
  lemma FirstWinsSkips<T>(taken: set<string>, ys: seq<T>, zs: seq<T>, x: T, key: T -> string)
    requires FirstWins(taken, ys, key) == FirstWins(taken, zs, key)
    ensures FirstWins(taken, if key(x) != "" then ys + [x] else ys, key) == FirstWins(taken, zs + [x], key)
  {
    assert (ys + [x])[..|ys|] == ys;
    assert (zs + [x])[..|zs|] == zs;
  }

  /** One more step of the loop form. */
  lemma FirstWinsStep<T>(taken: set<string>, xs: seq<T>, key: T -> string, i: nat)
    requires i < |xs|
    ensures FirstWins(taken, xs[..i + 1], key) ==
            var r := FirstWins(taken, xs[..i], key);
            if key(xs[i]) == "" || key(xs[i]) in taken || key(xs[i]) in Keys(r, key) then r else r + [xs[i]]
  {
    assert xs[..i + 1][..i] == xs[..i];
  }

  /** The loop with its `seen` set, for strings. */
  method DedupeStrings(values: seq<string>) returns (out: seq<string>)
    ensures out == FirstWins({}, values, Self)
    ensures Distinct(out)
    ensures forall v :: v in out <==> v != "" && v in values
  {
    out := [];
    var seen: set<string> := {};
    for i := 0 to |values|
      invariant out == FirstWins({}, values[..i], Self)
      invariant forall v :: v in seen <==> v in out
    {
      FirstWinsStep({}, values, Self, i);
      assert Keys(out, Self) == out;
      if values[i] != "" && values[i] !in seen {
        seen := seen + {values[i]};
        out := out + [values[i]];
      }
    }
    assert values[..|values|] == values;
    FirstWinsKeys({}, values, Self);
    assert Keys(out, Self) == out && Keys(values, Self) == values;
  }
}
