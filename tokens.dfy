/** The token-list arithmetic of the style tool: a style property such as `textDecoration`
    read as a list of space-separated tokens, to which `setState` appends the tool's tokens
    (`push` when `indexOf` misses) and from which `resetState` removes them (`splice` at
    `indexOf`). */
module Tokens {

  /** `xs.indexOf(x)`: the first position of `x`, or -1. */
  function IndexOf(xs: seq<string>, x: string): (r: int)
    ensures -1 <= r < |xs|
    ensures r == -1 <==> x !in xs
    ensures r >= 0 ==> xs[r] == x && x !in xs[..r]
    decreases |xs|
  {
    if |xs| == 0 then -1
    else if xs[0] == x then 0
    else
      var k := IndexOf(xs[1..], x);
      assert k >= 0 ==> xs[..k + 1] == [xs[0]] + xs[1..][..k];
      if k == -1 then -1 else k + 1
  }

  predicate NoDup(xs: seq<string>) {
    forall i, j :: 0 <= i < j < |xs| ==> xs[i] != xs[j]
  }

  /** No token contains a space, as holds of every piece `split(' ')` returns. */
  predicate SpaceFree(xs: seq<string>) {
    forall i :: 0 <= i < |xs| ==> ' ' !in xs[i]
  }

  /** The list left after `setState`'s loop: every configured token, in order, is pushed
      unless `indexOf` finds it in the list built so far. */
  function AddMissing(acc: seq<string>, tokens: seq<string>): seq<string>
    decreases |tokens|
  {
    if |tokens| == 0 then acc
    else AddMissing(if tokens[0] in acc then acc else acc + [tokens[0]], tokens[1..])
  }

  /** `xs.splice(xs.indexOf(x), 1)` when `x` occurs, otherwise `xs`. */
  function RemoveFirst(xs: seq<string>, x: string): seq<string> {
    var k := IndexOf(xs, x);
    if k == -1 then xs else xs[..k] + xs[k + 1..]
  }

  /** The list left after `resetState`'s loop: one occurrence of each configured token is
      spliced out, in the order of the configuration. */
  function RemoveEach(acc: seq<string>, tokens: seq<string>): seq<string>
    decreases |tokens|
  {
    if |tokens| == 0 then acc
    else RemoveEach(RemoveFirst(acc, tokens[0]), tokens[1..])
  }

  /** The elements of `xs` that are not in `drop`, in order. */
  function Keep(xs: seq<string>, drop: seq<string>): (r: seq<string>)
    decreases |xs|
  {
    if |xs| == 0 then []
    else (if xs[0] in drop then [] else [xs[0]]) + Keep(xs[1..], drop)
  }

  /** `setState`'s loop over the configured tokens, pushing the missing ones. */
  method PushMissing(current: seq<string>, tokens: seq<string>) returns (r: seq<string>)
    ensures r == AddMissing(current, tokens)
  {
    r := current;
    var i := 0;
    while i < |tokens|
      invariant 0 <= i <= |tokens|
      invariant AddMissing(r, tokens[i..]) == AddMissing(current, tokens)
    {
      var value := tokens[i];
      assert tokens[i..][1..] == tokens[i + 1..];
      if IndexOf(r, value) == -1 {
        r := r + [value];
      }
      i := i + 1;
    }
  }

  /** `resetState`'s loop over the configured tokens, splicing out the present ones. */
  method SpliceEach(current: seq<string>, tokens: seq<string>) returns (r: seq<string>)
    ensures r == RemoveEach(current, tokens)
  {
    r := current;
    var i := 0;
    while i < |tokens|
      invariant 0 <= i <= |tokens|
      invariant RemoveEach(r, tokens[i..]) == RemoveEach(current, tokens)
    {
      var value := tokens[i];
      assert tokens[i..][1..] == tokens[i + 1..];
      var k := IndexOf(r, value);
      if k != -1 {
        r := r[..k] + r[k + 1..];
      }
      i := i + 1;
    }
  }

  /** What `setState` appends to a list: distinct tokens, each configured and none already
      in the list. */
  lemma {:induction false} AddMissingAppended(acc: seq<string>, tokens: seq<string>)
    ensures |AddMissing(acc, tokens)| >= |acc|
    ensures AddMissing(acc, tokens) == acc + AddMissing(acc, tokens)[|acc|..]
    ensures NoDup(AddMissing(acc, tokens)[|acc|..])
    ensures forall x :: x in AddMissing(acc, tokens)[|acc|..] ==> x in tokens && x !in acc
    decreases |tokens|
  {
    if |tokens| == 0 {
      assert AddMissing(acc, tokens)[|acc|..] == [];
    } else {
      var c, rest := tokens[0], tokens[1..];
      var acc' := if c in acc then acc else acc + [c];
      AddMissingAppended(acc', rest);
      var r := AddMissing(acc', rest);
      assert r == AddMissing(acc, tokens);
      var d' := r[|acc'|..];
      assert forall x :: x in rest ==> x in tokens by {
        assert tokens == [c] + rest;
      }
      if c in acc {
        assert acc' == acc;
      } else {
        assert r == acc + ([c] + d');
        assert r[|acc|..] == [c] + d';
        PrependFresh(c, d');
      }
    }
  }

  lemma PrependFresh(c: string, d: seq<string>)
    requires NoDup(d) && c !in d
    ensures NoDup([c] + d)
  {
    var e := [c] + d;
    forall i, j | 0 <= i < j < |e| ensures e[i] != e[j] {
      assert e[j] == d[j - 1];
      if i > 0 { assert e[i] == d[i - 1]; }
    }
  }

  /** A token is in the list after `setState` exactly when it was there or is configured. */
  lemma {:induction false} AddMissingMembers(acc: seq<string>, tokens: seq<string>)
    ensures forall x :: x in AddMissing(acc, tokens) <==> x in acc || x in tokens
    decreases |tokens|
  {
    if |tokens| > 0 {
      var c := tokens[0];
      AddMissingMembers(if c in acc then acc else acc + [c], tokens[1..]);
      assert tokens == [c] + tokens[1..];
    }
  }

  /** What `setState` does to the list: the old list stays in front, unchanged; every
      configured token ends up in the list; nothing else is added; and no appended token occurs
      earlier in the list. */
  lemma AddMissingShape(acc: seq<string>, tokens: seq<string>)
    ensures |AddMissing(acc, tokens)| >= |acc|
    ensures AddMissing(acc, tokens)[..|acc|] == acc
    ensures forall x :: x in AddMissing(acc, tokens) <==> x in acc || x in tokens
    ensures forall i :: |acc| <= i < |AddMissing(acc, tokens)| ==>
              AddMissing(acc, tokens)[i] !in AddMissing(acc, tokens)[..i]
  {
    AddMissingAppended(acc, tokens);
    AddMissingMembers(acc, tokens);
    var r := AddMissing(acc, tokens);
    var d := r[|acc|..];
    forall i | |acc| <= i < |r| ensures r[i] !in r[..i] {
      var j := i - |acc|;
      assert r[i] == d[j];
      assert r[..i] == acc + d[..j];
      assert d[j] !in d[..j];
    }
  }

  /** Appending space-free tokens to a space-free list keeps it space-free. */
  lemma {:induction false} AddMissingSpaceFree(acc: seq<string>, tokens: seq<string>)
    requires SpaceFree(acc) && SpaceFree(tokens)
    ensures SpaceFree(AddMissing(acc, tokens))
    decreases |tokens|
  {
    if |tokens| > 0 {
      assert SpaceFree(tokens[1..]) by {
        forall i | 0 <= i < |tokens[1..]| ensures ' ' !in tokens[1..][i] { assert tokens[1..][i] == tokens[i + 1]; }
      }
      AddMissingSpaceFree(if tokens[0] in acc then acc else acc + [tokens[0]], tokens[1..]);
    }
  }

  /** `setState` never duplicates a token: a list without repeated tokens stays without. */
  lemma AddMissingNoDup(acc: seq<string>, tokens: seq<string>)
    requires NoDup(acc)
    ensures NoDup(AddMissing(acc, tokens))
  {
    AddMissingShape(acc, tokens);
    var r := AddMissing(acc, tokens);
    forall i, j | 0 <= i < j < |r| ensures r[i] != r[j] {
      if j < |acc| {
        assert r[i] == acc[i] && r[j] == acc[j];
      } else {
        assert r[i] in r[..j];
      }
    }
  }

  lemma {:induction false} MultisetRemoveFirst(xs: seq<string>, x: string)
    ensures multiset(RemoveFirst(xs, x)) == multiset(xs) - multiset{x}
  {
    var k := IndexOf(xs, x);
    if k == -1 {
      assert multiset(xs)[x] == 0;
    } else {
      assert xs == xs[..k] + [x] + xs[k + 1..];
      assert multiset(xs) == multiset(xs[..k]) + multiset{x} + multiset(xs[k + 1..]);
    }
  }

  /** `resetState` removes exactly one occurrence of each configured token that is there:
      the multiset of tokens left is the old one minus the configured ones. */
  lemma {:induction false} RemoveEachCounts(acc: seq<string>, tokens: seq<string>)
    ensures multiset(RemoveEach(acc, tokens)) == multiset(acc) - multiset(tokens)
    decreases |tokens|
  {
    if |tokens| > 0 {
      var c := tokens[0];
      RemoveEachCounts(RemoveFirst(acc, c), tokens[1..]);
      MultisetRemoveFirst(acc, c);
      assert tokens == [c] + tokens[1..];
      assert multiset(tokens) == multiset{c} + multiset(tokens[1..]);
      var a, b, m := multiset(acc), multiset{c}, multiset(tokens[1..]);
      assert (a - b) - m == a - (b + m) by {
        forall y ensures ((a - b) - m)[y] == (a - (b + m))[y] { }
      }
    }
  }

  /** Removing from an empty list leaves it empty. */
  lemma {:induction false} RemoveEachNil(tokens: seq<string>)
    ensures RemoveEach([], tokens) == []
    decreases |tokens|
  {
    if |tokens| > 0 {
      RemoveEachNil(tokens[1..]);
    }
  }

  /** When no configured token occurs twice in the list, `resetState` leaves none of the
      configured tokens, and what it leaves was there before. */
  lemma RemoveEachLeavesNone(acc: seq<string>, tokens: seq<string>)
    requires forall x :: x in tokens ==> multiset(acc)[x] <= 1
    ensures forall x :: x in RemoveEach(acc, tokens) ==> x !in tokens && x in acc
  {
    RemoveEachCounts(acc, tokens);
    var left := RemoveEach(acc, tokens);
    forall x | x in left ensures x !in tokens && x in acc {
      assert multiset(left)[x] >= 1;
      assert x in tokens ==> multiset(tokens)[x] >= 1;
    }
  }

  lemma {:induction false} KeepConcat(xs: seq<string>, ys: seq<string>, drop: seq<string>)
    ensures Keep(xs + ys, drop) == Keep(xs, drop) + Keep(ys, drop)
    decreases |xs|
  {
    if |xs| == 0 {
      assert xs + ys == ys;
    } else {
      assert (xs + ys)[1..] == xs[1..] + ys;
      KeepConcat(xs[1..], ys, drop);
    }
  }

  lemma {:induction false} KeepRemoveFirst(xs: seq<string>, x: string, drop: seq<string>)
    requires x in drop
    ensures Keep(RemoveFirst(xs, x), drop) == Keep(xs, drop)
  {
    var k := IndexOf(xs, x);
    if k != -1 {
      var front, back := xs[..k], xs[k + 1..];
      assert xs == front + ([x] + back);
      KeepConcat(front, [x] + back, drop);
      KeepConcat(front, back, drop);
      assert Keep([x] + back, drop) == Keep(back, drop) by {
        assert ([x] + back)[1..] == back;
      }
    }
  }

  /** `resetState` leaves every token that is not configured where it was: the sub-list of
      the other tokens is the same before and after. */
  lemma {:induction false} RemoveEachKeepsOthers(acc: seq<string>, tokens: seq<string>, drop: seq<string>)
    requires forall x :: x in tokens ==> x in drop
    ensures Keep(RemoveEach(acc, tokens), drop) == Keep(acc, drop)
    decreases |tokens|
  {
    if |tokens| > 0 {
      assert tokens[0] in tokens;
      KeepRemoveFirst(acc, tokens[0], drop);
      forall x | x in tokens[1..] ensures x in drop { assert x in tokens; }
      RemoveEachKeepsOthers(RemoveFirst(acc, tokens[0]), tokens[1..], drop);
    }
  }

  lemma {:induction false} IndexOfAfter(p: seq<string>, xs: seq<string>, x: string)
    requires x !in p
    ensures IndexOf(p + xs, x) == if IndexOf(xs, x) == -1 then -1 else |p| + IndexOf(xs, x)
    decreases |p|
  {
    if |p| == 0 {
      assert p + xs == xs;
    } else {
      assert (p + xs)[1..] == p[1..] + xs;
      IndexOfAfter(p[1..], xs, x);
    }
  }

  /** Cutting one element out behind a fixed prefix leaves the prefix in front. */
  lemma CutAfter(p: seq<string>, xs: seq<string>, j: nat)
    requires j < |xs|
    ensures (p + xs)[..|p| + j] + (p + xs)[|p| + j + 1..] == p + (xs[..j] + xs[j + 1..])
  {
    assert (p + xs)[..|p| + j] == p + xs[..j];
    assert (p + xs)[|p| + j + 1..] == xs[j + 1..];
  }

  lemma {:induction false} RemoveFirstAfter(p: seq<string>, xs: seq<string>, x: string)
    requires x !in p
    ensures RemoveFirst(p + xs, x) == p + RemoveFirst(xs, x)
  {
    IndexOfAfter(p, xs, x);
    var j := IndexOf(xs, x);
    if j == -1 {
      assert IndexOf(p + xs, x) == -1;
    } else {
      var k := |p| + j;
      assert IndexOf(p + xs, x) == k;
      assert RemoveFirst(p + xs, x) == (p + xs)[..k] + (p + xs)[k + 1..];
      assert RemoveFirst(xs, x) == xs[..j] + xs[j + 1..];
      CutAfter(p, xs, j);
    }
  }

  lemma {:induction false} RemoveEachAfter(p: seq<string>, xs: seq<string>, tokens: seq<string>)
    requires forall x :: x in p ==> x !in tokens
    ensures RemoveEach(p + xs, tokens) == p + RemoveEach(xs, tokens)
    decreases |tokens|
  {
    if |tokens| > 0 {
      assert tokens[0] in tokens;
      RemoveFirstAfter(p, xs, tokens[0]);
      forall x | x in p ensures x !in tokens[1..] { }
      RemoveEachAfter(p, RemoveFirst(xs, tokens[0]), tokens[1..]);
    }
  }

  lemma {:induction false} NoDupAtMostOnce(xs: seq<string>)
    requires NoDup(xs)
    ensures forall y :: multiset(xs)[y] <= 1
    decreases |xs|
  {
    if |xs| > 0 {
      assert NoDup(xs[1..]) by {
        forall i, j | 0 <= i < j < |xs[1..]| ensures xs[1..][i] != xs[1..][j] {
          assert xs[1..][i] == xs[i + 1] && xs[1..][j] == xs[j + 1];
        }
      }
      NoDupAtMostOnce(xs[1..]);
      assert xs == [xs[0]] + xs[1..];
    }
  }

  /** Each token of a repetition-free list drawn from the configuration is removed. */
  lemma RemoveEachClears(xs: seq<string>, tokens: seq<string>)
    requires NoDup(xs)
    requires forall x :: x in xs ==> x in tokens
    ensures RemoveEach(xs, tokens) == []
  {
    RemoveEachCounts(xs, tokens);
    NoDupAtMostOnce(xs);
    var a, b := multiset(xs), multiset(tokens);
    assert a - b == multiset{} by {
      forall y ensures (a - b)[y] == 0 {
        if y in xs { assert y in tokens; }
      }
    }
  }

  /** `resetState` right after `setState` gives back the list `setState` started from, when
      that list holds none of the configured tokens. */
  lemma AddThenRemove(acc: seq<string>, tokens: seq<string>)
    requires forall x :: x in acc ==> x !in tokens
    ensures RemoveEach(AddMissing(acc, tokens), tokens) == acc
  {
    AddMissingAppended(acc, tokens);
    var d := AddMissing(acc, tokens)[|acc|..];
    RemoveEachAfter(acc, d, tokens);
    RemoveEachClears(d, tokens);
    assert acc + [] == acc;
  }
}
