/**
 * The layering rule every merge of the provider follows: a setting starts at
 * its default and each present override, taken in input order, replaces it.
 * Override streams are built from the configuration blocks with Map (one
 * override per block) and Flatten (the nested blocks of every outer block,
 * in order).
 */
module Overlay {
  import opened Wrappers

  /** The setting after applying every override of `os`, in order, to `prior`:
      the last present override, or `prior` when none is present. */
  function LastSome<T>(prior: T, os: seq<Option<T>>): T
    decreases |os|
  {
    if os == [] then prior
    else match os[|os| - 1]
      case Some(v) => v
      case None => LastSome(prior, os[..|os| - 1])
  }

  /** `f` applied to every element of `s`, in order. */
  function Map<A, B>(s: seq<A>, f: A -> B): seq<B>
    decreases |s|
  {
    if s == [] then [] else Map(s[..|s| - 1], f) + [f(s[|s| - 1])]
  }

  /** The children of every element of `s`, concatenated in order. */
  function Flatten<A, B>(s: seq<A>, children: A -> seq<B>): seq<B>
    decreases |s|
  {
    if s == [] then [] else Flatten(s[..|s| - 1], children) + children(s[|s| - 1])
  }

  /** Map keeps the length and transforms element by element. */
  lemma {:induction false} MapAt<A, B>(s: seq<A>, f: A -> B)
    ensures |Map(s, f)| == |s|
    ensures forall i :: 0 <= i < |s| ==> Map(s, f)[i] == f(s[i])
  {
    if s != [] {
      MapAt(s[..|s| - 1], f);
    }
  }

  /** Map distributes over concatenation. */
  lemma {:induction false} MapAppend<A, B>(a: seq<A>, b: seq<A>, f: A -> B)
    ensures Map(a + b, f) == Map(a, f) + Map(b, f)
  {
    if b == [] {
      assert a + b == a;
    } else {
      assert (a + b)[..|a + b| - 1] == a + b[..|b| - 1];
      MapAppend(a, b[..|b| - 1], f);
    }
  }

  /** Flatten distributes over concatenation. */
  lemma {:induction false} FlattenAppend<A, B>(a: seq<A>, b: seq<A>, children: A -> seq<B>)
    ensures Flatten(a + b, children) == Flatten(a, children) + Flatten(b, children)
  {
    if b == [] {
      assert a + b == a;
    } else {
      assert (a + b)[..|a + b| - 1] == a + b[..|b| - 1];
      FlattenAppend(a, b[..|b| - 1], children);
    }
  }

  /** Extending a prefix by one element extends its Map by that element's image. */
  lemma MapStep<A, B>(s: seq<A>, i: nat, f: A -> B)
    requires i < |s|
    ensures Map(s[..i + 1], f) == Map(s[..i], f) + [f(s[i])]
  {
    assert s[..i + 1][..i] == s[..i];
  }

  /** Extending a prefix by one element extends its Flatten by that element's children. */
  lemma FlattenStep<A, B>(s: seq<A>, i: nat, children: A -> seq<B>)
    requires i < |s|
    ensures Flatten(s[..i + 1], children) == Flatten(s[..i], children) + children(s[i])
  {
    assert s[..i + 1][..i] == s[..i];
  }

  /** Overriding with `a` and then with `b` is overriding with `a + b`. */
  lemma {:induction false} LastSomeAppend<T>(prior: T, a: seq<Option<T>>, b: seq<Option<T>>)
    ensures LastSome(prior, a + b) == LastSome(LastSome(prior, a), b)
  {
    if b == [] {
      assert a + b == a;
    } else {
      assert (a + b)[..|a + b| - 1] == a + b[..|b| - 1];
      LastSomeAppend(prior, a, b[..|b| - 1]);
    }
  }

  /** Applying the overrides of one more element of `s`: its override, when
      present, replaces the setting. */
  lemma LastSomeStep<A, T>(prior: T, s: seq<A>, i: nat, f: A -> Option<T>)
    requires i < |s|
    ensures LastSome(prior, Map(s[..i + 1], f))
            == match f(s[i])
               case Some(v) => v
               case None => LastSome(prior, Map(s[..i], f))
  {
    MapStep(s, i, f);
    var pre := Map(s[..i], f);
    assert (pre + [f(s[i])])[..|pre|] == pre;
  }

  /** Over at most one element, the setting is that element's override when present. */
  lemma {:induction false} LastSomeAtMostOne<A, T>(prior: T, s: seq<A>, f: A -> Option<T>)
    requires |s| <= 1
    ensures LastSome(prior, Map(s, f)) == if |s| == 1 && f(s[0]).Some? then f(s[0]).value else prior
  {
    if |s| == 1 {
      assert s[..0] == [];
    }
  }

  /** With no present override the setting keeps its prior value. */
  lemma {:induction false} LastSomeAllAbsent<T>(prior: T, os: seq<Option<T>>)
    requires forall i :: 0 <= i < |os| ==> os[i] == None
    ensures LastSome(prior, os) == prior
  {
    if os != [] {
      LastSomeAllAbsent(prior, os[..|os| - 1]);
    }
  }

  /** The last present override wins, whatever came before it. */
  lemma {:induction false} LastSomeLastPresent<T>(prior: T, os: seq<Option<T>>, j: nat)
    requires j < |os| && os[j].Some?
    requires forall k :: j < k < |os| ==> os[k] == None
    ensures LastSome(prior, os) == os[j].value
  {
    if j < |os| - 1 {
      LastSomeLastPresent(prior, os[..|os| - 1], j);
    }
  }

  /** When some override is present, the result is the value of a present
      override after which none is present. */
  lemma {:induction false} LastSomeWitness<T>(prior: T, os: seq<Option<T>>)
    requires exists i :: 0 <= i < |os| && os[i].Some?
    ensures exists j :: 0 <= j < |os| && os[j] == Some(LastSome(prior, os))
                        && forall k :: j < k < |os| ==> os[k] == None
  {
    var n := |os|;
    if os[n - 1].None? {
      var pre := os[..n - 1];
      var i :| 0 <= i < n && os[i].Some?;
      assert pre[i].Some?;
      LastSomeWitness(prior, pre);
      var j :| 0 <= j < n - 1 && pre[j] == Some(LastSome(prior, pre))
               && forall k :: j < k < n - 1 ==> pre[k] == None;
      assert os[j] == Some(LastSome(prior, os));
      assert forall k :: j < k < n ==> os[k] == None by {
        forall k | j < k < n ensures os[k] == None {
          if k < n - 1 { assert pre[k] == os[k]; }
        }
      }
    }
  }
}
