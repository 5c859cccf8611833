/** The part of the browser document that the site reads and writes: the class
    list of the root element (`document.documentElement.classList`). A class
    list is an ordered list of distinct class names; `add` appends a name that
    is missing and `remove` deletes a name wherever it stands. */
module Dom {

  /** The class on the root element that marks the dark theme. */
  const DarkClass: string := "dark"

  /** No class name occurs twice. */
  ghost predicate NoDuplicates(s: seq<string>) {
    forall i, j :: 0 <= i < j < |s| ==> s[i] != s[j]
  }

  /** The token list after `classList.add(t)`. */
  function With(s: seq<string>, t: string): (r: seq<string>)
    ensures t in r
    ensures forall x :: x != t ==> (x in r <==> x in s)
    ensures NoDuplicates(s) ==> NoDuplicates(r)
    ensures t in s ==> r == s
    ensures t !in s ==> r == s + [t]
  {
    if t in s then s else s + [t]
  }

  /** The token list after `classList.remove(t)`: every occurrence of `t`
      dropped, the other names kept in their order. */
  function Without(s: seq<string>, t: string): (r: seq<string>)
    ensures t !in r
    ensures forall x :: x != t ==> (x in r <==> x in s)
    ensures NoDuplicates(s) ==> NoDuplicates(r)
    ensures t !in s ==> r == s
    ensures |r| <= |s|
  {
    if s == [] then []
    else if s[0] == t then Without(s[1..], t)
    else
      var rest := Without(s[1..], t);
      ConsNoDuplicates(s, rest);
      [s[0]] + rest
  }

  /** Keeping the head of a duplicate-free list in front of a sublist of its
      tail keeps it duplicate-free. */
  lemma ConsNoDuplicates(s: seq<string>, rest: seq<string>)
    requires |s| > 0
    requires forall x :: x in rest ==> x in s[1..]
    requires NoDuplicates(s[1..]) ==> NoDuplicates(rest)
    ensures NoDuplicates(s) ==> NoDuplicates([s[0]] + rest)
  {
    if NoDuplicates(s) {
      var c := [s[0]] + rest;
      assert NoDuplicates(s[1..]);
      forall i, j | 0 <= i < j < |c| ensures c[i] != c[j] {
        assert c[j] == rest[j - 1];
        if i > 0 {
          assert c[i] == rest[i - 1];
        } else {
          assert c[j] in rest;
        }
      }
    }
  }

  /** Removing a name that was just appended gives back the original list. */
  lemma {:induction false} RemoveUndoesAdd(s: seq<string>, t: string)
    requires t !in s
    ensures Without(With(s, t), t) == s
  {
    WithoutAppend(s, [t], t);
  }

  lemma {:induction false} WithoutAppend(s: seq<string>, u: seq<string>, t: string)
    ensures Without(s + u, t) == Without(s, t) + Without(u, t)
  {
    if s == [] {
      assert s + u == u;
    } else {
      assert (s + u)[1..] == s[1..] + u;
      WithoutAppend(s[1..], u, t);
    }
  }

  /** The class list of the root element. */
  class ClassList {
    var tokens: seq<string>

    ghost predicate Valid()
      reads this
    {
      NoDuplicates(tokens)
    }

    constructor (initial: seq<string>)
      requires NoDuplicates(initial)
      ensures Valid() && tokens == initial
    {
      tokens := initial;
    }

    /** `classList.contains(t)` */
    function Contains(t: string): bool
      reads this
      ensures Contains(t) <==> exists i :: 0 <= i < |tokens| && tokens[i] == t
      ensures Contains(t) ==> With(tokens, t) == tokens
      ensures !Contains(t) ==> Without(tokens, t) == tokens
    {
      t in tokens
    }

    /** `classList.add(t)` */
    method Add(t: string)
      requires Valid()
      modifies this
      ensures Valid() && tokens == With(old(tokens), t)
    {
      if t !in tokens {
        tokens := tokens + [t];
      }
    }

    /** `classList.remove(t)` */
    method Remove(t: string)
      requires Valid()
      modifies this
      ensures Valid() && tokens == Without(old(tokens), t)
    {
      tokens := Without(tokens, t);
    }
  }
}
