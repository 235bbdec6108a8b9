/** `classNames(...classes)` of the navigation bar:
    `classes.filter(Boolean).join(' ')`. */
module Navbar {

  /** An argument of `classNames`: a string, or a falsy non-string such as
      `false`, `null` or `undefined` (what a `cond && 'cls'` produces). */
  datatype ClassArg = Str(s: string) | Falsy

  /** `Boolean(arg)`: only non-empty strings are truthy. */
  predicate Truthy(a: ClassArg)
  {
    a.Str? && a.s != ""
  }

  /** `filter(Boolean)`: the truthy arguments, in their order. */
  function Kept(args: seq<ClassArg>): (r: seq<string>)
    ensures |r| <= |args|
    ensures forall i :: 0 <= i < |r| ==> r[i] != ""
    ensures forall i :: 0 <= i < |r| ==> Str(r[i]) in args
    ensures r == [] <==> forall i :: 0 <= i < |args| ==> !Truthy(args[i])
  {
    if args == [] then []
    else
      var rest := Kept(args[1..]);
      assert forall i :: 0 <= i < |rest| ==> Str(rest[i]) in args by {
        forall i | 0 <= i < |rest| ensures Str(rest[i]) in args {
          var j :| 0 <= j < |args[1..]| && args[1..][j] == Str(rest[i]);
          assert args[j + 1] == Str(rest[i]);
        }
      }
      if Truthy(args[0]) then [args[0].s] + rest else rest
  }

  /** `join(' ')`: the strings with one space between neighbours. */
  function Join(xs: seq<string>): string
  {
    if xs == [] then ""
    else if |xs| == 1 then xs[0]
    else xs[0] + " " + Join(xs[1..])
  }

  /** `classNames(...args)`. */
  function ClassNames(args: seq<ClassArg>): string
  {
    Join(Kept(args))
  }

  /** The result is empty exactly when no argument is truthy. */
  lemma ClassNamesEmpty(args: seq<ClassArg>)
    ensures ClassNames(args) == "" <==> forall i :: 0 <= i < |args| ==> !Truthy(args[i])
  {
    var k := Kept(args);
    if k != [] {
      JoinLength(k);
      assert |k[0]| > 0;
    }
  }

  function SumLengths(xs: seq<string>): nat
  {
    if xs == [] then 0 else |xs[0]| + SumLengths(xs[1..])
  }

  /** The joined string is the kept strings and exactly one separator
      between each pair of neighbours: no leading, trailing or doubled
      separator is added. */
  lemma {:induction false} JoinLength(xs: seq<string>)
    ensures xs != [] ==> |Join(xs)| == SumLengths(xs) + |xs| - 1
    ensures xs != [] ==> Join(xs)[..|xs[0]|] == xs[0]
  {
    if |xs| > 1 {
      JoinLength(xs[1..]);
    }
  }

  /** `split(' ')`: the pieces between the spaces. */
  function Split(s: string): seq<string>
    decreases |s|
  {
    if ' ' !in s then [s]
    else
      var i := FirstSpace(s);
      [s[..i]] + Split(s[i + 1..])
  }

  function FirstSpace(s: string): (i: nat)
    requires ' ' in s
    ensures i < |s| && s[i] == ' ' && ' ' !in s[..i]
  {
    if s[0] == ' ' then 0
    else
      var j := FirstSpace(s[1..]);
      assert s[1..][..j] == s[1..j + 1];
      j + 1
  }

  /** Class tokens without spaces come back from the joined string one by
      one and in order: splitting undoes joining. */
  lemma {:induction false} SplitJoin(xs: seq<string>)
    requires xs != []
    requires forall i :: 0 <= i < |xs| ==> ' ' !in xs[i]
    ensures Split(Join(xs)) == xs
  {
    if |xs| > 1 {
      var s := Join(xs);
      var x, rest := xs[0], xs[1..];
      assert s == x + " " + Join(rest);
      assert ' ' in s by { assert s[|x|] == ' '; }
      assert s[..|x|] == x;
      assert FirstSpace(s) == |x|;
      assert s[|x| + 1..] == Join(rest);
      SplitJoin(rest);
    }
  }

  /** `filter` keeps order: the kept arguments of a concatenation are those
      of its first part followed by those of its second. */
  lemma {:induction false} KeptConcat(a: seq<ClassArg>, b: seq<ClassArg>)
    ensures Kept(a + b) == Kept(a) + Kept(b)
  {
    if a == [] {
      assert a + b == b;
    } else {
      assert (a + b)[0] == a[0] && (a + b)[1..] == a[1..] + b;
      KeptConcat(a[1..], b);
    }
  }

  /** When no class name holds a space, the truthy arguments can be read back
      from the result, each once and in their order, so exactly one space
      separates neighbours and none leads or trails. */
  lemma ClassNamesTokens(args: seq<ClassArg>)
    requires exists i :: 0 <= i < |args| && Truthy(args[i])
    requires forall i :: 0 <= i < |args| && args[i].Str? ==> ' ' !in args[i].s
    ensures Split(ClassNames(args)) == Kept(args)
  {
    var k := Kept(args);
    forall i | 0 <= i < |k| ensures ' ' !in k[i] {
      var j :| 0 <= j < |args| && args[j] == Str(k[i]);
    }
    SplitJoin(k);
  }

  /** Joining a concatenation joins each part and puts one space between
      them. An argument that itself holds several space-separated classes,
      as the navigation links pass, therefore contributes exactly its own
      text to the result. */
  lemma {:induction false} JoinConcat(a: seq<string>, b: seq<string>)
    requires a != [] && b != []
    ensures Join(a + b) == Join(a) + " " + Join(b)
  {
    if |a| == 1 {
      assert (a + b)[0] == a[0] && (a + b)[1..] == b;
    } else {
      assert (a + b)[0] == a[0] && (a + b)[1..] == a[1..] + b;
      JoinConcat(a[1..], b);
    }
  }
}
