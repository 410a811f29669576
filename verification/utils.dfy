/**
 * The class-name combinator `cx` (lib/utils.ts:1).  Its arguments are class
 * strings, `false` or `undefined`; falsy ones are dropped and the rest joined
 * with single spaces.  `sleep` (lib/utils.ts:4-13) appears in this model only
 * as the cancellation point of the pipeline (module DemoEngine).
 */
module Utils {

  datatype ClassArg = Cls(name: string) | False | Undefined

  /** JavaScript truthiness of an argument: only a non-empty string. */
  predicate Truthy(a: ClassArg)
  {
    a.Cls? && a.name != ""
  }

  /** The truthy arguments' strings, in argument order. */
  function Kept(args: seq<ClassArg>): (r: seq<string>)
    ensures |r| <= |args|
    ensures forall i :: 0 <= i < |r| ==> r[i] != ""
  {
    if args == [] then []
    else (if Truthy(args[0]) then [args[0].name] else []) + Kept(args[1..])
  }

  /** `Array.prototype.join(' ')`. */
  function JoinSpaced(ss: seq<string>): string
  {
    if |ss| == 0 then ""
    else if |ss| == 1 then ss[0]
    else ss[0] + " " + JoinSpaced(ss[1..])
  }

  function TotalLength(ss: seq<string>): nat
  {
    if ss == [] then 0 else |ss[0]| + TotalLength(ss[1..])
  }

  function Cx(args: seq<ClassArg>): (r: string)
    ensures r == "" <==> forall i :: 0 <= i < |args| ==> !Truthy(args[i])
  {
    KeptEmptyIff(args);
    JoinEmptyIff(Kept(args));
    JoinSpaced(Kept(args))
  }

  lemma {:induction false} KeptEmptyIff(args: seq<ClassArg>)
    ensures Kept(args) == [] <==> forall i :: 0 <= i < |args| ==> !Truthy(args[i])
  {
    if args != [] {
      KeptEmptyIff(args[1..]);
      if !Truthy(args[0]) {
        forall i | 0 < i < |args| && !Truthy(args[i]) ensures !Truthy(args[1..][i - 1]) { }
      }
    }
  }

  lemma {:induction false} JoinEmptyIff(ss: seq<string>)
    requires forall i :: 0 <= i < |ss| ==> ss[i] != ""
    ensures JoinSpaced(ss) == "" <==> ss == []
  {
    if |ss| > 1 {
      assert |JoinSpaced(ss)| >= |ss[0]| > 0;
    }
  }

  /** Dropping falsy arguments commutes with concatenating argument lists. */
  lemma {:induction false} KeptAppend(a: seq<ClassArg>, b: seq<ClassArg>)
    ensures Kept(a + b) == Kept(a) + Kept(b)
  {
    if a == [] {
      assert a + b == b;
    } else {
      assert (a + b)[1..] == a[1..] + b;
      KeptAppend(a[1..], b);
    }
  }

  /** Joining two lists puts exactly one space between them when both are non-empty. */
  lemma {:induction false} JoinAppend(a: seq<string>, b: seq<string>)
    ensures JoinSpaced(a + b) ==
      JoinSpaced(a) + (if a != [] && b != [] then " " else "") + JoinSpaced(b)
  {
    if a == [] {
      assert a + b == b;
    } else if |a| == 1 {
      if b != [] {
        assert (a + b)[1..] == b;
      } else {
        assert a + b == a;
      }
    } else {
      assert (a + b)[1..] == a[1..] + b;
      JoinAppend(a[1..], b);
    }
  }

  /** `cx(...a, ...b)` is `cx(...a)` and `cx(...b)` separated by one space
      when both are non-empty, and the other one when either is empty. */
  lemma CxAppend(a: seq<ClassArg>, b: seq<ClassArg>)
    ensures Cx(a + b) == Cx(a) + (if Cx(a) != "" && Cx(b) != "" then " " else "") + Cx(b)
  {
    KeptAppend(a, b);
    JoinAppend(Kept(a), Kept(b));
    JoinEmptyIff(Kept(a));
    JoinEmptyIff(Kept(b));
  }

  /** With exactly one truthy argument the result is that string unchanged. */
  lemma CxSingle(args: seq<ClassArg>, k: nat)
    requires k < |args| && Truthy(args[k])
    requires forall i :: 0 <= i < |args| && i != k ==> !Truthy(args[i])
    ensures Cx(args) == args[k].name
  {
    assert args == args[..k] + [args[k]] + args[k + 1..];
    KeptAppend(args[..k] + [args[k]], args[k + 1..]);
    KeptAppend(args[..k], [args[k]]);
    assert Kept([args[k]]) == [args[k].name] by {
      assert [args[k]][1..] == [];
    }
    forall i | 0 <= i < |args[..k]| ensures !Truthy(args[..k][i]) { }
    KeptEmptyIff(args[..k]);
    var tail := args[k + 1..];
    forall i | 0 <= i < |tail| ensures !Truthy(tail[i]) {
      assert tail[i] == args[k + 1 + i];
    }
    KeptEmptyIff(tail);
  }

  /** The result is as long as the kept strings together plus one space
      between each neighbouring pair. */
  lemma {:induction false} JoinLength(ss: seq<string>)
    ensures |JoinSpaced(ss)| == TotalLength(ss) + (if ss == [] then 0 else |ss| - 1)
  {
    if |ss| == 1 {
      assert ss[1..] == [];
    } else if |ss| > 1 {
      JoinLength(ss[1..]);
    }
  }

  lemma CxLength(args: seq<ClassArg>)
    ensures var kept := Kept(args);
      |Cx(args)| == TotalLength(kept) + (if kept == [] then 0 else |kept| - 1)
  {
    JoinLength(Kept(args));
  }
}
