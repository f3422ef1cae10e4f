/**
 * src/components/ui/GlassCard.tsx: the card's own class-name joiner `clsx`,
 * which keeps the truthy arguments (strings other than the empty one) and
 * joins them with single spaces, without trimming. The card's rendering is
 * not part of this model.
 */
module GlassCard {
  import opened JsString
  import opened JsArray
  import LibUtils

  /** An argument of `clsx`: `string | undefined | null | false`. */
  datatype ClsxArg = Name(s: string) | Undefined | Null | False

  /** `Boolean(arg)`: only a non-empty string is truthy. */
  predicate Truthy(a: ClsxArg) {
    a.Name? && a.s != ""
  }

  /** `Boolean` as the predicate `filter` is given. */
  function IsTruthy(): ClsxArg -> bool {
    (a: ClsxArg) => Truthy(a)
  }

  /** `classes.filter(Boolean)`: the strings of the truthy arguments and of nothing else. */
  function Classes(args: seq<ClsxArg>): (r: seq<string>)
    ensures |r| <= |args|
    ensures forall i :: 0 <= i < |r| ==> r[i] != [] && Name(r[i]) in args
    ensures forall s :: s in r <==> Name(s) in args && s != []
  {
    if args == [] then []
    else
      var rest := Classes(args[1..]);
      assert forall i :: 0 <= i < |rest| ==> Name(rest[i]) in args by {
        forall i | 0 <= i < |rest| ensures Name(rest[i]) in args {
          assert Name(rest[i]) in args[1..];
        }
      }
      assert forall s :: Name(s) in args <==> args[0] == Name(s) || Name(s) in args[1..] by {
        assert args == [args[0]] + args[1..];
      }
      if Truthy(args[0]) then [args[0].s] + rest else rest
  }

  /**
   * The kept names are the filtered arguments, name for name: every truthy
   * argument is kept, as often as it occurs and in order, and nothing else is.
   */
  lemma {:induction false} ClassesAreFiltered(args: seq<ClsxArg>)
    ensures var r, f := Classes(args), Filter(args, IsTruthy());
            |r| == |f| && forall i :: 0 <= i < |r| ==> f[i] == Name(r[i])
  {
    if args != [] {
      ClassesAreFiltered(args[1..]);
    }
  }

  /**
   * `clsx`: the truthy arguments joined with spaces. The result is empty
   * exactly when no argument is truthy; otherwise it starts with the first
   * kept name and ends with the last, untrimmed.
   */
  function Clsx(args: seq<ClsxArg>): (r: string)
    ensures r == [] <==> forall i :: 0 <= i < |args| ==> !Truthy(args[i])
    ensures var names := Classes(args);
            names != [] ==> |r| >= |names[0]| && r[..|names[0]|] == names[0]
                            && |r| >= |names[|names| - 1]| && r[|r| - |names[|names| - 1]|..] == names[|names| - 1]
  {
    var names := Classes(args);
    if names == [] then
      Join(names, " ")
    else
      JoinEnds(names, " ");
      assert Truthy(Name(names[0])) && Name(names[0]) in args;
      Join(names, " ")
  }

  /** With no truthy argument the result is the empty string. */
  lemma {:induction false} ClsxAllFalsy(args: seq<ClsxArg>)
    requires forall i :: 0 <= i < |args| ==> !Truthy(args[i])
    ensures Clsx(args) == ""
  {
    if args != [] {
      ClsxAllFalsy(args[1..]);
    }
  }

  /**
   * When no kept class name holds a space, splitting the result on spaces
   * gives back exactly the truthy arguments, in order, none of them empty.
   */
  lemma ClsxSplits(args: seq<ClsxArg>)
    requires Classes(args) != []
    requires forall i :: 0 <= i < |Classes(args)| ==> ' ' !in Classes(args)[i]
    ensures Split(Clsx(args), ' ') == Classes(args)
    ensures forall i :: 0 <= i < |Split(Clsx(args), ' ')| ==> Split(Clsx(args), ' ')[i] != []
  {
    SplitJoin(Classes(args), ' ');
  }

  /** The same arguments as `cn` would see them. */
  function AsClassValue(a: ClsxArg): LibUtils.ClassValue {
    match a
    case Name(s) => LibUtils.Str(s)
    case Undefined => LibUtils.Undefined
    case Null => LibUtils.Null
    case False => LibUtils.Bool(false)
  }

  function AsClassValues(args: seq<ClsxArg>): (r: seq<LibUtils.ClassValue>)
    ensures |r| == |args| && forall i :: 0 <= i < |args| ==> r[i] == AsClassValue(args[i])
  {
    seq(|args|, i requires 0 <= i < |args| => AsClassValue(args[i]))
  }

  /** A class name with no white space at either end. */
  predicate Tidy(s: string) {
    s != [] && !IsWhiteSpace(s[0]) && !IsWhiteSpace(s[|s| - 1])
  }

  lemma {:induction false} ClassesAreClassNames(args: seq<ClsxArg>)
    requires forall i :: 0 <= i < |args| ==> args[i].Name? && args[i].s != []
    ensures LibUtils.ClassNames(AsClassValues(args)) == Classes(args)
  {
    if args != [] {
      ClassesAreClassNames(args[1..]);
      var vs := AsClassValues(args);
      assert vs[1..] == AsClassValues(args[1..]);
      assert LibUtils.Flat(vs) == [vs[0]] + LibUtils.Flat(vs[1..]);
      assert ([vs[0]] + LibUtils.Flat(vs[1..]))[1..] == LibUtils.Flat(vs[1..]);
    }
  }

  /**
   * On arguments that are all tidy class names, the card's joiner and `cn`
   * give the same string: the two differ only on empty strings (which `cn`
   * keeps) and on white space at the ends (which `cn` trims).
   */
  lemma ClsxAgreesWithCn(args: seq<ClsxArg>)
    requires forall i :: 0 <= i < |args| ==> args[i].Name? && Tidy(args[i].s)
    ensures Clsx(args) == LibUtils.Cn(AsClassValues(args))
  {
    ClassesAreClassNames(args);
    var names := Classes(args);
    if names != [] {
      var j := Join(names, " ");
      JoinEnds(names, " ");
      var last := names[|names| - 1];
      assert Name(names[0]) in args && Name(last) in args;
      assert Tidy(names[0]) && Tidy(last);
      assert j[0] == names[0][0];
      assert j[|j| - 1] == last[|last| - 1] by {
        assert j[|j| - |last|..][|last| - 1] == last[|last| - 1];
      }
      TrimKeeps(j);
    }
  }
}
