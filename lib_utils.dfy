/**
 * src/lib/utils.ts: `cn`, the class-name joiner of the styling layer. Its
 * arguments are flattened one level, everything that is not a string is
 * dropped (numbers, booleans, null, undefined, objects and arrays nested
 * deeper), the strings are joined with single spaces and the result trimmed.
 * Empty strings are kept, so they show up as doubled spaces.
 */
module LibUtils {
  import opened JsString
  import opened JsArray

  /** A `ClassValue`: an object's keys play no part, so an object carries none. */
  datatype ClassValue =
    | Str(s: string)
    | Num(n: real)
    | Bool(b: bool)
    | Undefined
    | Null
    | Obj
    | Arr(items: seq<ClassValue>)

  /** Whether `y` is an argument that is not an array, or an element of an array argument. */
  predicate InArgs(xs: seq<ClassValue>, y: ClassValue) {
    (y in xs && !y.Arr?) || exists i :: 0 <= i < |xs| && xs[i].Arr? && y in xs[i].items
  }

  /**
   * `Array.prototype.flat()` with its default depth of one: every argument
   * that is not an array, and every element of an array argument, whatever
   * that element is; nothing else.
   */
  function Flat(xs: seq<ClassValue>): (r: seq<ClassValue>)
    ensures forall i :: 0 <= i < |xs| && !xs[i].Arr? ==> xs[i] in r
    ensures forall i, j :: 0 <= i < |xs| && xs[i].Arr? && 0 <= j < |xs[i].items| ==> xs[i].items[j] in r
    ensures forall y :: y in r ==> InArgs(xs, y)
  {
    if xs == [] then []
    else
      var head := if xs[0].Arr? then xs[0].items else [xs[0]];
      var rest := Flat(xs[1..]);
      assert forall y :: y in rest ==> InArgs(xs, y) by {
        forall y | y in rest ensures InArgs(xs, y) {
          if !(y in xs[1..] && !y.Arr?) {
            var i :| 0 <= i < |xs[1..]| && xs[1..][i].Arr? && y in xs[1..][i].items;
            assert xs[i + 1] == xs[1..][i];
          }
        }
      }
      assert forall i :: 1 <= i < |xs| ==> xs[i] == xs[1..][i - 1];
      head + rest
  }

  /** The flattening of one argument: an array's elements, or the argument itself. */
  lemma FlatOne(x: ClassValue)
    ensures Flat([x]) == if x.Arr? then x.items else [x]
  {
    assert [x][1..] == [];
  }

  /** Whether a value is a string: the predicate of `filter((x) => typeof x === "string")`. */
  function IsStr(): ClassValue -> bool {
    (x: ClassValue) => x.Str?
  }

  /** `filter((x) => typeof x === "string")`: exactly the strings among the values. */
  function Strings(xs: seq<ClassValue>): (r: seq<string>)
    ensures forall s :: s in r <==> Str(s) in xs
  {
    if xs == [] then []
    else
      var rest := Strings(xs[1..]);
      assert forall s :: Str(s) in xs <==> xs[0] == Str(s) || Str(s) in xs[1..] by {
        assert xs == [xs[0]] + xs[1..];
      }
      if xs[0].Str? then [xs[0].s] + rest else rest
  }

  /**
   * The strings are the filtered sequence, string for string: every string
   * is kept, as often as it occurs and in order, and nothing else is.
   */
  lemma {:induction false} StringsAreFiltered(xs: seq<ClassValue>)
    ensures var r, f := Strings(xs), Filter(xs, IsStr());
            |r| == |f| && forall i :: 0 <= i < |r| ==> f[i] == Str(r[i])
  {
    if xs != [] {
      StringsAreFiltered(xs[1..]);
    }
  }

  /**
   * The class names `cn` joins: exactly the strings among the arguments and
   * among the top-level elements of array arguments.
   */
  function ClassNames(inputs: seq<ClassValue>): (r: seq<string>)
    ensures forall s :: s in r <==> InArgs(inputs, Str(s))
  {
    Strings(Flat(inputs))
  }

  /**
   * `cn`: the class names joined with spaces, with the white space at both
   * ends cut off and nothing else: the result starts and ends with a
   * non-white-space character, and what is cut before and after it is all
   * white space.
   */
  function Cn(inputs: seq<ClassValue>): (r: string)
    ensures r != [] ==> !IsWhiteSpace(r[0]) && !IsWhiteSpace(r[|r| - 1])
    ensures var j := Join(ClassNames(inputs), " ");
            && Lead(j) + |r| <= |j| && r == j[Lead(j)..Lead(j) + |r|]
            && (forall k :: 0 <= k < Lead(j) ==> IsWhiteSpace(j[k]))
            && (forall k :: Lead(j) + |r| <= k < |j| ==> IsWhiteSpace(j[k]))
  {
    Trim(Join(ClassNames(inputs), " "))
  }

  lemma {:induction false} FlatAppend(a: seq<ClassValue>, b: seq<ClassValue>)
    ensures Flat(a + b) == Flat(a) + Flat(b)
  {
    if a != [] {
      var head := if a[0].Arr? then a[0].items else [a[0]];
      calc {
        Flat(a + b);
        { assert (a + b)[0] == a[0]; }
        head + Flat((a + b)[1..]);
        { assert (a + b)[1..] == a[1..] + b; }
        head + Flat(a[1..] + b);
        { FlatAppend(a[1..], b); }
        head + (Flat(a[1..]) + Flat(b));
        (head + Flat(a[1..])) + Flat(b);
        Flat(a) + Flat(b);
      }
    } else {
      assert a + b == b;
    }
  }

  lemma {:induction false} StringsAppend(a: seq<ClassValue>, b: seq<ClassValue>)
    ensures Strings(a + b) == Strings(a) + Strings(b)
  {
    if a != [] {
      assert (a + b)[1..] == a[1..] + b;
      StringsAppend(a[1..], b);
    } else {
      assert a + b == b;
    }
  }

  /** Whether a value can give `cn` a class name: a string, or an array with a string at its top level. */
  predicate Contributes(x: ClassValue) {
    x.Str? || (x.Arr? && exists i :: 0 <= i < |x.items| && x.items[i].Str?)
  }

  lemma {:induction false} StringsNone(xs: seq<ClassValue>)
    requires forall i :: 0 <= i < |xs| ==> !xs[i].Str?
    ensures Strings(xs) == []
  {
    if xs != [] {
      StringsNone(xs[1..]);
    }
  }

  /**
   * An argument that is neither a string nor an array with a string at its
   * top level (a number, a boolean, null, undefined, an object, an array of
   * arrays) leaves the result unchanged wherever it is placed.
   */
  lemma NonStringIgnored(before: seq<ClassValue>, x: ClassValue, after: seq<ClassValue>)
    requires !Contributes(x)
    ensures Cn(before + [x] + after) == Cn(before + after)
  {
    var fb, fx, fa := Flat(before), Flat([x]), Flat(after);
    FlatOne(x);
    StringsNone(fx);
    calc {
      ClassNames(before + [x] + after);
      { FlatAppend(before + [x], after); FlatAppend(before, [x]); }
      Strings(fb + fx + fa);
      { StringsAppend(fb + fx, fa); StringsAppend(fb, fx); }
      Strings(fb) + Strings(fx) + Strings(fa);
      { assert Strings(fb) + Strings(fx) == Strings(fb); }
      Strings(fb) + Strings(fa);
      { StringsAppend(fb, fa); FlatAppend(before, after); }
      ClassNames(before + after);
    }
  }

  /**
   * When the class names are non-empty and hold no white space, splitting
   * the result on spaces gives them back, each one and in order: trimming
   * removed nothing.
   */
  lemma CnSplits(inputs: seq<ClassValue>)
    requires ClassNames(inputs) != []
    requires forall i :: 0 <= i < |ClassNames(inputs)| ==>
               ClassNames(inputs)[i] != [] && forall k :: 0 <= k < |ClassNames(inputs)[i]| ==> !IsWhiteSpace(ClassNames(inputs)[i][k])
    ensures Split(Cn(inputs), ' ') == ClassNames(inputs)
  {
    var names := ClassNames(inputs);
    var j := Join(names, " ");
    JoinEnds(names, " ");
    var last := names[|names| - 1];
    assert j[0] == names[0][0];
    assert j[|j| - 1] == last[|last| - 1] by {
      assert j[|j| - |last|..][|last| - 1] == last[|last| - 1];
    }
    TrimKeeps(j);
    forall i | 0 <= i < |names| ensures ' ' !in names[i] {
      assert IsWhiteSpace(' ');
    }
    SplitJoin(names, ' ');
  }

  /** Without array arguments, flattening changes nothing. */
  lemma {:induction false} FlatNoArrays(xs: seq<ClassValue>)
    requires forall i :: 0 <= i < |xs| ==> !xs[i].Arr?
    ensures Flat(xs) == xs
  {
    if xs != [] {
      FlatNoArrays(xs[1..]);
      assert xs == [xs[0]] + xs[1..];
    }
  }

  /** When every value is a string, every one is kept, in order. */
  lemma {:induction false} StringsAllStrings(xs: seq<ClassValue>)
    requires forall i :: 0 <= i < |xs| ==> xs[i].Str?
    ensures |Strings(xs)| == |xs| && forall i :: 0 <= i < |xs| ==> Strings(xs)[i] == xs[i].s
  {
    if xs != [] {
      StringsAllStrings(xs[1..]);
    }
  }

  /** With only string arguments, the class names are those strings, each one and in order. */
  lemma ClassNamesOfStrings(xs: seq<ClassValue>)
    requires forall i :: 0 <= i < |xs| ==> xs[i].Str?
    ensures ClassNames(xs) == seq(|xs|, i requires 0 <= i < |xs| => xs[i].s)
  {
    FlatNoArrays(xs);
    StringsAllStrings(xs);
  }

  /**
   * `cn(a, "", b)` keeps the empty string: for class names with no white
   * space at their ends, the result is `a`, two spaces and `b`.
   */
  lemma CnKeepsEmptyStrings(a: string, b: string)
    requires a != [] && !IsWhiteSpace(a[0]) && !IsWhiteSpace(a[|a| - 1])
    requires b != [] && !IsWhiteSpace(b[0]) && !IsWhiteSpace(b[|b| - 1])
    ensures Cn([Str(a), Str(""), Str(b)]) == a + "  " + b
  {
    var names := [Str(a), Str(""), Str(b)];
    ClassNamesOfStrings(names);
    assert ClassNames(names) == [a, "", b];
    JoinThree(a, "", b, " ");
    var j := a + " " + "" + " " + b;
    assert j == a + "  " + b && j[|j| - 1] == b[|b| - 1];
    TrimKeeps(j);
  }
}
