/**
 * The utilities of the shared library that the error pipeline uses: the
 * message-catalog lookup (`translate`) and the error-details text built
 * from a validation exception's message arguments.
 */
module Utils {

  /**
   * `translate(key, args...)`: the localised message for a catalog key. The
   * catalog and the request's locale are outside the model, so the lookup is
   * a parameter; `translate(key)` is the lookup with no arguments.
   */
  type Translate = (string, seq<string>) -> string

  /** The fixed opening of the error-details text. */
  const DetailsPrefix: string := "Please make sure to provide a valid request, "

  /** The arguments `ObjectUtils.isEmpty` lets through, in order. */
  function NonEmpty(args: seq<string>): (r: seq<string>)
    ensures |r| <= |args|
    ensures forall i :: 0 <= i < |r| ==> r[i] != ""
    ensures forall x :: x in r <==> x in args && x != ""
  {
    if args == [] then []
    else if args[0] == "" then NonEmpty(args[1..])
    else [args[0]] + NonEmpty(args[1..])
  }

  /** The `reduce` step `(a, b) -> a + " " + b`, folded from the left over `xs`. */
  function AppendAll(acc: string, xs: seq<string>): string
    decreases |xs|
  {
    if xs == [] then acc else AppendAll(acc + " " + xs[0], xs[1..])
  }

  /** `getErrorsDetails`: the non-empty arguments appended to the prefix, each after one space. */
  function ErrorsDetails(args: seq<string>): (r: string)
    ensures DetailsPrefix <= r
  {
    AppendAllExtends(DetailsPrefix, NonEmpty(args));
    AppendAll(DetailsPrefix, NonEmpty(args))
  }

  /** What one argument adds to the text: nothing when empty, else a space and itself. */
  function Weight(args: seq<string>): nat
  {
    if args == [] then 0
    else (if args[0] == "" then 0 else 1 + |args[0]|) + Weight(args[1..])
  }

  lemma {:induction false} AppendAllExtends(acc: string, xs: seq<string>)
    ensures acc <= AppendAll(acc, xs)
    decreases |xs|
  {
    if xs != [] {
      AppendAllExtends(acc + " " + xs[0], xs[1..]);
    }
  }

  lemma {:induction false} AppendAllSnoc(acc: string, xs: seq<string>, x: string)
    ensures AppendAll(acc, xs + [x]) == AppendAll(acc, xs) + " " + x
    decreases |xs|
  {
    if xs != [] {
      assert (xs + [x])[1..] == xs[1..] + [x];
      AppendAllSnoc(acc + " " + xs[0], xs[1..], x);
    }
  }

  lemma {:induction false} AppendAllLength(acc: string, xs: seq<string>)
    requires forall i :: 0 <= i < |xs| ==> xs[i] != ""
    ensures |AppendAll(acc, xs)| == |acc| + Weight(xs)
    decreases |xs|
  {
    if xs != [] {
      AppendAllLength(acc + " " + xs[0], xs[1..]);
    }
  }

  lemma {:induction false} NonEmptyWeight(args: seq<string>)
    ensures Weight(NonEmpty(args)) == Weight(args)
  {
    if args != [] {
      NonEmptyWeight(args[1..]);
    }
  }

  /** Filtering keeps the order: the survivors of a concatenation are those of each part, in turn. */
  lemma {:induction false} NonEmptyConcat(a: seq<string>, b: seq<string>)
    ensures NonEmpty(a + b) == NonEmpty(a) + NonEmpty(b)
  {
    if a == [] {
      assert a + b == b;
    } else {
      assert (a + b)[1..] == a[1..] + b;
      NonEmptyConcat(a[1..], b);
    }
  }

  /** The length of the text: the prefix, then one space plus the argument per non-empty argument. */
  lemma ErrorsDetailsLength(args: seq<string>)
    ensures |ErrorsDetails(args)| == |DetailsPrefix| + Weight(args)
  {
    AppendAllLength(DetailsPrefix, NonEmpty(args));
    NonEmptyWeight(args);
  }

  /** With nothing but empty arguments the text is the prefix alone. */
  lemma {:induction false} ErrorsDetailsAllEmpty(args: seq<string>)
    requires forall i :: 0 <= i < |args| ==> args[i] == ""
    ensures NonEmpty(args) == [] && ErrorsDetails(args) == DetailsPrefix
  {
    if args != [] {
      ErrorsDetailsAllEmpty(args[1..]);
    }
  }

  /** An empty argument contributes nothing, wherever it stands. */
  lemma EmptyArgumentIgnored(before: seq<string>, after: seq<string>)
    ensures ErrorsDetails(before + [""] + after) == ErrorsDetails(before + after)
  {
    assert [""][1..] == [];
    assert NonEmpty([""]) == [];
    NonEmptyConcat(before + [""], after);
    NonEmptyConcat(before, [""]);
    NonEmptyConcat(before, after);
    assert NonEmpty(before + [""] + after) == NonEmpty(before + after);
  }

  /** A non-empty argument is appended at the end, after exactly one space. */
  lemma ErrorsDetailsSnoc(args: seq<string>, x: string)
    requires x != ""
    ensures ErrorsDetails(args + [x]) == ErrorsDetails(args) + " " + x
  {
    assert [x][1..] == [];
    assert NonEmpty([x]) == [x];
    NonEmptyConcat(args, [x]);
    AppendAllSnoc(DetailsPrefix, NonEmpty(args), x);
    assert NonEmpty(args + [x]) == NonEmpty(args) + [x];
  }
}
