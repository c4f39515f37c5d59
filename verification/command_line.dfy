/** Worker command lines as a list of flags with optional values, and their
    rendering as the single string handed to the worker. */
module CommandLine {
  import opened Results
  import Text

  /** One command-line argument: `-flag` alone, or `-flag value`. */
  datatype Arg = Arg(flag: string, value: Option<string>)

  /** An argument as it appears in the string: a space, a dash and the flag,
      then a space and the value when there is one. */
  function RenderArg(a: Arg): (s: string)
    ensures a.value.None? ==> s == " -" + a.flag
    ensures a.value.Some? ==> s == " -" + a.flag + " " + a.value.value
  {
    " -" + a.flag + (if a.value.Some? then " " + a.value.value else "")
  }

  /** The arguments rendered one after the other. */
  function Render(args: seq<Arg>): string {
    if |args| == 0 then "" else RenderArg(args[0]) + Render(args[1..])
  }

  lemma {:induction false} RenderConcat(xs: seq<Arg>, ys: seq<Arg>)
    ensures Render(xs + ys) == Render(xs) + Render(ys)
    decreases |xs|
  {
    if |xs| == 0 {
      assert xs + ys == ys;
    } else {
      assert (xs + ys)[1..] == xs[1..] + ys;
      RenderConcat(xs[1..], ys);
    }
  }

  /** Whether some argument carries `flag`. */
  predicate HasFlag(args: seq<Arg>, flag: string) {
    exists i :: 0 <= i < |args| && args[i].flag == flag
  }

  /** Every argument that is in `args` appears, rendered, in the string. */
  lemma {:induction false} RenderedArgAppears(args: seq<Arg>, i: nat)
    requires i < |args|
    ensures Text.Contains(Render(args), RenderArg(args[i]))
  {
    RenderConcat(args[..i], args[i..]);
    assert args == args[..i] + args[i..];
    var pre := Render(args[..i]);
    var s := Render(args);
    assert Render(args[i..]) == RenderArg(args[i]) + Render(args[i + 1..]);
    assert s[|pre|..] == Render(args[i..]);
    assert Text.StartsWith(s[|pre|..], RenderArg(args[i]));
  }
}
