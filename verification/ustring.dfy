/** The string utilities of `UString`: `concat`, which joins the textual
    forms of its arguments, and `format`, which substitutes them at the
    placeholder `{}` of a template.

    Every argument is taken already converted to its text. The template is
    never advanced between arguments, so each argument is preceded by the
    same prefix (the template up to its first `{}`) and nothing after that
    first `{}` is ever emitted. */
module UString {

  import opened Optional
  import Slices

  /** The two-character placeholder `{}` starts at index `i` of `t`. */
  predicate PlaceholderAt(t: string, i: int) {
    0 <= i && i + 1 < |t| && t[i] == '{' && t[i + 1] == '}'
  }

  predicate HasPlaceholder(t: string) {
    exists i :: 0 <= i < |t| && PlaceholderAt(t, i)
  }

  /** The search `t.find("{}", from)`: the least index at or after `from`
      where a placeholder starts, or `None` for `npos`. */
  function FindFrom(t: string, from: nat): (r: Option<nat>)
    ensures r.Some? ==> from <= r.value && PlaceholderAt(t, r.value)
    ensures r.Some? ==> forall i :: from <= i < r.value ==> !PlaceholderAt(t, i)
    ensures r.None? ==> forall i :: from <= i ==> !PlaceholderAt(t, i)
    decreases |t| - from
  {
    if from + 1 >= |t| then None
    else if t[from] == '{' && t[from + 1] == '}' then Some(from)
    else FindFrom(t, from + 1)
  }

  /** The search `t.find("{}")`: the first placeholder of the template. */
  function Find(t: string): (r: Option<nat>)
    ensures r.None? <==> !HasPlaceholder(t)
    ensures r.Some? ==> PlaceholderAt(t, r.value) && r.value + 2 <= |t|
    ensures r.Some? ==> forall i :: 0 <= i < r.value ==> !PlaceholderAt(t, i)
  {
    FindFrom(t, 0)
  }

  /** The text of the template emitted before every argument. */
  function Prefix(t: string): string
    requires HasPlaceholder(t)
  {
    t[..Find(t).value]
  }

  /** The emitted prefix holds no placeholder of its own. */
  lemma PrefixHasNoPlaceholder(t: string)
    requires HasPlaceholder(t)
    ensures !HasPlaceholder(Prefix(t))
  {
    var pos := Find(t).value;
    assert forall i :: PlaceholderAt(t[..pos], i) ==> PlaceholderAt(t, i) && i < pos;
  }

  // ---------------------------------------------------------------------
  // Reference definitions

  /** The strings of `xs` one after another, with no separator, built from
      the last element backwards. */
  function Join(xs: seq<string>): string {
    if |xs| == 0 then "" else Join(xs[..|xs| - 1]) + xs[|xs| - 1]
  }

  function SumLengths(xs: seq<string>): nat {
    if |xs| == 0 then 0 else SumLengths(xs[..|xs| - 1]) + |xs[|xs| - 1]|
  }

  /** Every argument preceded by the same prefix. */
  function Prefixed(prefix: string, args: seq<string>): seq<string> {
    seq(|args|, i requires 0 <= i < |args| => prefix + args[i])
  }

  lemma {:induction false} JoinAppend(xs: seq<string>, ys: seq<string>)
    ensures Join(xs + ys) == Join(xs) + Join(ys)
    decreases |ys|
  {
    if |ys| == 0 {
      assert xs + ys == xs;
    } else {
      var ys' := ys[..|ys| - 1];
      assert (xs + ys)[..|xs + ys| - 1] == xs + ys';
      JoinAppend(xs, ys');
    }
  }

  lemma JoinCons(x: string, xs: seq<string>)
    ensures Join([x] + xs) == x + Join(xs)
  {
    JoinAppend([x], xs);
    assert Join([x]) == Join([]) + x;
  }

  lemma {:induction false} JoinLength(xs: seq<string>)
    ensures |Join(xs)| == SumLengths(xs)
    decreases |xs|
  {
    if |xs| > 0 {
      JoinLength(xs[..|xs| - 1]);
    }
  }

  lemma {:induction false} SumLengthsAppend(xs: seq<string>, ys: seq<string>)
    ensures SumLengths(xs + ys) == SumLengths(xs) + SumLengths(ys)
    decreases |ys|
  {
    if |ys| == 0 {
      assert xs + ys == xs;
    } else {
      var ys' := ys[..|ys| - 1];
      assert (xs + ys)[..|xs + ys| - 1] == xs + ys';
      SumLengthsAppend(xs, ys');
    }
  }

  lemma {:induction false} SumLengthsPrefixed(prefix: string, args: seq<string>)
    ensures SumLengths(Prefixed(prefix, args)) == |args| * |prefix| + SumLengths(args)
    decreases |args|
  {
    if |args| > 0 {
      var args' := args[..|args| - 1];
      assert Prefixed(prefix, args)[..|args| - 1] == Prefixed(prefix, args');
      SumLengthsPrefixed(prefix, args');
    }
  }

  lemma PrefixedAppend(prefix: string, xs: seq<string>, ys: seq<string>)
    ensures Prefixed(prefix, xs + ys) == Prefixed(prefix, xs) + Prefixed(prefix, ys)
  {
  }

  // ---------------------------------------------------------------------
  // concat

  /** `_concat(ss, t, vargs...)`: write the first argument to the stream,
      then the rest in order. The stream `ss` ends up extended by the
      arguments joined without separator. */
  function ConcatInto(ss: string, args: seq<string>): (r: string)
    requires |args| >= 1
    ensures r == ss + Join(args)
    decreases |args|
  {
    var ss' := ss + args[0];
    if |args| == 1 then
      assert Join(args) == Join([]) + args[0];
      ss'
    else
      JoinCons(args[0], args[1..]);
      assert [args[0]] + args[1..] == args;
      ConcatInto(ss', args[1..])
  }

  /** `concat(vargs...)`: a fresh stream receives every argument in order.
      There is no overload for zero arguments. */
  function Concat(args: seq<string>): (r: string)
    requires |args| >= 1
    ensures r == Join(args)
  {
    ConcatInto("", args)
  }

  /** The length of `concat` is the sum of the argument lengths. */
  lemma ConcatLength(args: seq<string>)
    requires |args| >= 1
    ensures |Concat(args)| == SumLengths(args)
  {
    JoinLength(args);
  }

  /** `concat` is a homomorphism: splitting the arguments splits the result. */
  lemma ConcatAppend(xs: seq<string>, ys: seq<string>)
    requires |xs| >= 1 && |ys| >= 1
    ensures Concat(xs + ys) == Concat(xs) + Concat(ys)
  {
    JoinAppend(xs, ys);
  }

  /** Argument `i` sits in the result right after the arguments before it. */
  lemma ConcatArgumentAt(args: seq<string>, i: nat)
    requires i < |args|
    ensures var off := SumLengths(args[..i]);
            off + |args[i]| <= |Concat(args)| &&
            Concat(args)[off..off + |args[i]|] == args[i]
  {
    JoinAt(args, i);
  }

  lemma JoinAt(xs: seq<string>, i: nat)
    requires i < |xs|
    ensures Join(xs) == Join(xs[..i]) + xs[i] + Join(xs[i + 1..])
    ensures |Join(xs[..i])| == SumLengths(xs[..i])
  {
    assert xs == xs[..i] + ([xs[i]] + xs[i + 1..]);
    JoinAppend(xs[..i], [xs[i]] + xs[i + 1..]);
    JoinCons(xs[i], xs[i + 1..]);
    JoinLength(xs[..i]);
  }

  lemma ConcatExample()
    ensures Concat(["1", "x", "2.5"]) == "1x2.5"
  {
    JoinCons("1", ["x", "2.5"]);
    JoinCons("x", ["2.5"]);
    JoinCons("2.5", []);
  }

  // ---------------------------------------------------------------------
  // format

  /** The single-argument `_format(out, format, t)`: without a placeholder
      the whole template is appended and the result is false; otherwise the
      text before the first placeholder and then the argument are appended
      and the result is true. */
  function FormatOne(out: string, template: string, arg: string): (r: (bool, string))
    ensures r.0 <==> HasPlaceholder(template)
    ensures !r.0 ==> r.1 == out + template
    ensures r.0 ==> r.1 == out + Prefix(template) + arg
  {
    match Find(template)
    case None => (false, out + template)
    case Some(pos) => (true, out + template[..pos] + arg)
  }

  /** `_format(out, format, t, vargs...)`: format the first argument, and
      continue with the rest, against the same unadvanced template, only
      when a placeholder was found. A single argument goes straight to the
      single-argument overload, which is the same as stopping after it. */
  function FormatInto(out: string, template: string, args: seq<string>): (r: string)
    requires |args| >= 1
    ensures !HasPlaceholder(template) ==> r == out + template
    ensures HasPlaceholder(template) ==> r == out + Join(Prefixed(Prefix(template), args))
    decreases |args|
  {
    var (found, out') := FormatOne(out, template, args[0]);
    if found then
      JoinPrefixedCons(Prefix(template), args);
      if |args| == 1 then out' else FormatInto(out', template, args[1..])
    else
      out'
  }

  /** Splitting off the first argument of a prefixed join. */
  lemma JoinPrefixedCons(prefix: string, args: seq<string>)
    requires |args| >= 1
    ensures Join(Prefixed(prefix, args)) == prefix + args[0] + Join(Prefixed(prefix, args[1..]))
  {
    var p := Prefixed(prefix, args);
    assert p == [p[0]] + Prefixed(prefix, args[1..]);
    JoinCons(p[0], Prefixed(prefix, args[1..]));
  }

  /** `format(format, vargs...)`: a template with no placeholder comes out
      verbatim, exactly once, whatever the arguments; otherwise every
      argument comes out, in order, each after the same prefix. There is no
      overload for zero arguments. */
  function Format(template: string, args: seq<string>): (r: string)
    requires |args| >= 1
    ensures !HasPlaceholder(template) ==> r == template
    ensures HasPlaceholder(template) ==> r == Join(Prefixed(Prefix(template), args))
  {
    FormatInto("", template, args)
  }

  /** With a placeholder at `pos`, the output is `n * pos` characters of
      prefix plus the arguments' own characters. */
  lemma FormatLength(template: string, args: seq<string>)
    requires |args| >= 1 && HasPlaceholder(template)
    ensures |Format(template, args)| == |args| * Find(template).value + SumLengths(args)
  {
    JoinLength(Prefixed(Prefix(template), args));
    SumLengthsPrefixed(Prefix(template), args);
  }

  /** No argument is dropped: argument `i` appears, right after its own
      copy of the prefix, at the offset left by the arguments before it. */
  lemma FormatArgumentAt(template: string, args: seq<string>, i: nat)
    requires HasPlaceholder(template) && i < |args|
    ensures var prefix := Prefix(template);
            var off := i * |prefix| + SumLengths(args[..i]);
            var r := Format(template, args);
            off + |prefix| + |args[i]| <= |r| &&
            r[off..off + |prefix| + |args[i]|] == prefix + args[i]
  {
    var prefix := Prefix(template);
    var ps := Prefixed(prefix, args);
    assert Format(template, args) == Concat(ps) == Join(ps);
    PrefixedJoinAt(prefix, args, i);
  }

  lemma PrefixedJoinAt(prefix: string, args: seq<string>, i: nat)
    requires i < |args|
    ensures var off := i * |prefix| + SumLengths(args[..i]);
            var joined := Join(Prefixed(prefix, args));
            off + |prefix| + |args[i]| <= |joined| &&
            joined[off..off + |prefix| + |args[i]|] == prefix + args[i]
  {
    var ps := Prefixed(prefix, args);
    JoinAt(ps, i);
    assert ps[..i] == Prefixed(prefix, args[..i]);
    SumLengthsPrefixed(prefix, args[..i]);
    Slices.SliceMiddle(Join(ps[..i]), ps[i], Join(ps[i + 1..]));
  }

  /** Formatting distributes over splitting the arguments when the template
      has a placeholder; without one, the template still comes out once. */
  lemma FormatAppend(template: string, xs: seq<string>, ys: seq<string>)
    requires |xs| >= 1 && |ys| >= 1
    ensures HasPlaceholder(template) ==>
              Format(template, xs + ys) == Format(template, xs) + Format(template, ys)
    ensures !HasPlaceholder(template) ==> Format(template, xs + ys) == template
  {
    if HasPlaceholder(template) {
      PrefixedAppend(Prefix(template), xs, ys);
      JoinAppend(Prefixed(Prefix(template), xs), Prefixed(Prefix(template), ys));
    }
  }

  /** The template is never shortened: whatever follows the first
      placeholder has no effect on the output. */
  lemma FormatIgnoresRest(template: string, rest: string, args: seq<string>)
    requires |args| >= 1 && HasPlaceholder(template)
    ensures var pos := Find(template).value;
            Format(template[..pos + 2] + rest, args) == Format(template, args)
  {
    var pos := Find(template).value;
    var t' := template[..pos + 2] + rest;
    assert PlaceholderAt(t', pos);
    assert forall i :: 0 <= i < pos && PlaceholderAt(t', i) ==> PlaceholderAt(template, i);
    assert Find(t') == Some(pos);
    assert t'[..pos] == template[..pos];
  }

  /** A template with two placeholders keeps only what precedes the first:
      the arguments come out back to back. */
  lemma FormatTwoPlaceholdersExample()
    ensures Format("{} and {}", ["1", "2"]) == "12"
  {
    assert PlaceholderAt("{} and {}", 0);
    assert Find("{} and {}") == Some(0);
    JoinCons("1", ["2"]);
    JoinCons("2", []);
  }

  lemma FormatRepeatedPrefixExample()
    ensures Format("x={}!", ["1", "2"]) == "x=1x=2"
  {
    assert PlaceholderAt("x={}!", 2);
    assert Find("x={}!") == Some(2);
    JoinCons("x=1", ["x=2"]);
    JoinCons("x=2", []);
  }

}
