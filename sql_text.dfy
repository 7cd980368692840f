/** SQL text as the job model writes it: positional placeholders `$1`, `$2`, ... bound to an
    ordered parameter list, double-quoted identifiers, and JavaScript's `Array.join`.

    `Placeholders` reads back, in order, the numbers of the placeholders a statement's
    text contains: a `$` followed by decimal digits, outside double-quoted identifiers. This
    is a simplification of PostgreSQL's lexer, adequate for text without string literals,
    comments, dollar-quoted bodies or `$` inside an unquoted identifier, which the model's
    statements never contain. It is the yardstick for the property that every statement of
    the model binds each of its parameters exactly once, in order. */
module SqlText {
  import opened Decimal

  /** The placeholder `$k` that binds the k-th parameter (counting from 1). */
  function Placeholder(k: nat): string {
    "$" + NatToString(k)
  }

  /** A double-quoted identifier, as the partial-update fragments write column names. */
  function Quote(name: string): string {
    "\"" + name + "\""
  }

  /** `xs.join(sep)`. */
  function Join(xs: seq<string>, sep: string): string {
    if |xs| == 0 then ""
    else if |xs| == 1 then xs[0]
    else xs[0] + sep + Join(xs[1..], sep)
  }

  /** Text written after a join of two or more parts: the first part, the separator, the rest. */
  lemma JoinStep(xs: seq<string>, sep: string, rest: string)
    requires |xs| > 1
    ensures Join(xs, sep) + rest == xs[0] + (sep + (Join(xs[1..], sep) + rest))
  {
  }

  /** Text written after a join with one more part pushed on the end. */
  lemma {:induction false} JoinSnoc(xs: seq<string>, x: string, sep: string, rest: string)
    requires xs != []
    ensures Join(xs + [x], sep) + rest == Join(xs, sep) + (sep + (x + rest))
    decreases |xs|
  {
    var ys := xs + [x];
    assert ys[0] == xs[0];
    if |xs| == 1 {
      assert ys[1..] == [x];
      assert Join(ys, sep) == (xs[0] + sep) + x;
      AppendAssoc(xs[0] + sep, x, rest);
      AppendAssoc(xs[0], sep, x + rest);
    } else {
      var head := xs[0] + sep;
      assert ys[1..] == xs[1..] + [x];
      JoinSnoc(xs[1..], x, sep, rest);
      AppendAssoc(head, Join(ys[1..], sep), rest);
      AppendAssoc(head, Join(xs[1..], sep), sep + (x + rest));
    }
  }

  /** The numbers k, k + 1, ..., k + n - 1. */
  function Interval(k: nat, n: nat): (s: seq<nat>)
    ensures |s| == n && forall i :: 0 <= i < n ==> s[i] == k + i
  {
    seq(n, i requires 0 <= i < n => k + i)
  }

  /** The text after the closing quote of a quoted identifier whose opening quote has been
      read; nothing when the quote is never closed. */
  function SkipQuoted(s: string): (r: string)
    ensures |r| <= |s|
  {
    if s == [] then []
    else if s[0] == '"' then s[1..]
    else SkipQuoted(s[1..])
  }

  /** The numbers of the placeholders in `s`, in order of appearance. */
  function Placeholders(s: string): seq<nat>
    decreases |s|, 2
  {
    if s == [] then [] else PlaceholdersAt(s)
  }

  /** The placeholders of nonempty text, by what its first character starts. */
  function PlaceholdersAt(s: string): seq<nat>
    requires s != []
    decreases |s|, 1
  {
    if s[0] == '"' then AfterQuote(s)
    else if s[0] == '$' then AfterDollar(s)
    else Placeholders(s[1..])
  }

  /** A quoted identifier is skipped whole. */
  function AfterQuote(s: string): seq<nat>
    requires s != []
    decreases |s|, 0
  {
    Placeholders(SkipQuoted(s[1..]))
  }

  /** A `$` followed by digits is a placeholder; any other `$` is an ordinary character. */
  function AfterDollar(s: string): seq<nat>
    requires s != []
    decreases |s|, 0
  {
    var n := DigitRun(s[1..]);
    if n > 0 then
      assert s[1..1 + n] == s[1..][..n];
      [ParseNat(s[1..1 + n])] + Placeholders(s[1 + n..])
    else Placeholders(s[1..])
  }



  /** Text with neither a `$` nor a quote in it holds no placeholder. */
  predicate Plain(s: string) {
    '$' !in s && '"' !in s
  }

  /** A run of numbers followed by the run that continues it is one run; whatever follows
      them still follows. */
  lemma RunsConcat(k: nat, a: nat, b: nat, rest: seq<nat>)
    ensures Interval(k, a) + (Interval(k + a, b) + rest) == Interval(k, a + b) + rest
  {
    assert Interval(k, a) + (Interval(k + a, b) + rest) == (Interval(k, a) + Interval(k + a, b)) + rest;
  }

  /** A number followed by the run that continues it is one run. */
  lemma RunsCons(k: nat, n: nat, rest: seq<nat>)
    ensures [k] + (Interval(k + 1, n) + rest) == Interval(k, n + 1) + rest
  {
    assert Interval(k, 1) == [k];
    RunsConcat(k, 1, n, rest);
  }

  lemma AppendAssoc(a: string, b: string, c: string)
    ensures (a + b) + c == a + (b + c)
  {
  }

  lemma PlainConcat(a: string, b: string)
    requires Plain(a) && Plain(b)
    ensures Plain(a + b)
  {
  }

  /** Text that starts with a character other than a digit starts clean, whatever follows. */
  lemma CleanStart(a: string, rest: string)
    requires a != [] && !IsDigit(a[0])
    ensures StartsClean(a + rest)
  {
    assert (a + rest)[0] == a[0];
  }

  /** Text that cannot extend the digits of a placeholder written just before it. */
  predicate StartsClean(s: string) {
    s == [] || !IsDigit(s[0])
  }

  lemma {:induction false} PlainPrefix(a: string, rest: string)
    requires Plain(a)
    ensures Placeholders(a + rest) == Placeholders(rest)
    decreases |a|
  {
    if a == [] {
      assert a + rest == rest;
    } else {
      var s := a + rest;
      assert a[0] in a && s[0] == a[0];
      assert s[1..] == a[1..] + rest;
      assert forall c :: c in a[1..] ==> c in a;
      PlainPrefix(a[1..], rest);
      assert Placeholders(s) == Placeholders(s[1..]);
    }
  }

  lemma {:induction false} SkipQuotedPast(name: string, rest: string)
    requires '"' !in name
    ensures SkipQuoted(name + "\"" + rest) == rest
    decreases |name|
  {
    if name == [] {
      assert name + "\"" + rest == ['"'] + rest;
    } else {
      assert name[0] in name;
      assert (name + "\"" + rest)[1..] == name[1..] + "\"" + rest;
      assert forall c :: c in name[1..] ==> c in name;
      SkipQuotedPast(name[1..], rest);
    }
  }

  /** A quoted identifier holds no placeholder, whatever `$` it contains. */
  lemma QuotedPrefix(name: string, rest: string)
    requires '"' !in name
    ensures Placeholders(Quote(name) + rest) == Placeholders(rest)
  {
    var s := Quote(name) + rest;
    assert s[1..] == name + "\"" + rest;
    SkipQuotedPast(name, rest);
    assert Placeholders(s) == AfterQuote(s);
  }

  /** `$k` written before text that does not start with a digit reads back as k. */
  lemma PlaceholderPrefix(k: nat, rest: string)
    requires StartsClean(rest)
    ensures Placeholders(Placeholder(k) + rest) == [k] + Placeholders(rest)
  {
    var d := NatToString(k);
    var s := Placeholder(k) + rest;
    assert s[1..] == d + rest;
    DigitRunOfDigits(d, rest);
    assert s[1..1 + |d|] == d;
    assert s[1 + |d|..] == rest;
    ParseNatToString(k);
    assert Placeholders(s) == AfterDollar(s);
  }

  /** Plain text, then a quoted identifier. */
  lemma PlainQuoted(a: string, name: string, rest: string)
    requires Plain(a) && '"' !in name
    ensures Placeholders(a + (Quote(name) + rest)) == Placeholders(rest)
  {
    PlainPrefix(a, Quote(name) + rest);
    QuotedPrefix(name, rest);
  }

  /** Plain text, then `$k`, then text that does not start with a digit. */
  lemma PlainPlaceholder(a: string, k: nat, rest: string)
    requires Plain(a) && StartsClean(rest)
    ensures Placeholders(a + (Placeholder(k) + rest)) == [k] + Placeholders(rest)
  {
    PlainPrefix(a, Placeholder(k) + rest);
    PlaceholderPrefix(k, rest);
  }

  /** Plain text, then `$k`, then text whose placeholders continue the run from k + 1. */
  lemma PlainRun(a: string, k: nat, n: nat, rest: string)
    requires Plain(a) && StartsClean(rest) && Placeholders(rest) == Interval(k + 1, n)
    ensures Placeholders(a + (Placeholder(k) + rest)) == Interval(k, n + 1)
  {
    PlainPlaceholder(a, k, rest);
    RunsCons(k, n, []);
    assert Interval(k + 1, n) + [] == Interval(k + 1, n);
    assert Interval(k, n + 1) + [] == Interval(k, n + 1);
  }

  /** A separator, then `$k`, then text whose placeholders continue the run from k + 1. */
  lemma SeparatedPlaceholder(sep: string, k: nat, n: nat, rest: string)
    requires Plain(sep) && sep != [] && !IsDigit(sep[0])
    requires StartsClean(rest) && Placeholders(rest) == Interval(k + 1, n)
    ensures Placeholders(sep + (Placeholder(k) + rest)) == Interval(k, n + 1)
    ensures StartsClean(sep + (Placeholder(k) + rest))
  {
    PlainRun(sep, k, n, rest);
    CleanStart(sep, Placeholder(k) + rest);
  }

  /** A join of parts whose placeholders run from k, with one more part pushed whose
      placeholders continue the run. */
  lemma JoinRunSnoc(xs: seq<string>, x: string, ys: seq<string>, sep: string, k: nat, n: nat, b: nat, m: nat,
                    rest: string)
    requires xs != [] && ys == xs + [x] && m == n + b
    requires Placeholders(Join(xs, sep) + (sep + (x + rest))) == Interval(k, n) + Placeholders(sep + (x + rest))
    requires Placeholders(sep + (x + rest)) == Interval(k + n, b) + Placeholders(rest)
    ensures Placeholders(Join(ys, sep) + rest) == Interval(k, m) + Placeholders(rest)
  {
    JoinSnoc(xs, x, sep, rest);
    RunsConcat(k, n, b, Placeholders(rest));
  }

}
