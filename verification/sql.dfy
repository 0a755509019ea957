/**
  The two things a parameterised query hands to PostgreSQL: bind values and
  query text whose positional placeholders are `$` followed by decimal digits.
 */
module Sql {
  import opened Decimal

  /** A bind value: the builder only ever binds strings and numbers. */
  datatype Param = Text(s: string) | Num(n: int)

  /** k, k + 1, ..., k + n - 1. */
  function Counting(k: nat, n: nat): (r: seq<nat>)
    ensures |r| == n
    decreases n
  {
    if n == 0 then [] else [k] + Counting(k + 1, n - 1)
  }

  lemma {:induction false} CountingIndex(k: nat, n: nat, i: nat)
    requires i < n
    ensures Counting(k, n)[i] == k + i
    decreases n
  {
    if i > 0 {
      CountingIndex(k + 1, n - 1, i - 1);
    }
  }

  lemma CountingIndices(k: nat, n: nat)
    ensures forall i :: 0 <= i < n ==> Counting(k, n)[i] == k + i
  {
    forall i | 0 <= i < n
      ensures Counting(k, n)[i] == k + i
    {
      CountingIndex(k, n, i);
    }
  }

  /** 1, 2, ..., n: the placeholder numbers a list of n bind values admits, in order. */
  function Iota(n: nat): (r: seq<nat>)
    ensures |r| == n
    ensures forall i :: 0 <= i < n ==> r[i] == i + 1
  {
    CountingIndices(1, n);
    Counting(1, n)
  }

  lemma IotaSnoc(n: nat)
    ensures Iota(n + 1) == Iota(n) + [n + 1]
  {
  }

  /** Length of the longest prefix of `s` made of digits. */
  function DigitRun(s: string): (n: nat)
    ensures n <= |s|
    ensures AllDigits(s[..n])
    ensures n < |s| ==> !IsDigit(s[n])
  {
    if |s| == 0 || !IsDigit(s[0]) then 0 else 1 + DigitRun(s[1..])
  }

  /** The number spelled by the digits at the front of `s` (0 when none). */
  function LeadingNumber(s: string): nat {
    ParseDecimal(s[..DigitRun(s)])
  }

  /**
    The placeholder numbers in `s`, left to right: each `$` followed by a
    maximal run of one or more digits denotes the number those digits spell.
   */
  function Placeholders(s: string): seq<nat>
    decreases |s|
  {
    if |s| == 0 then []
    else if s[0] == '$' && DigitRun(s[1..]) > 0 then
      [LeadingNumber(s[1..])] + Placeholders(s[1 + DigitRun(s[1..])..])
    else Placeholders(s[1..])
  }

  /** `t` cannot extend a digit run that ends just before it. */
  predicate StartsClean(t: string) {
    t == [] || !IsDigit(t[0])
  }

  lemma {:induction false} DigitRunAppend(x: string, y: string)
    requires StartsClean(y)
    ensures DigitRun(x + y) == DigitRun(x)
  {
    if |x| > 0 && IsDigit(x[0]) {
      assert (x + y)[1..] == x[1..] + y;
      DigitRunAppend(x[1..], y);
    }
  }

  lemma LeadingNumberAppend(x: string, y: string)
    requires StartsClean(y)
    ensures DigitRun(x + y) == DigitRun(x)
    ensures LeadingNumber(x + y) == LeadingNumber(x)
  {
    DigitRunAppend(x, y);
    assert (x + y)[..DigitRun(x)] == x[..DigitRun(x)];
  }

  /** The first step of a scan, on text that does not start a placeholder. */
  lemma PlaceholdersSkip(s: string)
    requires |s| > 0 && !(s[0] == '$' && DigitRun(s[1..]) > 0)
    ensures Placeholders(s) == Placeholders(s[1..])
  {
  }

  /** The first step of a scan, on text that starts a placeholder. */
  lemma PlaceholdersTake(s: string)
    requires |s| > 0 && s[0] == '$' && DigitRun(s[1..]) > 0
    ensures Placeholders(s) == [LeadingNumber(s[1..])] + Placeholders(s[1 + DigitRun(s[1..])..])
  {
  }

  /** Scanning text glued from two pieces scans each piece, as long as the
      second does not start with a digit. */
  lemma {:induction false} PlaceholdersAppend(a: string, b: string)
    requires StartsClean(b)
    ensures Placeholders(a + b) == Placeholders(a) + Placeholders(b)
    decreases |a|, 1
  {
    if |a| == 0 {
      assert a + b == b;
    } else if a[0] == '$' && DigitRun(a[1..]) > 0 {
      PlaceholdersAppendTake(a, b);
    } else {
      PlaceholdersAppendSkip(a, b);
    }
  }

  /** PlaceholdersAppend when `a` starts with a placeholder. */
  lemma {:induction false} PlaceholdersAppendTake(a: string, b: string)
    requires StartsClean(b)
    requires |a| > 0 && a[0] == '$' && DigitRun(a[1..]) > 0
    ensures Placeholders(a + b) == Placeholders(a) + Placeholders(b)
    decreases |a|, 0
  {
    var ab := a + b;
    var d := DigitRun(a[1..]);
    var rest := a[1 + d..];
    var n := LeadingNumber(a[1..]);
    assert Placeholders(ab) == [n] + Placeholders(rest + b) by {
      assert ab[1..] == a[1..] + b;
      LeadingNumberAppend(a[1..], b);
      assert ab[1 + d..] == rest + b;
      PlaceholdersTake(ab);
    }
    assert Placeholders(a) == [n] + Placeholders(rest) by {
      PlaceholdersTake(a);
    }
    PlaceholdersAppend(rest, b);
  }

  /** PlaceholdersAppend when `a` does not start with a placeholder. */
  lemma {:induction false} PlaceholdersAppendSkip(a: string, b: string)
    requires StartsClean(b)
    requires |a| > 0 && !(a[0] == '$' && DigitRun(a[1..]) > 0)
    ensures Placeholders(a + b) == Placeholders(a) + Placeholders(b)
    decreases |a|, 0
  {
    var ab := a + b;
    assert Placeholders(ab) == Placeholders(a[1..] + b) by {
      assert ab[1..] == a[1..] + b;
      LeadingNumberAppend(a[1..], b);
      PlaceholdersSkip(ab);
    }
    assert Placeholders(a) == Placeholders(a[1..]) by {
      PlaceholdersSkip(a);
    }
    PlaceholdersAppend(a[1..], b);
  }

  /** Text without a `$` holds no placeholder. */
  lemma {:induction false} PlaceholdersNoDollar(s: string)
    requires '$' !in s
    ensures Placeholders(s) == []
    decreases |s|
  {
    if |s| > 0 {
      assert s[0] != '$';
      assert forall c :: c in s[1..] ==> c in s;
      PlaceholdersNoDollar(s[1..]);
    }
  }

  /** `$` followed by the decimal text of `k` is read back as placeholder `k`. */
  lemma PlaceholderToken(k: nat, tail: string)
    requires StartsClean(tail)
    ensures Placeholders("$" + NatToString(k) + tail) == [k] + Placeholders(tail)
  {
    var ds := NatToString(k);
    var s := "$" + ds + tail;
    assert s[1..] == ds + tail;
    LeadingNumberAppend(ds, tail);
    assert DigitRun(ds) == |ds|;
    assert ds[..|ds|] == ds;
    assert s[1 + |ds|..] == tail;
    ParseNatToString(k);
    PlaceholdersTake(s);
  }

  /** Placeholders of a fragment shaped `prefix $k suffix`, with no other `$`. */
  lemma PlaceholderIn(prefix: string, k: nat, suffix: string)
    requires '$' !in prefix && '$' !in suffix
    requires StartsClean(suffix)
    ensures Placeholders(prefix + "$" + NatToString(k) + suffix) == [k]
  {
    var rest := "$" + NatToString(k) + suffix;
    assert prefix + "$" + NatToString(k) + suffix == prefix + rest;
    PlaceholdersAppend(prefix, rest);
    PlaceholdersNoDollar(prefix);
    PlaceholderToken(k, suffix);
    PlaceholdersNoDollar(suffix);
  }
}
