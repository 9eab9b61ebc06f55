/**
 * The options of backportPullRequest and the values it falls back to when
 * `body`, `head` or `title` is not given.
 */
module Defaults {
  import opened Wrappers
  import opened Decimal
  import opened GitHost

  /** What the caller passes. */
  datatype Options = Options(base: Ref, pullRequestNumber: nat, body: Option<string>, head: Option<Ref>, title: Option<string>)

  /** What the rest of the operation works with, once the defaults are filled in. */
  datatype Settings = Settings(base: Ref, number: nat, body: string, head: Ref, title: string)

  function DefaultBody(number: nat): string {
    "Backport #" + NatToString(number) + "."
  }

  function DefaultHead(number: nat, base: Ref): Ref {
    "backport-" + NatToString(number) + "-on-" + base
  }

  function DefaultTitle(number: nat, base: Ref): string {
    "Backport #" + NatToString(number) + " on " + base
  }

  /**
   * Given values are used verbatim; a missing one is a template that names the
   * source pull request's number (and the base, for head and title). By
   * TemplateReadBack, the only string that reads back so is the template filled
   * with `${n}` and the base.
   */
  function Resolve(o: Options): (a: Settings)
    ensures a.base == o.base && a.number == o.pullRequestNumber
    ensures o.body.Some? ==> a.body == o.body.value
    ensures o.head.Some? ==> a.head == o.head.value
    ensures o.title.Some? ==> a.title == o.title.value
    ensures o.body.None? ==> ReadTemplate(a.body, "Backport #", ".") == Some(Filled(o.pullRequestNumber, ""))
    ensures o.head.None? ==> ReadTemplate(a.head, "backport-", "-on-") == Some(Filled(o.pullRequestNumber, o.base))
    ensures o.title.None? ==> ReadTemplate(a.title, "Backport #", " on ") == Some(Filled(o.pullRequestNumber, o.base))
  {
    var n := o.pullRequestNumber;
    TemplateRoundTrip("Backport #", n, ".", "");
    assert DefaultBody(n) == "Backport #" + NatToString(n) + "." + "";
    TemplateRoundTrip("backport-", n, "-on-", o.base);
    TemplateRoundTrip("Backport #", n, " on ", o.base);
    Settings(
      o.base,
      n,
      if o.body.Some? then o.body.value else DefaultBody(n),
      if o.head.Some? then o.head.value else DefaultHead(n, o.base),
      if o.title.Some? then o.title.value else DefaultTitle(n, o.base))
  }

  /** A number and the text after a template's infix, read back from a filled-in template. */
  datatype Filled = Filled(number: nat, tail: string)

  /**
   * Reads `prefix + <numeral> + infix + tail` back into the number and the tail;
   * a numeral with a leading zero is not one `${n}` writes, so it is refused.
   */
  function ReadTemplate(s: string, prefix: string, infix: string): Option<Filled> {
    if |s| < |prefix| || s[..|prefix|] != prefix then None
    else ReadNumeral(s[|prefix|..], infix)
  }

  /** Reads `<numeral> + infix + tail`, the part of a filled-in template after its prefix. */
  function ReadNumeral(rest: string, infix: string): Option<Filled> {
    var k := LeadingDigits(rest);
    var after := rest[k..];
    if k == 0 || (k > 1 && rest[0] == '0') || |after| < |infix| || after[..|infix|] != infix then None
    else Some(Filled(ParseDecimal(rest[..k]), after[|infix|..]))
  }

  lemma TemplateRoundTrip(prefix: string, n: nat, infix: string, tail: string)
    requires infix != [] && !IsDigit(infix[0])
    ensures ReadTemplate(prefix + NatToString(n) + infix + tail, prefix, infix) == Some(Filled(n, tail))
  {
    var d := NatToString(n);
    var s := prefix + d + infix + tail;
    assert s[..|prefix|] == prefix;
    var rest := s[|prefix|..];
    assert rest == d + (infix + tail);
    LeadingDigitsOfNumeral(d, infix + tail);
    assert rest[..|d|] == d;
    assert rest[|d|..] == infix + tail;
    assert (infix + tail)[..|infix|] == infix;
    assert (infix + tail)[|infix|..] == tail;
    ParseNatToString(n);
  }

  /** Whatever reads back as a number and a tail is the template filled with exactly that number and tail. */
  lemma TemplateReadBack(s: string, prefix: string, infix: string, n: nat, tail: string)
    requires ReadTemplate(s, prefix, infix) == Some(Filled(n, tail))
    ensures s == prefix + NatToString(n) + infix + tail
  {
    var rest := s[|prefix|..];
    NumeralReadBack(rest, infix, n, tail);
    assert s == s[..|prefix|] + rest;
  }

  lemma NumeralReadBack(rest: string, infix: string, n: nat, tail: string)
    requires ReadNumeral(rest, infix) == Some(Filled(n, tail))
    ensures rest == NatToString(n) + infix + tail
  {
    var k := LeadingDigits(rest);
    var d, after := rest[..k], rest[k..];
    assert Canonical(d);
    NatToStringParse(d);
    assert after == after[..|infix|] + after[|infix|..];
    assert rest == d + after;
  }

  /** Two backports get the same default head only if they have the same number and base. */
  lemma DefaultHeadInjective(m: nat, b: Ref, n: nat, c: Ref)
    ensures DefaultHead(m, b) == DefaultHead(n, c) ==> m == n && b == c
  {
    TemplateRoundTrip("backport-", m, "-on-", b);
    TemplateRoundTrip("backport-", n, "-on-", c);
  }

  /** The default head is never the `backport-<n>-to-<base>` name that src/index.test.ts expects. */
  lemma DefaultHeadIsNotTestExpectation(n: nat, base: Ref)
    ensures DefaultHead(n, base) != "backport-" + NatToString(n) + "-to-" + base
  {
    var k := |"backport-" + NatToString(n)| + 1;
    assert DefaultHead(n, base)[k] == 'o';
    assert ("backport-" + NatToString(n) + "-to-" + base)[k] == 't';
  }
}
