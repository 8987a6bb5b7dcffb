/** The SSRF guard of the relay: `isInternalHost` and its table of
    private-network patterns (worker.ts:126-144).

    Each of the five patterns is an anchored regular expression of the form
    `^F0\.F1\.F2\.F3$`; a Pattern records its four fields. The guard tests a
    pattern by splitting the host name at its dots (Test); the meaning of the
    anchored expression is stated independently as "the name is the four
    fields' texts joined by dots" (Matches), and TestMatches proves the two
    agree. */
module HostGuard {
  import opened Text

  /** One dot-separated field of a pattern. */
  datatype Field =
    | Exact(text: string)   // literal text, e.g. `10` or `168`
    | Digits13              // `\d{1,3}`: one to three ASCII digits, any value
    | Range16To31           // `(1[6-9]|2\d|3[0-1])`

  /** `^f0\.f1\.f2\.f3$` */
  datatype Pattern = Quad(f0: Field, f1: Field, f2: Field, f3: Field)

  /** worker.ts:126-132, in the same order. */
  const PrivatePatterns: seq<Pattern> := [
    Quad(Exact("10"), Digits13, Digits13, Digits13),
    Quad(Exact("192"), Exact("168"), Digits13, Digits13),
    Quad(Exact("172"), Range16To31, Digits13, Digits13),
    Quad(Exact("169"), Exact("254"), Digits13, Digits13),
    Quad(Exact("0"), Exact("0"), Exact("0"), Exact("0"))
  ]

  predicate FieldMatches(f: Field, t: string) {
    match f
    case Exact(text) => t == text
    case Digits13 => 1 <= |t| <= 3 && AllDigits(t)
    case Range16To31 =>
      |t| == 2 &&
      ((t[0] == '1' && '6' <= t[1] <= '9') ||
       (t[0] == '2' && IsDigit(t[1])) ||
       (t[0] == '3' && '0' <= t[1] <= '1'))
  }

  /** The character-level test of one pattern against a whole host name. */
  predicate Test(p: Pattern, s: string) {
    var parts := Split(s);
    |parts| == 4 &&
    FieldMatches(p.f0, parts[0]) && FieldMatches(p.f1, parts[1]) &&
    FieldMatches(p.f2, parts[2]) && FieldMatches(p.f3, parts[3])
  }

  /** worker.ts:134-144: lower-case the name, accept the three literal names,
      then accept a name that some private pattern matches. */
  predicate IsInternalHost(hostname: string) {
    var lower := Lower(hostname);
    if lower == "localhost" || lower == "127.0.0.1" || lower == "::1" then true
    else exists i :: 0 <= i < |PrivatePatterns| && Test(PrivatePatterns[i], lower)
  }

  // ---------------------------------------------------------------------
  // Reference meaning of an anchored pattern

  function Dotted(a: string, b: string, c: string, d: string): string {
    a + "." + b + "." + c + "." + d
  }

  /** `s` is exactly four texts, one per field, joined by dots. */
  ghost predicate Matches(p: Pattern, s: string) {
    exists a, b, c, d ::
      s == Dotted(a, b, c, d) &&
      FieldMatches(p.f0, a) && FieldMatches(p.f1, b) &&
      FieldMatches(p.f2, c) && FieldMatches(p.f3, d)
  }

  /** No field of the pattern can match a text that contains a dot. */
  predicate DotFree(p: Pattern) {
    (p.f0.Exact? ==> '.' !in p.f0.text) && (p.f1.Exact? ==> '.' !in p.f1.text) &&
    (p.f2.Exact? ==> '.' !in p.f2.text) && (p.f3.Exact? ==> '.' !in p.f3.text)
  }

  lemma FieldDotFree(f: Field, t: string)
    requires f.Exact? ==> '.' !in f.text
    requires FieldMatches(f, t)
    ensures '.' !in t
  {
    if !f.Exact? {
      forall i | 0 <= i < |t| ensures t[i] != '.' { }
    }
  }

  lemma JoinFour(a: string, b: string, c: string, d: string)
    ensures Join([a, b, c, d]) == Dotted(a, b, c, d)
  {
    assert [a, b, c, d][1..] == [b, c, d];
    assert [b, c, d][1..] == [c, d];
    assert [c, d][1..] == [d];
    assert Join([c, d]) == c + "." + d;
    assert Join([b, c, d]) == b + "." + (c + "." + d);
    assert Join([a, b, c, d]) == a + "." + (b + "." + (c + "." + d));
  }

  /** The split-based test decides exactly the anchored pattern. */
  lemma TestMatches(p: Pattern, s: string)
    requires DotFree(p)
    ensures Test(p, s) <==> Matches(p, s)
  {
    if Test(p, s) {
      var parts := Split(s);
      JoinSplit(s);
      assert parts == [parts[0], parts[1], parts[2], parts[3]];
      JoinFour(parts[0], parts[1], parts[2], parts[3]);
      assert s == Dotted(parts[0], parts[1], parts[2], parts[3]);
    }
    if Matches(p, s) {
      var a, b, c, d :| s == Dotted(a, b, c, d) &&
        FieldMatches(p.f0, a) && FieldMatches(p.f1, b) &&
        FieldMatches(p.f2, c) && FieldMatches(p.f3, d);
      FieldDotFree(p.f0, a);
      FieldDotFree(p.f1, b);
      FieldDotFree(p.f2, c);
      FieldDotFree(p.f3, d);
      JoinFour(a, b, c, d);
      SplitJoin([a, b, c, d]);
    }
  }

  lemma PrivatePatternsDotFree()
    ensures forall i :: 0 <= i < |PrivatePatterns| ==> DotFree(PrivatePatterns[i])
  {
  }

  /** The guard accepts exactly the three literal names and the names that
      fully match one of the five anchored patterns, after lower-casing. */
  lemma IsInternalHostMeaning(hostname: string)
    ensures IsInternalHost(hostname) <==>
      var lower := Lower(hostname);
      lower in ["localhost", "127.0.0.1", "::1"] ||
      exists i :: 0 <= i < |PrivatePatterns| && Matches(PrivatePatterns[i], lower)
  {
    PrivatePatternsDotFree();
    forall i | 0 <= i < |PrivatePatterns|
      ensures Test(PrivatePatterns[i], Lower(hostname)) <==> Matches(PrivatePatterns[i], Lower(hostname))
    {
      TestMatches(PrivatePatterns[i], Lower(hostname));
    }
  }

  /** The guard is case-insensitive. */
  lemma CaseInsensitive(hostname: string)
    ensures IsInternalHost(hostname) == IsInternalHost(Lower(hostname))
  {
    LowerIdempotent(hostname);
  }

  lemma LiteralNamesInternal(hostname: string)
    requires Lower(hostname) in ["localhost", "127.0.0.1", "::1"]
    ensures IsInternalHost(hostname)
  {
  }

  /** The second field of the 172 pattern accepts exactly the two-digit
      decimal texts of 16 to 31: no sign, no leading zero, no third digit. */
  lemma Range16To31Meaning(t: string)
    ensures FieldMatches(Range16To31, t) <==>
      |t| == 2 && AllDigits(t) && 16 <= DigitValue(t[0]) * 10 + DigitValue(t[1]) <= 31
  {
  }

  function DigitValue(c: char): int { c as int - '0' as int }

  /** A field whose texts are all digits. */
  predicate Numeric(f: Field) {
    f.Exact? ==> AllDigits(f.text)
  }

  lemma NumericFieldText(f: Field, t: string)
    requires Numeric(f) && FieldMatches(f, t)
    ensures DigitsAndDots(t)
  {
  }

  lemma DigitsAndDotsAppend(x: string, y: string)
    requires DigitsAndDots(x) && DigitsAndDots(y)
    ensures DigitsAndDots(x + y)
  {
    forall i | 0 <= i < |x + y| ensures IsDigit((x + y)[i]) || (x + y)[i] == '.' {
      if i >= |x| {
        assert (x + y)[i] == y[i - |x|];
      }
    }
  }

  /** A name that a pattern of numeric fields matches is made of digits and
      dots only. */
  lemma MatchedNameNumeric(p: Pattern, s: string)
    requires Numeric(p.f0) && Numeric(p.f1) && Numeric(p.f2) && Numeric(p.f3)
    requires Matches(p, s)
    ensures DigitsAndDots(s)
  {
    var a, b, c, d :| s == Dotted(a, b, c, d) &&
      FieldMatches(p.f0, a) && FieldMatches(p.f1, b) &&
      FieldMatches(p.f2, c) && FieldMatches(p.f3, d);
    NumericFieldText(p.f0, a);
    NumericFieldText(p.f1, b);
    NumericFieldText(p.f2, c);
    NumericFieldText(p.f3, d);
    assert DigitsAndDots(".");
    DigitsAndDotsAppend(a, ".");
    DigitsAndDotsAppend(a + ".", b);
    DigitsAndDotsAppend(a + "." + b, ".");
    DigitsAndDotsAppend(a + "." + b + ".", c);
    DigitsAndDotsAppend(a + "." + b + "." + c, ".");
    DigitsAndDotsAppend(a + "." + b + "." + c + ".", d);
  }

  /** Apart from the three literal names, a name with any character other
      than an ASCII digit or a dot (after lower-casing) is never internal:
      every DNS name such as `example.com`, and every bracketed IPv6 literal,
      passes the guard. */
  lemma NonNumericNamesPass(hostname: string)
    requires Lower(hostname) !in ["localhost", "127.0.0.1", "::1"]
    requires !DigitsAndDots(Lower(hostname))
    ensures !IsInternalHost(hostname)
  {
    var lower := Lower(hostname);
    if IsInternalHost(hostname) {
      var i :| 0 <= i < |PrivatePatterns| && Test(PrivatePatterns[i], lower);
      PrivatePatternsNumeric();
      PrivatePatternsDotFree();
      TestMatches(PrivatePatterns[i], lower);
      MatchedNameNumeric(PrivatePatterns[i], lower);
    }
  }

  lemma PrivatePatternsNumeric()
    ensures forall i :: 0 <= i < |PrivatePatterns| ==>
      var p := PrivatePatterns[i];
      Numeric(p.f0) && Numeric(p.f1) && Numeric(p.f2) && Numeric(p.f3)
  {
  }

  lemma SplitDotted(a: string, b: string, c: string, d: string)
    requires '.' !in a && '.' !in b && '.' !in c && '.' !in d
    ensures Split(Dotted(a, b, c, d)) == [a, b, c, d]
  {
    JoinFour(a, b, c, d);
    SplitJoin([a, b, c, d]);
  }

  /** The three literal names are internal, in any case. */
  lemma LiteralExamples(hostname: string)
    requires hostname == "localhost" || hostname == "LocalHost" ||
             hostname == "127.0.0.1" || hostname == "::1"
    ensures IsInternalHost(hostname)
  {
    if hostname == "LocalHost" {
      LowerPointwise(hostname, "localhost");
    } else if hostname == "localhost" {
      LowerIsLower(hostname);
    } else if hostname == "127.0.0.1" {
      LowerIsLower(hostname);
    } else {
      LowerIsLower(hostname);
    }
  }

  /** The 10 network takes any one to three digits in its free fields: no
      numeric range check. */
  lemma TenNetExamples(hostname: string)
    requires hostname == "10.1.2.3" || hostname == "10.999.999.999"
    ensures IsInternalHost(hostname)
  {
    if hostname == "10.1.2.3" {
      Internal(hostname, 0, "10", "1", "2", "3");
    } else {
      Internal(hostname, 0, "10", "999", "999", "999");
    }
  }

  /** A quad in each of the other private ranges. */
  lemma PrivateQuadExamples(hostname: string)
    requires hostname == "192.168.0.5" || hostname == "172.20.0.1" ||
             hostname == "169.254.1.1" || hostname == "0.0.0.0"
    ensures IsInternalHost(hostname)
  {
    if hostname == "192.168.0.5" {
      Internal(hostname, 1, "192", "168", "0", "5");
    } else if hostname == "172.20.0.1" {
      Internal(hostname, 2, "172", "20", "0", "1");
    } else if hostname == "169.254.1.1" {
      Internal(hostname, 3, "169", "254", "1", "1");
    } else {
      Internal(hostname, 4, "0", "0", "0", "0");
    }
  }

  /** Quads the guard lets through: the 172 range ends at 16 and 31, and of
      the loopback network only 127.0.0.1 is listed. */
  lemma PublicQuadExamples(hostname: string)
    requires hostname == "172.15.0.1" || hostname == "172.32.0.1" ||
             hostname == "8.8.8.8" || hostname == "127.0.0.2"
    ensures !IsInternalHost(hostname)
  {
    if hostname == "172.15.0.1" {
      Public(hostname, "172", "15", "0", "1");
    } else if hostname == "172.32.0.1" {
      Public(hostname, "172", "32", "0", "1");
    } else if hostname == "8.8.8.8" {
      Public(hostname, "8", "8", "8", "8");
    } else {
      Public(hostname, "127", "0", "0", "2");
    }
  }

  /** A DNS name passes; so does the IPv6 loopback in the bracketed form in
      which a URL's host name spells it, since only the bare `::1` is
      listed. */
  lemma PublicNameExamples(hostname: string)
    requires hostname == "example.com" || hostname == "[::1]"
    ensures !IsInternalHost(hostname)
  {
    LowerIsLower(hostname);
    assert !DigitsAndDots(hostname) by { assert hostname[0] in "e["; }
    NonNumericNamesPass(hostname);
  }

  lemma Internal(s: string, i: nat, a: string, b: string, c: string, d: string)
    requires i < |PrivatePatterns| && IsLower(s) && s == Dotted(a, b, c, d)
    requires '.' !in a && '.' !in b && '.' !in c && '.' !in d
    requires FieldMatches(PrivatePatterns[i].f0, a) &&
      FieldMatches(PrivatePatterns[i].f1, b) && FieldMatches(PrivatePatterns[i].f2, c) &&
      FieldMatches(PrivatePatterns[i].f3, d)
    ensures IsInternalHost(s)
  {
    LowerIsLower(s);
    SplitDotted(a, b, c, d);
    assert Test(PrivatePatterns[i], Lower(s));
  }

  lemma Public(s: string, a: string, b: string, c: string, d: string)
    requires IsLower(s) && s == Dotted(a, b, c, d) && s !in ["localhost", "127.0.0.1", "::1"]
    requires '.' !in a && '.' !in b && '.' !in c && '.' !in d
    requires forall i :: 0 <= i < |PrivatePatterns| ==>
      !(FieldMatches(PrivatePatterns[i].f0, a) && FieldMatches(PrivatePatterns[i].f1, b) &&
        FieldMatches(PrivatePatterns[i].f2, c) && FieldMatches(PrivatePatterns[i].f3, d))
    ensures !IsInternalHost(s)
  {
    LowerIsLower(s);
    SplitDotted(a, b, c, d);
  }
}
