/** Backend results, version comparison and the classification of failures. */
module Recognize {
  import opened ObjectNames

  const REQUIRED_VERSION := "10.0.19045"

  datatype ModelResult = ModelResult(ok: bool, version: string, msg: string)

  const PAUSE := "external provider paused"
  const PAUSED := PAUSE + ": credential revoked/incident containment"
  const TOKEN_MISSING := "external provider token missing"
  const REFUSED := "external provider 401"
  const STALE_CREDENTIAL := REFUSED + ": stale credential generation"
  const UNAVAILABLE := "external provider 503"
  const TIMEOUT := "external provider timeout"

  /** The failures that say "the vendor may not be called", as opposed to "the picture was not recognised". */
  predicate IsExternalControlBlock(msg: string) {
    || PAUSE <= msg
    || TOKEN_MISSING <= msg
    || REFUSED <= msg
  }

  function Split(s: string): (parts: seq<string>)
    ensures |parts| > 0
  {
    if s == "" then [""]
    else
      var rest := Split(s[1..]);
      if s[0] == '.' then [""] + rest else [[s[0]] + rest[0]] + rest[1..]
  }

  predicate IsNumber(p: string) {
    p != "" && forall i :: 0 <= i < |p| ==> '0' <= p[i] <= '9'
  }

  function Number(p: string): nat
    requires forall i :: 0 <= i < |p| ==> '0' <= p[i] <= '9'
  {
    if p == "" then 0 else 10 * Number(p[..|p| - 1]) + (p[|p| - 1] as int - '0' as int)
  }

  function Numbers(parts: seq<string>): seq<nat> {
    if parts == [] then []
    else if IsNumber(parts[0]) then [Number(parts[0])] + Numbers(parts[1..])
    else Numbers(parts[1..])
  }

  /** "10.0.19045" as the comparable tuple (10, 0, 19045); components that are not digits are skipped. */
  function ParseVersion(v: string): seq<nat> {
    Numbers(Split(v))
  }

  /** Lexicographic order on tuples; a proper prefix is smaller. */
  predicate AtLeast(a: seq<nat>, b: seq<nat>) {
    if b == [] then true
    else if a == [] then false
    else a[0] > b[0] || (a[0] == b[0] && AtLeast(a[1..], b[1..]))
  }

  predicate MeetsVersion(detected: string, required: string) {
    AtLeast(ParseVersion(detected), ParseVersion(required))
  }

  /** The verdict text of a finished task; only whether the version was met matters here. */
  function Verdict(version: string): string {
    (if MeetsVersion(version, REQUIRED_VERSION) then "passed " else "failed ") + version
  }

  // ----- reading a version back -----

  /** A version as it is usually written. */
  function RenderVersion(v: seq<nat>): string
    requires v != []
  {
    if |v| == 1 then Decimal(v[0]) else Decimal(v[0]) + "." + RenderVersion(v[1..])
  }

  lemma {:induction false} SplitFirst(a: string, rest: string)
    requires '.' !in a
    ensures Split(a) == [a] && Split(a + "." + rest) == [a] + Split(rest)
  {
    var s := a + "." + rest;
    if a == "" {
      assert s[0] == '.' && s[1..] == rest;
    } else {
      SplitFirst(a[1..], rest);
      assert s[0] == a[0] && s[1..] == a[1..] + "." + rest;
      assert [a[0]] + a[1..] == a;
      assert [a[0]] + Split(s[1..])[0] == a && Split(s[1..])[1..] == Split(rest);
    }
  }

  lemma {:induction false} NumberOfDecimal(n: nat)
    ensures IsNumber(Decimal(n)) && Number(Decimal(n)) == n
  {
    var s := Decimal(n);
    if n >= 10 {
      NumberOfDecimal(n / 10);
      assert s[..|s| - 1] == Decimal(n / 10);
    } else {
      assert s[..|s| - 1] == "";
    }
    assert s[|s| - 1] == Digit(n % 10);
    DigitValue(n % 10);
  }

  lemma DigitValue(d: nat)
    requires d < 10
    ensures Digit(d) as int - '0' as int == d
  {
  }

  /** Every numeric version is read back as the tuple it was written from. */
  lemma {:induction false} ParsesWhatWasRendered(v: seq<nat>)
    requires v != []
    ensures ParseVersion(RenderVersion(v)) == v
  {
    NoDot(v[0]);
    NumberOfDecimal(v[0]);
    if |v| == 1 {
      SplitFirst(Decimal(v[0]), "");
      assert Numbers([Decimal(v[0])]) == [v[0]] + Numbers([]);
    } else {
      var parts := Split(RenderVersion(v[1..]));
      SplitFirst(Decimal(v[0]), RenderVersion(v[1..]));
      ParsesWhatWasRendered(v[1..]);
      assert ([Decimal(v[0])] + parts)[1..] == parts;
    }
  }

  /** What a component contributes: its number if it consists of digits, otherwise nothing. */
  lemma OthersAreSkipped(a: string, rest: string)
    requires '.' !in a
    ensures a != "" && (forall i :: 0 <= i < |a| ==> '0' <= a[i] <= '9') ==>
      ParseVersion(a + "." + rest) == [Number(a)] + ParseVersion(rest)
    ensures a == "" || (exists i :: 0 <= i < |a| && !('0' <= a[i] <= '9')) ==>
      ParseVersion(a + "." + rest) == ParseVersion(rest)
  {
    hide Split, Number, Numbers;
    SplitFirst(a, rest);
    NumbersFrom(a, Split(rest));
  }

  lemma NumbersFrom(a: string, parts: seq<string>)
    ensures Numbers([a] + parts) == (if IsNumber(a) then [Number(a)] else []) + Numbers(parts)
  {
    assert ([a] + parts)[1..] == parts;
    hide Number;
  }

  /** Every pair of versions is comparable, and two that are each at least the other are the same tuple. */
  lemma {:induction false} VersionsTotallyOrdered(a: seq<nat>, b: seq<nat>)
    ensures AtLeast(a, b) || AtLeast(b, a)
    ensures AtLeast(a, b) && AtLeast(b, a) ==> a == b
  {
    if a != [] && b != [] {
      VersionsTotallyOrdered(a[1..], b[1..]);
      assert a == [a[0]] + a[1..] && b == [b[0]] + b[1..];
    }
  }

  lemma {:induction false} VersionsTransitive(a: seq<nat>, b: seq<nat>, c: seq<nat>)
    requires AtLeast(a, b) && AtLeast(b, c)
    ensures AtLeast(a, c)
  {
    if c != [] && a[0] == b[0] && b[0] == c[0] {
      VersionsTransitive(a[1..], b[1..], c[1..]);
    }
  }

  // ----- which versions pass -----

  /** The tuples first differ at `i`, where `a` has the larger component. */
  predicate LargerFrom(a: seq<nat>, b: seq<nat>, i: nat) {
    i < |a| && i < |b| && a[i] > b[i] && forall j: nat :: j < i ==> a[j] == b[j]
  }

  lemma LargerShifts(a: seq<nat>, b: seq<nat>, i: nat)
    requires a != [] && b != [] && a[0] == b[0]
    ensures LargerFrom(a, b, i + 1) <==> LargerFrom(a[1..], b[1..], i)
  {
    if LargerFrom(a[1..], b[1..], i) {
      forall j: nat | j < i + 1 ensures a[j] == b[j] {
        assert j > 0 ==> a[1..][j - 1] == b[1..][j - 1];
      }
    }
  }

  lemma {:induction false} AtLeastByIndex(a: seq<nat>, b: seq<nat>)
    ensures AtLeast(a, b) <==> b <= a || exists i: nat :: LargerFrom(a, b, i)
  {
    if a != [] && b != [] && a[0] == b[0] {
      AtLeastByIndex(a[1..], b[1..]);
      assert b <= a <==> b[1..] <= a[1..] by {
        assert a == [a[0]] + a[1..] && b == [b[0]] + b[1..];
      }
      assert !LargerFrom(a, b, 0);
      if i: nat :| LargerFrom(a, b, i) {
        LargerShifts(a, b, i - 1);
      }
      if i: nat :| LargerFrom(a[1..], b[1..], i) {
        LargerShifts(a, b, i);
      }
    } else if a != [] && b != [] && a[0] > b[0] {
      assert LargerFrom(a, b, 0);
    }
  }

  /** A detected version meets a required one exactly when the required one is its beginning, or it has the larger
      component where they first differ. */
  lemma VersionsCompared(detected: seq<nat>, required: seq<nat>)
    requires detected != [] && required != []
    ensures MeetsVersion(RenderVersion(detected), RenderVersion(required)) <==>
      required <= detected || exists i: nat :: LargerFrom(detected, required, i)
  {
    ParsesWhatWasRendered(detected);
    ParsesWhatWasRendered(required);
    AtLeastByIndex(detected, required);
    hide ParseVersion, AtLeast, RenderVersion, LargerFrom;
  }

  lemma NextDigit(n: nat, d: nat)
    requires n > 0 && d < 10
    ensures Decimal(10 * n + d) == Decimal(n) + [Digit(d)]
  {
    assert (10 * n + d) / 10 == n && (10 * n + d) % 10 == d;
  }

  lemma Digits()
    ensures Decimal(0) == "0" && Decimal(10) == "10"
  {
    assert Decimal(1) == "1";
    NextDigit(1, 0);
  }

  lemma MoreDigits()
    ensures Decimal(19045) == "19045" && Decimal(19041) == "19041"
  {
    assert Decimal(1) == "1";
    hide Decimal;
    NextDigit(1, 9);
    assert Decimal(19) == "19";
    NextDigit(19, 0);
    assert Decimal(190) == "190";
    NextDigit(190, 4);
    assert Decimal(1904) == "1904";
    NextDigit(1904, 5);
    NextDigit(1904, 1);
  }

  lemma RenderedThree(a: nat, b: nat, c: nat)
    ensures RenderVersion([a, b, c]) == Decimal(a) + "." + (Decimal(b) + "." + Decimal(c))
  {
    hide Decimal;
    assert [a, b, c][1..] == [b, c] && [b, c][1..] == [c];
    assert RenderVersion([c]) == Decimal(c);
    assert RenderVersion([b, c]) == Decimal(b) + "." + RenderVersion([b, c][1..]);
  }

  lemma KnownRendered()
    ensures RenderVersion([10, 0, 19041]) == "10.0.19041" && RenderVersion([10, 0, 19045]) == "10.0.19045"
  {
    hide Decimal, RenderVersion;
    Digits();
    MoreDigits();
    RenderedThree(10, 0, 19041);
    RenderedThree(10, 0, 19045);
    assert "0" + "." + "19041" == "0.19041" && "0" + "." + "19045" == "0.19045";
    assert "10" + "." + "0.19041" == "10.0.19041" && "10" + "." + "0.19045" == "10.0.19045";
  }

  lemma VerdictWord(version: string)
    ensures "passed" <= Verdict(version) <==> MeetsVersion(version, REQUIRED_VERSION)
    ensures "failed" <= Verdict(version) <==> !MeetsVersion(version, REQUIRED_VERSION)
  {
    hide MeetsVersion;
    assert "passed" <= "passed " + version && "failed" <= "failed " + version;
    assert "passed"[0] == 'p' && "failed"[0] == 'f';
  }

  /** The verdict says "passed" for exactly the versions from 10.0.19045 on, and "failed" for all others. */
  lemma VerdictSays(detected: seq<nat>)
    requires detected != []
    ensures var newEnough := [10, 0, 19045] <= detected || exists i: nat :: LargerFrom(detected, [10, 0, 19045], i);
      && ("passed" <= Verdict(RenderVersion(detected)) <==> newEnough)
      && ("failed" <= Verdict(RenderVersion(detected)) <==> !newEnough)
  {
    hide MeetsVersion, RenderVersion, LargerFrom, Verdict;
    KnownRendered();
    VersionsCompared(detected, [10, 0, 19045]);
    VerdictWord(RenderVersion(detected));
  }

  lemma OlderIsNotLarger()
    ensures !([10, 0, 19045] <= [10, 0, 19041]) && forall i: nat :: !LargerFrom([10, 0, 19041], [10, 0, 19045], i)
    ensures [10, 0, 19045] <= [10, 0, 19045]
  {
    var a, b: seq<nat> := [10, 0, 19041], [10, 0, 19045];
    forall i: nat ensures !LargerFrom(a, b, i) {
      assert a[0] == b[0] && a[1] == b[1] && a[2] < b[2];
    }
    assert a[2] != b[2];
  }

  /** So the older of the two versions the simulated backends know fails, and the newer passes. */
  lemma KnownVersions()
    ensures "failed" <= Verdict(RenderVersion([10, 0, 19041])) && "passed" <= Verdict(RenderVersion([10, 0, 19045]))
  {
    hide Verdict, RenderVersion;
    VerdictSays([10, 0, 19041]);
    VerdictSays([10, 0, 19045]);
    OlderIsNotLarger();
  }
}
