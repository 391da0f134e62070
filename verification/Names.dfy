/** File names of the backlog: the `.N` suffix that archiving adds, the identity
    that dependency checks read, and the name order in which entries are listed. */
module Names {
  datatype Ext = Yaml | Yml
  datatype FileName = FileName(stem: string, ext: Ext)

  /** One more than the largest archive suffix has no file name. */
  const MAX_SUFFIX: nat := 200

  predicate IsDigit(c: char) {
    '0' <= c <= '9'
  }

  /** Length of the run of digits at the end of s. */
  function DigitTail(s: string): (k: nat)
    ensures k <= |s|
  {
    if s != "" && IsDigit(s[|s| - 1]) then 1 + DigitTail(s[..|s| - 1]) else 0
  }

  /** The stem without one trailing `.N`. */
  function BaseId(stem: string): string {
    var k := |stem| - DigitTail(stem);
    if k < |stem| && 0 < k && stem[k - 1] == '.' then stem[..k - 1] else stem
  }

  /** A stem that carries no archive suffix. */
  predicate Plain(stem: string) {
    BaseId(stem) == stem
  }

  function Digit(n: nat): (c: char)
    requires n < 10
    ensures IsDigit(c)
  {
    ['0', '1', '2', '3', '4', '5', '6', '7', '8', '9'][n]
  }

  function Decimal(n: nat): (s: string)
    ensures s != ""
  {
    if n < 10 then [Digit(n)] else Decimal(n / 10) + [Digit(n % 10)]
  }

  /** The name tried n-th when archiving `name`. */
  function Candidate(name: FileName, n: nat): FileName {
    if n <= 1 then name else FileName(name.stem + "." + Decimal(n), name.ext)
  }

  lemma {:induction false} DigitTailOfDecimal(prefix: string, n: nat)
    requires prefix == "" || !IsDigit(prefix[|prefix| - 1])
    ensures DigitTail(prefix + Decimal(n)) == |Decimal(n)|
  {
    var s := prefix + Decimal(n);
    if n < 10 {
      assert s[..|s| - 1] == prefix;
    } else {
      assert s[..|s| - 1] == prefix + Decimal(n / 10);
      DigitTailOfDecimal(prefix, n / 10);
    }
  }

  /** Archiving under any suffix beyond the first keeps the original stem readable. */
  lemma SuffixIsStripped(name: FileName, n: nat)
    requires 2 <= n
    ensures BaseId(Candidate(name, n).stem) == name.stem
  {
    var s := Candidate(name, n).stem;
    var dotted := name.stem + ".";
    assert s == dotted + Decimal(n);
    DigitTailOfDecimal(dotted, n);
    assert s[..|name.stem|] == name.stem;
  }

  /** Every archive name of a plain name carries the identity of that name. */
  lemma CandidateKeepsId(name: FileName, n: nat)
    requires Plain(name.stem)
    ensures BaseId(Candidate(name, n).stem) == name.stem
  {
    if 2 <= n {
      SuffixIsStripped(name, n);
    }
  }

  lemma {:induction false} DecimalInjective(m: nat, n: nat)
    requires Decimal(m) == Decimal(n)
    ensures m == n
  {
    if 10 <= m && 10 <= n {
      var s := Decimal(m);
      assert s[..|s| - 1] == Decimal(m / 10) == Decimal(n / 10);
      DecimalInjective(m / 10, n / 10);
      assert Digit(m % 10) == Digit(n % 10);
    }
  }

  /** Two archive names of plain names coincide only for one name and one suffix. */
  lemma CandidateInjective(a: FileName, m: nat, b: FileName, n: nat)
    requires Plain(a.stem) && Plain(b.stem) && 1 <= m && 1 <= n
    requires Candidate(a, m) == Candidate(b, n)
    ensures a == b && m == n
  {
    CandidateKeepsId(a, m);
    CandidateKeepsId(b, n);
    assert a.stem == b.stem;
    var s := Candidate(a, m).stem;
    if 2 <= m && 2 <= n {
      assert s[|a.stem| + 1..] == Decimal(m) == Decimal(n);
      DecimalInjective(m, n);
    }
  }

  lemma CandidateDiffers(name: FileName, m: nat, n: nat)
    requires 1 <= m < n
    ensures Candidate(name, m) != Candidate(name, n)
  {
    if Candidate(name, m) == Candidate(name, n) {
      var s := Candidate(name, m).stem;
      if 2 <= m {
        assert s[|name.stem| + 1..] == Decimal(m) == Decimal(n);
        DecimalInjective(m, n);
      }
    }
  }

  // ---------- suffixes as written ----------

  /** A non-empty string of ASCII digits. */
  predicate Digits(d: string) {
    d != "" && forall i :: 0 <= i < |d| ==> '0' <= d[i] <= '9'
  }

  /** The stem ends in a dot and digits, after `a`. */
  predicate Suffixed(stem: string, a: string, d: string) {
    Digits(d) && stem == a + "." + d
  }

  lemma {:induction false} TailIsDigits(s: string)
    ensures forall i :: |s| - DigitTail(s) <= i < |s| ==> '0' <= s[i] <= '9'
    ensures DigitTail(s) < |s| ==> !('0' <= s[|s| - 1 - DigitTail(s)] <= '9')
  {
    if s != "" && IsDigit(s[|s| - 1]) {
      TailIsDigits(s[..|s| - 1]);
    }
  }

  lemma TailOfSuffixed(stem: string, a: string, d: string)
    requires Suffixed(stem, a, d)
    ensures DigitTail(stem) == |d|
  {
    TailIsDigits(stem);
    forall j | |stem| - |d| <= j < |stem| ensures '0' <= stem[j] <= '9' {
      assert stem[j] == d[j - |a| - 1];
    }
    assert stem[|a|] == '.';
  }

  /** The identity behind a stem is what is left of `a.d`, d being digits, and any other stem itself. */
  lemma BaseIdIs(stem: string, a: string, d: string)
    ensures Suffixed(stem, a, d) ==> BaseId(stem) == a && !Plain(stem)
  {
    if Suffixed(stem, a, d) {
      TailOfSuffixed(stem, a, d);
      assert stem[..|a|] == a;
      assert |a| < |stem|;
    }
  }

  /** A stem is plain exactly when it does not end in a dot and digits. */
  lemma PlainIs(stem: string)
    ensures Plain(stem) <==> !exists a, d :: Suffixed(stem, a, d)
  {
    var k := |stem| - DigitTail(stem);
    TailIsDigits(stem);
    if k < |stem| && 0 < k && stem[k - 1] == '.' {
      assert stem == stem[..k - 1] + "." + stem[k..];
      assert Suffixed(stem, stem[..k - 1], stem[k..]);
      BaseIdIs(stem, stem[..k - 1], stem[k..]);
    }
    if a, d :| Suffixed(stem, a, d) {
      BaseIdIs(stem, a, d);
    }
  }

  /** A file with this stem stands for the task `id`: it is called that, or that with a suffix. */
  ghost predicate Carries(stem: string, id: string) {
    (stem == id && !exists a, d :: Suffixed(stem, a, d)) || exists d :: Suffixed(stem, id, d)
  }

  lemma CarriesIs(stem: string, id: string)
    ensures Carries(stem, id) <==> BaseId(stem) == id
  {
    PlainIs(stem);
    if Plain(stem) {
      forall d ensures !Suffixed(stem, id, d) { BaseIdIs(stem, id, d); }
    } else {
      var a, d :| Suffixed(stem, a, d);
      BaseIdIs(stem, a, d);
      forall e | Suffixed(stem, id, e) ensures id == a { BaseIdIs(stem, id, e); }
    }
  }

  /** The number that a string of decimal digits stands for. */
  function ValueOf(d: string): int {
    if d == "" then 0 else 10 * ValueOf(d[..|d| - 1]) + (d[|d| - 1] as int - '0' as int)
  }

  lemma {:induction false} DecimalIs(n: nat)
    ensures Digits(Decimal(n)) && ValueOf(Decimal(n)) == n && (n > 0 ==> Decimal(n)[0] != '0')
  {
    if n >= 10 {
      DecimalIs(n / 10);
      var s := Decimal(n);
      assert s[..|s| - 1] == Decimal(n / 10);
    }
  }

  /** The first archive name is the file's own, the n-th has the suffix n and the same extension. */
  lemma CandidateIs(name: FileName, n: nat)
    requires 1 <= n
    ensures n == 1 ==> Candidate(name, n) == name
    ensures n >= 2 ==> Candidate(name, n).ext == name.ext
                       && exists d :: Suffixed(Candidate(name, n).stem, name.stem, d) && ValueOf(d) == n && d[0] != '0'
  {
    DecimalIs(n);
    if n >= 2 {
      assert Suffixed(Candidate(name, n).stem, name.stem, Decimal(n));
    }
  }

  // ---------- name order ----------

  /** The order of names: a proper prefix, or the smaller character where they first differ. */
  lemma {:induction false} LessIs(a: string, b: string)
    ensures Less(a, b) <==>
              (|a| < |b| && b[..|a|] == a)
              || exists i :: 0 <= i < |a| && i < |b| && a[..i] == b[..i] && a[i] < b[i]
  {
    if a != "" && b != "" {
      if a[0] == b[0] {
        LessIs(a[1..], b[1..]);
        SameHead(a, b);
      } else {
        forall i | 0 < i < |a| && i < |b| ensures a[..i] != b[..i] { assert a[..i][0] != b[..i][0]; }
        assert a[..0] == b[..0];
        if |a| < |b| { assert b[..|a|][0] != a[0]; }
      }
    }
  }

  lemma SameHead(a: string, b: string)
    requires a != "" && b != "" && a[0] == b[0]
    ensures (|a| < |b| && b[..|a|] == a) <==> (|a[1..]| < |b[1..]| && b[1..][..|a[1..]|] == a[1..])
    ensures (exists i :: 0 <= i < |a| && i < |b| && a[..i] == b[..i] && a[i] < b[i]) <==>
              exists i :: 0 <= i < |a[1..]| && i < |b[1..]| && a[1..][..i] == b[1..][..i] && a[1..][i] < b[1..][i]
  {
    assert a == [a[0]] + a[1..] && b == [b[0]] + b[1..];
    forall i | 0 <= i < |a[1..]| && i < |b[1..]| ensures a[..i + 1] == b[..i + 1] <==> a[1..][..i] == b[1..][..i] {
      assert a[..i + 1] == [a[0]] + a[1..][..i] && b[..i + 1] == [b[0]] + b[1..][..i];
      assert a[1..][..i] == a[..i + 1][1..] && b[1..][..i] == b[..i + 1][1..];
    }
    if |a| < |b| {
      assert b[..|a|] == [b[0]] + b[1..][..|a[1..]|] && b[1..][..|a[1..]|] == b[..|a|][1..];
    }
    if i :| 0 <= i < |a| && i < |b| && a[..i] == b[..i] && a[i] < b[i] {
      assert a[1..][..i - 1] == b[1..][..i - 1] && a[1..][i - 1] < b[1..][i - 1];
    }
    if i :| 0 <= i < |a[1..]| && i < |b[1..]| && a[1..][..i] == b[1..][..i] && a[1..][i] < b[1..][i] {
      assert a[..i + 1] == b[..i + 1] && a[i + 1] < b[i + 1];
    }
  }


  predicate Less(a: string, b: string) {
    b != "" && (a == "" || a[0] < b[0] || (a[0] == b[0] && Less(a[1..], b[1..])))
  }

  lemma {:induction false} LessTransitive(a: string, b: string, c: string)
    requires Less(a, b) && Less(b, c)
    ensures Less(a, c)
  {
    if a != "" && a[0] == b[0] == c[0] {
      LessTransitive(a[1..], b[1..], c[1..]);
    }
  }

  lemma {:induction false} LessTotal(a: string, b: string)
    ensures Less(a, b) || Less(b, a) || a == b
  {
    if a != "" && b != "" && a[0] == b[0] {
      LessTotal(a[1..], b[1..]);
      if a[1..] == b[1..] {
        assert a == [a[0]] + a[1..] == [b[0]] + b[1..] == b;
      }
    }
  }

  lemma {:induction false} LessIrreflexive(a: string)
    ensures !Less(a, a)
  {
    if a != "" {
      LessIrreflexive(a[1..]);
    }
  }

  function Render(name: FileName): string {
    name.stem + match name.ext case Yaml => ".yaml" case Yml => ".yml"
  }

  lemma ExtIsVisible(a: FileName)
    ensures |Render(a)| >= 4
    ensures Render(a)[|Render(a)| - 4] == if a.ext.Yaml? then 'y' else '.'
  {
  }

  lemma RenderInjective(a: FileName, b: FileName)
    requires Render(a) == Render(b)
    ensures a == b
  {
    var s := Render(a);
    ExtIsVisible(a);
    ExtIsVisible(b);
    assert s[..|a.stem|] == a.stem;
    assert s[..|b.stem|] == b.stem;
  }

  predicate Before(a: FileName, b: FileName) {
    Less(Render(a), Render(b))
  }

  ghost predicate InNameOrder(names: seq<FileName>) {
    forall i, j :: 0 <= i < j < |names| ==> Before(names[i], names[j])
  }

  /** names with x put at its place in name order. */
  function Insert(names: seq<FileName>, x: FileName): (r: seq<FileName>)
    requires InNameOrder(names) && x !in names
    ensures |r| == |names| + 1
    ensures forall y :: y in r <==> y == x || y in names
    ensures InNameOrder(r)
  {
    if names == [] then [x]
    else if Before(x, names[0]) then
      assert forall j :: 0 <= j < |names| ==> Before(x, names[j]) by {
        forall j | 0 < j < |names| ensures Before(x, names[j]) {
          LessTransitive(Render(x), Render(names[0]), Render(names[j]));
        }
      }
      [x] + names
    else
      var rest := Insert(names[1..], x);
      assert Before(names[0], x) by {
        LessTotal(Render(x), Render(names[0]));
        if Render(x) == Render(names[0]) {
          RenderInjective(x, names[0]);
        }
      }
      assert names == [names[0]] + names[1..];
      assert forall j :: 0 <= j < |rest| ==> Before(names[0], rest[j]) by {
        forall j | 0 <= j < |rest| ensures Before(names[0], rest[j]) {
          assert rest[j] in rest;
        }
      }
      [names[0]] + rest
  }
}
