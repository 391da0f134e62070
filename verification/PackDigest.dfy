/** The identity of a candidate's content: sorted paths and content hashes written out as one
    text. The hash taken of that text is treated as injective, so the text stands for it. */
module PackDigest {
  import Names

  type Sha = s: string | forall c :: c in s ==> '0' <= c <= '9' || 'a' <= c <= 'f'
  datatype Entry = Entry(path: string, sha: Sha)

  // ---------- which paths may be in a candidate ----------

  /** The components of a relative path; empty ones and `.` do not count. */
  function Parts(name: string): seq<string> {
    PartsFrom(name, "")
  }

  function PartsFrom(name: string, part: string): seq<string> {
    if name == "" then Component(part)
    else if name[0] == '/' then Component(part) + PartsFrom(name[1..], "")
    else PartsFrom(name[1..], part + [name[0]])
  }

  function Component(part: string): seq<string> {
    if part == "" || part == "." then [] else [part]
  }

  lemma {:induction false} NoSlash(name: string, part: string)
    requires '/' !in name
    ensures PartsFrom(name, part) == Component(part + name)
  {
    if name == "" {
      assert part + name == part;
    } else {
      NoSlash(name[1..], part + [name[0]]);
      assert part + [name[0]] + name[1..] == part + name;
    }
  }

  /** `p` stands at place i of the name, between slashes or ends. */
  predicate StandsAt(name: string, i: nat, p: string) {
    && i + |p| <= |name| && name[i..i + |p|] == p
    && (i == 0 || name[i - 1] == '/') && (i + |p| == |name| || name[i + |p|] == '/')
  }

  ghost predicate Between(name: string, p: string) {
    exists i: nat :: StandsAt(name, i, p)
  }

  lemma {:induction false} FirstPart(part: string, seg: string, rest: string)
    requires '/' !in seg
    ensures PartsFrom(seg + ("/" + rest), part) == Component(part + seg) + PartsFrom(rest, "")
    decreases |seg|
  {
    var name := seg + ("/" + rest);
    if seg == "" {
      assert part + seg == part && name[1..] == rest && name[0] == '/';
    } else {
      FirstPart(part + [seg[0]], seg[1..], rest);
      assert name[1..] == seg[1..] + ("/" + rest) && part + [seg[0]] + seg[1..] == part + seg;
    }
  }

  lemma FirstSlash(name: string) returns (k: nat)
    requires '/' in name
    ensures k < |name| && name[k] == '/' && '/' !in name[..k]
    decreases |name|
  {
    if name[0] == '/' {
      k := 0;
    } else {
      k := FirstSlash(name[1..]);
      k := k + 1;
      assert name[..k] == [name[0]] + name[1..][..k - 1];
    }
  }

  lemma StandsAlone(name: string, i: nat, p: string)
    requires '/' !in name && StandsAt(name, i, p)
    ensures p == name
  {
    assert forall j :: 0 <= j < |name| ==> name[j] != '/';
  }

  /** A part of the name is what is in front of the first slash, or a part of the rest. */
  lemma StandsBefore(name: string, k: nat, i: nat, p: string)
    requires k < |name| && name[k] == '/' && '/' !in name[..k] && p != "" && '/' !in p
    ensures StandsAt(name, i, p) && i <= k ==> p == name[..k]
    ensures StandsAt(name, i, p) && i > k ==> StandsAt(name[k + 1..], i - k - 1, p)
  {
    assert forall j :: 0 <= j < k ==> name[..k][j] == name[j] && name[j] != '/';
    if StandsAt(name, i, p) {
      forall j | i <= j < i + |p| ensures name[j] != '/' { assert name[i..i + |p|][j - i] == p[j - i]; }
    }
    if StandsAt(name, i, p) && i > k {
      var rest := name[k + 1..];
      assert rest[i - k - 1..i - k - 1 + |p|] == name[i..i + |p|];
    }
  }

  lemma StandsBehind(name: string, k: nat, i: nat, p: string)
    requires k < |name| && name[k] == '/' && StandsAt(name[k + 1..], i, p)
    ensures StandsAt(name, k + 1 + i, p)
  {
    var rest := name[k + 1..];
    assert name[k + 1 + i..k + 1 + i + |p|] == rest[i..i + |p|];
    assert i > 0 ==> rest[i - 1] == name[k + i];
    assert i + |p| < |rest| ==> rest[i + |p|] == name[k + 1 + i + |p|];
  }

  /** The parts of a name are what stands between its slashes; empty ones and `.` are not among them. */
  lemma {:induction false} PartsAre(name: string, p: string)
    ensures p in Parts(name) <==> p !in ["", "."] && '/' !in p && Between(name, p)
    decreases |name|
  {
    if '/' !in name {
      NoSlash(name, "");
      assert "" + name == name && StandsAt(name, 0, name);
      if i: nat :| StandsAt(name, i, p) { StandsAlone(name, i, p); }
    } else {
      var k := FirstSlash(name);
      var seg, rest := name[..k], name[k + 1..];
      assert name == seg + ("/" + rest) && "" + seg == seg;
      FirstPart("", seg, rest);
      PartsAre(rest, p);
      if p != "" && '/' !in p { FirstOrLater(name, k, p); }
    }
  }

  lemma FirstOrLater(name: string, k: nat, p: string)
    requires k < |name| && name[k] == '/' && '/' !in name[..k] && p != "" && '/' !in p
    ensures Between(name, p) <==> p == name[..k] || Between(name[k + 1..], p)
  {
    var rest := name[k + 1..];
    assert StandsAt(name, 0, name[..k]);
    if i: nat :| StandsAt(name, i, p) { StandsBefore(name, k, i, p); }
    if i: nat :| StandsAt(rest, i, p) { StandsBehind(name, k, i, p); }
  }

  /** A name that goes up a directory, starts at the root, or hides a part is no member. */
  lemma UnsafeNames(name: string, p: string)
    ensures Between(name, "..") ==> !SafeMember(name)
    ensures '/' !in p && |p| >= 2 && p[0] == '.' && p != ".gitignore" && Between(name, p) ==> !SafeMember(name)
    ensures name == "" || |name| > 255 || name[0] == '/' || '\\' in name || ':' in name ==> !SafeMember(name)
    ensures (exists c :: c in name && c < ' ') ==> !SafeMember(name)
  {
    PartsAre(name, "..");
    PartsAre(name, p);
  }

  /** Every other name is one. */
  lemma SafeNames(name: string)
    requires 0 < |name| <= 255 && name[0] != '/' && forall c :: c in name ==> c >= ' ' && c != '\\' && c != ':'
    requires forall p :: Between(name, p) && '/' !in p && |p| >= 2 && p[0] == '.' ==> p == ".gitignore"
    ensures SafeMember(name)
  {
    forall p | p in Parts(name) && p != "" && p[0] == '.' ensures p == ".gitignore" {
      PartsAre(name, p);
      assert p == [p[0]] ==> p == ".";
    }
    PartsAre(name, "..");
    assert ".." != ".gitignore";
  }

  predicate SafeMember(name: string) {
    && 0 < |name| <= 255 && '\\' !in name && ':' !in name && name[0] != '/'
    && ".." !in Parts(name)
    && (forall c :: c in name ==> c >= ' ')
    && forall p :: p in Parts(name) && p != "" && p[0] == '.' ==> p == ".gitignore"
  }

  lemma PlainNameIsSafe(name: string)
    requires 0 < |name| <= 255 && name[0] != '.' && forall c :: c in name ==> c >= ' ' && c !in ['/', '\\', ':']
    ensures SafeMember(name)
  {
    NoSlash(name, "");
    assert "" + name == name;
  }

  // ---------- the encoding ----------

  /** Puts an entry in front of the first one whose path is not smaller. */
  function Put(e: Entry, s: seq<Entry>): seq<Entry> {
    if s == [] || !Names.Less(s[0].path, e.path) then [e] + s else [s[0]] + Put(e, s[1..])
  }

  /** A stable sort by path. */
  function Sort(files: seq<Entry>): seq<Entry> {
    if files == [] then [] else Put(files[0], Sort(files[1..]))
  }

  function Line(e: Entry): string {
    e.path + "\0" + e.sha + "\n"
  }

  function Lines(s: seq<Entry>): string {
    if s == [] then "" else Line(s[0]) + Lines(s[1..])
  }

  function Encode(files: seq<Entry>): string {
    Lines(Sort(files))
  }

  /** The entries under one path, in the order given. */
  function At(s: seq<Entry>, path: string): seq<Entry> {
    if s == [] then [] else (if s[0].path == path then [s[0]] else []) + At(s[1..], path)
  }

  ghost predicate SamePerPath(a: seq<Entry>, b: seq<Entry>) {
    forall p :: At(a, p) == At(b, p)
  }

  ghost predicate AllSafe(files: seq<Entry>) {
    forall e :: e in files ==> SafeMember(e.path)
  }

  // ---------- lines can be read back ----------

  lemma SplitsOnce(p: string, q: string, c: char, r: string, s: string)
    requires c !in p && c !in q && p + [c] + r == q + [c] + s
    ensures p == q && r == s
  {
    StopsNoSooner(p, q, c, r, s);
    StopsNoSooner(q, p, c, s, r);
    var t := p + [c] + r;
    assert p == t[..|p|] && q == t[..|q|];
    assert r == t[|p| + 1..] && s == t[|q| + 1..];
  }

  lemma StopsNoSooner(p: string, q: string, c: char, r: string, s: string)
    requires c !in q && p + [c] + r == q + [c] + s
    ensures |p| >= |q|
  {
    assert (p + [c] + r)[|p|] == c;
    assert (q + [c] + s)[|p|] == c;
  }

  lemma LineSplits(a: Entry, b: Entry, r: string, s: string)
    requires SafeMember(a.path) && SafeMember(b.path) && Line(a) + r == Line(b) + s
    ensures a == b && r == s
  {
    var ra, rb := a.sha + "\n" + r, b.sha + "\n" + s;
    assert Line(a) + r == a.path + ['\0'] + ra;
    assert Line(b) + s == b.path + ['\0'] + rb;
    SplitsOnce(a.path, b.path, '\0', ra, rb);
    assert ra == a.sha + ['\n'] + r && rb == b.sha + ['\n'] + s;
    SplitsOnce(a.sha, b.sha, '\n', r, s);
  }

  lemma LinesEmpty(s: seq<Entry>)
    ensures Lines(s) == "" <==> s == []
  {
    if s != [] {
      assert |Lines(s)| >= |Line(s[0])| >= 2;
    }
  }

  lemma {:induction false} LinesInjective(a: seq<Entry>, b: seq<Entry>)
    requires AllSafe(a) && AllSafe(b) && Lines(a) == Lines(b)
    ensures a == b
    decreases |a|
  {
    LinesEmpty(a);
    LinesEmpty(b);
    if a != [] {
      LineSplits(a[0], b[0], Lines(a[1..]), Lines(b[1..]));
      LinesInjective(a[1..], b[1..]);
      assert a == [a[0]] + a[1..] == [b[0]] + b[1..] == b;
    }
  }

  // ---------- sorting ----------

  ghost predicate InOrder(s: seq<Entry>) {
    forall i, j :: 0 <= i < j < |s| ==> !Names.Less(s[j].path, s[i].path)
  }

  lemma {:induction false} PutKeepsAll(e: Entry, s: seq<Entry>)
    ensures multiset(Put(e, s)) == multiset{e} + multiset(s)
    decreases |s|
  {
    if s != [] && Names.Less(s[0].path, e.path) {
      PutKeepsAll(e, s[1..]);
      assert s == [s[0]] + s[1..];
    }
  }

  lemma {:induction false} PutKeepsOrder(e: Entry, s: seq<Entry>)
    requires InOrder(s)
    ensures InOrder(Put(e, s))
    decreases |s|
  {
    if s == [] {
    } else if !Names.Less(s[0].path, e.path) {
      forall j | 0 <= j < |s| ensures !Names.Less(s[j].path, e.path) {
        if Names.Less(s[j].path, e.path) {
          NotLessChain(s[0].path, s[j].path, e.path);
        }
      }
    } else {
      PutKeepsOrder(e, s[1..]);
      NothingBefore(e, s);
    }
  }

  lemma NothingBefore(e: Entry, s: seq<Entry>)
    requires s != [] && InOrder(s) && Names.Less(s[0].path, e.path)
    ensures forall j :: 0 <= j < |Put(e, s[1..])| ==> !Names.Less(Put(e, s[1..])[j].path, s[0].path)
  {
    var rest := Put(e, s[1..]);
    PutKeepsAll(e, s[1..]);
    if Names.Less(e.path, s[0].path) {
      Names.LessTransitive(e.path, s[0].path, e.path);
      Names.LessIrreflexive(e.path);
    }
    forall j | 0 <= j < |rest| ensures !Names.Less(rest[j].path, s[0].path) {
      assert rest[j] in multiset(rest);
      assert rest[j] == e || rest[j] in s[1..];
    }
  }

  /** With a at most b and b before c, a is before c. */
  lemma NotLessChain(a: string, b: string, c: string)
    requires !Names.Less(b, a) && Names.Less(b, c)
    ensures Names.Less(a, c)
  {
    Names.LessTotal(a, b);
    if Names.Less(a, b) { Names.LessTransitive(a, b, c); }
  }

  lemma {:induction false} SortFacts(files: seq<Entry>)
    ensures InOrder(Sort(files)) && multiset(Sort(files)) == multiset(files)
    decreases |files|
  {
    if files != [] {
      SortFacts(files[1..]);
      PutKeepsOrder(files[0], Sort(files[1..]));
      PutKeepsAll(files[0], Sort(files[1..]));
      assert files == [files[0]] + files[1..];
    }
  }

  lemma {:induction false} PutIsStable(e: Entry, s: seq<Entry>, p: string)
    ensures At(Put(e, s), p) == At([e] + s, p)
    decreases |s|
  {
    assert ([e] + s)[1..] == s;
    if s != [] && Names.Less(s[0].path, e.path) {
      PutIsStable(e, s[1..], p);
      Names.LessIrreflexive(e.path);
      assert ([s[0]] + Put(e, s[1..]))[1..] == Put(e, s[1..]);
      assert ([e] + s[1..])[1..] == s[1..];
    }
  }

  lemma {:induction false} SortIsStable(files: seq<Entry>, p: string)
    ensures At(Sort(files), p) == At(files, p)
    decreases |files|
  {
    if files != [] {
      SortIsStable(files[1..], p);
      PutIsStable(files[0], Sort(files[1..]), p);
      assert ([files[0]] + Sort(files[1..]))[1..] == Sort(files[1..]);
    }
  }

  lemma {:induction false} AtFinds(s: seq<Entry>, k: nat)
    requires k < |s|
    ensures At(s, s[k].path) != [] && At(s, s[k].path)[0].path == s[k].path && At(s, s[k].path)[0] in s
    decreases |s|
  {
    if s[0].path != s[k].path { AtFinds(s[1..], k - 1); }
  }

  lemma {:induction false} OnlyFromInside(s: seq<Entry>, p: string)
    requires At(s, p) != []
    ensures exists k :: 0 <= k < |s| && s[k].path == p
    decreases |s|
  {
    if s[0].path != p {
      OnlyFromInside(s[1..], p);
      var k :| 0 <= k < |s[1..]| && s[1..][k].path == p;
      assert s[k + 1].path == p;
    }
  }

  lemma FirstPathIsSmallest(a: seq<Entry>, b: seq<Entry>)
    requires InOrder(a) && InOrder(b) && SamePerPath(a, b) && a != [] && b != []
    ensures !Names.Less(b[0].path, a[0].path)
  {
    AtFinds(b, 0);
    assert At(a, b[0].path) == At(b, b[0].path);
    OnlyFromInside(a, b[0].path);
    Names.LessIrreflexive(a[0].path);
  }

  lemma EmptyTogether(a: seq<Entry>, b: seq<Entry>)
    requires SamePerPath(a, b)
    ensures a == [] ==> b == []
  {
    if b != [] { AtFinds(b, 0); }
  }

  lemma TailsAgree(a: seq<Entry>, b: seq<Entry>, p: string)
    requires a != [] && b != [] && a[0] == b[0] && At(a, p) == At(b, p)
    ensures At(a[1..], p) == At(b[1..], p)
  {
    if a[0].path == p {
      assert At(a, p) == [a[0]] + At(a[1..], p) && At(b, p) == [b[0]] + At(b[1..], p);
      assert At(a[1..], p) == At(a, p)[1..] && At(b[1..], p) == At(b, p)[1..];
    } else {
      assert At(a, p) == [] + At(a[1..], p) == At(a[1..], p) && At(b, p) == [] + At(b[1..], p) == At(b[1..], p);
    }
  }

  /** Two sorted lists that agree path by path are the same list. */
  lemma {:induction false} SortedIsDetermined(a: seq<Entry>, b: seq<Entry>)
    requires InOrder(a) && InOrder(b) && SamePerPath(a, b)
    ensures a == b
    decreases |a|
  {
    if a == [] || b == [] {
      EmptyTogether(a, b);
      EmptyTogether(b, a);
    } else {
      FirstPathIsSmallest(a, b);
      FirstPathIsSmallest(b, a);
      Names.LessTotal(a[0].path, b[0].path);
      assert At(a, a[0].path) == At(b, a[0].path);
      assert At(a, a[0].path)[0] == a[0] && At(b, a[0].path)[0] == b[0];
      forall p ensures At(a[1..], p) == At(b[1..], p) {
        TailsAgree(a, b, p);
      }
      SortedIsDetermined(a[1..], b[1..]);
      assert a == [a[0]] + a[1..] == [b[0]] + b[1..] == b;
    }
  }

  // ---------- what the digest identifies ----------

  /** Two candidates have one digest exactly when they hold the same entries path by path;
      in particular they then hold the same files. */
  lemma DigestIdentifies(a: seq<Entry>, b: seq<Entry>)
    requires AllSafe(a) && AllSafe(b)
    ensures Encode(a) == Encode(b) <==> SamePerPath(a, b)
    ensures Encode(a) == Encode(b) ==> multiset(a) == multiset(b)
  {
    SortFacts(a);
    SortFacts(b);
    forall p ensures At(Sort(a), p) == At(a, p) && At(Sort(b), p) == At(b, p) {
      SortIsStable(a, p);
      SortIsStable(b, p);
    }
    if SamePerPath(a, b) {
      SortedIsDetermined(Sort(a), Sort(b));
    }
    if Encode(a) == Encode(b) {
      assert forall e :: e in Sort(a) ==> e in multiset(Sort(a));
      assert forall e :: e in Sort(b) ==> e in multiset(Sort(b));
      LinesInjective(Sort(a), Sort(b));
    }
  }

  /** No path is listed with two different contents. */
  ghost predicate Consistent(files: seq<Entry>) {
    forall e, f :: e in files && f in files && e.path == f.path ==> e == f
  }

  lemma {:induction false} AtCopies(s: seq<Entry>, e: Entry)
    requires forall f :: f in s && f.path == e.path ==> f == e
    ensures At(s, e.path) == seq(multiset(s)[e], _ => e)
    decreases |s|
  {
    if s != [] {
      assert s == [s[0]] + s[1..];
      AtCopies(s[1..], e);
    }
  }

  lemma ReorderingKeepsDigest(a: seq<Entry>, b: seq<Entry>)
    requires AllSafe(a) && Consistent(a) && multiset(b) == multiset(a)
    ensures Encode(a) == Encode(b)
  {
    assert forall e :: e in a <==> e in multiset(a);
    assert forall e :: e in b <==> e in multiset(b);
    forall p ensures At(a, p) == At(b, p) {
      if At(a, p) != [] {
        OnlyFromInside(a, p);
        var k :| 0 <= k < |a| && a[k].path == p;
        AtCopies(a, a[k]);
        AtCopies(b, a[k]);
      } else if At(b, p) != [] {
        OnlyFromInside(b, p);
        var k :| 0 <= k < |b| && b[k].path == p;
        assert b[k] in a;
        var j :| 0 <= j < |a| && a[j] == b[k];
        AtFinds(a, j);
      }
    }
    DigestIdentifies(a, b);
  }

  /** Moving the second of two clashing entries to the front changes the digest. */
  lemma ClashMakesOrderMatter(a: seq<Entry>, i: nat, j: nat) returns (b: seq<Entry>)
    requires AllSafe(a) && i < |a| && j < |a| && a[i].path == a[j].path && a[i] != a[j]
    ensures multiset(b) == multiset(a) && Encode(b) != Encode(a)
  {
    AtFinds(a, i);
    var k := if At(a, a[i].path)[0] == a[i] then j else i;
    b := ToFront(a, k);
    ToFrontFacts(a, k);
    DigestIdentifies(a, b);
  }

  function ToFront(a: seq<Entry>, k: nat): seq<Entry>
    requires k < |a|
  {
    [a[k]] + (a[..k] + a[k + 1..])
  }

  lemma ToFrontFacts(a: seq<Entry>, k: nat)
    requires k < |a|
    ensures multiset(ToFront(a, k)) == multiset(a)
    ensures AllSafe(a) ==> AllSafe(ToFront(a, k))
    ensures At(ToFront(a, k), a[k].path) != [] && At(ToFront(a, k), a[k].path)[0] == a[k]
  {
    assert a == a[..k] + ([a[k]] + a[k + 1..]);
    assert forall e :: e in ToFront(a, k) ==> e in a;
  }

  /** The digest of a candidate is independent of the order of its files exactly when no path is
      listed with two different contents. */
  lemma OrderIndependence(a: seq<Entry>)
    requires AllSafe(a)
    ensures (forall b: seq<Entry> :: multiset(b) == multiset(a) ==> Encode(b) == Encode(a)) <==> Consistent(a)
  {
    if Consistent(a) {
      forall b: seq<Entry> | multiset(b) == multiset(a) ensures Encode(b) == Encode(a) {
        ReorderingKeepsDigest(a, b);
      }
    } else {
      var e, f :| e in a && f in a && e.path == f.path && e != f;
      var i :| 0 <= i < |a| && a[i] == e;
      var j :| 0 <= j < |a| && a[j] == f;
      var b := ClashMakesOrderMatter(a, i, j);
    }
  }
}
