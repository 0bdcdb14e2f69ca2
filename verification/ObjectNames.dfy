/** File names in the object directory: one stable final name per submission, one temporary name per writer. */
module ObjectNames {
  /** The writing thread, as `os.getpid()` and `threading.get_ident()` identify it. */
  datatype Thread = Thread(pid: nat, tid: nat)

  datatype FileName =
    | Final(sid: nat)
    | Temp(sid: nat, writer: Thread)

  function Digit(d: nat): char
    requires d < 10
  {
    "0123456789"[d]
  }

  function Decimal(n: nat): (s: string)
    ensures |s| > 0 && forall i :: 0 <= i < |s| ==> '0' <= s[i] <= '9'
  {
    if n < 10 then [Digit(n)] else Decimal(n / 10) + [Digit(n % 10)]
  }

  function ObjectKey(sid: nat): string {
    "submission-" + Decimal(sid)
  }

  function Suffix(w: Thread): string {
    Decimal(w.pid) + "." + (Decimal(w.tid) + "." + "tmp")
  }

  function Render(f: FileName): string {
    match f
    case Final(sid) => ObjectKey(sid)
    case Temp(sid, w) => ObjectKey(sid) + "." + Suffix(w)
  }

  /** The collector's test on a directory entry, `name.endswith(".tmp")`. */
  predicate LooksTemporary(name: string) {
    |name| >= 4 && name[|name| - 4..] == ".tmp"
  }

  lemma {:induction false} DecimalInjective(m: nat, n: nat)
    requires Decimal(m) == Decimal(n)
    ensures m == n
  {
    var s := Decimal(m);
    assert |s| == 1 <==> m < 10;
    assert |s| == 1 <==> n < 10;
    if m >= 10 && n >= 10 {
      assert s[..|s| - 1] == Decimal(m / 10) && s[..|s| - 1] == Decimal(n / 10);
      DecimalInjective(m / 10, n / 10);
      assert s[|s| - 1] == Digit(m % 10) == Digit(n % 10);
    } else if m < 10 && n < 10 {
      assert s[0] == Digit(m) == Digit(n);
    }
  }

  lemma SplitAtDot(a: string, x: string, b: string, y: string)
    requires '.' !in a && '.' !in b
    requires a + "." + x == b + "." + y
    ensures a == b && x == y
  {
    var s := a + "." + x;
    var t := b + "." + y;
    assert s[|a|] == '.' && t[|b|] == '.';
    assert forall i :: 0 <= i < |a| ==> s[i] == a[i];
    assert forall i :: 0 <= i < |b| ==> t[i] == b[i];
    assert |a| == |b|;
    assert a == s[..|a|] && b == t[..|b|];
    assert x == s[|a| + 1..] && y == t[|b| + 1..];
  }

  lemma NoDot(n: nat)
    ensures '.' !in Decimal(n) && '.' !in ObjectKey(n)
  {
  }

  lemma KeyInjective(a: nat, b: nat)
    requires ObjectKey(a) == ObjectKey(b)
    ensures a == b
  {
    assert Decimal(a) == ObjectKey(a)[|"submission-"|..];
    assert Decimal(b) == ObjectKey(b)[|"submission-"|..];
    DecimalInjective(a, b);
  }

  lemma SuffixInjective(v: Thread, w: Thread)
    requires Suffix(v) == Suffix(w)
    ensures v == w
  {
    NoDot(v.pid);
    NoDot(w.pid);
    NoDot(v.tid);
    NoDot(w.tid);
    SplitAtDot(Decimal(v.pid), Decimal(v.tid) + "." + "tmp", Decimal(w.pid), Decimal(w.tid) + "." + "tmp");
    SplitAtDot(Decimal(v.tid), "tmp", Decimal(w.tid), "tmp");
    DecimalInjective(v.pid, w.pid);
    DecimalInjective(v.tid, w.tid);
  }

  /** The collector's suffix test singles out exactly the temporary names. */
  lemma TemporaryIffTemp(f: FileName)
    ensures LooksTemporary(Render(f)) <==> f.Temp?
  {
    match f
    case Final(sid) =>
      NoDot(sid);
      var k := ObjectKey(sid);
      var tail := if |k| >= 4 then k[|k| - 4..] else k;
      assert '.' !in tail;
      assert ".tmp"[0] == '.';
    case Temp(sid, w) =>
      var s := Render(f);
      assert s[|s| - 4..] == ".tmp";
  }

  /** Two different names never share a path: submissions do not collide, nor do writers with distinct
      thread identities, nor a temporary file with a final object. */
  lemma RenderInjective(f: FileName, g: FileName)
    requires Render(f) == Render(g)
    ensures f == g
  {
    TemporaryIffTemp(f);
    TemporaryIffTemp(g);
    if f.Final? {
      KeyInjective(f.sid, g.sid);
    } else {
      NoDot(f.sid);
      NoDot(g.sid);
      SplitAtDot(ObjectKey(f.sid), Suffix(f.writer), ObjectKey(g.sid), Suffix(g.writer));
      KeyInjective(f.sid, g.sid);
      SuffixInjective(f.writer, g.writer);
    }
  }

  /** The key is a single path component, so it names a file inside the object directory. */
  lemma KeyIsOneComponent(sid: nat)
    ensures "submission-" <= ObjectKey(sid) && '/' !in ObjectKey(sid)
    ensures forall i :: |"submission-"| <= i < |ObjectKey(sid)| ==> '0' <= ObjectKey(sid)[i] <= '9'
  {
  }
}
