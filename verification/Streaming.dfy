/** Files read in bounded chunks: the scan of an upload, the write of an object, and the collection of temporary
    files left behind. */
module Streaming {
  import opened Common
  import opened ObjectNames

  const NEWLINE: Byte := 10

  const MAX_SIZE := 10 * 1024 * 1024

  // ----- incremental hashing -----

  /** A hash that can be fed piece by piece. */
  datatype Hasher<!S> = Hasher(init: S, update: (S, Bytes) -> S, digest: S -> string)

  /** The law of incremental hashing: feeding two pieces is feeding their concatenation. */
  ghost predicate Incremental<S(!new)>(h: Hasher<S>) {
    && (forall s, a, b :: h.update(h.update(s, a), b) == h.update(s, a + b))
    && (forall s :: h.update(s, []) == s)
  }

  /** The hash of a whole content at once. */
  function Sha<S>(h: Hasher<S>, content: Bytes): string {
    h.digest(h.update(h.init, content))
  }

  /** A file-like object. A read may return less than asked for, but nothing only at the end. */
  class Stream {
    const content: Bytes
    const seekable: bool
    var pos: nat

    ghost predicate Valid()
      reads this
    {
      pos <= |content|
    }

    constructor (content: Bytes, seekable: bool)
      ensures Valid() && this.content == content && this.seekable == seekable && pos == 0
    {
      this.content := content;
      this.seekable := seekable;
      pos := 0;
    }

    method Rewind()
      requires Valid() && seekable
      modifies this
      ensures Valid() && pos == 0
    {
      pos := 0;
    }

    method Read(n: nat) returns (chunk: Bytes)
      requires Valid()
      modifies this
      ensures Valid() && old(pos) <= pos <= old(pos) + n
      ensures chunk == content[old(pos)..pos]
      ensures chunk == [] <==> n == 0 || old(pos) == |content|
    {
      if n == 0 || pos == |content| {
        return [];
      }
      var k: nat :| 0 < k <= n && pos + k <= |content|;
      chunk := content[pos..pos + k];
      pos := pos + k;
    }

    /** At most `n` bytes, up to and including the first line end. */
    method ReadLine(n: nat) returns (line: Bytes)
      requires Valid()
      modifies this
      ensures Valid() && old(pos) <= pos <= old(pos) + n
      ensures line == content[old(pos)..pos]
      ensures forall i :: 0 <= i < |line| - 1 ==> line[i] != NEWLINE
      ensures |line| == n || pos == |content| || (line != [] && line[|line| - 1] == NEWLINE)
    {
      var k := 0;
      while k < n && pos + k < |content| && (k == 0 || content[pos + k - 1] != NEWLINE)
        invariant 0 <= k <= n && pos + k <= |content|
        invariant forall i :: pos <= i < pos + k - 1 ==> content[i] != NEWLINE
      {
        k := k + 1;
      }
      line := content[pos..pos + k];
      pos := pos + k;
    }
  }

  // ----- what makes a file acceptable -----

  function LastIndex(s: string, c: char): (i: int)
    ensures -1 <= i < |s|
    ensures i >= 0 ==> s[i] == c
    ensures forall j :: i < j < |s| ==> s[j] != c
  {
    if s == "" then -1 else if s[|s| - 1] == c then |s| - 1 else LastIndex(s[..|s| - 1], c)
  }

  function Lower(s: string): string {
    seq(|s|, i requires 0 <= i < |s| => if 'A' <= s[i] <= 'Z' then ((s[i] as int) + 32) as char else s[i])
  }

  /** The lower-cased suffix of a file name, from its last dot; leading dots do not start a suffix. */
  function Extension(name: string): string {
    var dot, sep := LastIndex(name, '.'), LastIndex(name, '/');
    if dot > sep && exists i :: sep < i < dot && name[i] != '.' then Lower(name[dot..]) else ""
  }

  predicate AllowedExt(ext: string) {
    ext in {".png", ".jpg", ".jpeg", ".webp"}
  }

  datatype Fault = NoFault | BadFormat | Empty | TooLarge | BadPng | BadJpg

  const PNG_MAGIC: Bytes := [0x89, 0x50, 0x4E, 0x47]
  const JPG_MAGIC: Bytes := [0xFF, 0xD8, 0xFF]

  /** The first objection to a whole file, in the order they are raised. */
  function FaultOf(content: Bytes, name: string): Fault {
    var ext := Extension(name);
    if !AllowedExt(ext) then BadFormat
    else if content == [] then Empty
    else if |content| > MAX_SIZE then TooLarge
    else if ext == ".png" && !(PNG_MAGIC <= content) then BadPng
    else if ext in {".jpg", ".jpeg"} && !(JPG_MAGIC <= content) then BadJpg
    else NoFault
  }

  /** Two names that differ at most in the case of ASCII letters. */
  ghost predicate SameButCase(a: string, b: string) {
    && |a| == |b|
    && forall i :: 0 <= i < |a| ==>
      || a[i] == b[i]
      || ('A' <= a[i] <= 'Z' && (b[i] as int) == (a[i] as int) + 32)
      || ('A' <= b[i] <= 'Z' && (a[i] as int) == (b[i] as int) + 32)
  }

  lemma LastIndexIs(s: string, c: char, i: int)
    requires -1 <= i < |s| && (i >= 0 ==> s[i] == c) && forall j :: i < j < |s| ==> s[j] != c
    ensures LastIndex(s, c) == i
  {
  }

  /** The case of a name makes no difference to its suffix, nor to the verdict on the file. */
  lemma CaseDoesNotMatter(a: string, b: string, content: Bytes)
    requires SameButCase(a, b)
    ensures Extension(a) == Extension(b)
    ensures FaultOf(content, a) == FaultOf(content, b)
  {
    var dot, sep := LastIndex(a, '.'), LastIndex(a, '/');
    SameMarks(a, b);
    hide SameButCase, LastIndex, FaultOf;
    LastIndexIs(b, '.', dot);
    LastIndexIs(b, '/', sep);
    if dot >= 0 {
      SameLower(a, b, dot);
    }
    hide Lower;
  }

  lemma SameMarks(a: string, b: string)
    requires SameButCase(a, b)
    ensures |a| == |b| && forall i :: 0 <= i < |a| ==> (a[i] == '.' <==> b[i] == '.') && (a[i] == '/' <==> b[i] == '/')
  {
  }

  lemma SameLower(a: string, b: string, from: nat)
    requires SameButCase(a, b) && from <= |a|
    ensures Lower(a[from..]) == Lower(b[from..])
  {
    var x, y := a[from..], b[from..];
    forall i | 0 <= i < |x| ensures Lower(x)[i] == Lower(y)[i] {
      assert x[i] == a[from + i] && y[i] == b[from + i];
    }
  }

  /** The suffix is what the last dot starts, if its path component has anything but dots before it. */
  lemma LastDotDecides(stem: string, ext: string, at: nat)
    requires at < |stem| && stem[at] != '.' && forall j :: at <= j < |stem| ==> stem[j] != '/'
    requires forall i :: 0 <= i < |ext| ==> ext[i] != '.' && ext[i] != '/' && !('A' <= ext[i] <= 'Z')
    ensures Extension(stem + "." + ext) == "." + ext
  {
    var name, dot := stem + "." + ext, |stem|;
    var sep := LastIndex(name, '/');
    hide LastIndex;
    LastIndexIs(name, '.', dot);
    assert name[at] == stem[at] && forall j :: at <= j < |name| ==> name[j] != '/';
    assert name[dot..] == "." + ext;
    assert Lower("." + ext) == "." + ext;
  }

  /** A name has a suffix exactly if, in its last path component, a dot follows some other character. */
  lemma HasSuffix(name: string)
    ensures Extension(name) != "" <==>
      exists i, d :: 0 <= i < d < |name| && name[i] != '.' && name[d] == '.'
                     && forall j :: i <= j < |name| ==> name[j] != '/'
  {
    var dot, sep := LastIndex(name, '.'), LastIndex(name, '/');
    hide LastIndex;
    if i, d :| 0 <= i < d < |name| && name[i] != '.' && name[d] == '.'
               && forall j :: i <= j < |name| ==> name[j] != '/' {
      assert sep < i < dot;
    }
    assert dot >= 0 ==> |Lower(name[dot..])| > 0;
  }

  lemma PngInCapitals()
    ensures Extension("IMG.PNG") == Extension("img.png") == ".png"
  {
    hide Extension, FaultOf;
    LastDotDecides("img", "png", 0);
    CaseDoesNotMatter("IMG" + "." + "PNG", "img" + "." + "png", []);
    assert "IMG.PNG" == "IMG" + "." + "PNG" && "img.png" == "img" + "." + "png" && "." + "png" == ".png";
  }

  datatype Scan = ValueError | Scanned(fault: Fault, hash: string, size: nat)

  /** The chunk loop of the first pass: size, hash and first four bytes of the whole content. */
  method ScanChunks<S(!new)>(h: Hasher<S>, file: Stream, chunkSize: nat) returns (hash: string, total: nat, head: Bytes)
    requires file.Valid() && file.pos == 0 && chunkSize > 0 && Incremental(h)
    modifies file
    ensures file.Valid() && hash == Sha(h, file.content) && total == |file.content| && head == Head(file.content)
  {
    var state := h.init;
    total := 0;
    head := [];
    var done := false;
    while !done
      invariant file.Valid() && total == file.pos
      invariant state == h.update(h.init, file.content[..file.pos])
      invariant head == Head(file.content[..file.pos])
      invariant done ==> file.pos == |file.content|
      decreases !done, |file.content| - file.pos
    {
      var before := file.pos;
      var chunk := file.Read(chunkSize);
      assert file.content[..before] + chunk == file.content[..file.pos];
      if chunk == [] {
        done := true;
      } else {
        total := total + |chunk|;
        state := h.update(state, chunk);
        HeadGrows(file.content, before, chunk);
        if |head| < 4 {
          head := Topped(head, chunk);
        }
      }
    }
    assert file.content[..file.pos] == file.content;
    hash := h.digest(state);
  }

  /** The first pass over an upload. Whatever the chunk size and however short the reads, it reports what a look at
      the whole file would, and leaves the stream at its beginning for the second pass. */
  method InspectFileStream<S(!new)>(h: Hasher<S>, file: Stream, name: string, chunkSize: int) returns (r: Scan)
    requires file.Valid() && Incremental(h)
    modifies file
    ensures file.Valid()
    ensures r == if chunkSize <= 0 || !file.seekable then ValueError
                 else Scanned(FaultOf(file.content, name), Sha(h, file.content), |file.content|)
    ensures r.Scanned? ==> file.pos == 0
    ensures r.Scanned? ==>
      var ext, content := Extension(name), file.content;
      var sized := 0 < |content| <= 10485760;
      && (r.fault == BadFormat <==> ext !in {".png", ".jpg", ".jpeg", ".webp"})
      && (r.fault == Empty <==> ext in {".png", ".jpg", ".jpeg", ".webp"} && |content| == 0)
      && (r.fault == TooLarge <==> ext in {".png", ".jpg", ".jpeg", ".webp"} && |content| > 10485760)
      && (r.fault == BadPng <==>
            ext == ".png" && sized && (|content| < 4 || content[..4] != [0x89, 0x50, 0x4E, 0x47]))
      && (r.fault == BadJpg <==>
            ext in {".jpg", ".jpeg"} && sized && (|content| < 3 || content[..3] != [0xFF, 0xD8, 0xFF]))
  {
    if chunkSize <= 0 || !file.seekable {
      return ValueError;
    }
    file.Rewind();
    hide Extension, AllowedExt, LastIndex, Sha, Incremental;
    var hash, total, head := ScanChunks(h, file, chunkSize);
    file.Rewind();
    HeadDecides(file.content, head);
    MagicNumbers(file.content);
    var ext := Extension(name);
    var fault :=
      if !AllowedExt(ext) then BadFormat
      else if total == 0 then Empty
      else if total > MAX_SIZE then TooLarge
      else if ext == ".png" && head != PNG_MAGIC then BadPng
      else if ext in {".jpg", ".jpeg"} && (if |head| < 3 then head else head[..3]) != JPG_MAGIC then BadJpg
      else NoFault;
    r := Scanned(fault, hash, total);
  }

  function Head(content: Bytes): Bytes {
    content[..if |content| < 4 then |content| else 4]
  }

  function Topped(head: Bytes, chunk: Bytes): Bytes
    requires |head| < 4
  {
    var missing := 4 - |head|;
    head + if |chunk| <= missing then chunk else chunk[..missing]
  }

  lemma HeadGrows(content: Bytes, before: nat, chunk: Bytes)
    requires before + |chunk| <= |content| && chunk == content[before..before + |chunk|]
    ensures var head := Head(content[..before]);
      Head(content[..before + |chunk|]) == if |head| < 4 then Topped(head, chunk) else head
  {
  }

  lemma MagicNumbers(content: Bytes)
    ensures PNG_MAGIC <= content <==> |content| >= 4 && content[..4] == [0x89, 0x50, 0x4E, 0x47]
    ensures JPG_MAGIC <= content <==> |content| >= 3 && content[..3] == [0xFF, 0xD8, 0xFF]
  {
  }

  /** Four bytes are enough to decide both magic numbers. */
  lemma HeadDecides(content: Bytes, head: Bytes)
    requires head == Head(content)
    ensures head == PNG_MAGIC <==> PNG_MAGIC <= content
    ensures (if |head| < 3 then head else head[..3]) == JPG_MAGIC <==> JPG_MAGIC <= content
  {
    if |content| >= 4 {
      assert content[..3] == head[..3];
    }
  }

  // ----- the object store -----

  datatype Put = BadRequest | Broken | HashMismatch | Stored(hash: string, size: nat)

  /** A write that raises once the given number of bytes has been taken from the stream; `None` never does. */
  predicate Breaks(failsAt: Option<nat>, content: Bytes) {
    failsAt.Some? && failsAt.value <= |content|
  }

  class ObjectStore {
    var files: map<FileName, Bytes>
    var mtime: map<FileName, real>

    constructor ()
      ensures files == map[] && mtime == map[]
    {
      files := map[];
      mtime := map[];
    }

    /** The chunk loop: unless it breaks, the whole content ends up in the temporary file, hashed on the way. */
    method Copy<S(!new)>(h: Hasher<S>, file: Stream, tmp: FileName, chunkSize: nat, failsAt: Option<nat>)
      returns (ok: bool, hash: string, total: nat)
      requires file.Valid() && file.pos == 0 && chunkSize > 0 && Incremental(h) && tmp in files && files[tmp] == []
      modifies this`files, file
      ensures file.Valid() && (ok <==> !Breaks(failsAt, file.content))
      ensures tmp in files && files == old(files)[tmp := files[tmp]] && files[tmp] <= file.content
      ensures ok ==> files[tmp] == file.content && hash == Sha(h, file.content) && total == |file.content|
    {
      var state := h.init;
      total := 0;
      var done := false;
      ghost var copied: Bytes := [];
      while !done
        invariant file.Valid() && total == file.pos
        invariant copied == file.content[..file.pos] && state == h.update(h.init, copied)
        invariant files == old(files)[tmp := copied]
        invariant done ==> file.pos == |file.content| && !Breaks(failsAt, file.content)
        decreases !done, |file.content| - file.pos
      {
        if failsAt.Some? && file.pos >= failsAt.value {
          return false, "", 0;
        }
        var chunk := file.Read(chunkSize);
        if chunk == [] {
          done := true;
        } else {
          total := total + |chunk|;
          state := h.update(state, chunk);
          copied := copied + chunk;
          assert copied == file.content[..file.pos];
          files := files[tmp := files[tmp] + chunk];
        }
      }
      assert file.content[..file.pos] == file.content;
      hash := h.digest(state);
      ok := true;
    }

    /** The second pass. The stable name is replaced only by a content whose hash is the expected one, and then by all
        of it; in every other outcome, an exception in the middle of the write included, it is untouched. A writer that
        began leaves no temporary file behind. */
    method PutObjectStream<S(!new)>(h: Hasher<S>, file: Stream, name: string, sid: nat, u: Thread,
                                    expected: Option<string>,
                                    chunkSize: int, failsAt: Option<nat>, now: real) returns (r: Put)
      requires file.Valid() && Incremental(h)
      modifies this, file
      ensures file.Valid()
      ensures r == if !AllowedExt(Extension(name)) || chunkSize <= 0 || !file.seekable then BadRequest
                   else if Breaks(failsAt, file.content) then Broken
                   else if expected.Some? && expected.value != Sha(h, file.content) then HashMismatch
                   else Stored(Sha(h, file.content), |file.content|)
      ensures r.BadRequest? ==> files == old(files)
      ensures r.Broken? || r.HashMismatch? ==> files == old(files) - {Temp(sid, u)}
      ensures r.Stored? ==> files == (old(files) - {Temp(sid, u)})[Final(sid) := file.content]
    {
      if !AllowedExt(Extension(name)) || chunkSize <= 0 || !file.seekable {
        return BadRequest;
      }
      hide Extension, AllowedExt, Sha, Incremental;
      var tmp := Temp(sid, u);
      file.Rewind();
      files := files[tmp := []];
      mtime := mtime[tmp := now];
      var copied, actual, total := Copy(h, file, tmp, chunkSize, failsAt);
      if !copied {
        file.Rewind();
        files := files - {tmp};
        return Broken;
      }
      if expected.Some? && actual != expected.value {
        file.Rewind();
        files := files - {tmp};
        return HashMismatch;
      }
      files := (files - {tmp})[Final(sid) := files[tmp]];
      file.Rewind();
      r := Stored(actual, total);
    }

    /** The collector: exactly the temporary files not younger than the limit go, save those in `kept`, which are no
        regular files, are gone already or cannot be removed; no final object ever goes. */
    method CleanupStaleTempFiles(maxAge: real, now: real, kept: set<FileName>) returns (removed: Option<nat>)
      requires files.Keys <= mtime.Keys
      modifies this
      ensures removed == None <==> maxAge < 0.0
      ensures removed == None ==> files == old(files)
      ensures removed.Some? ==>
        var stale := set f | f in old(files) && f.Temp? && f !in kept && old(mtime)[f] <= now - maxAge;
        files == old(files) - stale && removed.value == |stale|
      ensures forall f :: f in old(files) && f.Final? ==> f in files && files[f] == old(files)[f]
      ensures mtime == old(mtime)
    {
      if maxAge < 0.0 {
        return None;
      }
      var cutoff := now - maxAge;
      var names := files.Keys;
      var gone: set<FileName> := {};
      while names != {}
        invariant names <= old(files).Keys && mtime == old(mtime)
        invariant files == old(files) - gone
        invariant gone == set f | f in old(files) && f !in names && f.Temp? && f !in kept && old(mtime)[f] <= cutoff
        decreases names
      {
        var f :| f in names;
        names := names - {f};
        TemporaryIffTemp(f);
        if LooksTemporary(Render(f)) && f !in kept && mtime[f] <= cutoff {
          files := files - {f};
          gone := gone + {f};
        }
      }
      assert gone == set f | f in old(files) && f.Temp? && f !in kept && old(mtime)[f] <= now - maxAge;
      removed := Some(|gone|);
    }
  }
}
