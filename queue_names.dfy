/** Queue-name derivation (index.js:55 and index.js:77-80). A static queue is
    named once from the prefix and the given name; a path-derived queue is
    named per request from the request path. Deployed queues are known by
    these names, so the transformation is pinned down exactly. Case mapping
    covers ASCII letters only. */
module QueueNames {

  /** Drops every leading `c`: the left half of lodash's `_.trim(s, c)`. */
  function TrimStart(s: string, c: char): (r: string)
    ensures |r| <= |s| && r == s[|s| - |r|..]
    ensures forall k :: 0 <= k < |s| - |r| ==> s[k] == c
    ensures r == [] || r[0] != c
  {
    if |s| > 0 && s[0] == c then TrimStart(s[1..], c) else s
  }

  /** Drops every trailing `c`: the right half of `_.trim(s, c)`. */
  function TrimEnd(s: string, c: char): (r: string)
    ensures |r| <= |s| && r == s[..|r|]
    ensures forall k :: |r| <= k < |s| ==> s[k] == c
    ensures r == [] || r[|r| - 1] != c
  {
    if |s| > 0 && s[|s| - 1] == c then TrimEnd(s[..|s| - 1], c) else s
  }

  /** `_.trim(s, c)`: neither end of the result is `c`. */
  function Trim(s: string, c: char): (r: string)
    ensures |r| <= |s|
    ensures r == [] || (r[0] != c && r[|r| - 1] != c)
  {
    TrimEnd(TrimStart(s, c), c)
  }

  predicate AllChar(s: string, c: char) {
    forall k :: 0 <= k < |s| ==> s[k] == c
  }

  lemma {:induction false} TrimStartAt(s: string, c: char, i: nat)
    requires i <= |s|
    requires forall k :: 0 <= k < i ==> s[k] == c
    requires i == |s| || s[i] != c
    ensures TrimStart(s, c) == s[i..]
  {
    if i > 0 {
      assert s[0] == c;
      TrimStartAt(s[1..], c, i - 1);
      assert s[1..][i - 1..] == s[i..];
    }
  }

  lemma {:induction false} TrimEndAt(s: string, c: char, j: nat)
    requires j <= |s|
    requires forall k :: j <= k < |s| ==> s[k] == c
    requires j == 0 || s[j - 1] != c
    ensures TrimEnd(s, c) == s[..j]
  {
    if j < |s| {
      assert s[|s| - 1] == c;
      var s' := s[..|s| - 1];
      forall k | j <= k < |s'| ensures s'[k] == c {
        assert s'[k] == s[k];
      }
      TrimEndAt(s', c, j);
      assert s'[..j] == s[..j];
    }
  }

  /** `_.trim` is determined by the decomposition it undoes: whenever `s` is a
      run of `c`, then `m`, then a run of `c`, with `m` neither starting nor
      ending with `c`, the trimmed string is `m`. */
  lemma TrimIs(s: string, c: char, i: nat, j: nat)
    requires i <= j <= |s|
    requires forall k :: 0 <= k < i ==> s[k] == c
    requires forall k :: j <= k < |s| ==> s[k] == c
    requires i == j || (s[i] != c && s[j - 1] != c)
    ensures Trim(s, c) == s[i..j]
  {
    if i == j {
      AllCharTrimmed(s, c, i);
    } else {
      TrimIsInner(s, c, i, j);
    }
  }

  lemma TrimIsInner(s: string, c: char, i: nat, j: nat)
    requires i < j <= |s|
    requires forall k :: 0 <= k < i ==> s[k] == c
    requires forall k :: j <= k < |s| ==> s[k] == c
    requires s[i] != c && s[j - 1] != c
    ensures Trim(s, c) == s[i..j]
  {
    TrimStartAt(s, c, i);
    var u := s[i..];
    assert TrimStart(s, c) == u;
    TrimEndOfTail(s, c, i, j);
    assert Trim(s, c) == TrimEnd(u, c);
  }

  lemma TrimEndOfTail(s: string, c: char, i: nat, j: nat)
    requires i < j <= |s|
    requires forall k :: j <= k < |s| ==> s[k] == c
    requires s[j - 1] != c
    ensures TrimEnd(s[i..], c) == s[i..j]
  {
    var u := s[i..];
    TailRun(s, c, i, j);
    assert u[j - i - 1] == s[j - 1];
    TrimEndAt(u, c, j - i);
    assert u[..j - i] == s[i..j];
  }

  lemma TailRun(s: string, c: char, i: nat, j: nat)
    requires i <= j <= |s|
    requires forall k :: j <= k < |s| ==> s[k] == c
    ensures forall k :: j - i <= k < |s[i..]| ==> s[i..][k] == c
  {
  }

  lemma {:induction false} AllCharTrimmed(s: string, c: char, i: nat)
    requires i <= |s|
    requires forall k :: 0 <= k < i ==> s[k] == c
    requires forall k :: i <= k < |s| ==> s[k] == c
    ensures Trim(s, c) == []
  {
    TrimStartAt(s, c, |s|);
  }

  /** `s.replace(/from/g, to)` for a single-character pattern. */
  function ReplaceAll(s: string, from: char, to: char): (r: string)
    ensures |r| == |s|
    ensures forall k :: 0 <= k < |s| ==> r[k] == (if s[k] == from then to else s[k])
  {
    if s == [] then [] else [if s[0] == from then to else s[0]] + ReplaceAll(s[1..], from, to)
  }

  /** `toLowerCase` on one ASCII character. */
  function LowerChar(ch: char): char {
    if 'A' <= ch <= 'Z' then (ch as int - 'A' as int + 'a' as int) as char else ch
  }

  predicate IsLower(s: string) {
    forall k :: 0 <= k < |s| ==> !('A' <= s[k] <= 'Z')
  }

  /** `s.toLowerCase()` restricted to ASCII. */
  function ToLower(s: string): (r: string)
    ensures |r| == |s| && IsLower(r)
    ensures forall k :: 0 <= k < |s| ==> r[k] == LowerChar(s[k])
  {
    seq(|s|, k requires 0 <= k < |s| => LowerChar(s[k]))
  }

  predicate NoSlash(s: string) {
    forall k :: 0 <= k < |s| ==> s[k] != '/'
  }

  /** Whether ASCII lowercasing turns a character into a slash: never, unless
      it already is one. */
  lemma LowerKeepsSlash(ch: char)
    ensures LowerChar(ch) == '/' <==> ch == '/'
  {
  }

  /** The path segment of a path-derived queue name (index.js:78): trim the
      slashes, turn the inner ones into dashes, name the root `index`,
      lowercase. The slug is never empty, holds no slash and is lowercase. */
  function Slug(path: string): (r: string)
    ensures r != "" && NoSlash(r) && IsLower(r)
  {
    var dashed := ReplaceAll(Trim(path, '/'), '/', '-');
    var named := if dashed == "" then "index" else dashed;
    assert NoSlash(named);
    var low := ToLower(named);
    assert NoSlash(low) by {
      forall k | 0 <= k < |low| ensures low[k] != '/' {
        LowerKeepsSlash(named[k]);
      }
    }
    low
  }

  /** An empty path, or one made of slashes only, is the `index` queue. */
  lemma {:induction false} RootSlug(path: string)
    requires AllChar(path, '/')
    ensures Slug(path) == "index"
  {
    AllCharTrimmed(path, '/', 0);
  }

  /** `parts.filter(Boolean)` on strings: the empty strings are dropped. */
  function Filled(parts: seq<string>): (r: seq<string>)
    ensures |r| <= |parts|
    ensures forall p :: p in r <==> p in parts && p != ""
  {
    if parts == [] then [] else (if parts[0] == "" then [] else [parts[0]]) + Filled(parts[1..])
  }

  /** `filter` keeps the order and the multiplicity of what it keeps: the
      kept parts of a concatenation are the kept parts of each piece, in turn. */
  lemma {:induction false} FilledConcat(a: seq<string>, b: seq<string>)
    ensures Filled(a + b) == Filled(a) + Filled(b)
  {
    if a == [] {
      assert a + b == b;
    } else {
      assert (a + b)[0] == a[0];
      assert (a + b)[1..] == a[1..] + b;
      FilledConcat(a[1..], b);
    }
  }

  /** A single part is kept exactly when it is not empty. */
  lemma FilledOne(p: string)
    ensures Filled([p]) == if p == "" then [] else [p]
  {
    assert [p][1..] == [];
  }

  /** `parts.join('.')`: the parts in order with one dot between
      neighbours, so no parts give the empty string, one part itself, and
      more start with the first part and a dot. */
  function JoinDots(parts: seq<string>): (r: string)
    ensures parts == [] ==> r == ""
    ensures |parts| == 1 ==> r == parts[0]
    ensures |parts| >= 2 ==> |r| > |parts[0]| && r[..|parts[0]|] == parts[0] && r[|parts[0]|] == '.'
  {
    if parts == [] then ""
    else if |parts| == 1 then parts[0]
    else parts[0] + "." + JoinDots(parts[1..])
  }

  /** A static queue name (index.js:55): prefix and name joined with a dot,
      an empty part dropped together with its dot. */
  function StaticQueueName(prefix: string, name: string): (r: string)
    ensures prefix == "" ==> r == name
    ensures name == "" ==> r == prefix
    ensures prefix != "" && name != "" ==> r == prefix + "." + name
  {
    JoinPair(prefix, name);
    JoinDots(Filled([prefix, name]))
  }

  /** A path-derived queue name (index.js:77-80): the slug, under the prefix
      when there is one. The name is never empty and an empty prefix leaves
      no leading dot. */
  function PathQueueName(prefix: string, path: string): (r: string)
    ensures r == (if prefix == "" then Slug(path) else prefix + "." + Slug(path))
    ensures r != ""
  {
    JoinPair(prefix, Slug(path));
    JoinDots(Filled([prefix, Slug(path)]))
  }

  lemma JoinPair(a: string, b: string)
    ensures JoinDots(Filled([a, b])) ==
      if a == "" then b else if b == "" then a else a + "." + b
  {
    assert [a, b][1..] == [b];
    assert [b][1..] == [];
    assert Filled([b]) == (if b == "" then [] else [b]);
    assert Filled([a, b]) == (if a == "" then [] else [a]) + Filled([b]);
  }

  lemma {:induction false} NoSlashTrim(s: string)
    requires NoSlash(s)
    ensures Trim(s, '/') == s
  {
    TrimIs(s, '/', 0, |s|);
  }

  lemma {:induction false} LowerIdempotent(s: string)
    requires IsLower(s)
    ensures ToLower(s) == s
  {
    assert forall k :: 0 <= k < |s| ==> LowerChar(s[k]) == s[k];
  }

  /** A slug names its own queue: slugging a slug changes nothing. */
  lemma {:induction false} SlugIdempotent(path: string)
    ensures Slug(Slug(path)) == Slug(path)
  {
    var s := Slug(path);
    NoSlashTrim(s);
    assert ReplaceAll(s, '/', '-') == s;
    LowerIdempotent(s);
  }

  /** Where the trimmed part of a string that is not all `c` begins and ends. */
  lemma TrimBounds(s: string, c: char) returns (i: nat, j: nat)
    requires !AllChar(s, c)
    ensures i < j <= |s| && s[i] != c && s[j - 1] != c
    ensures forall k :: 0 <= k < i ==> s[k] == c
    ensures forall k :: j <= k < |s| ==> s[k] == c
  {
    i, j := |s| - |TrimStart(s, c)|, |TrimEnd(s, c)|;
    StartRun(s, c);
    EndRun(s, c);
    var m :| 0 <= m < |s| && s[m] != c;
    RunBefore(s, c, i, m);
    RunAfter(s, c, j, m);
  }

  /** What `TrimStart` drops is a run of `c`, and what follows it is not `c`. */
  lemma StartRun(s: string, c: char)
    ensures var i := |s| - |TrimStart(s, c)|;
            && (forall k :: 0 <= k < i ==> s[k] == c)
            && (i < |s| ==> s[i] != c)
  {
    var t := TrimStart(s, c);
    if t != [] {
      assert t[0] == s[|s| - |t|];
    }
  }

  /** What `TrimEnd` drops is a run of `c`, and what precedes it is not `c`. */
  lemma EndRun(s: string, c: char)
    ensures var j := |TrimEnd(s, c)|;
            && (forall k :: j <= k < |s| ==> s[k] == c)
            && (j > 0 ==> s[j - 1] != c)
  {
    var e := TrimEnd(s, c);
    if e != [] {
      assert e[|e| - 1] == s[|e| - 1];
    }
  }

  /** A character other than `c` lies past a leading run of `c`. */
  lemma RunBefore(s: string, c: char, n: nat, m: nat)
    requires n <= |s| && m < |s| && s[m] != c
    requires forall k :: 0 <= k < n ==> s[k] == c
    ensures n <= m
  {
  }

  /** A character other than `c` lies before a trailing run of `c`. */
  lemma RunAfter(s: string, c: char, n: nat, m: nat)
    requires m < |s| && s[m] != c
    requires forall k :: n <= k < |s| ==> s[k] == c
    ensures m < n
  {
  }

  lemma HeadRun(s: string, c: char, i: nat, j: nat)
    requires i <= j <= |s|
    requires forall k :: 0 <= k < i ==> s[k] == c
    ensures forall k :: 0 <= k < i ==> s[..j][k] == c
  {
  }

  /** Trimming the end first gives the same string. */
  lemma TrimEndFirst(s: string, c: char)
    ensures TrimStart(TrimEnd(s, c), c) == Trim(s, c)
  {
    if AllChar(s, c) {
      TrimEndAt(s, c, 0);
      AllCharTrimmed(s, c, 0);
    } else {
      var i, j := TrimBounds(s, c);
      TrimEndFirstAt(s, c, i, j);
    }
  }

  lemma TrimEndFirstAt(s: string, c: char, i: nat, j: nat)
    requires i < j <= |s| && s[i] != c && s[j - 1] != c
    requires forall k :: 0 <= k < i ==> s[k] == c
    requires forall k :: j <= k < |s| ==> s[k] == c
    ensures TrimStart(TrimEnd(s, c), c) == Trim(s, c)
  {
    TrimIs(s, c, i, j);
    TrimEndAt(s, c, j);
    HeadRun(s, c, i, j);
    TrimStartAt(s[..j], c, i);
    assert s[..j][i..] == s[i..j];
  }

  lemma TrimDropsLeading(p: string, c: char)
    ensures Trim([c] + p, c) == Trim(p, c)
  {
    assert ([c] + p)[1..] == p;
  }

  lemma TrimDropsTrailing(p: string, c: char)
    ensures Trim(p + [c], c) == Trim(p, c)
  {
    var q := p + [c];
    assert q[..|q| - 1] == p;
    assert TrimEnd(q, c) == TrimEnd(p, c);
    TrimEndFirst(q, c);
    TrimEndFirst(p, c);
  }

  /** Leading or trailing slashes never change the queue: `/a/b`, `a/b/` and
      `a/b` share one. */
  lemma SlugIgnoresOuterSlashes(path: string)
    ensures Slug("/" + path) == Slug(path)
    ensures Slug(path + "/") == Slug(path)
  {
    TrimDropsLeading(path, '/');
    TrimDropsTrailing(path, '/');
  }

  /** Lowercasing commutes with trimming slashes. */
  lemma TrimLower(s: string)
    ensures Trim(ToLower(s), '/') == ToLower(Trim(s, '/'))
  {
    var low := ToLower(s);
    SlashesAgree(s);
    if AllChar(s, '/') {
      AllCharTrimmed(s, '/', 0);
      assert AllChar(low, '/');
      AllCharTrimmed(low, '/', 0);
    } else {
      var i, j := TrimBounds(s, '/');
      TrimLowerAt(s, i, j);
    }
  }

  /** Lowercasing leaves every slash where it was and adds none. */
  lemma SlashesAgree(s: string)
    ensures forall k :: 0 <= k < |s| ==> (ToLower(s)[k] == '/' <==> s[k] == '/')
  {
    forall k | 0 <= k < |s| ensures ToLower(s)[k] == '/' <==> s[k] == '/' {
      LowerKeepsSlash(s[k]);
    }
  }

  lemma TrimLowerAt(s: string, i: nat, j: nat)
    requires i < j <= |s| && s[i] != '/' && s[j - 1] != '/'
    requires forall k :: 0 <= k < i ==> s[k] == '/'
    requires forall k :: j <= k < |s| ==> s[k] == '/'
    ensures Trim(ToLower(s), '/') == ToLower(Trim(s, '/'))
  {
    var low := ToLower(s);
    SlashesAgree(s);
    assert low[i] != '/' && low[j - 1] != '/';
    assert forall k :: 0 <= k < i ==> low[k] == '/';
    assert forall k :: j <= k < |low| ==> low[k] == '/';
    TrimIs(low, '/', i, j);
    TrimIs(s, '/', i, j);
    LowerSlice(s, i, j);
  }

  lemma LowerSlice(s: string, i: nat, j: nat)
    requires i <= j <= |s|
    ensures ToLower(s[i..j]) == ToLower(s)[i..j]
  {
    var a, b := ToLower(s[i..j]), ToLower(s)[i..j];
    forall k | 0 <= k < |a| ensures a[k] == b[k] {
      assert s[i..j][k] == s[i + k];
    }
  }

  lemma LowerAfterReplace(t: string)
    ensures ToLower(ReplaceAll(ToLower(t), '/', '-')) == ToLower(ReplaceAll(t, '/', '-'))
  {
    var d := ReplaceAll(t, '/', '-');
    var dl := ReplaceAll(ToLower(t), '/', '-');
    forall k | 0 <= k < |t| ensures LowerChar(dl[k]) == LowerChar(d[k]) {
      LowerKeepsSlash(t[k]);
    }
  }

  /** The slug is blind to letter case: `/Foo` and `/foo` share a queue. */
  lemma SlugIgnoresCase(path: string)
    ensures Slug(ToLower(path)) == Slug(path)
  {
    TrimLower(path);
    LowerAfterReplace(Trim(path, '/'));
  }
}
