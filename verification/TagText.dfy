// The text of tags: how a tag is split, what a class's own tag looks like, and the handles a
// document gives to sources (python/yamluna/registry.py).
module TagText {
  import opened Results
  import ObjectGraph

  // ------------------------------------------------------------------ order

  // Python's order on strings.
  predicate Before(a: string, b: string) {
    if b == "" then false
    else if a == "" then true
    else if a[0] != b[0] then a[0] < b[0]
    else Before(a[1..], b[1..])
  }

  lemma {:induction false} BeforeTotal(a: string, b: string)
    ensures a == b || Before(a, b) || Before(b, a)
    ensures !(Before(a, b) && Before(b, a)) && !Before(a, a)
  {
    if a != "" {
      BeforeTotal(a[1..], a[1..]);
    }
    if a != "" && b != "" && a[0] == b[0] {
      BeforeTotal(a[1..], b[1..]);
      assert a == [a[0]] + a[1..] && b == [b[0]] + b[1..];
    }
  }

  lemma {:induction false} BeforeChains(a: string, b: string, c: string)
    requires Before(a, b) && Before(b, c)
    ensures Before(a, c)
  {
    if a != "" && a[0] == b[0] == c[0] {
      BeforeChains(a[1..], b[1..], c[1..]);
    }
  }

  // ------------------------------------------------------------------ splitting a tag

  // How many characters stand in front of the first `c`; all of them when there is none.
  function UpTo(s: string, c: char): (n: nat)
    ensures n <= |s|
    ensures n < |s| ==> s[n] == c
    ensures c !in s[..n]
    ensures n == |s| <==> c !in s
  {
    if s == "" || s[0] == c then 0 else 1 + UpTo(s[1..], c)
  }

  lemma {:induction false} UpToFirst(a: string, c: char, b: string)
    requires c !in a
    ensures UpTo(a + [c] + b, c) == |a|
  {
    if a != "" {
      assert a[0] in a;
      assert (a + [c] + b)[1..] == a[1..] + [c] + b;
      UpToFirst(a[1..], c, b);
    }
  }

  // A tag's handle, None when no directive can apply, and what follows it.
  datatype Parts = Parts(handle: Option<string>, suffix: string)

  function SplitTag(tag: string): Parts {
    if |tag| >= 2 && tag[..2] == "!<" && tag[|tag| - 1] == '>' then Parts(None, tag[2..|tag| - 1])
    else if tag == "" || tag[0] != '!' then Parts(None, tag)
    else
      var rest := tag[1..];
      if rest != "" && rest[0] == '!' then Parts(Some("!!"), rest[1..])
      else
        var n := UpTo(rest, '!');
        if n < |rest| then Parts(Some("!" + rest[..n] + "!"), rest[n + 1..]) else Parts(Some("!"), rest)
  }

  // ------------------------------------------------------------------ a class's own tag

  predicate IsLetter(c: char) {
    'A' <= c <= 'Z' || 'a' <= c <= 'z'
  }

  predicate IsDigit(c: char) {
    '0' <= c <= '9'
  }

  // A dotted path of identifiers, in which `-` counts as a letter behind the first one; `start`
  // where an identifier must begin.
  predicate IsPath(s: string, start: bool) {
    if s == "" then !start
    else if start then (IsLetter(s[0]) || s[0] == '_') && IsPath(s[1..], false)
    else if s[0] == '.' then IsPath(s[1..], true)
    else (IsLetter(s[0]) || IsDigit(s[0]) || s[0] == '_' || s[0] == '-') && IsPath(s[1..], false)
  }

  predicate IsSource(s: string) {
    IsPath(s, true)
  }

  lemma {:induction false} PathHasNoSlash(s: string, start: bool)
    requires IsPath(s, start)
    ensures '/' !in s
  {
    if s != "" {
      PathHasNoSlash(s[1..], s[0] == '.' && !start);
      assert s == [s[0]] + s[1..];
    }
  }

  datatype Identity = Identity(source: string, name: string)

  predicate IsName(name: string) {
    name != "" && '/' !in name
  }

  function Uri(i: Identity): string {
    "tag:" + i.source + "/" + i.name
  }

  // What a global tag says, when it has the shape of a class's own tag.
  function ReadUri(uri: string): (r: Option<Identity>) {
    if |uri| < 4 || uri[..4] != "tag:" then None else ReadIdentity(uri[4..])
  }

  function ReadIdentity(rest: string): (r: Option<Identity>) {
    var n := UpTo(rest, '/');
    if n < |rest| && IsSource(rest[..n]) && IsName(rest[n + 1..]) then Some(Identity(rest[..n], rest[n + 1..]))
    else None
  }

  // A class's tag is read back exactly when its source is a dotted path and its name is not empty
  // and holds no slash; otherwise it is nobody's tag.
  lemma UriReadBack(i: Identity)
    ensures ReadUri(Uri(i)) == if IsSource(i.source) && IsName(i.name) then Some(i) else None
  {
    hide IsSource, IsName, ReadIdentity;
    assert Uri(i) == "tag:" + (i.source + ['/'] + i.name);
    assert Uri(i)[4..] == i.source + ['/'] + i.name;
    if '/' in i.source {
      SlashInSource(i);
    } else {
      NoSlashInSource(i);
    }
  }

  lemma NoSlashInSource(i: Identity)
    requires '/' !in i.source
    ensures ReadIdentity(i.source + ['/'] + i.name)
         == if IsSource(i.source) && IsName(i.name) then Some(i) else None
  {
    hide IsSource, IsName;
    var rest := i.source + ['/'] + i.name;
    UpToFirst(i.source, '/', i.name);
    assert rest[..|i.source|] == i.source && rest[|i.source| + 1..] == i.name;
  }

  lemma SlashInSource(i: Identity)
    requires '/' in i.source
    ensures ReadIdentity(i.source + ['/'] + i.name) == None && !IsSource(i.source)
  {
    var n := UpTo(i.source, '/');
    var more := i.source[n + 1..] + ['/'] + i.name;
    if IsSource(i.source) {
      PathHasNoSlash(i.source, true);
    }
    hide IsSource;
    assert i.source + ['/'] + i.name == i.source[..n] + ['/'] + more;
    UpToFirst(i.source[..n], '/', more);
    assert more[|i.source| - n - 1] == '/';
    assert (i.source[..n] + ['/'] + more)[n + 1..] == more;
  }

  // ------------------------------------------------------------------ handles

  predicate InHandle(c: char) {
    IsLetter(c) || IsDigit(c) || c == '-'
  }

  predicate IsHandleBody(s: string) {
    s != "" && forall c | c in s :: InHandle(c)
  }

  // Every run of characters that may not stand in a handle becomes one `-`.
  function Dashed(s: string, inRun: bool): (r: string)
    ensures forall c | c in r :: InHandle(c)
  {
    if s == "" then ""
    else if InHandle(s[0]) then [s[0]] + Dashed(s[1..], false)
    else (if inRun then "" else "-") + Dashed(s[1..], true)
  }

  function TrimLeft(s: string): (r: string)
    ensures forall c | c in r :: c in s
  {
    if s != "" && s[0] == '-' then TrimLeft(s[1..]) else s
  }

  function TrimRight(s: string): (r: string)
    ensures forall c | c in r :: c in s
  {
    if s != "" && s[|s| - 1] == '-' then TrimRight(s[..|s| - 1]) else s
  }

  function Sanitised(source: string): (r: string)
    ensures IsHandleBody(r)
  {
    var s := TrimRight(TrimLeft(Dashed(source, false)));
    if s == "" then "tag" else s
  }

  lemma {:induction false} DashedKeeps(s: string, inRun: bool)
    requires forall c | c in s :: InHandle(c)
    ensures Dashed(s, inRun) == s
  {
    hide InHandle;
    if s != "" {
      assert s[0] in s && forall c | c in s[1..] :: c in s;
      DashedKeeps(s[1..], false);
      assert [s[0]] + s[1..] == s;
    }
  }

  // A source that could be a handle already, and does not begin or end with `-`, is one as it stands.
  lemma SanitisedKeeps(s: string)
    requires IsHandleBody(s) && s[0] != '-' && s[|s| - 1] != '-'
    ensures Sanitised(s) == s
  {
    hide InHandle;
    DashedKeeps(s, false);
  }

  // The `n`th spelling of a handle: itself, then with 2, 3, 4 behind it.
  function Numbered(base: string, n: nat): string {
    if n <= 1 then base else base + ObjectGraph.Padded(n, 1)
  }

  lemma {:induction false} PaddedDigits(n: nat, width: nat)
    ensures forall c | c in ObjectGraph.Padded(n, width) :: IsDigit(c)
    decreases n, width
  {
    if n != 0 || width != 0 {
      PaddedDigits(n / 10, if width > 0 then width - 1 else 0);
    }
  }

  lemma NumberedIsBody(base: string, n: nat)
    requires IsHandleBody(base)
    ensures IsHandleBody(Numbered(base, n))
  {
    PaddedDigits(n, 1);
  }

  lemma NumberedDistinct(base: string, m: nat, n: nat)
    requires 1 <= m && 1 <= n && Numbered(base, m) == Numbered(base, n)
    ensures m == n
  {
    var a, b := ObjectGraph.Padded(m, 1), ObjectGraph.Padded(n, 1);
    ObjectGraph.PaddedNumber(m, 1);
    ObjectGraph.PaddedNumber(n, 1);
    assert a != "" && b != "";
    if m > 1 && n > 1 {
      assert Numbered(base, m)[|base|..] == a && Numbered(base, n)[|base|..] == b;
    }
  }

  // Whether `h` is the first spelling of `base` that is not in `taken`.
  ghost predicate FirstFree(base: string, taken: set<string>, h: string) {
    exists n: nat :: n >= 1 && IsFirstFree(base, taken, n) && h == Numbered(base, n)
  }

  ghost predicate IsFirstFree(base: string, taken: set<string>, n: nat) {
    && Numbered(base, n) !in taken
    && forall m | 1 <= m < n :: Numbered(base, m) in taken
  }

  lemma FirstFreeIsOne(base: string, taken: set<string>, a: string, b: string)
    requires FirstFree(base, taken, a) && FirstFree(base, taken, b)
    ensures a == b
  {
  }

  // With nothing taken it is the base.
  lemma FirstOfAll(base: string, h: string)
    requires FirstFree(base, {}, h)
    ensures h == base
  {
    assert Numbered(base, 1) == base;
    assert IsFirstFree(base, {}, 1);
    FirstFreeIsOne(base, {}, h, base);
  }

  // `_alloc`: takes the first spelling of `base` that is free.
  method Alloc(base: string, taken: set<string>) returns (handle: string, after: set<string>)
    ensures FirstFree(base, taken, handle) && after == taken + {handle}
  {
    var n: nat := 1;
    handle := base;
    ghost var left := taken;
    while handle in taken
      invariant n >= 1 && handle == Numbered(base, n)
      invariant forall m | 1 <= m < n :: Numbered(base, m) in taken
      invariant forall m | m >= n && Numbered(base, m) in taken :: Numbered(base, m) in left
      decreases left
    {
      forall m | m > n && Numbered(base, m) in taken ensures Numbered(base, m) in left - {handle} {
        if Numbered(base, m) == handle { NumberedDistinct(base, m, n); }
      }
      left := left - {handle};
      n := n + 1;
      handle := Numbered(base, n);
    }
    after := taken + {handle};
    assert IsFirstFree(base, taken, n);
  }

  // ------------------------------------------------------------------ tags as written

  // The name of a class may stand behind the primary handle.
  predicate PlainName(name: string) {
    '!' !in name && !(name != "" && name[0] == '<' && name[|name| - 1] == '>')
  }

  lemma PrimarySplits(name: string)
    ensures PlainName(name) ==> SplitTag("!" + name) == Parts(Some("!"), name)
    ensures !PlainName(name) ==>
              SplitTag("!" + name).handle != Some("!") && |SplitTag("!" + name).suffix| < |name|
  {
    var tag := "!" + name;
    assert tag[1..] == name;
    assert |tag| >= 2 ==> tag[..2] == ['!', name[0]];
  }

  // A handle and what follows it make up the tag.
  lemma SplitJoins(tag: string)
    ensures var parts := SplitTag(tag); parts.handle.Some? ==> tag == parts.handle.value + parts.suffix
  {
    hide UpTo;
    if tag != "" && tag[0] == '!' {
      var rest := tag[1..];
      assert tag == "!" + rest;
      UpToFinds(rest, '!');
      if UpTo(rest, '!') < |rest| {
        Spliced(rest, UpTo(rest, '!'));
      }
      if rest != "" && rest[0] == '!' {
        Spliced(rest, 0);
      }
    }
  }

  lemma Spliced(rest: string, n: nat)
    requires n < |rest| && rest[n] == '!'
    ensures "!" + rest == ("!" + rest[..n] + "!") + rest[n + 1..]
  {
    assert rest == rest[..n] + [rest[n]] + rest[n + 1..];
  }

  lemma {:induction false} UpToFinds(s: string, c: char)
    ensures UpTo(s, c) < |s| ==> s[UpTo(s, c)] == c
  {
    if s != "" && s[0] != c {
      UpToFinds(s[1..], c);
    }
  }

  lemma NamedSplits(body: string, name: string)
    requires IsHandleBody(body)
    ensures SplitTag("!" + body + "!" + name) == Parts(Some("!" + body + "!"), name)
  {
    assert InHandle(body[0]) && '!' !in body;
    hide UpTo, IsHandleBody, InHandle;
    var rest := body + ['!'] + name;
    var tag := "!" + body + "!" + name;
    assert tag == ['!'] + rest;
    assert rest[0] == body[0] && tag[1] == body[0] && tag[1..] == rest;
    assert tag[..2] == ['!', body[0]];
    UpToFirst(body, '!', name);
    assert rest[..|body|] == body && rest[|body| + 1..] == name;
  }
}
