/**
 Retained references and collection: the directory name each retained URL or revision stands for.
 `decode` stands for the UTF-8 decoding of percent-encoded bytes, at most one character per byte.
 */
module References {
  import opened Common
  import opened Publication
  import opened PublicationTheorems
  import opened PublicationBatch

  type Decoder = seq<nat> -> string

  ghost predicate DecoderOk(decode: Decoder) {
    forall bytes :: |decode(bytes)| <= |bytes|
  }

  // ----- Text -----

  predicate Avoids(s: string, chars: set<char>) {
    forall i | 0 <= i < |s| :: s[i] !in chars
  }

  /** The text before the first of some characters. */
  function Before(s: string, stops: set<char>): (r: string)
    ensures r <= s && Avoids(r, stops)
    ensures |r| < |s| ==> s[|r|] in stops
  {
    if s == "" || s[0] in stops then "" else [s[0]] + Before(s[1..], stops)
  }

  function From(s: string, stops: set<char>): string {
    s[|Before(s, stops)|..]
  }

  /** Without these characters. */
  function Without(s: string, chars: set<char>): (r: string)
    ensures |r| <= |s| && Avoids(r, chars)
    ensures |r| == |s| <==> Avoids(s, chars)
    ensures Avoids(s, chars) ==> r == s
  {
    if s == "" then "" else if s[0] in chars then Without(s[1..], chars) else [s[0]] + Without(s[1..], chars)
  }

  function TrimStart(s: string): string {
    if s != "" && s[0] <= ' ' then TrimStart(s[1..]) else s
  }

  function TrimSlashes(s: string): (r: string)
    ensures r <= s && (r != "" ==> r[|r| - 1] != '/')
  {
    if s != "" && s[|s| - 1] == '/' then TrimSlashes(s[..|s| - 1]) else s
  }

  /** The text after the last slash. */
  function LastSegment(s: string): (r: string)
    ensures |r| <= |s| && '/' !in r
  {
    if s == "" || s[|s| - 1] == '/' then "" else LastSegment(s[..|s| - 1]) + [s[|s| - 1]]
  }

  // ----- Percent-encoding -----

  predicate Hex(c: char) {
    '0' <= c <= '9' || 'a' <= c <= 'f' || 'A' <= c <= 'F'
  }

  function HexValue(c: char): nat
    requires Hex(c)
  {
    if c <= '9' then (c - '0') as nat else if c <= 'F' then (c - 'A') as nat + 10 else (c - 'a') as nat + 10
  }

  predicate EscapeAt(s: string, i: nat) {
    i + 2 < |s| && s[i] == '%' && Hex(s[i + 1]) && Hex(s[i + 2])
  }

  /** The bytes of the escapes a text starts with. */
  function Escaped(s: string): (bytes: seq<nat>)
    ensures 3 * |bytes| <= |s|
  {
    if EscapeAt(s, 0) then [16 * HexValue(s[1]) + HexValue(s[2])] + Escaped(s[3..]) else []
  }

  function Unquote(s: string, decode: Decoder): string
    decreases |s|
  {
    if s == "" then ""
    else if EscapeAt(s, 0) then decode(Escaped(s)) + Unquote(s[3 * |Escaped(s)|..], decode)
    else [s[0]] + Unquote(s[1..], decode)
  }

  // ----- `urlsplit(url).path` -----

  predicate SchemeChar(c: char) {
    'a' <= c <= 'z' || 'A' <= c <= 'Z' || '0' <= c <= '9' || c == '+' || c == '-' || c == '.'
  }

  /** The text up to the first colon is taken for a URL scheme. */
  predicate HasScheme(url: string) {
    var scheme := Before(url, {':'});
    && 0 < |scheme| < |url| && ('a' <= url[0] <= 'z' || 'A' <= url[0] <= 'Z')
    && forall i | 0 <= i < |scheme| :: SchemeChar(scheme[i])
  }

  function AfterScheme(url: string): string {
    var scheme := Before(url, {':'});
    if HasScheme(url) then url[|scheme| + 1..] else url
  }

  function AfterAuthority(url: string): string {
    if |url| >= 2 && url[0] == '/' && url[1] == '/' then From(url[2..], {'/', '?', '#'}) else url
  }

  function PathOf(url: string): string {
    var clean := Without(TrimStart(url), CONTROLS);
    Before(Before(AfterAuthority(AfterScheme(clean)), {'#'}), {'?'})
  }

  /** `_retained_versions` of one reference. */
  function DirectoryOf(reference: string, decode: Decoder): string {
    LastSegment(TrimSlashes(Unquote(PathOf(reference), decode)))
  }

  function RetainedVersions(references: set<string>, decode: Decoder): set<string> {
    set r | r in references && r != "" :: DirectoryOf(r, decode)
  }

  /** `reference` */
  function Reference(endpoint: string, component: string, revision: string): string {
    endpoint + "/" + component + "/" + revision
  }

  /** A name that a URL carries unchanged. */
  predicate Plain(name: string) {
    name != "" && Avoids(name, {'/', '?', '#', '\t', '\r', '\n'}) && forall i: nat | i < |name| :: !EscapeAt(name, i)
  }

  const CONTROLS: set<char> := {'\t', '\r', '\n'}

  /** The authority of an HTTP origin. */
  predicate Authority(host: string) {
    Avoids(host, {'/', '?', '#', '\t', '\r', '\n'})
  }

  // ----- Text lemmas -----

  lemma {:induction false} BeforeJoin(a: string, b: string, stops: set<char>)
    requires Avoids(a, stops)
    ensures Before(a + b, stops) == a + Before(b, stops)
  {
    if a == "" {
      assert a + b == b;
    } else {
      assert (a + b)[0] == a[0] && (a + b)[1..] == a[1..] + b;
      BeforeJoin(a[1..], b, stops);
    }
  }

  lemma {:induction false} LastSegmentJoin(a: string, b: string)
    requires '/' !in b
    ensures LastSegment(a + "/" + b) == b
    decreases |b|
  {
    var s := a + "/" + b;
    if b == "" {
      assert s[|s| - 1] == '/';
    } else {
      var c := b[..|b| - 1];
      assert s[|s| - 1] == b[|b| - 1];
      assert s[..|s| - 1] == a + "/" + c;
      LastSegmentJoin(a, c);
    }
  }

  lemma {:induction false} UnquotePlain(s: string, decode: Decoder)
    requires forall i: nat | i < |s| :: !EscapeAt(s, i)
    ensures Unquote(s, decode) == s
    decreases |s|
  {
    if s != "" {
      forall i: nat | i < |s[1..]| ensures !EscapeAt(s[1..], i) { assert EscapeAt(s[1..], i) == EscapeAt(s, i + 1); }
      UnquotePlain(s[1..], decode);
    }
  }

  lemma {:induction false} WithoutJoin(a: string, b: string, chars: set<char>)
    requires Avoids(a, chars)
    ensures Without(a + b, chars) == a + Without(b, chars)
  {
    if a == "" {
      assert a + b == b;
    } else {
      assert (a + b)[0] == a[0] && (a + b)[1..] == a[1..] + b;
      WithoutJoin(a[1..], b, chars);
    }
  }

  // ----- The path of a reference -----

  /** What is left of a revision in the path of its URL. */
  function Tail(revision: string): (r: string)
    ensures |r| <= |revision|
  {
    Before(Before(Without(revision, CONTROLS), {'#'}), {'?'})
  }

  lemma SchemeIsHttp(rest: string)
    ensures AfterScheme("http:" + rest) == rest
  {
    var url := "http:" + rest;
    assert url == "http" + (":" + rest);
    BeforeJoin("http", ":" + rest, {':'});
    assert Before(":" + rest, {':'}) == "";
    assert Before(url, {':'}) == "http";
  }

  lemma AuthoritySkipped(host: string, rest: string)
    requires Authority(host) && rest != "" && rest[0] == '/'
    ensures AfterAuthority("//" + host + rest) == rest
  {
    var url := "//" + host + rest;
    assert url[2..] == host + rest;
    BeforeJoin(host, rest, {'/', '?', '#'});
    assert Before(rest, {'/', '?', '#'}) == "";
    assert Before(host + rest, {'/', '?', '#'}) == host;
  }

  lemma ReferencePath(host: string, component: string, revision: string)
    requires Authority(host) && Plain(component)
    ensures PathOf(Reference("http://" + host, component, revision)) == "/" + component + "/" + Tail(revision)
  {
    var url := Reference("http://" + host, component, revision);
    var start := "http://" + host + "/" + component + "/";
    assert url == start + revision;
    assert url[0] == 'h' && TrimStart(url) == url;
    StartIsClean(host, component, start);
    WithoutJoin(start, revision, CONTROLS);
    var w := Without(revision, CONTROLS);
    var prefix := "/" + component + "/";
    assert start + w == "http:" + ("//" + host + (prefix + w));
    SchemeIsHttp("//" + host + (prefix + w));
    assert (prefix + w)[0] == '/';
    AuthoritySkipped(host, prefix + w);
    PathCut(prefix, w);
  }

  lemma StartIsClean(host: string, component: string, start: string)
    requires Authority(host) && Plain(component) && start == "http://" + host + "/" + component + "/"
    ensures Avoids(start, CONTROLS)
  {
    forall i | 0 <= i < |start| ensures start[i] !in CONTROLS {
      if i < 7 { assert start[i] == "http://"[i]; }
      else if i < 7 + |host| { assert start[i] == host[i - 7]; }
      else if 8 + |host| <= i < 8 + |host| + |component| { assert start[i] == component[i - 8 - |host|]; }
    }
  }

  lemma PathCut(prefix: string, w: string)
    requires Avoids(prefix, {'#'}) && Avoids(prefix, {'?'})
    ensures Before(Before(prefix + w, {'#'}), {'?'}) == prefix + Before(Before(w, {'#'}), {'?'})
  {
    BeforeJoin(prefix, w, {'#'});
    BeforeJoin(prefix, Before(w, {'#'}), {'?'});
  }

  // ----- Decoding -----

  lemma {:induction false} EscapedJoin(a: string, b: string)
    requires b != "" && b[0] == '/'
    ensures Escaped(a + b) == Escaped(a)
    decreases |a|
  {
    EscapeJoin(a, b, 0);
    if EscapeAt(a, 0) {
      assert (a + b)[3..] == a[3..] + b;
      EscapedJoin(a[3..], b);
    }
  }

  lemma EscapeJoin(a: string, b: string, i: nat)
    requires b != "" && b[0] == '/' && i <= |a|
    ensures EscapeAt(a + b, i) == EscapeAt(a, i)
  {
    if i + 2 >= |a| && i + 2 < |a + b| {
      assert (a + b)[|a|] == '/';
    }
  }

  /** No escape reaches across a slash. */
  lemma {:induction false} UnquoteSlash(a: string, b: string, decode: Decoder)
    ensures Unquote(a + "/" + b, decode) == Unquote(a, decode) + "/" + Unquote(b, decode)
    decreases |a|
  {
    var tail := "/" + b;
    var s := a + tail;
    assert s == a + "/" + b;
    if a == "" {
      assert s == tail && tail[1..] == b;
    } else {
      EscapeJoin(a, tail, 0);
      EscapedJoin(a, tail);
      var n := if EscapeAt(a, 0) then 3 * |Escaped(a)| else 1;
      assert s[n..] == a[n..] + "/" + b;
      UnquoteSlash(a[n..], b, decode);
    }
  }

  /** Decoding never lengthens a text, and shortens one with an escape. */
  lemma {:induction false} UnquoteShrinks(s: string, decode: Decoder)
    requires DecoderOk(decode)
    ensures |Unquote(s, decode)| <= |s|
    ensures (exists i: nat :: i < |s| && EscapeAt(s, i)) ==> |Unquote(s, decode)| < |s|
    decreases |s|
  {
    if s != "" {
      if EscapeAt(s, 0) {
        UnquoteShrinks(s[3 * |Escaped(s)|..], decode);
      } else {
        UnquoteShrinks(s[1..], decode);
        if i: nat :| i < |s| && EscapeAt(s, i) {
          assert EscapeAt(s[1..], i - 1) == EscapeAt(s, i);
        }
      }
    }
  }

  // ----- Round trip -----

  lemma DecodedPath(component: string, tail: string, decode: Decoder)
    requires Plain(component)
    ensures Unquote("/" + component + "/" + tail, decode) == "/" + component + "/" + Unquote(tail, decode)
  {
    UnquoteSlash("/" + component, tail, decode);
    UnquoteSlash("", component, decode);
    assert "" + "/" + component == "/" + component;
    UnquotePlain(component, decode);
  }

  /** Trimming stops inside the last part, or falls back to the component. */
  lemma {:induction false} TrimmedPath(component: string, u: string)
    requires Plain(component)
    ensures var path := "/" + component + "/" + u;
            TrimSlashes(path) == if TrimSlashes(u) == "" then "/" + component else "/" + component + "/" + TrimSlashes(u)
    decreases |u|
  {
    var path := "/" + component + "/" + u;
    if u == "" {
      assert path[|path| - 1] == '/' && path[..|path| - 1] == "/" + component;
      var p := "/" + component;
      assert p[|p| - 1] == component[|component| - 1];
    } else {
      assert path[|path| - 1] == u[|u| - 1] && path[..|path| - 1] == "/" + component + "/" + u[..|u| - 1];
      if u[|u| - 1] == '/' { TrimmedPath(component, u[..|u| - 1]); }
    }
  }

  predicate Segment(component: string, u: string, got: string) {
    && (TrimSlashes(u) == "" ==> got == component)
    && (TrimSlashes(u) != "" ==> |got| <= |TrimSlashes(u)| && ('/' !in TrimSlashes(u) ==> got == TrimSlashes(u)))
  }

  lemma SegmentOf(component: string, u: string)
    requires Plain(component)
    ensures Segment(component, u, LastSegment(TrimSlashes("/" + component + "/" + u)))
  {
    TrimmedPath(component, u);
    var v := TrimSlashes(u);
    if v == "" {
      assert "/" + component == "" + "/" + component;
      LastSegmentJoin("", component);
    } else {
      LastSegmentBound("/" + component, v);
      if '/' !in v { LastSegmentJoin("/" + component, v); }
    }
  }

  /** The directory a URL stands for, in terms of what its path keeps of the revision. */
  lemma DirectoryOfReference(host: string, component: string, revision: string, decode: Decoder)
    requires Authority(host) && Plain(component)
    ensures Segment(component, Unquote(Tail(revision), decode),
                    DirectoryOf(Reference("http://" + host, component, revision), decode))
  {
    ReferencePath(host, component, revision);
    DecodedPath(component, Tail(revision), decode);
    SegmentOf(component, Unquote(Tail(revision), decode));
  }

  lemma {:induction false} LastSegmentBound(a: string, b: string)
    ensures |LastSegment(a + "/" + b)| <= |b|
    decreases |b|
  {
    var s := a + "/" + b;
    if b == "" {
      assert s[|s| - 1] == '/';
    } else {
      assert s[..|s| - 1] == a + "/" + b[..|b| - 1];
      LastSegmentBound(a, b[..|b| - 1]);
    }
  }

  lemma TailKeeps(revision: string)
    ensures |Tail(revision)| == |revision| <==> Avoids(revision, {'?', '#', '\t', '\r', '\n'})
    ensures |Tail(revision)| == |revision| ==> Tail(revision) == revision
  {
    var w := Without(revision, CONTROLS);
    var x := Before(w, {'#'});
    if Avoids(revision, {'?', '#', '\t', '\r', '\n'}) {
      assert Avoids(revision, CONTROLS) && w == revision;
      assert x + "" == x && w + "" == w;
      BeforeJoin(w, "", {'#'});
      BeforeJoin(w, "", {'?'});
    }
  }

  /**
   The URL built for a revision maps back to exactly that directory name if and only if the revision
   is a plain name: nothing that ends the path, separates it or decodes to something else.
   */
  lemma ReferenceRoundTrip(host: string, component: string, revision: string, decode: Decoder)
    requires DecoderOk(decode) && Authority(host) && Plain(component)
    ensures DirectoryOf(Reference("http://" + host, component, revision), decode) == revision <==> Plain(revision)
  {
    var q := Tail(revision);
    var u := Unquote(q, decode);
    var got := DirectoryOf(Reference("http://" + host, component, revision), decode);
    DirectoryOfReference(host, component, revision, decode);
    TailKeeps(revision);
    UnquoteShrinks(q, decode);
    if Plain(revision) {
      UnquotePlain(revision, decode);
    } else if got == revision {
      assert TrimSlashes(u) != "";
      assert |revision| <= |u| && q == revision && u == TrimSlashes(u);
      assert Plain(revision);
    }
  }

  /** A revision written by itself, as source consumers record it. */
  predicate BareName(name: string) {
    Plain(name) && name[0] > ' ' && !HasScheme(name)
  }

  lemma {:induction false} TrimStartShrinks(s: string)
    ensures |TrimStart(s)| <= |s|
    ensures s != "" && s[0] <= ' ' ==> |TrimStart(s)| < |s|
  {
    if s != "" && s[0] <= ' ' { TrimStartShrinks(s[1..]); }
  }

  /** No step of taking the path lengthens the text, and each one that is not the identity shortens it. */
  lemma PathShrinks(name: string)
    requires '/' !in name
    ensures |PathOf(name)| <= |name|
    ensures |PathOf(name)| == |name| && name != "" ==>
              PathOf(name) == name && name[0] > ' ' && !HasScheme(name) && Avoids(name, {'?', '#', '\t', '\r', '\n'})
  {
    TrimStartShrinks(name);
    var clean := Without(TrimStart(name), CONTROLS);
    var bare := AfterAuthority(AfterScheme(clean));
    assert |bare| <= |clean|;
    var x := Before(bare, {'#'});
    if |PathOf(name)| == |name| && name != "" {
      assert TrimStart(name) == name && clean == name && AfterScheme(name) == name && bare == name;
      assert x == name && Before(x, {'?'}) == name;
    }
  }

  /** A bare revision stands for its own directory if and only if it is a plain name that starts like no URL. */
  lemma BareNameRoundTrip(name: string, decode: Decoder)
    requires DecoderOk(decode) && name != ""
    ensures DirectoryOf(name, decode) == name <==> BareName(name)
  {
    if BareName(name) {
      BareNameIsKept(name, decode);
    } else if DirectoryOf(name, decode) == name {
      assert '/' !in name;
      PathShrinks(name);
      UnquoteShrinks(PathOf(name), decode);
      assert |name| <= |TrimSlashes(Unquote(PathOf(name), decode))| <= |Unquote(PathOf(name), decode)| <= |PathOf(name)|;
      assert Plain(name);
    }
  }

  lemma BareNameIsKept(name: string, decode: Decoder)
    requires BareName(name)
    ensures DirectoryOf(name, decode) == name
  {
    assert TrimStart(name) == name && Avoids(name, CONTROLS);
    assert name + "" == name;
    assert AfterScheme(name) == name && AfterAuthority(name) == name;
    BeforeJoin(name, "", {'#'});
    BeforeJoin(name, "", {'?'});
    UnquotePlain(name, decode);
    LastSegmentWhole(name);
  }

  lemma {:induction false} LastSegmentWhole(name: string)
    requires '/' !in name
    ensures LastSegment(name) == name
  {
    if name != "" { LastSegmentWhole(name[..|name| - 1]); }
  }

  // ----- Collection -----

  /** Some retained reference names this version, by its URL at any origin or by its bare name. */
  ghost predicate Referenced(references: set<string>, k: Key) {
    || (Plain(k.revision) && Plain(k.component)
        && exists host: string :: Authority(host) && Reference("http://" + host, k.component, k.revision) in references)
    || (BareName(k.revision) && k.revision in references)
  }

  lemma ReferencedIsRetained(references: set<string>, k: Key, decode: Decoder)
    requires DecoderOk(decode) && Referenced(references, k)
    ensures k.revision in RetainedVersions(references, decode)
  {
    if BareName(k.revision) && k.revision in references {
      BareNameRoundTrip(k.revision, decode);
    } else {
      var host: string :| Authority(host) && Reference("http://" + host, k.component, k.revision) in references;
      var r := Reference("http://" + host, k.component, k.revision);
      ReferenceRoundTrip(host, k.component, k.revision, decode);
      assert r in references && r != "" && DirectoryOf(r, decode) == k.revision;
    }
  }

  /**
   Safe collection: a retirement that keeps the retained references, finished or cut short, touches
   no version they name, no version of another publisher and no other component.
   */
  lemma SafeCollection(v: View, w: Sweep, x: View, references: set<string>, decode: Decoder, k: Key)
    requires DecoderOk(decode) && RetainedVersions(references, decode) <= w.keep && Sweeping(v, w, x)
    requires || Referenced(references, k)
             || (MetaAt(v, k).Some? && !Owned(MetaAt(v, k).value, w))
             || k.component != w.component
    ensures SameVersion(v, x, k)
  {
    if Referenced(references, k) { ReferencedIsRetained(references, k, decode); }
  }
}
