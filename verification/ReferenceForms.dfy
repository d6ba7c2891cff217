/** Other ways to write a reference to the same directory: percent-encoded, with trailing slashes, with a query. */
module ReferenceForms {
  import opened Common
  import opened References

  const LOWER := "0123456789abcdef"
  const UPPER := "0123456789ABCDEF"

  /** Every byte as an escape, in either case of the hexadecimal digits. */
  function Percent(bytes: seq<nat>, digits: string): (r: string)
    requires (digits == LOWER || digits == UPPER) && forall i | 0 <= i < |bytes| :: bytes[i] < 256
    ensures |r| == 3 * |bytes|
  {
    if bytes == [] then "" else ['%', digits[bytes[0] / 16], digits[bytes[0] % 16]] + Percent(bytes[1..], digits)
  }

  lemma HexDigits(i: nat)
    requires i < 16
    ensures Hex(LOWER[i]) && HexValue(LOWER[i]) == i && Hex(UPPER[i]) && HexValue(UPPER[i]) == i
  {
  }

  /** One escape in front of any text. */
  lemma OneEscape(b: nat, digits: string, rest: string)
    requires (digits == LOWER || digits == UPPER) && b < 256
    ensures var s := ['%', digits[b / 16], digits[b % 16]] + rest;
            EscapeAt(s, 0) && s[3..] == rest && 16 * HexValue(s[1]) + HexValue(s[2]) == b
  {
    HexDigits(b / 16);
    HexDigits(b % 16);
  }

  lemma EscapedStep(b: nat, digits: string, rest: string)
    requires (digits == LOWER || digits == UPPER) && b < 256
    ensures Escaped(['%', digits[b / 16], digits[b % 16]] + rest) == [b] + Escaped(rest)
  {
    OneEscape(b, digits, rest);
  }

  lemma {:induction false} EscapedPercent(bytes: seq<nat>, digits: string)
    requires (digits == LOWER || digits == UPPER) && forall i | 0 <= i < |bytes| :: bytes[i] < 256
    ensures Escaped(Percent(bytes, digits)) == bytes
    decreases |bytes|
  {
    if bytes != [] {
      EscapedPercent(bytes[1..], digits);
      EscapedStep(bytes[0], digits, Percent(bytes[1..], digits));
      assert [bytes[0]] + bytes[1..] == bytes;
    }
  }

  /** Decoding undoes encoding, for every byte string. */
  lemma PercentRoundTrip(bytes: seq<nat>, digits: string, decode: Decoder)
    requires (digits == LOWER || digits == UPPER) && bytes != [] && forall i | 0 <= i < |bytes| :: bytes[i] < 256
    ensures Unquote(Percent(bytes, digits), decode) == decode(bytes)
  {
    var s := Percent(bytes, digits);
    EscapedPercent(bytes, digits);
    assert s[3 * |Escaped(s)|..] == "";
    assert EscapeAt(s, 0);
  }

  lemma {:induction false} PercentIsClean(bytes: seq<nat>, digits: string, chars: set<char>)
    requires (digits == LOWER || digits == UPPER) && forall i | 0 <= i < |bytes| :: bytes[i] < 256
    requires '%' !in chars && forall i | 0 <= i < 16 :: digits[i] !in chars
    ensures Avoids(Percent(bytes, digits), chars)
    decreases |bytes|
  {
    if bytes != [] { PercentIsClean(bytes[1..], digits, chars); }
  }

  /** A percent-encoded name stands for the directory of the decoded one. */
  lemma EncodedNameIsFound(host: string, component: string, bytes: seq<nat>, digits: string, decode: Decoder)
    requires Authority(host) && Plain(component)
    requires (digits == LOWER || digits == UPPER) && bytes != [] && forall i | 0 <= i < |bytes| :: bytes[i] < 256
    requires decode(bytes) != "" && '/' !in decode(bytes)
    ensures DirectoryOf(Reference("http://" + host, component, Percent(bytes, digits)), decode) == decode(bytes)
  {
    var revision := Percent(bytes, digits);
    PercentIsClean(bytes, digits, {'?', '#', '\t', '\r', '\n'});
    TailKeeps(revision);
    PercentRoundTrip(bytes, digits, decode);
    DirectoryOfReference(host, component, revision, decode);
    TrimNothing(decode(bytes));
  }

  lemma TrimNothing(s: string)
    requires s != "" && s[|s| - 1] != '/'
    ensures TrimSlashes(s) == s
  {
  }

  /** What follows a plain name in its URL: nothing, slashes, a query or a fragment. */
  predicate Suffix(x: string) {
    x == "" || x == "/" || x[0] == '?' || x[0] == '#'
  }

  /** A slash, a query or a fragment behind a revision does not change the directory. */
  lemma SuffixIsIgnored(host: string, component: string, revision: string, x: string, decode: Decoder)
    requires Authority(host) && Plain(component) && Plain(revision) && Suffix(x)
    ensures DirectoryOf(Reference("http://" + host, component, revision + x), decode) == revision
  {
    var u := Unquote(Tail(revision + x), decode);
    DirectoryOfReference(host, component, revision + x, decode);
    assert TrimSlashes(u) == revision by { SuffixDecodes(revision, x, decode); }
  }

  lemma SuffixDecodes(revision: string, x: string, decode: Decoder)
    requires Plain(revision) && Suffix(x)
    ensures TrimSlashes(Unquote(Tail(revision + x), decode)) == revision
  {
    SuffixTail(revision, x);
    UnquotePlain(revision, decode);
    assert revision[|revision| - 1] != '/';
    TrimNothing(revision);
    assert revision + "" == revision;
    if x == "/" { TrailingSlash(revision, decode); }
  }

  lemma TrailingSlash(revision: string, decode: Decoder)
    requires Plain(revision) && TrimSlashes(revision) == revision && Unquote(revision, decode) == revision
    ensures TrimSlashes(Unquote(revision + "/", decode)) == revision
  {
    var s := revision + "/";
    UnquoteSlash(revision, "", decode);
    assert s + "" == s;
    assert s[|s| - 1] == '/' && s[..|s| - 1] == revision;
  }

  lemma SuffixTail(revision: string, x: string)
    requires Plain(revision) && Suffix(x)
    ensures Tail(revision + x) == revision + if x == "/" then "/" else ""
  {
    var w := Without(x, CONTROLS);
    assert Avoids(revision, CONTROLS) && Avoids(revision, {'#'}) && Avoids(revision, {'?'});
    WithoutJoin(revision, x, CONTROLS);
    assert x != "" ==> w != "" && w[0] == x[0];
    BeforeJoin(revision, w, {'#'});
    BeforeJoin(revision, Before(w, {'#'}), {'?'});
    assert x == "/" ==> w == "/" && Before(w, {'#'}) == "/" && Before("/", {'?'}) == "/";
    assert revision + "" == revision;
  }

  /** An empty reference retains nothing. */
  lemma EmptyReferenceIsIgnored(references: set<string>, decode: Decoder)
    ensures RetainedVersions(references + {""}, decode) == RetainedVersions(references, decode)
  {
  }
}
