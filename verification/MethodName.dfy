/** Full method names: "/" service "/" method. */
module MethodName {
  import opened Types

  /** The text up to the next slash, or all of it. */
  ghost predicate IsSegment(text: string, n: nat) {
    n <= |text| && (forall i :: 0 <= i < n ==> text[i] != '/') && (n < |text| ==> text[n] == '/')
  }

  /** std::getline with '/' as the delimiter, which is consumed. */
  method GetLine(text: string) returns (line: string, rest: string)
    ensures IsSegment(text, |line|) && line == text[..|line|]
    ensures rest == if |line| < |text| then text[|line| + 1..] else ""
  {
    var n := 0;
    while n < |text| && text[n] != '/'
      invariant n <= |text| && forall i :: 0 <= i < n ==> text[i] != '/'
    {
      n := n + 1;
    }
    line := text[..n];
    rest := if n < |text| then text[n + 1..] else "";
  }

  ghost predicate IsName(name: string) {
    name != "" && forall i :: 0 <= i < |name| ==> name[i] != '/'
  }

  /** `text` is a full name of this method, possibly followed by a slash and more. */
  ghost predicate Names(text: string, service: string, method': string) {
    && IsName(service) && IsName(method')
    && var full := "/" + service + "/" + method';
       full <= text && (|full| < |text| ==> text[|full|] == '/')
  }

  /** The CHECKs fail exactly for texts that do not start with a slash and two non-empty segments. */
  method ParseMethodFullName(text: string) returns (parsed: Option<(string, string)>)
    ensures parsed.Some? ==> Names(text, parsed.value.0, parsed.value.1)
    ensures parsed.None? ==> !exists service, method' :: Names(text, service, method')
  {
    if text == "" || text[0] != '/' {
      return None;
    }
    var service, rest := GetLine(text[1..]);
    var name, _ := GetLine(rest);
    if service == "" || name == "" {
      forall s, m | Names(text, s, m) ensures false {
        NamesSegments(text, s, m, service, rest, name);
      }
      return None;
    }
    SegmentsName(text, service, rest, name);
    parsed := Some((service, name));
  }

  lemma SegmentsName(text: string, service: string, rest: string, name: string)
    requires text != "" && text[0] == '/' && service != "" && name != ""
    requires IsSegment(text[1..], |service|) && service == text[1..][..|service|]
    requires rest == if |service| < |text[1..]| then text[1..][|service| + 1..] else ""
    requires IsSegment(rest, |name|) && name == rest[..|name|]
    ensures Names(text, service, name)
  {
    var after := rest[|name|..];
    assert rest == name + after;
    assert text[1..] == service + ("/" + rest);
    assert text == "/" + service + "/" + name + after;
  }

  /** A text that starts with `name` and then ends or goes on with a slash has `name` as its first
      segment. */
  lemma FirstSegment(text: string, name: string, after: string, line: string, rest: string)
    requires text == name + after && (forall i :: 0 <= i < |name| ==> name[i] != '/')
    requires after != "" ==> after[0] == '/'
    requires IsSegment(text, |line|) && line == text[..|line|]
    requires rest == if |line| < |text| then text[|line| + 1..] else ""
    ensures line == name && rest == if after != "" then after[1..] else ""
  {
    assert forall i :: 0 <= i < |name| ==> text[i] == name[i];
    assert after != "" ==> text[|name|] == '/';
  }

  /** The two names of a text are its first two segments. */
  lemma NamesSegments(text: string, s: string, m: string, service: string, rest: string, name: string)
    requires Names(text, s, m)
    requires IsSegment(text[1..], |service|) && service == text[1..][..|service|]
    requires rest == if |service| < |text[1..]| then text[1..][|service| + 1..] else ""
    requires IsSegment(rest, |name|) && name == rest[..|name|]
    ensures service == s && name == m
  {
    var full := "/" + s + "/" + m;
    var tail := text[|full|..];
    assert text == full + tail;
    assert text[1..] == s + ("/" + m + tail);
    FirstSegment(text[1..], s, "/" + m + tail, service, rest);
    assert ("/" + m + tail)[1..] == m + tail;
    FirstSegment(rest, m, tail, name, if |name| < |rest| then rest[|name| + 1..] else "");
  }

  /** A text names at most one method, so parsing a full name returns exactly its parts. */
  lemma RoundTrip(service: string, method': string, s: string, m: string)
    requires IsName(service) && IsName(method')
    ensures Names("/" + service + "/" + method', service, method')
    ensures Names("/" + service + "/" + method', s, m) ==> s == service && m == method'
  {
    var text := "/" + service + "/" + method';
    assert text[1..] == service + "/" + method';
    assert text[1..][..|service|] == service;
    assert text[1..][|service| + 1..] == method';
    if Names(text, s, m) {
      NamesSegments(text, s, m, service, method', method');
    }
  }
}
