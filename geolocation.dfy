/** Client IP extraction from a request's metadata, and the city lookup that
    short-circuits loopback addresses. */
module Geolocation {
  import opened PyValues

  const ForwardedFor := "HTTP_X_FORWARDED_FOR"
  const RemoteAddr := "REMOTE_ADDR"
  const LocalCity := "Localhost"

  /** The IPs the city lookup treats as local development. */
  const Loopback: seq<string> := ["127.0.0.1", "localhost"]

  /** Python's `s.split(sep)` for a one-character separator: the pieces
      between separators, always at least one, none holding `sep`. */
  function Split(s: string, sep: char): (parts: seq<string>)
    ensures |parts| >= 1
    ensures forall i :: 0 <= i < |parts| ==> sep !in parts[i]
  {
    if s == [] then [""]
    else
      var rest := Split(s[1..], sep);
      if s[0] == sep then [""] + rest
      else [[s[0]] + rest[0]] + rest[1..]
  }

  /** `sep.join(parts)`. */
  function Join(parts: seq<string>, sep: char): string
    requires |parts| >= 1
  {
    if |parts| == 1 then parts[0] else parts[0] + [sep] + Join(parts[1..], sep)
  }

  /** Splitting loses nothing: joining the pieces gives the text back. */
  lemma {:induction false} JoinSplit(s: string, sep: char)
    ensures Join(Split(s, sep), sep) == s
  {
    if s != [] {
      var rest := Split(s[1..], sep);
      JoinSplit(s[1..], sep);
      if s[0] == sep {
        assert Split(s, sep)[1..] == rest;
      } else {
        var parts := Split(s, sep);
        assert parts[1..] == rest[1..];
        if |rest| == 1 {
          assert parts == [[s[0]] + rest[0]];
        } else {
          assert Join(rest, sep) == rest[0] + [sep] + Join(rest[1..], sep);
        }
      }
    }
  }

  /** The first piece is the longest prefix of `s` without `sep`: it is
      followed by a `sep` whenever it stops short of the whole text. */
  lemma {:induction false} FirstPiece(s: string, sep: char)
    ensures Split(s, sep)[0] <= s
    ensures |Split(s, sep)[0]| < |s| ==> s[|Split(s, sep)[0]|] == sep
  {
    if s != [] && s[0] != sep {
      FirstPiece(s[1..], sep);
      var rest := Split(s[1..], sep);
      assert Split(s, sep)[0] == [s[0]] + rest[0];
    }
  }

  /** The first piece ends exactly at the first `sep`. */
  lemma FirstPieceAt(s: string, sep: char, k: nat)
    requires k <= |s| && sep !in s[..k]
    requires k < |s| ==> s[k] == sep
    ensures Split(s, sep)[0] == s[..k]
  {
    FirstPiece(s, sep);
  }

  /** `get_client_ip`: the text before the first comma of a non-empty
      `X-Forwarded-For` header, else `REMOTE_ADDR`, which may be absent. */
  function GetClientIp(meta: map<string, string>): (ip: Option<string>)
    ensures ForwardedFor in meta && meta[ForwardedFor] != "" ==>
      var header := meta[ForwardedFor];
      && ip.Some?
      && ip.value <= header
      && ',' !in ip.value
      && (|ip.value| < |header| ==> header[|ip.value|] == ',')
      && (',' !in header ==> ip.value == header)
    ensures !(ForwardedFor in meta && meta[ForwardedFor] != "") ==>
      ip == (if RemoteAddr in meta then Some(meta[RemoteAddr]) else None)
  {
    if ForwardedFor in meta && meta[ForwardedFor] != "" then
      var header := meta[ForwardedFor];
      FirstPiece(header, ',');
      Some(Split(header, ',')[0])
    else if RemoteAddr in meta then Some(meta[RemoteAddr])
    else None
  }

  /** The address the third-party lookup is asked about; an absent IP is
      formatted as Python formats `None`. */
  function LookupUrl(ip: Option<string>): string {
    "https://ipinfo.io/" + (if ip.Some? then ip.value else "None") + "/json"
  }

  /** `get_city_from_ip`. The HTTP request, the JSON decoding and the
      swallowed request errors are the parameter `lookup`, which maps the
      request URL to the city it reports, or None. */
  function GetCityFromIp(meta: map<string, string>, lookup: string -> Option<string>): (city: Option<string>)
    ensures var ip := GetClientIp(meta);
            ip.Some? && ip.value in Loopback ==> city == Some(LocalCity)
    ensures var ip := GetClientIp(meta);
            !(ip.Some? && ip.value in Loopback) ==> city == lookup(LookupUrl(ip))
  {
    var ip := GetClientIp(meta);
    if ip.Some? && ip.value in Loopback then Some(LocalCity)
    else lookup(LookupUrl(ip))
  }

  /** A loopback client gets `"Localhost"` whatever the lookup would say:
      the lookup is not consulted. */
  lemma LoopbackIgnoresLookup(meta: map<string, string>, lookup1: string -> Option<string>,
                              lookup2: string -> Option<string>)
    requires GetClientIp(meta) in {Some("127.0.0.1"), Some("localhost")}
    ensures GetCityFromIp(meta, lookup1) == GetCityFromIp(meta, lookup2) == Some(LocalCity)
  {
  }

  /** The first forwarded address is taken verbatim, surrounding spaces
      included. */
  lemma ForwardedNotTrimmed()
    ensures GetClientIp(map[ForwardedFor := " 127.0.0.1, 10.0.0.1"]) == Some(" 127.0.0.1")
  {
    var h := " 127.0.0.1, 10.0.0.1";
    assert h[..10] == " 127.0.0.1";
    FirstPieceAt(h, ',', 10);
  }

  /** A non-empty header decides the IP: `REMOTE_ADDR` is not consulted. */
  lemma ForwardedOverridesRemote(meta: map<string, string>, addr: string)
    requires ForwardedFor in meta && meta[ForwardedFor] != ""
    ensures GetClientIp(meta[RemoteAddr := addr]) == GetClientIp(meta)
  {
  }

  /** An empty header is falsy, so `REMOTE_ADDR` is used as if the header
      were absent. */
  lemma EmptyForwardedFallsBack(meta: map<string, string>, addr: string)
    ensures GetClientIp(meta[ForwardedFor := ""][RemoteAddr := addr]) == Some(addr)
    ensures GetClientIp(meta[ForwardedFor := ""]) == GetClientIp(meta - {ForwardedFor})
  {
  }
}
