/** The CORS policy: the allowed origins come from the configuration, the
    rest is fixed. */
module Cors {
  import Strings
  import Config

  /** The comma-separated pieces, each trimmed, in order. */
  function OriginList(origins: string): (r: seq<string>)
    ensures |r| == Strings.CountChar(origins, ',') + 1
    ensures |r| == |Strings.Split(origins, ',')|
    ensures forall i :: 0 <= i < |r| ==> r[i] == Strings.TrimSpace(Strings.Split(origins, ',')[i])
  {
    TrimEach(Strings.Split(origins, ','))
  }

  function TrimEach(s: seq<string>): (r: seq<string>)
    ensures |r| == |s|
    ensures forall i :: 0 <= i < |s| ==> r[i] == Strings.TrimSpace(s[i])
  {
    if s == [] then [] else [Strings.TrimSpace(s[0])] + TrimEach(s[1..])
  }

  /** Origins written without spaces or commas come back as written, and
      spacing around the commas makes no difference. */
  lemma {:induction false} OriginListRoundTrip(parts: seq<string>)
    requires parts != []
    requires forall i :: 0 <= i < |parts| ==> ',' !in parts[i] && Strings.TrimSpace(parts[i]) == parts[i]
    ensures OriginList(Strings.Join(parts, ',')) == parts
  {
    Strings.SplitJoin(parts, ',');
  }

  /** `origins[i] = strings.TrimSpace(origins[i])` for every element, in
      place. */
  method TrimInPlace(a: array<string>)
    modifies a
    ensures a[..] == TrimEach(old(a[..]))
  {
    for i := 0 to a.Length
      invariant forall k :: 0 <= k < i ==> a[k] == Strings.TrimSpace(old(a[k]))
      invariant forall k :: i <= k < a.Length ==> a[k] == old(a[k])
    {
      a[i] := Strings.TrimSpace(a[i]);
    }
  }

  datatype Policy = Policy(
    allowOrigins: seq<string>, allowMethods: seq<string>, allowHeaders: seq<string>,
    exposeHeaders: seq<string>, allowCredentials: bool, maxAgeSeconds: int)

  const AllowMethods := ["GET", "POST", "PUT", "PATCH", "DELETE", "OPTIONS"]
  const AllowHeaders := ["Origin", "Content-Type", "Content-Length", "Accept-Encoding", "Authorization"]

  /** `CORS`: split, trim in place, and the fixed settings (credentials on,
      preflight answers cached for twelve hours). */
  method Cors(cfg: Config.Config) returns (p: Policy)
    ensures p.allowOrigins == OriginList(cfg.cors.origins)
    ensures p.allowMethods == AllowMethods && p.allowHeaders == AllowHeaders && p.exposeHeaders == ["Content-Length"]
    ensures p.allowCredentials && p.maxAgeSeconds == 12 * 60 * 60
  {
    var pieces := Strings.Split(cfg.cors.origins, ',');
    var origins := new string[|pieces|](i requires 0 <= i < |pieces| => pieces[i]);
    assert origins[..] == pieces;
    TrimInPlace(origins);
    p := Policy(origins[..], AllowMethods, AllowHeaders, ["Content-Length"], true, 12 * 60 * 60);
  }

  /** A single origin, such as the default "http://localhost:5173", is
      the whole list. */
  lemma SingleOrigin(s: string)
    requires ',' !in s && s != [] && !Strings.IsSpace(s[0]) && !Strings.IsSpace(s[|s| - 1])
    ensures OriginList(s) == [s]
  {
    Strings.SplitNoSep(s, ',');
    Strings.TrimSpaceUnchanged(s);
  }
}
