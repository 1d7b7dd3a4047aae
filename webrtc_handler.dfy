/** `GetICEServers`: the STUN and TURN servers a browser call should use. */
module WebRtcHandler {
  import Response
  import Config

  const GoogleStunServers := ["stun:stun.l.google.com:19302", "stun:stun1.l.google.com:19302"]

  /** The `urls` field holds a list or a single URL. */
  datatype Urls = UrlList(list: seq<string>) | SingleUrl(url: string)

  /** An `ICEServerResponse`; "" stands for an omitted username or credential. */
  datatype IceServer = IceServer(urls: Urls, username: string, credential: string)

  /** `gin.H{"iceServers": …}`. */
  datatype IceServers = IceServers(iceServers: seq<IceServer>)

  /** The list always starts with the public STUN pair; a TURN entry with
      the configured credentials follows exactly when a TURN URL is set. */
  function IceServerList(c: Config.WebRtcConfig): (r: seq<IceServer>)
    ensures |r| == (if c.turnServerUrl == "" then 1 else 2)
    ensures r[0] == IceServer(UrlList(GoogleStunServers), "", "")
    ensures |r| == 2 ==> r[1] == IceServer(SingleUrl(c.turnServerUrl), c.turnUsername, c.turnPassword)
  {
    var stun := [IceServer(UrlList(GoogleStunServers), "", "")];
    if c.turnServerUrl != "" then stun + [IceServer(SingleUrl(c.turnServerUrl), c.turnUsername, c.turnPassword)]
    else stun
  }

  /** Every entry's URLs are STUN or the configured TURN server. */
  lemma OnlyKnownServers(c: Config.WebRtcConfig)
    ensures forall s :: s in IceServerList(c) ==> s.urls == UrlList(GoogleStunServers) || s.urls == SingleUrl(c.turnServerUrl)
  {
  }

  /** `GetICEServers`: the slice literal, then an append when TURN is
      configured. */
  method GetIceServers(cfg: Config.Config) returns (reply: Response.Reply<IceServers>)
    ensures reply == Response.Success(IceServers(IceServerList(cfg.webRtc)))
  {
    var iceServers := [IceServer(UrlList(GoogleStunServers), "", "")];
    if cfg.webRtc.turnServerUrl != "" {
      iceServers := iceServers + [IceServer(SingleUrl(cfg.webRtc.turnServerUrl), cfg.webRtc.turnUsername, cfg.webRtc.turnPassword)];
    }
    reply := Response.Success(IceServers(iceServers));
  }
}
