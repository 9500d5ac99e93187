/** The derived values of the server configuration: the drop-rate clamp and the display addresses. */
module Configuration {
  import opened Common
  import opened Text

  /** The HTTP (dispatch) server section. */
  datatype HttpServerConfig = HttpServerConfig(bindAddress: string, publicAddress: string, port: int, useSsl: bool)
  {
    function Scheme(): string {
      if useSsl then "https" else "http"
    }

    /** The address advertised to clients: scheme, public host, port; the port reads back from it. */
    function GetDisplayAddress(): (r: string)
      ensures -TwoTo31 <= port < TwoTo31 ==> PortOf(r) == Some(port)
    {
      var host := Scheme() + "://" + publicAddress;
      PortOfJoinInRange(host, port);
      host + ":" + IntToString(port)
    }

    /** The same shape with the bind host in place of the public one. */
    function GetBindDisplayAddress(): (r: string)
      ensures -TwoTo31 <= port < TwoTo31 ==> PortOf(r) == Some(port)
    {
      var host := Scheme() + "://" + bindAddress;
      PortOfJoinInRange(host, port);
      host + ":" + IntToString(port)
    }
  }

  /** The game server section; its port is unsigned and the address has no scheme. */
  datatype GameServerConfig = GameServerConfig(bindAddress: string, publicAddress: string, port: nat)
  {
    function GetDisplayAddress(): (r: string)
      ensures port < TwoTo31 ==> PortOf(r) == Some(port)
    {
      assert NatToString(port) == IntToString(port);
      PortOfJoinInRange(publicAddress, port);
      publicAddress + ":" + NatToString(port)
    }
  }

  datatype ServerOption = ServerOption(farmingDropRate: int)
  {
    /** The drop rate clamped to 1..999. */
    function ValidFarmingDropRate(): (r: int)
      ensures 1 <= r <= 999
      ensures 1 <= farmingDropRate <= 999 ==> r == farmingDropRate
      ensures farmingDropRate < 1 ==> r == 1
      ensures farmingDropRate > 999 ==> r == 999
    {
      Max(Min(farmingDropRate, 999), 1)
    }
  }

  /** The port a display address names, read back from its last segment. */
  function PortOf(address: string): Option<int> {
    TryParseInt32(AfterLastColon(address))
  }

  /** A host joined to a formatted port by ':' gives that port back, whatever the host holds. */
  lemma PortOfJoin(host: string, port: int)
    requires -TwoTo31 <= port < TwoTo31
    ensures PortOf(host + ":" + IntToString(port)) == Some(port)
  {
    IntToStringNoColon(port);
    AfterLastColonOfJoin(host, IntToString(port));
    ParseFormatRoundTrip(port);
  }

  /** PortOfJoin for any port, stated for the ports that fit a signed 32-bit value. */
  lemma PortOfJoinInRange(host: string, port: int)
    ensures -TwoTo31 <= port < TwoTo31 ==> PortOf(host + ":" + IntToString(port)) == Some(port)
  {
    if -TwoTo31 <= port < TwoTo31 {
      PortOfJoin(host, port);
    }
  }

  /**
   * The port can be read back from either HTTP display address.
   */
  lemma HttpDisplayAddressPort(c: HttpServerConfig)
    requires -TwoTo31 <= c.port < TwoTo31
    ensures PortOf(c.GetDisplayAddress()) == Some(c.port)
    ensures PortOf(c.GetBindDisplayAddress()) == Some(c.port)
  {
    var p := IntToString(c.port);
    assert c.GetDisplayAddress() == (c.Scheme() + "://" + c.publicAddress) + ":" + p;
    assert c.GetBindDisplayAddress() == (c.Scheme() + "://" + c.bindAddress) + ":" + p;
    PortOfJoin(c.Scheme() + "://" + c.publicAddress, c.port);
    PortOfJoin(c.Scheme() + "://" + c.bindAddress, c.port);
  }

  /** The display address starts with the scheme the SSL flag selects. */
  lemma HttpDisplayAddressScheme(c: HttpServerConfig)
    ensures c.useSsl ==> c.GetDisplayAddress()[..8] == "https://"
    ensures !c.useSsl ==> c.GetDisplayAddress()[..7] == "http://"
  {
    var prefix := c.Scheme() + "://";
    var rest := c.publicAddress + ":" + IntToString(c.port);
    assert c.GetDisplayAddress() == prefix + rest by {
      JoinAssociates(c.Scheme() + "://", c.publicAddress, ":", IntToString(c.port));
    }
    PrefixOfJoin(prefix, rest);
  }

  /** Four parts joined read the same however the joins are grouped. */
  lemma JoinAssociates(a: string, b: string, c: string, d: string)
    ensures a + b + c + d == a + (b + c + d)
  {
  }

  /** A joined string begins with its first part. */
  lemma PrefixOfJoin(prefix: string, rest: string)
    ensures (prefix + rest)[..|prefix|] == prefix
  {
  }

  /** The game server address ends with its port, for every port that fits a signed 32-bit value. */
  lemma GameDisplayAddressPort(c: GameServerConfig)
    requires c.port < TwoTo31
    ensures PortOf(c.GetDisplayAddress()) == Some(c.port)
  {
    assert NatToString(c.port) == IntToString(c.port);
    PortOfJoin(c.publicAddress, c.port);
  }
}
