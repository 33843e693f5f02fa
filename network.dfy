/**
 * Network-quality readings from the browser's Network Information API. The
 * connection record is a parameter: `None` is a browser without the API.
 * JavaScript's `||` replaces a falsy field (the empty string, 0) by a default.
 */
module Network {
  import opened Wrappers

  /** `navigator.connection`. */
  datatype Connection = Connection(effectiveType: string, downlink: real, rtt: real, saveData: bool)

  /** The reading handed to the rest of the client. */
  datatype NetworkInformation = NetworkInformation(effectiveType: string, downlink: real, rtt: real, saveData: bool)

  const DefaultType: string := "4g"
  const DefaultDownlink: real := 10.0
  const DefaultRtt: real := 100.0

  /** The reading of a browser without the API. */
  const Fallback := NetworkInformation(DefaultType, DefaultDownlink, DefaultRtt, false)

  /** `s || d` for a string: the empty string is falsy. */
  function OrText(s: string, d: string): (r: string)
    ensures s != "" ==> r == s
    ensures s == "" ==> r == d
    ensures r == "" <==> s == "" && d == ""
  {
    if s != "" then s else d
  }

  /** `x || d` for a number: 0 is falsy (NaN is not modelled). */
  function OrNumber(x: real, d: real): (r: real)
    ensures x != 0.0 ==> r == x
    ensures x == 0.0 ==> r == d
    ensures r == 0.0 <==> x == 0.0 && d == 0.0
  {
    if x != 0.0 then x else d
  }

  /** `getNetworkInfo`: each falsy field of the connection replaced by its default. */
  function GetNetworkInfo(connection: Option<Connection>): (r: NetworkInformation)
    ensures connection.None? ==> r == Fallback
    ensures connection.Some? ==>
              var c := connection.value;
              && (c.effectiveType != "" ==> r.effectiveType == c.effectiveType)
              && (c.effectiveType == "" ==> r.effectiveType == DefaultType)
              && (c.downlink != 0.0 ==> r.downlink == c.downlink)
              && (c.downlink == 0.0 ==> r.downlink == DefaultDownlink)
              && (c.rtt != 0.0 ==> r.rtt == c.rtt)
              && (c.rtt == 0.0 ==> r.rtt == DefaultRtt)
              && r.saveData == c.saveData
    ensures r.effectiveType != "" && r.downlink != 0.0 && r.rtt != 0.0
  {
    match connection
    case Some(c) =>
      NetworkInformation(OrText(c.effectiveType, DefaultType), OrNumber(c.downlink, DefaultDownlink),
                         OrNumber(c.rtt, DefaultRtt), c.saveData)
    case None => Fallback
  }

  /** `getConnectionType`. */
  function GetConnectionType(connection: Option<Connection>): (r: string)
    ensures r == "unknown" <==> connection.None? || connection.value.effectiveType in {"", "unknown"}
    ensures r != "unknown" ==> r == connection.value.effectiveType
  {
    match connection
    case Some(c) => OrText(c.effectiveType, "unknown")
    case None => "unknown"
  }

  /** `isSlowConnection`. */
  function IsSlowConnection(connection: Option<Connection>): (r: bool)
    ensures r <==> connection.Some? &&
                   (connection.value.effectiveType in {"slow-2g", "2g"} || connection.value.saveData)
  {
    match connection
    case Some(c) => c.effectiveType == "slow-2g" || c.effectiveType == "2g" || c.saveData
    case None => false
  }

  /** `getDownlinkSpeed`. */
  function GetDownlinkSpeed(connection: Option<Connection>): (r: real)
    ensures r != 0.0
    ensures connection.Some? && connection.value.downlink != 0.0 ==> r == connection.value.downlink
    ensures connection.None? || connection.value.downlink == 0.0 ==> r == DefaultDownlink
  {
    match connection
    case Some(c) => OrNumber(c.downlink, DefaultDownlink)
    case None => DefaultDownlink
  }

  /** The three readers agree with the full reading wherever the API reports a value. */
  lemma ReadersAgree(connection: Option<Connection>)
    ensures GetDownlinkSpeed(connection) == GetNetworkInfo(connection).downlink
    ensures connection.Some? && connection.value.effectiveType != "" ==>
              GetConnectionType(connection) == GetNetworkInfo(connection).effectiveType
    ensures connection.None? ==> GetConnectionType(connection) == "unknown" &&
                                 GetNetworkInfo(connection).effectiveType == DefaultType
    ensures IsSlowConnection(connection) ==> connection.Some?
  {
  }

  /** A full reading is a fixed point of the defaulting: it passes through unchanged. */
  lemma DefaultingIdempotent(connection: Option<Connection>)
    ensures var r := GetNetworkInfo(connection);
            GetNetworkInfo(Some(Connection(r.effectiveType, r.downlink, r.rtt, r.saveData))) == r
  {
  }
}
