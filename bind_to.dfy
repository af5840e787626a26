/**
 * The `host:port` splitter behind `parseBindTo`: the text is cut at its first
 * colon, the part before it is parsed as an IPv4 address and the part after it
 * as an int, and an error names whichever text failed.
 */
module BindTo {
  import opened Wrappers
  import opened JavaLang
  import opened PropertyGetters

  /** The pair handed to the `onReady` callback. */
  datatype BindAddress = BindAddress(ipv4: Int32, port: Int32)

  /** What `parseBindTo` makes of the bind text `bindTo` read for `key`. */
  function ParseBindSpec(nums: Numerics, key: string, bindTo: string): (r: Result<BindAddress, ConfigError>)
    ensures ':' !in bindTo ==> r == Failure(ConfigError(key, bindTo))
    ensures r.Failure? ==> r.error.key == key
  {
    var colonIndex := IndexOf(bindTo, ':');
    if colonIndex == -1 then Failure(ConfigError(key, bindTo))
    else
      var ipv4Str := bindTo[..colonIndex];
      match nums.parseIPv4(ipv4Str)
      case None => Failure(ConfigError(key, ipv4Str))
      case Some(ipv4) =>
        var portStr := bindTo[colonIndex + 1..];
        match nums.parseInt(portStr)
        case None => Failure(ConfigError(key, portStr))
        case Some(port) => Success(BindAddress(ipv4, port))
  }

  /**
   * A bind text with a colon-free host part is judged on its two halves alone:
   * a bad host is reported as the host text, a bad port as the port text (which
   * may itself hold further colons), and any int port is accepted, with no range check.
   */
  lemma {:induction false} ParseBindSpecOfHostPort(nums: Numerics, key: string, host: string, port: string)
    requires ':' !in host
    ensures ParseBindSpec(nums, key, host + ":" + port) ==
      match nums.parseIPv4(host)
      case None => Failure(ConfigError(key, host))
      case Some(a) =>
        match nums.parseInt(port)
        case None => Failure(ConfigError(key, port))
        case Some(p) => Success(BindAddress(a, p))
  {
    var s := host + ":" + port;
    var i := IndexOf(s, ':');
    assert s[|host|] == ':';
    assert i == |host|;
    assert s[..i] == host;
    assert s[i + 1..] == port;
  }

  /** Every bind text that has a colon is such a host and port, cut at the first colon. */
  lemma SplitAtFirstColon(s: string)
    requires ':' in s
    ensures var i := IndexOf(s, ':'); ':' !in s[..i] && s == s[..i] + ":" + s[i + 1..]
  {
  }

  /** The cut is unique: two colon-free hosts give the same text only with the same halves. */
  lemma {:induction false} HostPortUnique(h1: string, p1: string, h2: string, p2: string)
    requires ':' !in h1 && ':' !in h2
    requires h1 + ":" + p1 == h2 + ":" + p2
    ensures h1 == h2 && p1 == p2
  {
    var s := h1 + ":" + p1;
    assert s[|h1|] == ':' && s[|h2|] == ':';
    assert |h1| == |h2|;
    assert h1 == s[..|h1|] == h2;
    assert p1 == s[|h1| + 1..] == p2;
  }
}
