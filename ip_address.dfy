/** The strings Python's `ipaddress.ip_address` accepts (Python 3.12): it
    tries `IPv4Address`, then `IPv6Address`, and raises `ValueError` when
    both reject the text. The operations helpers pass each configured
    address through it when they build a certificate. */
module IpAddresses {
  import opened Wrappers
  import opened Text

  predicate IsDecimalDigits(s: string) {
    forall k :: 0 <= k < |s| ==> '0' <= s[k] <= '9'
  }

  /** `IPv4Address._parse_octet`: one to three ASCII digits, no leading
      zero, at most 255. */
  predicate IsOctet(s: string) {
    1 <= |s| <= 3 && IsDecimalDigits(s) && (s == "0" || s[0] != '0') && ParseNat(s) <= 255
  }

  /** `IPv4Address(s)`: exactly four octets separated by dots. */
  predicate IsIPv4Address(s: string) {
    var octets := Split(s, '.');
    |octets| == 4 && forall k :: 0 <= k < |octets| ==> IsOctet(octets[k])
  }

  predicate IsHexDigit(c: char) {
    '0' <= c <= '9' || 'a' <= c <= 'f' || 'A' <= c <= 'F'
  }

  /** `IPv6Address._parse_hextet`: one to four hexadecimal digits. */
  predicate IsHextet(s: string) {
    1 <= |s| <= 4 && forall k :: 0 <= k < |s| ==> IsHexDigit(s[k])
  }

  /** The colon-separated parts once a dotted tail has been read as an
      IPv4 address and replaced by the two hextets it stands for (each
      written here as "0": only their validity matters); `None` when the
      tail is no IPv4 address. */
  function ExpandedParts(parts: seq<string>): (r: Option<seq<string>>)
    requires |parts| >= 1
    ensures r.Some? ==> |r.value| >= |parts|
  {
    var last := parts[|parts| - 1];
    if '.' in last then
      if IsIPv4Address(last) then Some(parts[..|parts| - 1] + ["0", "0"]) else None
    else Some(parts)
  }

  /** The first empty part, or `|parts|`. */
  function FirstEmpty(parts: seq<string>): (i: nat)
    ensures i <= |parts|
    ensures i < |parts| ==> parts[i] == ""
    ensures forall j :: 0 <= j < i ==> parts[j] != ""
  {
    if parts == [] then 0
    else if parts[0] == "" then 0
    else
      var i := 1 + FirstEmpty(parts[1..]);
      assert forall j :: 1 <= j < i ==> parts[j] == parts[1..][j - 1];
      i
  }

  /** The checks of `IPv6Address._ip_int_from_string` after the expansion:
      at most nine parts; without `::` (an empty part strictly between the
      ends) exactly eight hextets; with it, only one `::`, an empty first or
      last part only as part of a leading or trailing `::`, at least one
      hextet skipped, and every written part a hextet. */
  predicate IsIPv6Layout(parts: seq<string>)
    requires |parts| >= 2
  {
    var n := |parts|;
    var skip := 1 + FirstEmpty(parts[1..n - 1]);
    n <= 9
    && if skip == n - 1 then
         n == 8 && forall k :: 0 <= k < n ==> IsHextet(parts[k])
       else
         var hi := if parts[0] == "" then 0 else skip;
         var lo := if parts[n - 1] == "" then 0 else n - skip - 1;
         && (forall k :: skip < k < n - 1 ==> parts[k] != "")
         && (parts[0] == "" ==> skip == 1)
         && (parts[n - 1] == "" ==> skip == n - 2)
         && hi + lo <= 7
         && (forall k :: 0 <= k < hi ==> IsHextet(parts[k]))
         && (forall k :: n - lo <= k < n ==> IsHextet(parts[k]))
  }

  /** `IPv6Address(s)`: no `/`; an optional non-empty `%scope` without a
      further `%`; at least three colon-separated parts before the
      expansion of a dotted tail. */
  predicate IsIPv6Address(s: string) {
    var p := IndexOf(s, '%');
    var parts := Split(s[..p], ':');
    && '/' !in s
    && (p < |s| ==> p + 1 < |s| && '%' !in s[p + 1..])
    && |parts| >= 3
    && match ExpandedParts(parts)
       case None => false
       case Some(expanded) => IsIPv6Layout(expanded)
  }

  /** `ipaddress.ip_address(s)` returns instead of raising. */
  predicate IsIpAddress(s: string) {
    IsIPv4Address(s) || IsIPv6Address(s)
  }

  /** A name without dots and colons, such as `localhost`, is no address. */
  lemma HostNameIsNoAddress(s: string)
    requires '.' !in s && ':' !in s
    ensures !IsIpAddress(s)
  {
    SplitFree(s, '.');
    var p := IndexOf(s, '%');
    assert ':' !in s[..p];
    SplitFree(s[..p], ':');
  }

  lemma NoDotInOctet(s: string)
    requires IsOctet(s)
    ensures '.' !in s
  {
    assert forall k :: 0 <= k < |s| ==> s[k] != '.';
  }

  /** Four octets joined by dots are an IPv4 address, and so an address. */
  lemma DottedQuadIsAddress(octets: seq<string>)
    requires |octets| == 4
    requires forall k :: 0 <= k < 4 ==> IsOctet(octets[k])
    ensures IsIPv4Address(Join(octets, "."))
    ensures IsIpAddress(Join(octets, "."))
  {
    forall k | 0 <= k < 4
      ensures '.' !in octets[k]
    {
      NoDotInOctet(octets[k]);
    }
    SplitJoin(octets, '.');
  }
}
