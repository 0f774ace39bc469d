/**
 * The companion address: which strings are accepted, what they mean, and that the phone's URL parser
 * reads them the same way.
 */
module Pairing {
  import opened Numbers
  import opened Options
  import opened Decimal

  // ------------------------------------------------------------------------ string searches

  /** The first position of c, or the length. */
  function Find(s: string, c: char): (i: nat)
    ensures i <= |s|
  {
    if s == "" then 0 else if s[0] == c then 0 else 1 + Find(s[1..], c)
  }

  lemma {:induction false} FindIs(s: string, c: char, i: nat)
    requires i <= |s| && (forall k :: 0 <= k < i ==> s[k] != c) && (i < |s| ==> s[i] == c)
    ensures Find(s, c) == i
  {
    if i != 0 { FindIs(s[1..], c, i - 1); }
  }

  lemma FindNone(s: string, c: char)
    requires c !in s
    ensures Find(s, c) == |s|
  {
    FindIs(s, c, |s|);
  }

  function Before(s: string, c: char): string { s[..Find(s, c)] }

  function Behind(s: string, c: char): string { if Find(s, c) == |s| then "" else s[Find(s, c) + 1..] }

  /** What follows the last c, or everything. */
  function AfterLast(s: string, c: char): string
    decreases |s|
  {
    if Find(s, c) == |s| then s else AfterLast(Behind(s, c), c)
  }

  /** The parts between the separators. */
  function Split(s: string, c: char): (parts: seq<string>)
    ensures |parts| >= 1
  {
    if s == "" then [""]
    else if s[0] == c then [""] + Split(s[1..], c)
    else
      var rest := Split(s[1..], c);
      [[s[0]] + rest[0]] + rest[1..]
  }

  lemma {:induction false} SplitCovers(s: string, c: char, i: nat)
    requires i < |s| && s[i] != c
    ensures exists k :: 0 <= k < |Split(s, c)| && s[i] in Split(s, c)[k]
  {
    var rest, parts := Split(s[1..], c), Split(s, c);
    if i == 0 {
      assert s[0] in parts[0];
    } else {
      SplitCovers(s[1..], c, i - 1);
      var k :| 0 <= k < |rest| && s[i] in rest[k];
      if s[0] == c {
        assert parts[k + 1] == rest[k];
      } else if k == 0 {
        assert parts[0] == [s[0]] + rest[0];
        assert s[i] in parts[0];
      } else {
        assert parts[k] == rest[k];
      }
    }
  }

  // --------------------------------------------------------------- CPython's URL splitting

  predicate IsLetter(c: char) { 'a' <= c <= 'z' || 'A' <= c <= 'Z' }

  predicate IsSchemeChar(c: char) { IsLetter(c) || IsDigit(c) || c == '+' || c == '-' || c == '.' }

  function LowerChar(c: char): char { if 'A' <= c <= 'Z' then ((c as int) + 32) as char else c }

  function Lower(s: string): string { seq(|s|, i requires 0 <= i < |s| => LowerChar(s[i])) }

  datatype Url = Url(scheme: string, netloc: string, path: string, query: string, fragment: string)

  predicate HasScheme(s: string) {
    var i := Find(s, ':');
    0 < i < |s| && IsLetter(s[0]) && forall k :: 0 <= k < i ==> IsSchemeChar(s[k])
  }

  function NetlocEnd(s: string): (i: nat)
    ensures i <= |s|
  {
    Min(Find(s, '/'), Min(Find(s, '?'), Find(s, '#')))
  }

  /** urlsplit(); `brackets` is its verdict on what stands between brackets. None is an exception. */
  function UrlSplit(s: string, brackets: bool): Option<Url> {
    var scheme := if HasScheme(s) then Lower(s[..Find(s, ':')]) else "";
    var rest := if HasScheme(s) then s[Find(s, ':') + 1..] else s;
    var authority := |rest| >= 2 && rest[..2] == "//";
    var netloc := if authority then rest[2..][..NetlocEnd(rest[2..])] else "";
    var tail := if authority then rest[2..][NetlocEnd(rest[2..])..] else rest;
    if ('[' in netloc) != (']' in netloc) || ('[' in netloc && !brackets) then None
    else Some(Url(scheme, netloc, Before(Before(tail, '#'), '?'), Behind(Before(tail, '#'), '?'), Behind(tail, '#')))
  }

  function HostInfo(netloc: string): string { AfterLast(netloc, '@') }

  function HostName(netloc: string): string {
    var info := HostInfo(netloc);
    Lower(if '[' in info then Before(Behind(info, '['), ']') else Before(info, ':'))
  }

  function PortText(netloc: string): string {
    var info := HostInfo(netloc);
    if '[' in info then Behind(Behind(Behind(info, '['), ']'), ':') else Behind(info, ':')
  }

  /** The port property: absent, a number, or an exception. */
  datatype Port = NoPort | Number(n: nat) | BadPort

  function PortOf(netloc: string): Port {
    var text := PortText(netloc);
    if text == "" then NoPort
    else if !AllDigits(text) then BadPort
    else if Decimal.Value(text) > 65535 then BadPort
    else Number(Decimal.Value(text))
  }

  // -------------------------------------------------------------------------- hosts allowed

  predicate IsAlnum(c: char) { 'a' <= c <= 'z' || IsDigit(c) }

  predicate IsLabelChar(c: char) { IsAlnum(c) || c == '-' }

  predicate IsLabel(s: string) {
    1 <= |s| <= 63 && IsAlnum(s[0]) && IsAlnum(s[|s| - 1]) && forall i :: 0 <= i < |s| ==> IsLabelChar(s[i])
  }

  /** 0x[0-9a-f]* */
  predicate LooksHex(s: string) {
    |s| >= 2 && s[..2] == "0x" && forall i :: 2 <= i < |s| ==> IsDigit(s[i]) || 'a' <= s[i] <= 'f'
  }

  predicate IsOctet(s: string) { Canonical(s) && |s| <= 3 && Decimal.Value(s) <= 255 }

  predicate AllOctets(parts: seq<string>) { |parts| == 4 && forall k :: 0 <= k < 4 ==> IsOctet(parts[k]) }

  function OctetsValue(p: seq<string>): nat
    requires AllOctets(p)
  {
    ((Decimal.Value(p[0]) * 256 + Decimal.Value(p[1])) * 256 + Decimal.Value(p[2])) * 256 + Decimal.Value(p[3])
  }

  /** The strict IPv4 parser. */
  predicate IsQuad(host: string) { AllOctets(Split(host, '.')) }

  function QuadValue(host: string): nat
    requires IsQuad(host)
  {
    OctetsValue(Split(host, '.'))
  }

  /** 10/8, 100.64/10, 127/8, 169.254/16, 172.16/12 and 192.168/16 */
  predicate IsPrivate(address: nat) {
    || address / 0x1000000 == 10 || address / 0x400000 == 401 || address / 0x1000000 == 127
    || address / 0x10000 == 43518 || address / 0x100000 == 2753 || address / 0x10000 == 49320
  }

  /** The six networks, octet by octet. */
  lemma PrivateByOctets(host: string)
    requires IsQuad(host)
    ensures var p := Split(host, '.');
            var (a, b) := (Decimal.Value(p[0]), Decimal.Value(p[1]));
            IsPrivate(QuadValue(host)) <==>
              || a == 10 || a == 127 || (a == 100 && 64 <= b < 128)
              || (a == 169 && b == 254) || (a == 172 && 16 <= b < 32) || (a == 192 && b == 168)
  {
    var p := Split(host, '.');
    assert IsOctet(p[0]) && IsOctet(p[1]) && IsOctet(p[2]) && IsOctet(p[3]);
    PrivateRanges(Decimal.Value(p[0]), Decimal.Value(p[1]), Decimal.Value(p[2]), Decimal.Value(p[3]));
  }

  lemma PrivateRanges(a: nat, b: nat, c: nat, d: nat)
    requires a <= 255 && b <= 255 && c <= 255 && d <= 255
    ensures IsPrivate(((a * 256 + b) * 256 + c) * 256 + d) <==>
              || a == 10 || a == 127 || (a == 100 && 64 <= b < 128)
              || (a == 169 && b == 254) || (a == 172 && 16 <= b < 32) || (a == 192 && b == 168)
  {
    var v := ((a * 256 + b) * 256 + c) * 256 + d;
    assert v / 0x1000000 == a;
    assert v / 0x400000 == a * 4 + b / 64;
    assert v / 0x100000 == a * 16 + b / 16;
    assert v / 0x10000 == a * 256 + b;
  }

  predicate IsName(host: string) {
    var labels := Split(host, '.');
    && (forall i :: 0 <= i < |labels| ==> IsLabel(labels[i]) && !(|labels[i]| >= 4 && labels[i][..4] == "xn--"))
    && (|labels| == 1 ==> !AllDigits(labels[0]) && !LooksHex(labels[0]))
    && (|labels| == 1 || labels[|labels| - 1] == "local")
  }

  /** _valid_companion_client_host(); `v6` is the IPv6 parser's verdict, which accepts nothing without a colon. */
  predicate ValidHost(host: string, v6: bool) {
    && host != "" && |host| <= 253 && '%' !in host
    && if IsQuad(host) then IsPrivate(QuadValue(host)) else if v6 && ':' in host then false else IsName(host)
  }

  predicate Forbidden(c: char) { c as int <= 32 || c as int >= 127 || c == '\\' || c == '%' }

  /** parse_companion_base_url(); None is an exception. The two verdicts are those of code outside this model. */
  function Parse(value: string, brackets: bool, v6: bool): Option<(string, nat)> {
    if value == "" || exists i :: 0 <= i < |value| && Forbidden(value[i]) then None
    else
      var url := UrlSplit(value, brackets);
      if url.None? then None else Checked(value, url.value, HostName(url.value.netloc), PortOf(url.value.netloc), v6)
  }

  /** The checks on what the splitting found. */
  function Checked(value: string, u: Url, host: string, port: Port, v6: bool): Option<(string, nat)> {
    if port.BadPort? || u.scheme != "http" || u.netloc == "" || host == "" then None
    else if '@' in u.netloc || u.path != "" || u.query != "" || u.fragment != "" then None
    else if port.Number? && !(1 <= port.n <= 65535) then None
    else if !ValidHost(host, v6) then None
    else if value != Printed(host, port) then None
    else Some((host, if port.Number? then port.n else 80))
  }

  function Printed(host: string, port: Port): string {
    "http://" + if port.Number? then host + ":" + Numeral(port.n) else host
  }

  /** The two ways to write a host and a port; the short one stands for port 80. */
  predicate Spells(value: string, host: string, port: nat) {
    || (value == "http://" + host && port == 80)
    || (value == "http://" + host + ":" + Numeral(port) && 1 <= port <= 65535)
  }

  // ------------------------------------------------------------- characters of a valid host

  predicate HostChar(c: char) { IsLabelChar(c) || c == '.' }

  predicate HostChars(s: string) { forall i :: 0 <= i < |s| ==> HostChar(s[i]) }

  lemma PartsChars(host: string)
    requires forall k :: 0 <= k < |Split(host, '.')| ==> HostChars(Split(host, '.')[k])
    ensures HostChars(host)
  {
    forall i | 0 <= i < |host|
      ensures HostChar(host[i])
    {
      if host[i] != '.' {
        SplitCovers(host, '.', i);
        var parts := Split(host, '.');
        var k :| 0 <= k < |parts| && host[i] in parts[k];
        assert HostChars(parts[k]);
      }
    }
  }

  lemma QuadChars(host: string)
    requires IsQuad(host)
    ensures HostChars(host)
  {
    forall k | 0 <= k < 4
      ensures HostChars(Split(host, '.')[k])
    {
      assert IsOctet(Split(host, '.')[k]);
    }
    PartsChars(host);
  }

  lemma NameChars(host: string)
    requires IsName(host)
    ensures HostChars(host)
  {
    forall k | 0 <= k < |Split(host, '.')|
      ensures HostChars(Split(host, '.')[k])
    {
      assert IsLabel(Split(host, '.')[k]);
    }
    PartsChars(host);
  }

  /** A valid host has no colon, so what the IPv6 parser says of it does not matter. */
  lemma ValidHostChars(host: string, v6: bool)
    requires ValidHost(host, v6)
    ensures HostChars(host)
    ensures ValidHost(host, true) && ValidHost(host, false)
  {
    if IsQuad(host) { QuadChars(host); } else { NameChars(host); }
    assert ':' !in host;
  }

  /** Text in which URL splitting finds nothing but a host and a port. */
  predicate Plain(s: string) { forall i :: 0 <= i < |s| ==> HostChar(s[i]) || s[i] == ':' }

  lemma HttpScheme(netloc: string)
    ensures var s := "http://" + netloc;
            HasScheme(s) && Find(s, ':') == 4 && Lower(s[..4]) == "http" && s[5..] == "//" + netloc
  {
    var s := "http://" + netloc;
    FindIs(s, ':', 4);
    assert s[..4] == "http";
    assert Lower("http") == "http";
  }

  lemma PlainHasNoMarks(netloc: string)
    requires Plain(netloc)
    ensures NetlocEnd(netloc) == |netloc| && HostInfo(netloc) == netloc
    ensures '[' !in netloc && ']' !in netloc && '@' !in netloc
  {
    FindNone(netloc, '/');
    FindNone(netloc, '?');
    FindNone(netloc, '#');
    FindNone(netloc, '@');
  }

  lemma PlainSplits(netloc: string, brackets: bool)
    requires Plain(netloc) && netloc != ""
    ensures UrlSplit("http://" + netloc, brackets) == Some(Url("http", netloc, "", "", ""))
    ensures HostInfo(netloc) == netloc && '[' !in netloc && '@' !in netloc
  {
    HttpScheme(netloc);
    PlainHasNoMarks(netloc);
    var rest := "//" + netloc;
    assert rest[..2] == "//" && rest[2..] == netloc;
    assert netloc[..|netloc|] == netloc && netloc[|netloc|..] == "";
  }

  lemma LowerKeeps(s: string)
    requires HostChars(s)
    ensures Lower(s) == s
  {
  }

  lemma HostWithoutPort(host: string)
    requires HostChars(host)
    ensures Plain(host) && Before(host, ':') == host && Behind(host, ':') == "" && Lower(host) == host
  {
    FindNone(host, ':');
    LowerKeeps(host);
  }

  lemma HostWithPort(host: string, port: string)
    requires HostChars(host) && AllDigits(port)
    ensures Plain(host + ":" + port) && Before(host + ":" + port, ':') == host && Behind(host + ":" + port, ':') == port
  {
    var s := host + ":" + port;
    FindIs(s, ':', |host|);
    assert s[..|host|] == host && s[|host| + 1..] == port;
  }

  lemma AllowedChars(netloc: string)
    requires Plain(netloc)
    ensures var s := "http://" + netloc; forall i :: 0 <= i < |s| ==> !Forbidden(s[i])
  {
    var prefix := "http://";
    assert forall i :: 0 <= i < |prefix| ==> !Forbidden(prefix[i]);
  }

  lemma PlainParses(netloc: string, host: string, port: Port, brackets: bool, v6: bool)
    requires Plain(netloc) && netloc != "" && HostName(netloc) == host && PortOf(netloc) == port
    ensures Parse("http://" + netloc, brackets, v6)
              == Checked("http://" + netloc, Url("http", netloc, "", "", ""), host, port, v6)
  {
    PlainSplits(netloc, brackets);
    AllowedChars(netloc);
  }

  lemma CheckedPasses(netloc: string, host: string, port: Port, v6: bool)
    requires ValidHost(host, v6) && '@' !in netloc && netloc != "" && !port.BadPort?
               && (port.Number? ==> 1 <= port.n <= 65535)
    requires "http://" + netloc == Printed(host, port)
    ensures Checked("http://" + netloc, Url("http", netloc, "", "", ""), host, port, v6)
         == Some((host, if port.Number? then port.n else 80))
  {
  }

  lemma PlainHostParses(host: string, brackets: bool, v6: bool)
    requires ValidHost(host, v6)
    ensures Parse("http://" + host, brackets, v6) == Some((host, 80))
  {
    ValidHostChars(host, v6);
    HostWithoutPort(host);
    PlainSplits(host, brackets);
    assert PortOf(host) == NoPort && HostName(host) == host;
    PlainParses(host, host, NoPort, brackets, v6);
    CheckedPasses(host, host, NoPort, v6);
  }

  lemma PortRead(host: string, port: nat)
    requires HostChars(host) && port <= 65535
    ensures var netloc := host + ":" + Numeral(port);
            Plain(netloc) && '@' !in netloc && HostName(netloc) == host && PortOf(netloc) == Number(port)
  {
    NumeralIsCanonical(port);
    HostWithPort(host, Numeral(port));
    LowerKeeps(host);
    var netloc := host + ":" + Numeral(port);
    PlainSplits(netloc, true);
  }

  lemma Regrouped(host: string, port: string)
    ensures "http://" + host + ":" + port == "http://" + (host + ":" + port)
  {
  }

  lemma NetlocParses(netloc: string, host: string, port: nat, brackets: bool, v6: bool)
    requires netloc == host + ":" + Numeral(port) && Plain(netloc) && '@' !in netloc
    requires HostName(netloc) == host && PortOf(netloc) == Number(port) && ValidHost(host, v6) && 1 <= port <= 65535
    ensures Parse("http://" + netloc, brackets, v6) == Some((host, port))
  {
    PlainParses(netloc, host, Number(port), brackets, v6);
    CheckedPasses(netloc, host, Number(port), v6);
  }

  lemma HostAndPortParse(host: string, port: nat, brackets: bool, v6: bool)
    requires ValidHost(host, v6) && 1 <= port <= 65535
    ensures Parse("http://" + host + ":" + Numeral(port), brackets, v6) == Some((host, port))
  {
    ValidHostChars(host, v6);
    PortRead(host, port);
    NetlocParses(host + ":" + Numeral(port), host, port, brackets, v6);
    Regrouped(host, Numeral(port));
  }

  lemma CheckedSpells(value: string, u: Url, h: string, p: Port, v6: bool)
    requires Checked(value, u, h, p, v6).Some?
    ensures var (host, port) := Checked(value, u, h, p, v6).value;
            host == h && ValidHost(host, v6) && Spells(value, host, port)
  {
    if p.Number? { Regrouped(h, Numeral(p.n)); }
  }

  lemma ParsedSpells(value: string, brackets: bool, v6: bool)
    requires Parse(value, brackets, v6).Some?
    ensures var (host, port) := Parse(value, brackets, v6).value; ValidHost(host, v6) && Spells(value, host, port)
  {
    var u := UrlSplit(value, brackets).value;
    CheckedSpells(value, u, HostName(u.netloc), PortOf(u.netloc), v6);
  }

  lemma SpelledParses(value: string, host: string, port: nat, brackets: bool, v6: bool)
    requires ValidHost(host, v6) && Spells(value, host, port)
    ensures Parse(value, brackets, v6) == Some((host, port))
  {
    if value == "http://" + host && port == 80 {
      PlainHostParses(host, brackets, v6);
    } else {
      HostAndPortParse(host, port, brackets, v6);
    }
  }

  // --------------------------------------------------------------------------- main results

  /** Exactly what is accepted, and what it means, whatever the code outside says about brackets and IPv6. */
  lemma AcceptedExactly(value: string, host: string, port: nat, brackets: bool, v6: bool)
    ensures Parse(value, brackets, v6) == Some((host, port)) <==> ValidHost(host, v6) && Spells(value, host, port)
  {
    if Parse(value, brackets, v6) == Some((host, port)) { ParsedSpells(value, brackets, v6); }
    if ValidHost(host, v6) && Spells(value, host, port) { SpelledParses(value, host, port, brackets, v6); }
  }

  /** Two different accepted strings mean the same only as the two spellings of port 80. */
  lemma OnlyPortEightyTwice(a: string, b: string, host: string, port: nat, brackets: bool, v6: bool)
    requires Parse(a, brackets, v6) == Some((host, port)) && Parse(b, brackets, v6) == Some((host, port)) && a != b
    ensures port == 80 && {a, b} == {"http://" + host, "http://" + host + ":" + Numeral(80)}
  {
    ParsedSpells(a, brackets, v6);
    ParsedSpells(b, brackets, v6);
    TwoSpellings(a, b, host, port);
  }

  lemma TwoSpellings(a: string, b: string, host: string, port: nat)
    requires Spells(a, host, port) && Spells(b, host, port) && a != b
    ensures port == 80 && {a, b} == {"http://" + host, "http://" + host + ":" + Numeral(80)}
  {
    var short, long := "http://" + host, "http://" + host + ":" + Numeral(port);
    assert a == short || a == long;
  }

  // ---------------------------------------------------- the phone's parser: the URL Standard

  /** The numbers of section 3.5 of the URL Standard: decimal, octal after 0, hexadecimal after 0x. */
  function Radix(s: string): nat {
    if |s| >= 2 && s[0] == '0' && (s[1] == 'x' || s[1] == 'X') then 16
    else if |s| >= 2 && s[0] == '0' then 8
    else 10
  }

  function Digits(s: string): string {
    if Radix(s) == 16 then s[2..] else if Radix(s) == 8 then s[1..] else s
  }

  function DigitValue(c: char): nat
    requires IsHexDigit(c)
  {
    if IsDigit(c) then c as int - '0' as int
    else if 'a' <= c <= 'f' then c as int - 'a' as int + 10
    else c as int - 'A' as int + 10
  }

  predicate InRadix(s: string, radix: nat) { forall i :: 0 <= i < |s| ==> IsHexDigit(s[i]) && DigitValue(s[i]) < radix }

  function NumberIn(s: string, radix: nat): nat
    requires InRadix(s, radix)
  {
    if s == "" then 0 else radix * NumberIn(s[..|s| - 1], radix) + DigitValue(s[|s| - 1])
  }

  /** The IPv4 number parser. */
  function Ipv4Number(s: string): Option<nat> {
    if s == "" then None
    else if InRadix(Digits(s), Radix(s)) then Some(NumberIn(Digits(s), Radix(s)))
    else None
  }

  function WithoutEmptyLast(parts: seq<string>): seq<string> {
    if |parts| > 1 && parts[|parts| - 1] == "" then parts[..|parts| - 1] else parts
  }

  /** The ends-in-a-number checker, on the parts of a host. */
  predicate EndInNumber(parts: seq<string>)
    requires parts != []
  {
    var last := parts[|parts| - 1];
    (last != "" && AllDigits(last)) || Ipv4Number(last).Some?
  }

  predicate EndsInNumber(host: string) { EndInNumber(WithoutEmptyLast(Split(host, '.'))) }

  /** The sum of all numbers but the last, each at its place, from the i-th on. */
  function Places(parts: seq<string>, i: nat): int
    requires i < |parts| <= 4 && forall k :: 0 <= k < |parts| ==> Ipv4Number(parts[k]).Some?
    decreases |parts| - i
  {
    if i == |parts| - 1 then Ipv4Number(parts[i]).value
    else Ipv4Number(parts[i]).value * Shift(3 - i) + Places(parts, i + 1)
  }

  function Shift(n: nat): nat { if n == 0 then 1 else 256 * Shift(n - 1) }

  /** The IPv4 parser, on the parts of a host. */
  function Ipv4Parts(parts: seq<string>): Option<int>
    requires parts != []
  {
    if |parts| > 4 || exists k :: 0 <= k < |parts| && Ipv4Number(parts[k]).None? then None
    else if exists k :: 0 <= k < |parts| - 1 && Ipv4Number(parts[k]).value > 255 then None
    else if Ipv4Number(parts[|parts| - 1]).value >= Shift(5 - |parts|) then None
    else Some(Places(parts, 0))
  }

  function Ipv4Parse(host: string): Option<int> { Ipv4Parts(WithoutEmptyLast(Split(host, '.'))) }

  /** No accepted name ends in a number, so the phone never takes it for an address. */
  lemma NamesAreNoNumbers(host: string, v6: bool)
    requires ValidHost(host, v6) && !IsQuad(host)
    ensures !EndsInNumber(host)
  {
    var labels := Split(host, '.');
    var last := labels[|labels| - 1];
    assert IsLabel(last);
    if |labels| == 1 {
      SingleLabelIsNoNumber(last);
    } else {
      assert last == "local" && last[0] == 'l';
      assert Radix(last) == 10 && Digits(last) == last;
    }
  }

  lemma SingleLabelIsNoNumber(s: string)
    requires IsLabel(s) && !AllDigits(s) && !LooksHex(s)
    ensures Ipv4Number(s).None?
  {
    if Radix(s) == 16 {
      assert s[..2] == ['0', 'x'];
      var i :| 2 <= i < |s| && !(IsDigit(s[i]) || 'a' <= s[i] <= 'f');
      assert s[2..][i - 2] == s[i];
    } else {
      var i :| 0 <= i < |s| && !IsDigit(s[i]);
      if Radix(s) == 8 { assert s[1..][i - 1] == s[i]; }
    }
  }

  lemma {:induction false} DecimalNumber(s: string)
    requires AllDigits(s)
    ensures InRadix(s, 10) && NumberIn(s, 10) == Decimal.Value(s)
  {
    if s != "" { DecimalNumber(s[..|s| - 1]); }
  }

  lemma OctetNumber(s: string)
    requires IsOctet(s)
    ensures Ipv4Number(s) == Some(Decimal.Value(s))
  {
    DecimalNumber(s);
    assert Radix(s) == 10;
  }

  lemma FourPlaces(parts: seq<string>)
    requires |parts| == 4 && forall k :: 0 <= k < 4 ==> Ipv4Number(parts[k]).Some?
    ensures Shift(1) == 256
    ensures Places(parts, 0) == ((Ipv4Number(parts[0]).value * 256 + Ipv4Number(parts[1]).value) * 256
                                 + Ipv4Number(parts[2]).value) * 256 + Ipv4Number(parts[3]).value
  {
    assert Shift(1) == 256 && Shift(2) == 256 * Shift(1) && Shift(3) == 256 * Shift(2);
    assert Places(parts, 3) == Ipv4Number(parts[3]).value;
    assert Places(parts, 2) == Ipv4Number(parts[2]).value * Shift(1) + Places(parts, 3);
    assert Places(parts, 1) == Ipv4Number(parts[1]).value * Shift(2) + Places(parts, 2);
    assert Places(parts, 0) == Ipv4Number(parts[0]).value * Shift(3) + Places(parts, 1);
  }

  lemma OctetNumbers(parts: seq<string>)
    requires AllOctets(parts)
    ensures forall k :: 0 <= k < 4 ==> Ipv4Number(parts[k]) == Some(Decimal.Value(parts[k]))
  {
    forall k | 0 <= k < 4
      ensures Ipv4Number(parts[k]) == Some(Decimal.Value(parts[k]))
    {
      OctetNumber(parts[k]);
    }
  }

  lemma OctetsParse(parts: seq<string>)
    requires AllOctets(parts)
    ensures Ipv4Parts(parts) == Some(OctetsValue(parts)) && OctetsValue(parts) < 0x1_0000_0000
  {
    OctetNumbers(parts);
    FourPlaces(parts);
    assert IsOctet(parts[0]) && IsOctet(parts[1]) && IsOctet(parts[2]) && IsOctet(parts[3]);
  }

  lemma OctetsEnd(parts: seq<string>)
    requires AllOctets(parts)
    ensures WithoutEmptyLast(parts) == parts && EndInNumber(parts)
  {
    assert IsOctet(parts[3]);
  }

  /** Every accepted dotted quad ends in a number, and has the same 32-bit value under both parsers. */
  lemma QuadsAgree(host: string)
    requires IsQuad(host)
    ensures EndsInNumber(host) && Ipv4Parse(host) == Some(QuadValue(host)) && QuadValue(host) < 0x1_0000_0000
  {
    OctetsParse(Split(host, '.'));
    OctetsEnd(Split(host, '.'));
  }

  /** Both parsers tell an accepted host's kind alike: an address exactly when it is a dotted quad, and then the same
      one. */
  lemma ParsersAgree(host: string, v6: bool)
    requires ValidHost(host, v6)
    ensures EndsInNumber(host) <==> IsQuad(host)
    ensures IsQuad(host) ==> Ipv4Parse(host) == Some(QuadValue(host)) && IsPrivate(QuadValue(host))
  {
    if IsQuad(host) { QuadsAgree(host); } else { NamesAreNoNumbers(host, v6); }
  }
}
