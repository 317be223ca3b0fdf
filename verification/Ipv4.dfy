/** The test whether a host name is a dotted IPv4 address, and the texts that it accepts: four octets. */
module Ipv4 {

  predicate Digit(c: char) {
    '0' <= c <= '9'
  }

  function Value(c: char): (v: nat)
    requires Digit(c)
    ensures v < 10
  {
    (c - '0') as nat
  }

  function Number(s: string): nat
    requires forall i :: 0 <= i < |s| ==> Digit(s[i])
  {
    if s == "" then 0
    else
      10 * Number(s[..|s| - 1]) + Value(s[|s| - 1])
  }

  /** The segments `getline` yields: a last segment is dropped if it is empty. */
  function Segments(ip: string): seq<string> {
    Split(ip, 0, 0)
  }

  /** The segments from position `i` on, the current one having started at `start`. */
  function Split(ip: string, start: nat, i: nat): seq<string>
    requires start <= i <= |ip|
    decreases |ip| - i
  {
    if i == |ip| then (if start == i then [] else [ip[start..]])
    else if ip[i] == '.' then [ip[start..i]] + Split(ip, i + 1, i + 1)
    else Split(ip, start, i + 1)
  }

  predicate Octet(s: string) {
    1 <= |s| <= 3 && (forall i :: 0 <= i < |s| ==> Digit(s[i])) && Number(s) <= 255
  }

  method ReadSegments(ip: string) returns (segments: seq<string>)
    ensures segments == Segments(ip)
  {
    segments := [];
    var pos := 0;
    while pos < |ip|
      invariant pos <= |ip|
      invariant segments + Split(ip, pos, pos) == Segments(ip)
    {
      // one getline: up to the next dot or the end
      var i := pos;
      while i < |ip| && ip[i] != '.'
        invariant pos <= i <= |ip|
        invariant Split(ip, pos, i) == Split(ip, pos, pos)
      {
        i := i + 1;
      }
      segments := segments + [ip[pos..i]];
      assert ip[pos..|ip|] == ip[pos..];
      pos := if i < |ip| then i + 1 else i;
    }
  }

  /** `is_valid_ipv4`. */
  method IsValidIpv4(ip: string) returns (valid: bool)
    ensures valid <==> Accepted(ip)
  {
    var segments := ReadSegments(ip);
    SegmentsAreAddress(ip);
    if |segments| != 4 { return false; }
    for k := 0 to |segments|
      invariant forall j :: 0 <= j < k ==> Octet(segments[j])
    {
      var seg := segments[k];
      if |seg| == 0 || |seg| > 3 { return false; }
      for i := 0 to |seg|
        invariant forall j :: 0 <= j < i ==> Digit(seg[j])
      {
        if !Digit(seg[i]) { return false; }
      }
      if Number(seg) > 255 { return false; }
    }
    valid := true;
  }

  // ----- the language accepted

  function Dotted(a: string, b: string, c: string, d: string): string {
    a + "." + b + "." + c + "." + d
  }

  /** Four octets separated by dots, and nothing else or one more dot. */
  ghost predicate Accepted(ip: string) {
    exists a, b, c, d :: Octet(a) && Octet(b) && Octet(c) && Octet(d) && (ip == Dotted(a, b, c, d) || ip == Dotted(a, b, c, d) + ".")
  }

  /** Segments joined, each followed by a dot. */
  function Joined(segs: seq<string>): string {
    if segs == [] then "" else segs[0] + "." + Joined(segs[1..])
  }

  predicate DotFree(s: string) {
    '.' !in s
  }

  lemma {:induction false} SplitFacts(ip: string, start: nat, i: nat)
    requires start <= i <= |ip| && DotFree(ip[start..i])
    ensures var segs := Split(ip, start, i);
            && (forall k :: 0 <= k < |segs| ==> DotFree(segs[k]))
            && (ip[start..] == Joined(segs) || ip[start..] + "." == Joined(segs))
    decreases |ip| - i
  {
    if i == |ip| {
      assert ip[start..i] == ip[start..];
      if start < i {
        assert Joined([ip[start..]]) == ip[start..] + "." + "";
      }
    } else if ip[i] == '.' {
      SplitFacts(ip, i + 1, i + 1);
      var segs := Split(ip, i + 1, i + 1);
      assert ([ip[start..i]] + segs)[1..] == segs;
      assert ip[start..] == ip[start..i] + "." + ip[i + 1..];
    } else {
      assert ip[start..i + 1] == ip[start..i] + [ip[i]];
      SplitFacts(ip, start, i + 1);
    }
  }

  /** A text made of dot-free segments splits back into them. */
  lemma {:induction false} SplitJoined(pre: string, s: string, rest: string, i: nat)
    requires |pre| <= i <= |pre| + |s| && DotFree(s)
    ensures Split(pre + s + "." + rest, |pre|, i) == [s] + Split(pre + s + "." + rest, |pre| + |s| + 1, |pre| + |s| + 1)
    decreases |pre| + |s| - i
  {
    var ip := pre + s + "." + rest;
    if i < |pre| + |s| {
      assert ip[i] == s[i - |pre|];
      SplitJoined(pre, s, rest, i + 1);
    } else {
      assert ip[|pre|..i] == s;
    }
  }

  lemma {:induction false} SplitLast(pre: string, s: string, i: nat)
    requires |pre| <= i <= |pre| + |s| && DotFree(s) && s != ""
    ensures Split(pre + s, |pre|, i) == [s]
    decreases |pre| + |s| - i
  {
    var ip := pre + s;
    if i < |ip| {
      assert ip[i] == s[i - |pre|];
      SplitLast(pre, s, i + 1);
    } else {
      assert ip[|pre|..] == s;
    }
  }

  lemma SegmentsOfDotted(a: string, b: string, c: string, d: string, tail: string)
    requires Octet(a) && Octet(b) && Octet(c) && Octet(d) && (tail == "" || tail == ".")
    ensures Segments(Dotted(a, b, c, d) + tail) == [a, b, c, d]
  {
    var ip := Dotted(a, b, c, d) + tail;
    var p1, p2, p3 := a + ".", a + "." + b + ".", a + "." + b + "." + c + ".";
    assert ip == "" + a + "." + (b + "." + c + "." + d + tail);
    SplitJoined("", a, b + "." + c + "." + d + tail, 0);
    assert ip == p1 + b + "." + (c + "." + d + tail);
    SplitJoined(p1, b, c + "." + d + tail, |p1|);
    assert ip == p2 + c + "." + (d + tail);
    SplitJoined(p2, c, d + tail, |p2|);
    if tail == "" {
      assert ip == p3 + d;
      SplitLast(p3, d, |p3|);
    } else {
      assert ip == p3 + d + "." + "";
      SplitJoined(p3, d, "", |p3|);
    }
  }

  /** The test accepts exactly that language. */
  lemma SegmentsAreAddress(ip: string)
    ensures Accepted(ip) <==> |Segments(ip)| == 4 && forall k :: 0 <= k < 4 ==> Octet(Segments(ip)[k])
  {
    var segs := Segments(ip);
    if Accepted(ip) {
      var a, b, c, d :| Octet(a) && Octet(b) && Octet(c) && Octet(d) && (ip == Dotted(a, b, c, d) || ip == Dotted(a, b, c, d) + ".");
      SegmentsOfDotted(a, b, c, d, "");
      SegmentsOfDotted(a, b, c, d, ".");
      assert Dotted(a, b, c, d) + "" == Dotted(a, b, c, d);
    }
    if |segs| == 4 && forall k :: 0 <= k < 4 ==> Octet(segs[k]) {
      SplitFacts(ip, 0, 0);
      assert ip[0..] == ip;
      var a, b, c, d := segs[0], segs[1], segs[2], segs[3];
      JoinedFour(segs);
      if ip + "." == Joined(segs) {
        assert ip == (ip + ".")[..|ip|] == Dotted(a, b, c, d);
      }
    }
  }

  lemma JoinedFour(segs: seq<string>)
    requires |segs| == 4
    ensures Joined(segs) == Dotted(segs[0], segs[1], segs[2], segs[3]) + "."
  {
    assert segs[1..][1..] == segs[2..] && segs[2..][1..] == segs[3..] && segs[3..][1..] == [];
    assert Joined(segs[3..]) == segs[3] + "." + "";
    assert Joined(segs[2..]) == segs[2] + "." + Joined(segs[3..]);
    assert Joined(segs[1..]) == segs[1] + "." + Joined(segs[2..]);
  }

  // ----- addresses in printed form

  function DigitChar(n: nat): char
    requires n < 10
  {
    '0' + n as char
  }

  /** The decimal form of an octet without leading zeros: `dec-octet` of RFC 3986, section 3.2.2. */
  function Printed(n: nat): string
    requires n <= 255
  {
    if n < 10 then [DigitChar(n)]
    else if n < 100 then [DigitChar(n / 10), DigitChar(n % 10)]
    else [DigitChar(n / 100), DigitChar(n / 10 % 10), DigitChar(n % 10)]
  }

  lemma NumberOfThree(s: string)
    requires 1 <= |s| <= 3 && forall i :: 0 <= i < |s| ==> Digit(s[i])
    ensures Number(s) == if |s| == 1 then Value(s[0])
                         else if |s| == 2 then 10 * Value(s[0]) + Value(s[1])
                         else 100 * Value(s[0]) + 10 * Value(s[1]) + Value(s[2])
  {
    assert Number(s[..0]) == 0;
    assert s[..1][..0] == s[..0];
    assert Number(s[..1]) == Value(s[0]);
    if |s| == 1 { assert s[..1] == s; }
    if |s| >= 2 {
      assert s[..2][..1] == s[..1];
      assert Number(s[..2]) == 10 * Number(s[..1]) + Value(s[1]);
      if |s| == 2 { assert s[..2] == s; }
    }
  }

  lemma DigitCharValue(n: nat)
    requires n < 10
    ensures Digit(DigitChar(n)) && Value(DigitChar(n)) == n
  {
  }

  /** One, two and three digits read back as the number they spell. */
  lemma NumberOfDigits(h: nat, t: nat, u: nat)
    requires h < 10 && t < 10 && u < 10
    ensures Number([DigitChar(u)]) == u
    ensures Number([DigitChar(t), DigitChar(u)]) == 10 * t + u
    ensures Number([DigitChar(h), DigitChar(t), DigitChar(u)]) == 100 * h + 10 * t + u
  {
    DigitCharValue(h); DigitCharValue(t); DigitCharValue(u);
    NumberOfThree([DigitChar(u)]);
    NumberOfThree([DigitChar(t), DigitChar(u)]);
    NumberOfThree([DigitChar(h), DigitChar(t), DigitChar(u)]);
  }

  lemma Decimal(n: nat)
    requires n <= 255
    ensures n / 100 < 10 && n / 10 % 10 < 10 && n % 10 < 10 && n == 100 * (n / 100) + 10 * (n / 10 % 10) + n % 10
    ensures n < 100 ==> n / 10 < 10 && n == 10 * (n / 10) + n % 10
  {
  }

  lemma PrintedIsOctet(n: nat)
    requires n <= 255
    ensures Octet(Printed(n)) && Number(Printed(n)) == n
  {
    Decimal(n);
    if n < 10 {
      NumberOfDigits(0, 0, n);
    } else if n < 100 {
      NumberOfDigits(0, n / 10, n % 10);
    } else {
      NumberOfDigits(n / 100, n / 10 % 10, n % 10);
    }
  }

  /** The printed form of any four octets is accepted. */
  lemma PrintedAccepted(a: nat, b: nat, c: nat, d: nat)
    requires a <= 255 && b <= 255 && c <= 255 && d <= 255
    ensures Accepted(Dotted(Printed(a), Printed(b), Printed(c), Printed(d)))
  {
    PrintedIsOctet(a);
    PrintedIsOctet(b);
    PrintedIsOctet(c);
    PrintedIsOctet(d);
  }

  lemma ValueDigitChar(c: char)
    requires Digit(c)
    ensures DigitChar(Value(c)) == c && (Value(c) == 0 <==> c == '0')
  {
  }

  /** Among the octets accepted, the printed ones are those without leading zeros. */
  lemma PrintedOctets(s: string)
    requires Octet(s)
    ensures s == Printed(Number(s)) <==> |s| == 1 || s[0] != '0'
  {
    NumberOfThree(s);
    PrintedIff(s, Number(s));
  }

  lemma PrintedIff(s: string, n: nat)
    requires 1 <= |s| <= 3 && (forall i :: 0 <= i < |s| ==> Digit(s[i])) && n <= 255
    requires n == if |s| == 1 then Value(s[0])
                  else if |s| == 2 then 10 * Value(s[0]) + Value(s[1])
                  else 100 * Value(s[0]) + 10 * Value(s[1]) + Value(s[2])
    ensures s == Printed(n) <==> |s| == 1 || s[0] != '0'
  {
    if |s| == 1 {
      ValueDigitChar(s[0]);
      assert s == [s[0]];
    } else if |s| == 2 {
      PairOfChars(s[0], s[1]);
      assert s == [s[0], s[1]];
    } else {
      TripleOfChars(s[0], s[1], s[2]);
      assert s == [s[0], s[1], s[2]];
    }
  }

  lemma PairOfChars(a: char, b: char)
    requires Digit(a) && Digit(b)
    ensures [a, b] == Printed(10 * Value(a) + Value(b)) <==> a != '0'
  {
    ValueDigitChar(a);
    ValueDigitChar(b);
    PrintedOfPair(Value(a), Value(b));
  }

  lemma TripleOfChars(a: char, b: char, c: char)
    requires Digit(a) && Digit(b) && Digit(c) && 100 * Value(a) + 10 * Value(b) + Value(c) <= 255
    ensures [a, b, c] == Printed(100 * Value(a) + 10 * Value(b) + Value(c)) <==> a != '0'
  {
    ValueDigitChar(a);
    ValueDigitChar(b);
    ValueDigitChar(c);
    PrintedOfTriple(Value(a), Value(b), Value(c));
  }

  lemma PrintedOfPair(t: nat, u: nat)
    requires t < 10 && u < 10
    ensures if t == 0 then |Printed(10 * t + u)| == 1 else Printed(10 * t + u) == [DigitChar(t), DigitChar(u)]
  {
    DivideTens(t, u);
  }

  lemma PrintedOfTriple(h: nat, t: nat, u: nat)
    requires h < 10 && t < 10 && u < 10 && 100 * h + 10 * t + u <= 255
    ensures var n := 100 * h + 10 * t + u;
            if h == 0 then |Printed(n)| <= 2 else Printed(n) == [DigitChar(h), DigitChar(t), DigitChar(u)]
  {
    DivideTens(10 * h + t, u);
    DivideTens(h, t);
    DivideHundreds(100 * h + 10 * t + u);
  }

  lemma DivideHundreds(n: nat)
    ensures n / 100 == n / 10 / 10
  {
  }

  lemma DivideTens(x: nat, y: nat)
    requires y < 10
    ensures (10 * x + y) / 10 == x && (10 * x + y) % 10 == y
  {
  }

  /** The accepted texts with a trailing dot are those without it and that dot. */
  lemma TrailingDot(ip: string)
    requires ip != "" && ip[|ip| - 1] != '.'
    ensures Accepted(ip + ".") <==> Accepted(ip)
  {
    if Accepted(ip + ".") {
      var a, b, c, d :| Octet(a) && Octet(b) && Octet(c) && Octet(d) && (ip + "." == Dotted(a, b, c, d) || ip + "." == Dotted(a, b, c, d) + ".");
      assert Dotted(a, b, c, d)[|Dotted(a, b, c, d)| - 1] == d[|d| - 1];
      assert (ip + ".")[|ip|] == '.';
      assert (ip + ".")[..|ip|] == ip && (Dotted(a, b, c, d) + ".")[..|Dotted(a, b, c, d)|] == Dotted(a, b, c, d);
    }
    if Accepted(ip) {
      var a, b, c, d :| Octet(a) && Octet(b) && Octet(c) && Octet(d) && (ip == Dotted(a, b, c, d) || ip == Dotted(a, b, c, d) + ".");
      assert ip == Dotted(a, b, c, d);
    }
  }
}
