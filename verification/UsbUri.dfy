/** USB device URIs: what is printed for a device, what a URI selects, and the loops that do both. */
module UsbUri {
  import opened Wrappers

  type Byte = c: char | c as int < 256 witness 'a'
  type Text = seq<Byte>

  const SCHEME: Text := "usb://"
  const PORT: Text := "port="
  const DEFAULT_VENDOR: nat := 0x2fe3
  const DEFAULT_PRODUCT: nat := 0x574c

  type Word16 = n: nat | n < 0x10000
  type Octet = n: nat | n < 256

  datatype Device = Device(vendor: Word16, product: Word16, serial: Text, path: seq<Octet>)
  datatype Selector = Selector(vendor: nat, product: nat, serial: Option<Text>, path: Option<seq<Octet>>)

  // Digits

  predicate IsDigit(c: Byte) { '0' <= c <= '9' }
  predicate IsHex(c: Byte) { IsDigit(c) || 'a' <= c <= 'f' || 'A' <= c <= 'F' }

  function HexDigit(c: Byte): (d: nat)
    requires IsHex(c)
    ensures d < 16
  {
    if IsDigit(c) then c as int - '0' as int
    else if 'a' <= c <= 'f' then c as int - 'a' as int + 10
    else c as int - 'A' as int + 10
  }

  function LowerHex(d: nat): (c: Byte)
    requires d < 16
    ensures IsHex(c) && HexDigit(c) == d
  {
    if d < 10 then ('0' as int + d) as char else ('a' as int + d - 10) as char
  }

  function UpperHex(d: nat): (c: Byte)
    requires d < 16
    ensures IsHex(c) && HexDigit(c) == d
  {
    if d < 10 then ('0' as int + d) as char else ('A' as int + d - 10) as char
  }

  predicate AllHex(t: Text) { forall i :: 0 <= i < |t| ==> IsHex(t[i]) }
  predicate AllDigits(t: Text) { forall i :: 0 <= i < |t| ==> IsDigit(t[i]) }

  function HexValue(t: Text): nat
    requires AllHex(t)
  {
    if t == [] then 0 else 16 * HexValue(t[..|t| - 1]) + HexDigit(t[|t| - 1])
  }

  function DecimalValue(t: Text): nat
    requires AllDigits(t)
  {
    if t == [] then 0 else 10 * DecimalValue(t[..|t| - 1]) + (t[|t| - 1] as int - '0' as int)
  }

  function Decimal(n: nat): (t: Text)
    ensures t != [] && AllDigits(t) && DecimalValue(t) == n
  {
    if n < 10 then [('0' as int + n) as char]
    else
      var high := Decimal(n / 10);
      var t := high + [('0' as int + n % 10) as char];
      assert t[..|t| - 1] == high;
      t
  }

  function Limit(width: nat): (n: nat)
    ensures n > 0
  {
    if width == 0 then 1 else 16 * Limit(width - 1)
  }

  /** The last hexadecimal digits of a number, zeros in front included. */
  function HexDigits(n: nat, width: nat): (t: Text)
    ensures |t| == width && AllHex(t) && (n < Limit(width) ==> HexValue(t) == n)
  {
    if width == 0 then []
    else
      var high := HexDigits(n / 16, width - 1);
      var t := high + [LowerHex(n % 16)];
      assert t[..|t| - 1] == high;
      t
  }

  function Hex4(n: Word16): (t: Text)
    ensures |t| == 4 && AllHex(t) && HexValue(t) == n
  {
    assert Limit(4) == 16 * Limit(3) && Limit(3) == 16 * Limit(2) && Limit(2) == 16 * Limit(1);
    HexDigits(n, 4)
  }

  // Percent-encoding, sections 2.1 and 2.3 of RFC 3986

  predicate Unreserved(c: Byte) {
    'a' <= c <= 'z' || 'A' <= c <= 'Z' || IsDigit(c) || c == '-' || c == '.' || c == '_' || c == '~'
  }

  function EncodeByte(c: Byte): Text {
    if Unreserved(c) then [c] else ['%', UpperHex(c as int / 16), UpperHex(c as int % 16)]
  }

  function Encode(t: Text): Text {
    if t == [] then [] else Encode(t[..|t| - 1]) + EncodeByte(t[|t| - 1])
  }

  /** The whole of something parsed, once its beginning is known. */
  function Prepend<T>(s: seq<T>, rest: Option<seq<T>>): Option<seq<T>> {
    if rest.None? then None else Some(s + rest.value)
  }

  lemma PrependTwice<T>(a: seq<T>, b: seq<T>, rest: Option<seq<T>>)
    ensures Prepend(a, Prepend(b, rest)) == Prepend(a + b, rest)
    ensures Prepend([], rest) == rest
  {
    if rest.Some? {
      assert a + (b + rest.value) == (a + b) + rest.value;
      assert [] + rest.value == rest.value;
    }
  }

  function DecodeAll(t: Text): Option<Text> {
    if t == [] then Some([])
    else if t[0] != '%' then Prepend([t[0]], DecodeAll(t[1..]))
    else if |t| < 3 || !IsHex(t[1]) || !IsHex(t[2]) then None
    else
      var n := HexDigit(t[1]) * 16 + HexDigit(t[2]);
      if n == 0 then None else Prepend([n as char], DecodeAll(t[3..]))
  }

  function Decode(t: Text): Option<Text> {
    var r := DecodeAll(t);
    if r == Some([]) then None else r
  }

  predicate NulFree(t: Text) { forall i :: 0 <= i < |t| ==> t[i] as int != 0 }

  lemma DecodeByte(c: Byte, t: Text)
    ensures DecodeAll(EncodeByte(c) + t) == if c as int == 0 then None else Prepend([c], DecodeAll(t))
  {
    var e := EncodeByte(c) + t;
    if Unreserved(c) {
      assert e[1..] == t;
    } else {
      assert e[3..] == t;
      assert (c as int / 16) * 16 + c as int % 16 == c as int;
    }
  }

  lemma {:induction false} DecodeEncoded(s: Text, t: Text)
    ensures DecodeAll(Encode(s) + t) == if NulFree(s) then Prepend(s, DecodeAll(t)) else None
  {
    if s != [] {
      var init, c := s[..|s| - 1], s[|s| - 1];
      DecodeEncoded(init, EncodeByte(c) + t);
      DecodeByte(c, t);
      assert Encode(s) + t == Encode(init) + (EncodeByte(c) + t);
      assert s == init + [c];
      assert NulFree(s) <==> NulFree(init) && c as int != 0;
      PrependTwice(init, [c], DecodeAll(t));
    } else {
      assert Encode(s) + t == t;
      PrependTwice([], [], DecodeAll(t));
    }
  }

  /** Decoding gives back exactly the non-empty texts without a NUL byte. */
  lemma RoundTrip(s: Text)
    ensures Decode(Encode(s)) == if s == [] || !NulFree(s) then None else Some(s)
  {
    DecodeEncoded(s, []);
    assert Encode(s) + [] == Encode(s);
    assert s + [] == s;
  }

  /** Nothing that has a meaning in a URI survives encoding, so an encoded text never ends early. */
  lemma {:induction false} EncodedIsClean(s: Text)
    ensures forall i :: 0 <= i < |Encode(s)| ==> Unreserved(Encode(s)[i]) || Encode(s)[i] == '%'
  {
    if s != [] {
      EncodedIsClean(s[..|s| - 1]);
      HexIsUnreserved();
    }
  }

  lemma HexIsUnreserved()
    ensures forall d: nat :: d < 16 ==> Unreserved(UpperHex(d))
  {
  }

  method PercentEncode(t: Text) returns (r: Text)
    ensures r == Encode(t)
  {
    r := [];
    for i: nat := 0 to |t|
      invariant r == Encode(t[..i])
    {
      var c := t[i];
      assert t[..i + 1][..i] == t[..i];
      if Unreserved(c) {
        r := r + [c];
      } else {
        r := r + ['%', UpperHex(c as int / 16), UpperHex(c as int % 16)];
      }
    }
    assert t[..|t|] == t;
  }

  method PercentDecode(t: Text) returns (r: Option<Text>)
    ensures r == Decode(t)
  {
    var i, result: Text := 0, [];
    PrependTwice([], [], DecodeAll(t));
    assert t[0..] == t;
    while i < |t|
      invariant i <= |t|
      invariant DecodeAll(t) == Prepend(result, DecodeAll(t[i..]))
    {
      if t[i] != '%' {
        assert t[i..][1..] == t[i + 1..];
        PrependTwice(result, [t[i]], DecodeAll(t[i + 1..]));
        result := result + [t[i]];
        i := i + 1;
      } else {
        if i + 2 >= |t| { return None; }
        if !IsHex(t[i + 1]) || !IsHex(t[i + 2]) { return None; }
        var n := HexDigit(t[i + 1]) * 16 + HexDigit(t[i + 2]);
        assert t[i..][3..] == t[i + 3..];
        if n == 0 { return None; }
        PrependTwice(result, [n as char], DecodeAll(t[i + 3..]));
        result := result + [n as char];
        i := i + 3;
      }
    }
    assert t[i..] == [] && result + [] == result;
    return if result == [] then None else Some(result);
  }

  // Finding separators

  /** Where the first a or b is; the length when there is none. */
  function Find(t: Text, a: Byte, b: Byte): (k: nat)
    ensures k <= |t| && (k < |t| ==> t[k] == a || t[k] == b)
    ensures forall i :: 0 <= i < k ==> t[i] != a && t[i] != b
  {
    if t == [] then 0 else if t[0] == a || t[0] == b then 0 else 1 + Find(t[1..], a, b)
  }

  lemma FindIs(t: Text, a: Byte, b: Byte, k: nat)
    requires k <= |t| && (k < |t| ==> t[k] == a || t[k] == b)
    requires forall i :: 0 <= i < k ==> t[i] != a && t[i] != b
    ensures Find(t, a, b) == k
  {
  }

  predicate StartsWith(t: Text, prefix: Text) { |prefix| <= |t| && t[..|prefix|] == prefix }

  // Port paths

  function Component(t: Text): Option<Octet> {
    if t == [] || !AllDigits(t) then None
    else if 0 < DecimalValue(t) < 256 then Some(DecimalValue(t)) else None
  }

  function PathOf(t: Text): Option<seq<Octet>>
    decreases |t|
  {
    if t == [] then Some([])
    else
      var dot := Find(t, '.', '.');
      var first := Component(t[..dot]);
      if first.None? then None
      else if dot == |t| then Some([first.value])
      else Prepend([first.value], PathOf(t[dot + 1..]))
  }

  function ParsePath(t: Text): Option<seq<Octet>> {
    var r := PathOf(t);
    if r == Some([]) then None else r
  }

  function Join(path: seq<Octet>): Text {
    if path == [] then []
    else if |path| == 1 then Decimal(path[0])
    else Decimal(path[0]) + ['.'] + Join(path[1..])
  }

  predicate Positive(path: seq<Octet>) { forall i :: 0 <= i < |path| ==> path[i] > 0 }

  lemma FirstComponent(n: Octet, rest: Text)
    requires rest == [] || rest[0] == '.'
    ensures var t := Decimal(n) + rest; Find(t, '.', '.') == |Decimal(n)| && t[..|Decimal(n)|] == Decimal(n)
  {
    FindIs(Decimal(n) + rest, '.', '.', |Decimal(n)|);
  }

  lemma PrintedComponent(n: Octet)
    ensures Component(Decimal(n)) == if n > 0 then Some(n) else None
  {
  }

  lemma ComponentThenMore(n: Octet, rest: Text)
    ensures PathOf(Decimal(n) + ['.'] + rest) == if n > 0 then Prepend([n], PathOf(rest)) else None
  {
    hide DecimalValue, Component;
    var t := Decimal(n) + (['.'] + rest);
    FirstComponent(n, ['.'] + rest);
    PrintedComponent(n);
    assert Decimal(n) + ['.'] + rest == t;
    assert t[|Decimal(n)| + 1..] == rest;
  }

  lemma LastComponent(n: Octet)
    ensures PathOf(Decimal(n)) == if n > 0 then Some([n]) else None
  {
    hide DecimalValue, Component;
    FirstComponent(n, []);
    PrintedComponent(n);
    assert Decimal(n) + [] == Decimal(n);
  }

  /** Parsing a printed path gives it back exactly when no component is zero. */
  lemma {:induction false} PathRoundTrip(path: seq<Octet>)
    requires path != []
    ensures PathOf(Join(path)) == if Positive(path) then Some(path) else None
  {
    hide PathOf, Decimal;
    if |path| == 1 {
      LastComponent(path[0]);
      assert path == [path[0]];
    } else {
      ComponentThenMore(path[0], Join(path[1..]));
      PathRoundTrip(path[1..]);
      assert path == [path[0]] + path[1..];
      assert Positive(path) <==> path[0] > 0 && Positive(path[1..]);
    }
  }

  /** A dot after the last component is accepted as well, so what is parsed need not be what
      printing would give. */
  lemma {:induction false} TrailingDotAccepted(path: seq<Octet>)
    requires path != [] && Positive(path)
    ensures PathOf(Join(path) + ['.']) == Some(path)
  {
    hide Decimal;
    assert path == [path[0]] + path[1..];
    if |path| == 1 {
      ComponentThenMore(path[0], []);
      assert Join(path) + ['.'] == Decimal(path[0]) + ['.'] + [];
    } else {
      ComponentThenMore(path[0], Join(path[1..]) + ['.']);
      TrailingDotAccepted(path[1..]);
      assert Join(path) + ['.'] == Decimal(path[0]) + ['.'] + (Join(path[1..]) + ['.']);
    }
  }

  lemma {:induction false} ZeroInFront(t: Text)
    requires AllDigits(t)
    ensures AllDigits(['0'] + t) && DecimalValue(['0'] + t) == DecimalValue(t)
  {
    var u := ['0'] + t;
    if t == [] {
      assert u[..0] == [];
    } else {
      ZeroInFront(t[..|t| - 1]);
      assert u[..|u| - 1] == ['0'] + t[..|t| - 1];
    }
  }

  lemma NoZeroIn(path: seq<Octet>)
    requires path != [] && Positive(path)
    ensures path[0] > 0 && Positive(path[1..])
  {
  }

  lemma ZeroComponent(n: Octet)
    ensures AllDigits(['0'] + Decimal(n)) && Component(['0'] + Decimal(n)) == if n > 0 then Some(n) else None
  {
    ZeroInFront(Decimal(n));
  }

  /** So are zeros in front of a component: what is printed then lacks them. */
  lemma LeadingZeroAccepted(path: seq<Octet>)
    requires path != [] && Positive(path)
    ensures PathOf(['0'] + Join(path)) == Some(path) && Join(path) != ['0'] + Join(path)
  {
    hide PathOf, DecimalValue, Component, Decimal, Positive;
    NoZeroIn(path);
    var n, t := path[0], ['0'] + Join(path);
    var zero := ['0'] + Decimal(n);
    ZeroComponent(n);
    if |path| == 1 {
      assert t == zero + [];
      PathSteps(t, zero, []);
      assert path == [n];
    } else {
      assert t == zero + (['.'] + Join(path[1..]));
      PathSteps(t, zero, ['.'] + Join(path[1..]));
      PathRoundTrip(path[1..]);
      assert (['.'] + Join(path[1..]))[1..] == Join(path[1..]);
      assert path == [n] + path[1..];
    }
  }

  /** A path is its first component and, after a dot, the rest. */
  lemma PathSteps(t: Text, first: Text, rest: Text)
    requires t == first + rest && t != [] && AllDigits(first) && (rest == [] || rest[0] == '.')
    ensures Find(t, '.', '.') == |first| && t[..|first|] == first
    ensures rest != [] ==> t[|first| + 1..] == rest[1..]
    ensures PathOf(t) == if Component(first).None? then None
                         else if rest == [] then Some([Component(first).value])
                         else Prepend([Component(first).value], PathOf(rest[1..]))
  {
    hide Component;
    FindIs(t, '.', '.', |first|);
    assert t[..|first|] == first;
    if rest != [] { assert t[|first| + 1..] == rest[1..]; }
  }

  // When printing gives back what was parsed

  lemma {:induction false} PrintedLeads(n: nat)
    requires n > 0
    ensures Decimal(n)[0] != '0'
  {
    if n >= 10 { PrintedLeads(n / 10); }
  }

  lemma {:induction false} PositiveWithoutZero(t: Text)
    requires t != [] && AllDigits(t) && t[0] != '0'
    ensures DecimalValue(t) > 0
  {
    if |t| > 1 { PositiveWithoutZero(t[..|t| - 1]); }
  }

  lemma PrintedStep(high: nat, digit: Byte)
    requires high > 0 && IsDigit(digit)
    ensures Decimal(10 * high + (digit as int - '0' as int)) == Decimal(high) + [digit]
  {
    var n := 10 * high + (digit as int - '0' as int);
    assert n / 10 == high && n % 10 == digit as int - '0' as int;
  }

  lemma {:induction false} PrintedValue(t: Text)
    requires t != [] && AllDigits(t) && t[0] != '0'
    ensures Decimal(DecimalValue(t)) == t
  {
    var init, last := t[..|t| - 1], t[|t| - 1];
    assert t == init + [last];
    if |t| > 1 {
      PositiveWithoutZero(init);
      PrintedValue(init);
      PrintedStep(DecimalValue(init), last);
      hide Decimal;
    }
  }

  lemma ComponentIsPrinted(t: Text)
    requires Component(t).Some?
    ensures t != [] && AllDigits(t) && (Decimal(Component(t).value) == t <==> t[0] != '0')
  {
    if t[0] != '0' { PrintedValue(t); } else { PrintedLeads(DecimalValue(t)); }
  }

  /** No zero stands at the start of the text or right after a dot. */
  predicate NoLeadingZero(t: Text) { forall i :: 0 <= i < |t| && t[i] == '0' ==> i != 0 && t[i - 1] != '.' }

  lemma LeadingZeros(first: Text, rest: Text)
    requires first != [] && AllDigits(first)
    ensures NoLeadingZero(first) <==> first[0] != '0'
    ensures NoLeadingZero(first + ['.'] + rest) <==> NoLeadingZero(first) && NoLeadingZero(rest)
  {
    var t, n := first + ['.'] + rest, |first| + 1;
    assert forall i :: 0 <= i < |first| ==> t[i] == first[i];
    assert forall i :: 0 <= i < |rest| ==> t[n + i] == rest[i];
    if NoLeadingZero(t) {
      assert forall i :: 0 <= i < |rest| && rest[i] == '0' ==> t[n + i] == '0' && t[n + i - 1] != '.';
    }
    if NoLeadingZero(first) && NoLeadingZero(rest) {
      forall i | 0 <= i < |t| && t[i] == '0' ensures i != 0 && t[i - 1] != '.' {
        if i >= n { assert rest[i - n] == '0'; } else { assert first[i] == '0'; }
      }
    }
  }

  lemma ParsedIsNotEmpty(t: Text)
    requires t != [] && PathOf(t).Some?
    ensures PathOf(t).value != []
  {
  }

  lemma SameAtFirstDot(first: Text, rest: Text, n: Octet, more: Text)
    requires AllDigits(first)
    ensures Decimal(n) + ['.'] + more == first + ['.'] + rest <==> Decimal(n) == first && more == rest
  {
    hide DecimalValue;
    var t, u := first + (['.'] + rest), Decimal(n) + (['.'] + more);
    assert t == first + ['.'] + rest && u == Decimal(n) + ['.'] + more;
    if t == u {
      FindIs(t, '.', '.', |first|);
      FirstComponent(n, ['.'] + more);
      assert t[..|first|] == first && u[..|first|] == Decimal(n);
      assert t[|first| + 1..] == rest && u[|first| + 1..] == more;
    }
  }

  /** Printing a parsed path gives back its text exactly when the text has no dot at its end and no
      component with a zero in front. */
  lemma {:induction false} PrintedWhenCanonical(t: Text)
    requires t != [] && PathOf(t).Some?
    ensures Join(PathOf(t).value) == t <==> t[|t| - 1] != '.' && NoLeadingZero(t)
    decreases |t|
  {
    hide Component, Decimal, DecimalValue, NoLeadingZero;
    var dot := Find(t, '.', '.');
    var first := t[..dot];
    ComponentIsPrinted(first);
    LeadingZeros(first, t[if dot < |t| then dot + 1 else dot..]);
    if dot == |t| {
      assert first == t;
    } else {
      var rest := t[dot + 1..];
      assert t == first + ['.'] + rest;
      if rest == [] {
        DigitsOnly(Component(first).value, t);
      } else {
        ParsedIsNotEmpty(rest);
        PrintedWhenCanonical(rest);
        JoinMore(Component(first).value, PathOf(rest).value);
        SameAtFirstDot(first, rest, Component(first).value, Join(PathOf(rest).value));
      }
    }
  }

  lemma DigitsOnly(n: Octet, t: Text)
    requires t != [] && t[|t| - 1] == '.'
    ensures Join([n]) != t
  {
    assert AllDigits(Decimal(n));
  }

  lemma JoinMore(n: Octet, path: seq<Octet>)
    requires path != []
    ensures Join([n] + path) == Decimal(n) + ['.'] + Join(path)
  {
    assert ([n] + path)[1..] == path;
  }

  method ParsePortPath(t: Text) returns (r: Option<seq<Octet>>)
    ensures r == ParsePath(t)
  {
    var text, path: seq<Octet> := t, [];
    PrependTwice([], path, PathOf(t));
    while text != []
      invariant PathOf(t) == Prepend(path, PathOf(text))
      decreases |text|
    {
      hide Component;
      var dot := Find(text, '.', '.');
      var component := Component(text[..dot]);
      if component.None? { return None; }
      PrependTwice(path, [component.value], PathOf(if dot == |text| then [] else text[dot + 1..]));
      path := path + [component.value];
      if dot == |text| { return Some(path); }
      text := text[dot + 1..];
    }
    assert path + [] == path;
    return if path == [] then None else Some(path);
  }

  method PrintPath(path: seq<Octet>) returns (t: Text)
    ensures t == Join(path)
  {
    t := [];
    for i: nat := 0 to |path|
      invariant t == Join(path[..i])
    {
      JoinSnoc(path[..i], path[i]);
      assert path[..i + 1] == path[..i] + [path[i]];
      if i != 0 { t := t + ['.']; }
      t := t + Decimal(path[i]);
    }
    assert path[..|path|] == path;
  }

  lemma {:induction false} JoinSnoc(path: seq<Octet>, n: Octet)
    ensures Join(path + [n]) == if path == [] then Decimal(n) else Join(path) + ['.'] + Decimal(n)
  {
    if |path| == 1 {
      assert (path + [n])[1..] == [n];
    } else if |path| > 1 {
      assert (path + [n])[1..] == path[1..] + [n];
      JoinSnoc(path[1..], n);
    }
  }

  // Whole URIs

  function ParseHex16(t: Text): Option<nat> {
    var digits := if StartsWith(t, "0x") || StartsWith(t, "0X") then t[2..] else t;
    if digits == [] || !AllHex(digits) then None
    else if 0 < HexValue(digits) < 0x10000 then Some(HexValue(digits)) else None
  }

  function ParseIds(t: Text): Option<(nat, nat)> {
    if t == [] then Some((DEFAULT_VENDOR, DEFAULT_PRODUCT))
    else
      var colon := Find(t, ':', ':');
      if colon == |t| then None
      else
        var vendor, product := ParseHex16(t[..colon]), ParseHex16(t[colon + 1..]);
        if vendor.None? || product.None? then None else Some((vendor.value, product.value))
  }

  /** What follows the ids: a serial number or a port path. */
  function ParseSuffix(separator: Byte, t: Text): Option<(Option<Text>, Option<seq<Octet>>)> {
    if separator == '/' then
      var serial := Decode(t);
      if '?' in t || serial.None? then None else Some((serial, None))
    else if !StartsWith(t, PORT) then None
    else
      var path := ParsePath(t[|PORT|..]);
      if path.None? then None else Some((None, path))
  }

  function Parse(uri: Text): Option<Selector> {
    if !StartsWith(uri, SCHEME) then None
    else
      var rest := uri[|SCHEME|..];
      var k := Find(rest, '/', '?');
      var ids := ParseIds(rest[..k]);
      if ids.None? then None
      else if k == |rest| then Some(Selector(ids.value.0, ids.value.1, None, None))
      else
        var suffix := ParseSuffix(rest[k], rest[k + 1..]);
        if suffix.None? then None
        else Some(Selector(ids.value.0, ids.value.1, suffix.value.0, suffix.value.1))
  }

  function Ids(d: Device): Text { Hex4(d.vendor) + [':'] + Hex4(d.product) }

  function Suffix(d: Device): Text {
    if d.serial != [] then ['/'] + Encode(d.serial)
    else if d.path != [] then ['?'] + (PORT + Join(d.path))
    else []
  }

  function Print(d: Device): Text { SCHEME + (Ids(d) + Suffix(d)) }

  /** Whether a device's own URI can name it. */
  predicate Nameable(d: Device) {
    && d.vendor != 0 && d.product != 0 && NulFree(d.serial)
    && (d.serial == [] ==> Positive(d.path))
  }

  /** What a device's URI selects by: its serial number when it has one, else its port path. */
  function Key(d: Device): Selector {
    if d.serial != [] then Selector(d.vendor, d.product, Some(d.serial), None)
    else if d.path != [] then Selector(d.vendor, d.product, None, Some(d.path))
    else Selector(d.vendor, d.product, None, None)
  }

  lemma ParsedHex(n: Word16)
    ensures ParseHex16(Hex4(n)) == if n != 0 then Some(n) else None
  {
    hide HexValue;
    var t := Hex4(n);
    assert IsHex(t[1]);
    assert !StartsWith(t, "0x") && !StartsWith(t, "0X") by { assert t[..2][1] == t[1]; }
  }

  lemma IdsAreClean(d: Device)
    ensures |Ids(d)| == 9 && Ids(d)[4] == ':' && Ids(d)[..4] == Hex4(d.vendor) && Ids(d)[5..] == Hex4(d.product)
    ensures forall i :: 0 <= i < 9 ==> Ids(d)[i] != '/' && Ids(d)[i] != '?'
    ensures forall i :: 0 <= i < 4 ==> Ids(d)[i] != ':'
  {
    hide HexValue, Hex4;
    var v, p := Hex4(d.vendor), Hex4(d.product);
    assert forall i :: 0 <= i < 9 ==> i == 4 || IsHex(Ids(d)[i]);
  }

  lemma ParsedIds(d: Device)
    ensures ParseIds(Ids(d)) == if d.vendor != 0 && d.product != 0 then Some((d.vendor, d.product)) else None
  {
    hide Hex4, Ids, ParseHex16;
    IdsAreClean(d);
    FindIs(Ids(d), ':', ':', 4);
    ParsedHex(d.vendor);
    ParsedHex(d.product);
  }

  lemma ParsedSerial(d: Device)
    requires d.serial != []
    ensures ParseSuffix('/', Encode(d.serial)) == if NulFree(d.serial) then Some((Some(d.serial), None)) else None
  {
    hide Decode, Encode;
    RoundTrip(d.serial);
    EncodedIsClean(d.serial);
  }

  lemma ParsedPath(d: Device)
    requires d.path != []
    ensures ParseSuffix('?', PORT + Join(d.path)) == if Positive(d.path) then Some((None, Some(d.path))) else None
  {
    hide Join, PathOf;
    PathRoundTrip(d.path);
    assert (PORT + Join(d.path))[|PORT|..] == Join(d.path);
    assert (PORT + Join(d.path))[..|PORT|] == PORT;
  }

  /** A URI is its ids and what follows the first separator. */
  lemma ParseSplit(ids: Text, suffix: Text)
    requires forall i :: 0 <= i < |ids| ==> ids[i] != '/' && ids[i] != '?'
    requires suffix == [] || suffix[0] == '/' || suffix[0] == '?'
    ensures Parse(SCHEME + (ids + suffix)) ==
              if ParseIds(ids).None? then None
              else if suffix == [] then Some(Selector(ParseIds(ids).value.0, ParseIds(ids).value.1, None, None))
              else if ParseSuffix(suffix[0], suffix[1..]).None? then None
              else Some(Selector(ParseIds(ids).value.0, ParseIds(ids).value.1,
                                 ParseSuffix(suffix[0], suffix[1..]).value.0,
                                 ParseSuffix(suffix[0], suffix[1..]).value.1))
  {
    hide ParseIds, ParseSuffix;
    var uri, rest := SCHEME + (ids + suffix), ids + suffix;
    assert uri[..|SCHEME|] == SCHEME && uri[|SCHEME|..] == rest;
    FindIs(rest, '/', '?', |ids|);
    assert rest[..|ids|] == ids;
    if suffix != [] { assert rest[|ids| + 1..] == suffix[1..]; }
  }

  lemma SuffixParts(d: Device)
    ensures d.serial != [] ==> Suffix(d) != [] && Suffix(d)[0] == '/' && Suffix(d)[1..] == Encode(d.serial)
    ensures d.serial == [] && d.path != [] ==>
              Suffix(d) != [] && Suffix(d)[0] == '?' && Suffix(d)[1..] == PORT + Join(d.path)
    ensures d.serial == [] && d.path == [] ==> Suffix(d) == []
  {
    hide Encode, Join;
  }

  /** Parsing the URI printed for a device recovers exactly its ids and its serial number or path, or
      nothing when the URI cannot name it. */
  lemma ParsePrinted(d: Device)
    ensures Parse(Print(d)) == if Nameable(d) then Some(Key(d)) else None
  {
    hide Parse, Ids, Suffix, ParseIds, ParseSuffix, Encode, Join, NulFree, Positive;
    IdsAreClean(d);
    ParsedIds(d);
    SuffixParts(d);
    ParseSplit(Ids(d), Suffix(d));
    if d.serial != [] {
      ParsedSerial(d);
    } else {
      NoByteIsNul(d.serial);
      if d.path != [] { ParsedPath(d); } else { NoComponentIsZero(d.path); }
    }
  }

  lemma NoByteIsNul(t: Text)
    requires t == []
    ensures NulFree(t)
  {
  }

  lemma NoComponentIsZero(path: seq<Octet>)
    requires path == []
    ensures Positive(path)
  {
  }

  /** Two nameable devices print the same URI exactly when they are selected by the same key. */
  lemma PrintedUrisAreKeys(d: Device, e: Device)
    requires Nameable(d) && Nameable(e)
    ensures Print(d) == Print(e) <==> Key(d) == Key(e)
  {
    hide Parse, Nameable, Encode, Join, Hex4;
    ParsePrinted(d);
    ParsePrinted(e);
  }

  // Selection

  datatype Error = NoError | InvalidUri | NotFound | Ambiguous
  datatype Selection = Selection(error: Error, device: Option<Device>, count: nat)

  predicate Matches(s: Selector, d: Device) {
    && d.vendor == s.vendor && d.product == s.product
    && (s.serial.Some? ==> d.serial == s.serial.value)
    && (s.path.Some? ==> d.path == s.path.value)
  }

  function Matching(devices: seq<Device>, s: Selector): seq<Device> {
    if devices == [] then []
    else
      var before := Matching(devices[..|devices| - 1], s);
      if Matches(s, devices[|devices| - 1]) then before + [devices[|devices| - 1]] else before
  }

  function Select(devices: seq<Device>, uri: Text): Selection {
    var s := Parse(uri);
    if s.None? then Selection(InvalidUri, None, 0)
    else
      var found := Matching(devices, s.value);
      if |found| == 0 then Selection(NotFound, None, 0)
      else if |found| > 1 then Selection(Ambiguous, None, |found|)
      else Selection(NoError, Some(found[0]), 1)
  }

  method SelectDevice(devices: seq<Device>, uri: Text) returns (r: Selection)
    ensures r == Select(devices, uri)
  {
    var selector := Parse(uri);
    if selector.None? { return Selection(InvalidUri, None, 0); }
    var selected, count := None, 0;
    for i: nat := 0 to |devices|
      invariant count == |Matching(devices[..i], selector.value)|
      invariant selected == if count == 0 then None else Some(Matching(devices[..i], selector.value)[0])
    {
      hide Parse;
      assert devices[..i + 1][..i] == devices[..i];
      if Matches(selector.value, devices[i]) {
        count := count + 1;
        if selected == None { selected := Some(devices[i]); }
      }
    }
    assert devices[..|devices|] == devices;
    if count == 0 { return Selection(NotFound, None, 0); }
    if count > 1 { return Selection(Ambiguous, None, count); }
    return Selection(NoError, selected, 1);
  }

  /** No listed device but the i-th matches. */
  predicate OnlyMatch(devices: seq<Device>, s: Selector, i: nat) {
    forall j: nat :: j < |devices| && j != i ==> !Matches(s, devices[j])
  }

  lemma {:induction false} NoneMatching(devices: seq<Device>, s: Selector)
    ensures Matching(devices, s) == [] <==> forall j: nat :: j < |devices| ==> !Matches(s, devices[j])
  {
    if devices != [] {
      var init := devices[..|devices| - 1];
      NoneMatching(init, s);
      assert forall j: nat :: j < |init| ==> devices[j] == init[j];
      if forall j: nat :: j < |init| ==> !Matches(s, init[j]) {
      } else {
        var j: nat :| j < |init| && Matches(s, init[j]);
        assert Matches(s, devices[j]);
      }
    }
  }

  lemma {:induction false} OneMatching(devices: seq<Device>, s: Selector, i: nat)
    requires i < |devices| && Matches(s, devices[i])
    ensures |Matching(devices, s)| == 1 <==> OnlyMatch(devices, s, i)
    ensures Matching(devices, s) != []
    ensures |Matching(devices, s)| == 1 ==> Matching(devices, s)[0] == devices[i]
  {
    hide Matches;
    var n := |devices| - 1;
    var init := devices[..n];
    if i == n {
      NoneMatching(init, s);
      assert OnlyMatch(devices, s, i) <==> forall j: nat :: j < |init| ==> !Matches(s, init[j]);
    } else {
      assert init[i] == devices[i];
      OneMatching(init, s, i);
      assert OnlyMatch(devices, s, i) <==> OnlyMatch(init, s, i) && !Matches(s, devices[n]);
    }
  }

  lemma MatchesItsKey(d: Device)
    ensures Matches(Key(d), d)
  {
  }

  /** Selecting by the URI printed for a listed device returns that device exactly when no other
      listed device has the same ids and the same serial number or port path. */
  lemma SelectsItself(devices: seq<Device>, i: nat)
    requires i < |devices|
    ensures var r, d := Select(devices, Print(devices[i])), devices[i];
            if !Nameable(d) then r.error.InvalidUri?
            else if OnlyMatch(devices, Key(d), i) then r == Selection(NoError, Some(d), 1)
            else r.error.Ambiguous? && r.count > 1
  {
    hide Parse, Print, Nameable, Key, Matching, OnlyMatch, Matches;
    ParsePrinted(devices[i]);
    MatchesItsKey(devices[i]);
    OneMatching(devices, Key(devices[i]), i);
  }
}
