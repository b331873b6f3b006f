/** The `exfer:` payment URI codec (src/payment_uri.rs), on UTF-8 bytes. */
module PaymentUri {
  import opened Common
  import opened Bytes
  import opened Utf8
  import opened Ascii

  /** `title` is the source's label field. */
  datatype Uri = Uri(
    address: Text, amount: Option<u64>, memo: Option<Text>, hashLock: Option<Text>, timeout: Option<u64>, title: Option<Text>)

  datatype UriError = WrongScheme | BadAddress | MalformedQuery | BadAmount | BadHashLock | BadTimeout | InvalidUtf8

  const PERCENT: byte := 37
  const AMPERSAND: byte := 38
  const PLUS: byte := 43
  const EQUALS: byte := 61
  const QUESTION: byte := 63

  /** The keys and the scheme, in ASCII. */
  const SCHEME: Str := [101, 120, 102, 101, 114, 58]
  const AMOUNT: Str := [97, 109, 111, 117, 110, 116]
  const MEMO: Str := [109, 101, 109, 111]
  const HASH_LOCK: Str := [104, 97, 115, 104, 95, 108, 111, 99, 107]
  const TIMEOUT: Str := [116, 105, 109, 101, 111, 117, 116]
  const LABEL: Str := [108, 97, 98, 101, 108]

  // ----- percent coding (sections 2.1 and 2.3 of RFC 3986) -----

  predicate Unreserved(b: byte) {
    65 <= b <= 90 || 97 <= b <= 122 || 48 <= b <= 57 || b == 45 || b == 95 || b == 46 || b == 126
  }

  function HexNibble(n: nat): byte
    requires n < 16
  {
    if n < 10 then 48 + n else 55 + n
  }

  function Escape(b: byte): Str {
    if Unreserved(b) then [b] else [PERCENT, HexNibble(b / 16), HexNibble(b % 16)]
  }

  function Escaped(s: Str): Str { if s == [] then [] else Escaped(s[..|s|-1]) + Escape(s[|s|-1]) }

  method PercentEncode(s: Str) returns (out: Str)
    ensures out == Escaped(s)
  {
    out := [];
    for i := 0 to |s|
      invariant out == Escaped(s[..i])
    {
      assert s[..i+1][..i] == s[..i];
      if Unreserved(s[i]) {
        out := out + [s[i]];
      } else {
        out := out + [PERCENT];
        out := out + [HexNibble(s[i] / 16)];
        out := out + [HexNibble(s[i] % 16)];
      }
    }
    assert s[..|s|] == s;
  }

  /** The bytes a percent-coded string stands for. */
  function Unescaped(s: Str): Option<Str> {
    if s == [] then Some([])
    else if s[0] != PERCENT then
      match Unescaped(s[1..])
      case None => None
      case Some(rest) => Some([s[0]] + rest)
    else if |s| < 3 || ParseHexNibble(s[1]).None? || ParseHexNibble(s[2]).None? then None
    else
      match Unescaped(s[3..])
      case None => None
      case Some(rest) => Some([ParseHexNibble(s[1]).value * 16 + ParseHexNibble(s[2]).value] + rest)
  }

  function PercentDecoded(s: Str): Result<Text, UriError> {
    match Unescaped(s)
    case None => Err(MalformedQuery)
    case Some(bytes) => if ValidUtf8(bytes) then Ok(bytes) else Err(InvalidUtf8)
  }

  method PercentDecode(s: Str) returns (r: Result<Text, UriError>)
    ensures r == PercentDecoded(s)
  {
    hide ValidUtf8;
    var out: Str := [];
    var i := 0;
    assert s[0..] == s;
    PrefixedNothing(Unescaped(s));
    while i < |s|
      invariant i <= |s|
      invariant Unescaped(s) == Prefixed(out, Unescaped(s[i..]))
    {
      ghost var rest := s[i..];
      assert rest[0] == s[i] && rest[1..] == s[i + 1..];
      if s[i] == PERCENT {
        if i + 2 >= |s| { return Err(MalformedQuery); }
        assert rest[1] == s[i + 1] && rest[2] == s[i + 2] && rest[3..] == s[i + 3..];
        var hi, lo := ParseHexNibble(s[i + 1]), ParseHexNibble(s[i + 2]);
        if hi.None? || lo.None? { return Err(MalformedQuery); }
        PrefixedTwice(out, [hi.value * 16 + lo.value], Unescaped(s[i + 3..]));
        out := out + [hi.value * 16 + lo.value];
        i := i + 3;
      } else {
        PrefixedTwice(out, [s[i]], Unescaped(s[i + 1..]));
        out := out + [s[i]];
        i := i + 1;
      }
    }
    assert s[i..] == [];
    assert out + [] == out;
    if ValidUtf8(out) { r := Ok(out); } else { r := Err(InvalidUtf8); }
  }

  function Prefixed(a: Str, r: Option<Str>): Option<Str> {
    match r
    case None => None
    case Some(s) => Some(a + s)
  }

  lemma PrefixedNothing(r: Option<Str>)
    ensures Prefixed([], r) == r
  {
    if r.Some? { assert [] + r.value == r.value; }
  }

  lemma PrefixedTwice(a: Str, b: Str, r: Option<Str>)
    ensures Prefixed(a + b, r) == Prefixed(a, Prefixed(b, r))
  {
    if r.Some? { assert a + b + r.value == a + (b + r.value); }
  }

  lemma NibbleRoundTrip(n: nat)
    requires n < 16
    ensures ParseHexNibble(HexNibble(n)) == Some(n) && HexNibble(n) != PERCENT
  {
  }

  /** Decoding what was encoded gives it back, whatever follows. */
  lemma {:induction false} UnescapeEscaped(s: Str, tail: Str)
    ensures Unescaped(Escaped(s) + tail) == Prefixed(s, Unescaped(tail))
    decreases |s|
  {
    if s == [] {
      assert [] + tail == tail;
      PrefixedNothing(Unescaped(tail));
    } else {
      var front, b := s[..|s|-1], s[|s|-1];
      UnescapeEscaped(front, Escape(b) + tail);
      assert Escaped(s) + tail == Escaped(front) + (Escape(b) + tail);
      UnescapeOne(b, tail);
      PrefixedTwice(front, [b], Unescaped(tail));
      assert front + [b] == s;
    }
  }

  lemma UnescapeOne(b: byte, tail: Str)
    ensures Unescaped(Escape(b) + tail) == Prefixed([b], Unescaped(tail))
  {
    var e := Escape(b) + tail;
    if Unreserved(b) {
      assert e[1..] == tail;
    } else {
      NibbleRoundTrip(b / 16);
      NibbleRoundTrip(b % 16);
      assert e[3..] == tail && e[1] == HexNibble(b / 16) && e[2] == HexNibble(b % 16);
    }
  }

  /** Percent coding undoes itself on every UTF-8 string. */
  lemma PercentRoundTrip(s: Text)
    ensures PercentDecoded(Escaped(s)) == Ok(s)
  {
    hide ValidUtf8;
    UnescapeEscaped(s, []);
    assert Escaped(s) + [] == Escaped(s) && s + [] == s;
  }

  /** An escaped string never contains a URI delimiter. */
  lemma {:induction false} EscapedHasNo(s: Str, b: byte)
    requires b in {AMPERSAND, EQUALS, QUESTION}
    ensures Without(Escaped(s), b)
  {
    if s != [] { EscapedHasNo(s[..|s|-1], b); }
  }

  // ----- decimal numbers -----

  /** u64::to_string. */
  function Decimal(n: nat): (s: Str)
    ensures |s| >= 1 && forall i :: 0 <= i < |s| ==> Digit(s[i])
  {
    if n < 10 then [48 + n] else Decimal(n / 10) + [48 + n % 10]
  }

  lemma {:induction false} DecimalValue(n: nat)
    ensures DigitsValue(Decimal(n)) == n
  {
    if n >= 10 {
      DecimalValue(n / 10);
      assert Decimal(n)[..|Decimal(n)|-1] == Decimal(n / 10);
    } else {
      assert Decimal(n)[..0] == [];
    }
  }

  /** u64::from_str: an optional plus sign, then at least one digit, and no overflow. */
  function ParseU64(s: Str): Option<u64> {
    var d := if s != [] && s[0] == PLUS then s[1..] else s;
    if d == [] || !(forall i :: 0 <= i < |d| ==> Digit(d[i])) || DigitsValue(d) > U64_MAX then None
    else Some(DigitsValue(d))
  }

  lemma ParseDecimal(n: u64)
    ensures ParseU64(Decimal(n)) == Some(n)
  {
    DecimalValue(n);
    assert Digit(Decimal(n)[0]);
  }

  // ----- hex fields -----

  predicate LowerHexByte(b: byte) { 48 <= b <= 57 || 97 <= b <= 102 }

  predicate HexByte(b: byte) { LowerHexByte(b) || 65 <= b <= 70 }

  predicate Hex64(s: Str) { |s| == 64 && forall i :: 0 <= i < |s| ==> HexByte(s[i]) }

  predicate LowerHex64(s: Str) { |s| == 64 && forall i :: 0 <= i < |s| ==> LowerHexByte(s[i]) }

  lemma LowerHexText(s: Str)
    requires Hex64(s)
    ensures LowerHex64(ToLower(s)) && ValidUtf8(ToLower(s))
    ensures LowerHex64(s) ==> ToLower(s) == s
  {
    hide ValidUtf8;
    AsciiIsUtf8(ToLower(s));
  }

  // ----- splitting -----

  /** str::split on '&'. */
  function Split(s: Str): (parts: seq<Str>)
    ensures |parts| >= 1
    decreases |s|
  {
    var i := Find(s, AMPERSAND);
    if i == |s| then [s] else [s[..i]] + Split(s[i + 1..])
  }

  function Joined(parts: seq<Str>): Str {
    if parts == [] then [] else if |parts| == 1 then parts[0] else parts[0] + [AMPERSAND] + Joined(parts[1..])
  }

  lemma {:induction false} SplitJoined(parts: seq<Str>)
    requires parts != [] && forall i :: 0 <= i < |parts| ==> Without(parts[i], AMPERSAND)
    ensures Split(Joined(parts)) == parts
    decreases |parts|
  {
    if |parts| == 1 {
      FindNone(parts[0], AMPERSAND);
    } else {
      SplitJoined(parts[1..]);
      FindAt(parts[0], AMPERSAND, Joined(parts[1..]));
      var s := Joined(parts);
      assert s[..|parts[0]|] == parts[0] && s[|parts[0]| + 1..] == Joined(parts[1..]);
      assert parts == [parts[0]] + parts[1..];
    }
  }

  // ----- parameters -----

  /** One key=value pair of the query. */
  function ApplyParam(out: Uri, kv: Str): Result<Uri, UriError> {
    var i := Find(kv, EQUALS);
    if i == |kv| then Err(MalformedQuery)
    else ApplyValue(out, kv[..i], kv[i + 1..])
  }

  function ApplyValue(out: Uri, k: Str, v: Str): Result<Uri, UriError> {
    if k == AMOUNT then
      match ParseU64(v) case Some(n) => Ok(out.(amount := Some(n))) case None => Err(BadAmount)
    else if k == MEMO then
      match PercentDecoded(v) case Ok(m) => Ok(out.(memo := Some(m))) case Err(e) => Err(e)
    else if k == HASH_LOCK then
      if Hex64(v) then (LowerHexText(v); Ok(out.(hashLock := Some(ToLower(v))))) else Err(BadHashLock)
    else if k == TIMEOUT then
      match ParseU64(v) case Some(n) => Ok(out.(timeout := Some(n))) case None => Err(BadTimeout)
    else if k == LABEL then
      match PercentDecoded(v) case Ok(m) => Ok(out.(title := Some(m))) case Err(e) => Err(e)
    else Ok(out)
  }

  /** All pairs in order: a later value for a key replaces an earlier one. */
  function ApplyAll(out: Uri, kvs: seq<Str>): Result<Uri, UriError> {
    if kvs == [] then Ok(out)
    else
      match ApplyAll(out, kvs[..|kvs|-1])
      case Err(e) => Err(e)
      case Ok(u) => ApplyParam(u, kvs[|kvs|-1])
  }

  function Bare(address: Text): Uri { Uri(address, None, None, None, None, None) }

  function Decoded(uri: Str): Result<Uri, UriError> {
    if !(SCHEME <= uri) then Err(WrongScheme)
    else
      var rest := uri[|SCHEME|..];
      var i := Find(rest, QUESTION);
      if !Hex64(rest[..i]) then Err(BadAddress)
      else
        LowerHexText(rest[..i]);
        if i + 1 >= |rest| then Ok(Bare(ToLower(rest[..i])))
        else ApplyAll(Bare(ToLower(rest[..i])), Split(rest[i + 1..]))
  }

  method Decode(uri: Str) returns (r: Result<Uri, UriError>)
    ensures r == Decoded(uri)
  {
    hide ValidUtf8, ApplyParam, Hex64, ToLower;
    if !(SCHEME <= uri) { return Err(WrongScheme); }
    var rest := uri[|SCHEME|..];
    var i := Find(rest, QUESTION);
    if !Hex64(rest[..i]) { return Err(BadAddress); }
    LowerHexText(rest[..i]);
    var out := Bare(ToLower(rest[..i]));
    if i + 1 >= |rest| { return Ok(out); }
    ghost var bare := out;
    var kvs := Split(rest[i + 1..]);
    for j := 0 to |kvs|
      invariant ApplyAll(bare, kvs[..j]) == Ok(out)
    {
      assert kvs[..j + 1][..j] == kvs[..j];
      var applied := ApplyParam(out, kvs[j]);
      if applied.Err? {
        ErrSticks(bare, kvs, j + 1);
        return Err(applied.error);
      }
      out := applied.value;
    }
    assert kvs[..|kvs|] == kvs;
    return Ok(out);
  }

  lemma {:induction false} ErrSticks(out: Uri, kvs: seq<Str>, j: nat)
    requires j <= |kvs| && ApplyAll(out, kvs[..j]).Err?
    ensures ApplyAll(out, kvs) == ApplyAll(out, kvs[..j])
    decreases |kvs|
  {
    if j < |kvs| {
      assert kvs[..|kvs|-1][..j] == kvs[..j];
      ErrSticks(out, kvs[..|kvs|-1], j);
    } else {
      assert kvs[..j] == kvs;
    }
  }

  // ----- encoding -----

  function NumberParam(key: Str, v: Option<u64>): seq<Str> { if v.Some? then [key + [EQUALS] + Decimal(v.value)] else [] }

  function TextParam(key: Str, v: Option<Text>): seq<Str> { if v.Some? then [key + [EQUALS] + Escaped(v.value)] else [] }

  function HexParam(key: Str, v: Option<Text>): seq<Str> { if v.Some? then [key + [EQUALS] + v.value] else [] }

  function Params(p: Uri): seq<Str> {
    NumberParam(AMOUNT, p.amount) + TextParam(MEMO, p.memo) + HexParam(HASH_LOCK, p.hashLock)
    + NumberParam(TIMEOUT, p.timeout) + TextParam(LABEL, p.title)
  }

  function Encoded(p: Uri): Str {
    SCHEME + p.address + (if Params(p) == [] then [] else [QUESTION] + Joined(Params(p)))
  }

  /** The address and hash lock are lowercase hex of 32 bytes. */
  predicate Canonical(p: Uri) { LowerHex64(p.address) && (p.hashLock.Some? ==> LowerHex64(p.hashLock.value)) }

  /** The query as push_param grows it. */
  function Query(params: seq<Str>): Str {
    if params == [] then []
    else Query(params[..|params|-1]) + [if |params| == 1 then QUESTION else AMPERSAND] + params[|params|-1]
  }

  lemma {:induction false} JoinedGrows(params: seq<Str>, x: Str)
    requires params != []
    ensures Joined(params + [x]) == Joined(params) + [AMPERSAND] + x
  {
    assert params + [x] == [params[0]] + (params[1..] + [x]);
    if |params| > 1 {
      JoinedGrows(params[1..], x);
      assert params[0] + [AMPERSAND] + (Joined(params[1..]) + [AMPERSAND] + x)
          == params[0] + [AMPERSAND] + Joined(params[1..]) + [AMPERSAND] + x;
    } else {
      assert (params + [x])[1..] == [x];
    }
  }

  lemma {:induction false} QueryIsJoined(params: seq<Str>)
    ensures Query(params) == if params == [] then [] else [QUESTION] + Joined(params)
  {
    if |params| == 1 {
      assert params[..0] == [] && Query([]) == [];
    } else if |params| > 1 {
      var init, x := params[..|params|-1], params[|params|-1];
      QueryIsJoined(init);
      JoinedGrows(init, x);
      assert init + [x] == params;
      assert [QUESTION] + Joined(init) + [AMPERSAND] + x == [QUESTION] + (Joined(init) + [AMPERSAND] + x);
    }
  }

  method PushParam(uri: Str, first: bool, key: Str, value: Str, ghost head: Str, ghost params: seq<Str>)
    returns (uri': Str, ghost params': seq<Str>)
    requires uri == head + Query(params) && first == (params == [])
    ensures params' == params + [key + [EQUALS] + value] && uri' == head + Query(params')
  {
    params' := params + [key + [EQUALS] + value];
    assert params'[..|params|] == params;
    uri' := uri + [if first then QUESTION else AMPERSAND];
    uri' := uri' + key;
    uri' := uri' + [EQUALS];
    uri' := uri' + value;
    assert uri' == head + (Query(params) + [if first then QUESTION else AMPERSAND] + (key + [EQUALS] + value));
  }

  method Encode(p: Uri) returns (uri: Str)
    ensures uri == Encoded(p)
  {
    hide Query, Joined, Decimal, Escaped, ValidUtf8;
    uri := SCHEME;
    uri := uri + p.address;
    ghost var head, params := uri, [];
    QueryIsJoined([]);
    assert uri == head + [];
    var first := true;
    if p.amount.Some? {
      uri, params := PushParam(uri, first, AMOUNT, Decimal(p.amount.value), head, params);
      first := false;
    }
    if p.memo.Some? {
      var value := PercentEncode(p.memo.value);
      uri, params := PushParam(uri, first, MEMO, value, head, params);
      first := false;
    }
    if p.hashLock.Some? {
      uri, params := PushParam(uri, first, HASH_LOCK, p.hashLock.value, head, params);
      first := false;
    }
    if p.timeout.Some? {
      uri, params := PushParam(uri, first, TIMEOUT, Decimal(p.timeout.value), head, params);
      first := false;
    }
    if p.title.Some? {
      var value := PercentEncode(p.title.value);
      uri, params := PushParam(uri, first, LABEL, value, head, params);
      first := false;
    }
    assert params == Params(p);
    QueryIsJoined(params);
  }

  // ----- round trips -----

  lemma {:induction false} ApplyInTurn(out: Uri, a: seq<Str>, b: seq<Str>)
    ensures ApplyAll(out, a + b) == match ApplyAll(out, a) case Err(e) => Err(e) case Ok(u) => ApplyAll(u, b)
    decreases |b|
  {
    hide ApplyParam;
    if b == [] {
      assert a + b == a;
    } else {
      ApplyInTurn(out, a, b[..|b|-1]);
      assert (a + b)[..|a + b|-1] == a + b[..|b|-1];
    }
  }

  lemma ApplyLast(out: Uri, kv: Str)
    ensures ApplyAll(out, [kv]) == ApplyParam(out, kv)
  {
    hide ApplyParam;
    var kvs := [kv];
    assert kvs[..0] == [] && ApplyAll(out, kvs[..0]) == Ok(out);
  }

  lemma ApplyKeyValue(out: Uri, k: Str, v: Str)
    requires Without(k, EQUALS)
    ensures ApplyAll(out, [k + [EQUALS] + v]) == ApplyValue(out, k, v)
  {
    hide ApplyValue;
    var kv := k + [EQUALS] + v;
    FindAt(k, EQUALS, v);
    assert kv[..|k|] == k && kv[|k| + 1..] == v;
    ApplyLast(out, kv);
  }

  lemma ApplyNumber(out: Uri, v: Option<u64>)
    ensures out.amount == None ==> ApplyAll(out, NumberParam(AMOUNT, v)) == Ok(out.(amount := v))
    ensures out.timeout == None ==> ApplyAll(out, NumberParam(TIMEOUT, v)) == Ok(out.(timeout := v))
  {
    hide ApplyAll, ParseU64, Decimal, ValidUtf8;
    if v.Some? {
      ParseDecimal(v.value);
      ApplyKeyValue(out, AMOUNT, Decimal(v.value));
      ApplyKeyValue(out, TIMEOUT, Decimal(v.value));
    } else {
      ApplyNone(out);
    }
  }

  lemma ApplyNone(out: Uri)
    ensures ApplyAll(out, []) == Ok(out)
  {
  }

  lemma ApplyText(out: Uri, v: Option<Text>)
    ensures out.memo == None ==> ApplyAll(out, TextParam(MEMO, v)) == Ok(out.(memo := v))
    ensures out.title == None ==> ApplyAll(out, TextParam(LABEL, v)) == Ok(out.(title := v))
  {
    hide ApplyAll, PercentDecoded, Escaped, ValidUtf8;
    if v.Some? {
      PercentRoundTrip(v.value);
      ApplyKeyValue(out, MEMO, Escaped(v.value));
      ApplyKeyValue(out, LABEL, Escaped(v.value));
    } else {
      ApplyNone(out);
    }
  }

  lemma ApplyHex(out: Uri, v: Option<Text>)
    requires out.hashLock == None && (v.Some? ==> LowerHex64(v.value))
    ensures ApplyAll(out, HexParam(HASH_LOCK, v)) == Ok(out.(hashLock := v))
  {
    hide ApplyAll, ToLower, ValidUtf8;
    if v.Some? {
      LowerHexText(v.value);
      ApplyKeyValue(out, HASH_LOCK, v.value);
    } else {
      ApplyNone(out);
    }
  }

  lemma ApplyParams(p: Uri)
    requires Canonical(p)
    ensures ApplyAll(Bare(p.address), Params(p)) == Ok(p)
  {
    hide ApplyAll, NumberParam, TextParam, HexParam, ValidUtf8;
    var u0 := Bare(p.address);
    var u1 := u0.(amount := p.amount);
    var u2 := u1.(memo := p.memo);
    var u3 := u2.(hashLock := p.hashLock);
    var u4 := u3.(timeout := p.timeout);
    var a, b, c, d, e := NumberParam(AMOUNT, p.amount), TextParam(MEMO, p.memo), HexParam(HASH_LOCK, p.hashLock),
                         NumberParam(TIMEOUT, p.timeout), TextParam(LABEL, p.title);
    ApplyNumber(u0, p.amount);
    ApplyText(u1, p.memo);
    ApplyHex(u2, p.hashLock);
    ApplyNumber(u3, p.timeout);
    ApplyText(u4, p.title);
    ApplyInTurn(u0, a, b);
    ApplyInTurn(u0, a + b, c);
    ApplyInTurn(u0, a + b + c, d);
    ApplyInTurn(u0, a + b + c + d, e);
  }

  lemma ParamsHaveNo(p: Uri, i: nat)
    requires Canonical(p) && i < |Params(p)|
    ensures Without(Params(p)[i], AMPERSAND)
  {
    hide ValidUtf8, Decimal, Escaped;
    if p.memo.Some? { EscapedHasNo(p.memo.value, AMPERSAND); }
    if p.title.Some? { EscapedHasNo(p.title.value, AMPERSAND); }
    if p.amount.Some? { DigitsHaveNo(p.amount.value, AMPERSAND); }
    if p.timeout.Some? { DigitsHaveNo(p.timeout.value, AMPERSAND); }
  }

  lemma DigitsHaveNo(n: nat, b: byte)
    requires !Digit(b)
    ensures Without(Decimal(n), b)
  {
  }

  lemma DecodeUndoesEncode(p: Uri)
    requires Canonical(p)
    ensures Decoded(Encoded(p)) == Ok(p)
  {
    hide ApplyAll, Params, Joined, Split, ToLower, ValidUtf8;
    var uri := Encoded(p);
    var query := if Params(p) == [] then [] else [QUESTION] + Joined(Params(p));
    var rest := p.address + query;
    assert uri == SCHEME + rest;
    assert SCHEME <= uri && uri[|SCHEME|..] == rest;
    LowerHexText(p.address);
    ApplyParams(p);
    assert Without(p.address, QUESTION);
    if Params(p) == [] {
      assert rest == p.address;
      FindNone(rest, QUESTION);
      assert rest[..64] == p.address;
      ApplyNone(Bare(p.address));
    } else {
      assert rest == p.address + [QUESTION] + Joined(Params(p));
      FindAt(p.address, QUESTION, Joined(Params(p)));
      assert rest[..64] == p.address && rest[65..] == Joined(Params(p));
      forall i | 0 <= i < |Params(p)| ensures Without(Params(p)[i], AMPERSAND) { ParamsHaveNo(p, i); }
      SplitJoined(Params(p));
      JoinedNonEmpty(p);
    }
  }

  lemma JoinedNonEmpty(p: Uri)
    requires Params(p) != []
    ensures |Joined(Params(p))| > 0
  {
    hide Escaped, Decimal, ValidUtf8;
    assert |Params(p)[0]| > 0;
  }

  lemma {:induction false} AppliedCanonical(out: Uri, kvs: seq<Str>)
    requires Canonical(out) && ApplyAll(out, kvs).Ok?
    ensures Canonical(ApplyAll(out, kvs).value)
  {
    hide ParseU64, PercentDecoded, ToLower, ValidUtf8;
    if kvs != [] {
      AppliedCanonical(out, kvs[..|kvs|-1]);
      var kv := kvs[|kvs|-1];
      var v := kv[if Find(kv, EQUALS) < |kv| then Find(kv, EQUALS) + 1 else |kv|..];
      if Hex64(v) { LowerHexText(v); }
    }
  }

  /** Whatever decodes is canonical, so a decoded request survives encoding and decoding again. */
  lemma DecodedRoundTrips(uri: Str)
    requires Decoded(uri).Ok?
    ensures Canonical(Decoded(uri).value) && Decoded(Encoded(Decoded(uri).value)) == Decoded(uri)
  {
    hide ApplyAll, Split, ToLower, ValidUtf8;
    var rest := uri[|SCHEME|..];
    var i := Find(rest, QUESTION);
    LowerHexText(rest[..i]);
    if i + 1 < |rest| { AppliedCanonical(Bare(ToLower(rest[..i])), Split(rest[i + 1..])); }
    DecodeUndoesEncode(Decoded(uri).value);
  }

  /** A request survives encoding and decoding exactly when its address and hash lock are lowercase hex of
      32 bytes. */
  lemma RoundTripIff(p: Uri)
    ensures Decoded(Encoded(p)) == Ok(p) <==> Canonical(p)
  {
    hide Decoded, Encoded, ValidUtf8;
    if Decoded(Encoded(p)) == Ok(p) { DecodedRoundTrips(Encoded(p)); }
    if Canonical(p) { DecodeUndoesEncode(p); }
  }
}
