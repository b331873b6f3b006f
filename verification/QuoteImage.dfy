/** The binary signing image of a quote (src/api/quote.rs). */
module QuoteImage {
  import opened Common
  import opened Bytes
  import opened Utf8

  type Id16 = s: Str | |s| == 16 witness seq(16, i => 0)

  datatype Quote = Quote(
    version: byte, quoteId: Id16, currency: Text, amountMinor: u64, rate: u64, exferAmount: u64,
    payee: Hash32, payer: Option<Hash32>, issuedAt: u64, expiresAt: u64, memo: Text)

  datatype DecodeError = Truncated | BadDomain | NotUtf8 | BadPayerFlag | TrailingBytes

  /** "EXFER-QUOTE" in ASCII. */
  const DOMAIN: Str := [69, 88, 70, 69, 82, 45, 81, 85, 79, 84, 69]
  const QUOTE_VERSION: byte := 1
  const MIN_CURRENCY_LEN: nat := 3
  const MAX_CURRENCY_LEN: nat := 12
  const MAX_MEMO_BYTES: nat := 256

  // ----- the layout, from the back -----

  /** The length fields are truncating casts. */
  function TimesImage(q: Quote): Str { Be(q.issuedAt, 8) + (Be(q.expiresAt, 8) + (Be(|q.memo| % 0x1_0000, 2) + q.memo)) }

  function PayerImage(q: Quote): Str {
    match q.payer
    case Some(pk) => [1] + (pk + TimesImage(q))
    case None => [0] + TimesImage(q)
  }

  function AmountsImage(q: Quote): Str {
    Be(q.amountMinor, 8) + (Be(q.rate, 8) + (Be(q.exferAmount, 8) + (q.payee + PayerImage(q))))
  }

  function SigningImage(q: Quote, genesis: Hash32): Str {
    DOMAIN + (genesis + ([q.version] + (q.quoteId + ([|q.currency| % 256] + (q.currency + AmountsImage(q))))))
  }

  predicate Encodable(q: Quote) { |q.currency| <= 255 && |q.memo| <= 65535 }

  /** Append one field; `rest` is what is still to come. */
  method Push(out: Str, field: Str, ghost rest: Str) returns (out': Str)
    ensures out' == out + field && out' + rest == out + (field + rest)
  {
    out' := out + field;
  }

  method BuildImage(q: Quote, genesis: Hash32) returns (out: Str)
    ensures out == SigningImage(q, genesis)
  {
    hide Be, ValidUtf8;
    ghost var afterExpires := Be(|q.memo| % 0x1_0000, 2) + q.memo;
    ghost var afterIssued := Be(q.expiresAt, 8) + afterExpires;
    ghost var afterExfer := q.payee + PayerImage(q);
    ghost var afterRate := Be(q.exferAmount, 8) + afterExfer;
    ghost var afterAmount := Be(q.rate, 8) + afterRate;
    ghost var afterLength := q.currency + AmountsImage(q);
    ghost var afterId := [|q.currency| % 256] + afterLength;
    ghost var afterVersion := q.quoteId + afterId;
    ghost var afterGenesis := [q.version] + afterVersion;
    out := DOMAIN;
    out := Push(out, genesis, afterGenesis);
    out := Push(out, [q.version], afterVersion);
    out := Push(out, q.quoteId, afterId);
    out := Push(out, [|q.currency| % 256], afterLength);
    out := Push(out, q.currency, AmountsImage(q));
    out := Push(out, Be(q.amountMinor, 8), afterAmount);
    out := Push(out, Be(q.rate, 8), afterRate);
    out := Push(out, Be(q.exferAmount, 8), afterExfer);
    out := Push(out, q.payee, PayerImage(q));
    match q.payer {
      case Some(pk) =>
        out := Push(out, [1], pk + TimesImage(q));
        out := Push(out, pk, TimesImage(q));
      case None =>
        out := Push(out, [0], TimesImage(q));
    }
    out := Push(out, Be(q.issuedAt, 8), afterIssued);
    out := Push(out, Be(q.expiresAt, 8), afterExpires);
    out := Push(out, Be(|q.memo| % 0x1_0000, 2), q.memo);
    out := Push(out, q.memo, []);
  }

  // ----- no image is a prefix of another -----

  /** Same-length fronts of two strings, one a prefix of the other. */
  lemma FrontsAgree(a: Str, r: Str, b: Str, s: Str)
    requires |a| == |b| && a + r <= b + s
    ensures a == b && r <= s
  {
    assert (a + r)[..|a|] == a && (b + s)[..|a|] == b;
    assert (a + r)[|a|..] == r && (b + s)[|a|..] == s;
    assert (a + r)[..|a|] == (b + s)[..|a|];
  }

  lemma NumbersAgree(m: nat, r: Str, n: nat, s: Str, k: nat)
    requires m < Pow256(k) && n < Pow256(k) && Be(m, k) + r <= Be(n, k) + s
    ensures m == n && r <= s
  {
    FrontsAgree(Be(m, k), r, Be(n, k), s);
    BeInjective(m, n, k);
  }

  lemma TimesAgree(p: Quote, q: Quote)
    requires |p.memo| <= 65535 && |q.memo| <= 65535 && TimesImage(p) <= TimesImage(q)
    ensures p.issuedAt == q.issuedAt && p.expiresAt == q.expiresAt && p.memo == q.memo
  {
    hide Be;
    Widths();
    NumbersAgree(p.issuedAt, Be(p.expiresAt, 8) + (Be(|p.memo| % 0x1_0000, 2) + p.memo),
                 q.issuedAt, Be(q.expiresAt, 8) + (Be(|q.memo| % 0x1_0000, 2) + q.memo), 8);
    NumbersAgree(p.expiresAt, Be(|p.memo| % 0x1_0000, 2) + p.memo, q.expiresAt, Be(|q.memo| % 0x1_0000, 2) + q.memo, 8);
    NumbersAgree(|p.memo|, p.memo, |q.memo|, q.memo, 2);
  }

  lemma PayerAgrees(p: Quote, q: Quote)
    requires |p.memo| <= 65535 && |q.memo| <= 65535 && PayerImage(p) <= PayerImage(q)
    ensures p.payer == q.payer && p.issuedAt == q.issuedAt && p.expiresAt == q.expiresAt && p.memo == q.memo
  {
    hide TimesImage;
    assert PayerImage(p)[0] == PayerImage(q)[0];
    match p.payer
    case Some(pk) =>
      FrontsAgree([1], pk + TimesImage(p), [1], q.payer.value + TimesImage(q));
      FrontsAgree(pk, TimesImage(p), q.payer.value, TimesImage(q));
      TimesAgree(p, q);
    case None =>
      FrontsAgree([0], TimesImage(p), [0], TimesImage(q));
      TimesAgree(p, q);
  }

  lemma AmountsAgree(p: Quote, q: Quote)
    requires |p.memo| <= 65535 && |q.memo| <= 65535 && AmountsImage(p) <= AmountsImage(q)
    ensures p.(version := q.version, quoteId := q.quoteId, currency := q.currency) == q
  {
    hide Be, PayerImage, ValidUtf8;
    Widths();
    NumbersAgree(p.amountMinor, Be(p.rate, 8) + (Be(p.exferAmount, 8) + (p.payee + PayerImage(p))),
                 q.amountMinor, Be(q.rate, 8) + (Be(q.exferAmount, 8) + (q.payee + PayerImage(q))), 8);
    NumbersAgree(p.rate, Be(p.exferAmount, 8) + (p.payee + PayerImage(p)),
                 q.rate, Be(q.exferAmount, 8) + (q.payee + PayerImage(q)), 8);
    NumbersAgree(p.exferAmount, p.payee + PayerImage(p), q.exferAmount, q.payee + PayerImage(q), 8);
    FrontsAgree(p.payee, PayerImage(p), q.payee, PayerImage(q));
    PayerAgrees(p, q);
  }

  /** The image determines the quote and the genesis id, and no image is a proper prefix of another. */
  lemma ImagesPrefixFree(p: Quote, g: Hash32, q: Quote, h: Hash32)
    requires Encodable(p) && Encodable(q) && SigningImage(p, g) <= SigningImage(q, h)
    ensures p == q && g == h
  {
    hide AmountsImage, ValidUtf8;
    var a5, b5 := p.currency + AmountsImage(p), q.currency + AmountsImage(q);
    var a4, b4 := [|p.currency| % 256] + a5, [|q.currency| % 256] + b5;
    var a3, b3 := p.quoteId + a4, q.quoteId + b4;
    var a2, b2 := [p.version] + a3, [q.version] + b3;
    FrontsAgree(DOMAIN, g + a2, DOMAIN, h + b2);
    FrontsAgree(g, a2, h, b2);
    FrontsAgree([p.version], a3, [q.version], b3);
    FrontsAgree(p.quoteId, a4, q.quoteId, b4);
    FrontsAgree([|p.currency| % 256], a5, [|q.currency| % 256], b5);
    FrontsAgree(p.currency, AmountsImage(p), q.currency, AmountsImage(q));
    AmountsAgree(p, q);
  }

  // ----- strict decoding -----

  function U64At(b: Str, i: nat): u64
    requires i + 8 <= |b|
  {
    Widths();
    FromBe(b[i..i + 8])
  }

  function U16At(b: Str, i: nat): (n: nat)
    requires i + 2 <= |b|
    ensures n <= 65535
  {
    Widths();
    FromBe(b[i..i + 2])
  }

  function DecodeTimes(b: Str): Result<(u64, u64, Text), DecodeError> {
    if |b| < 18 || |b| < 18 + U16At(b, 16) then Err(Truncated)
    else
      var end := 18 + U16At(b, 16);
      if !ValidUtf8(b[18..end]) then Err(NotUtf8)
      else if end != |b| then Err(TrailingBytes)
      else Ok((U64At(b, 0), U64At(b, 8), b[18..end]))
  }

  function DecodePayer(b: Str): Result<(Option<Hash32>, u64, u64, Text), DecodeError> {
    if |b| < 1 then Err(Truncated)
    else if b[0] > 1 then Err(BadPayerFlag)
    else if b[0] == 1 && |b| < 33 then Err(Truncated)
    else
      match DecodeTimes(if b[0] == 1 then b[33..] else b[1..])
      case Err(e) => Err(e)
      case Ok((issued, expires, memo)) => Ok((if b[0] == 1 then Some(b[1..33]) else None, issued, expires, memo))
  }

  function DecodeAmounts(b: Str, version: byte, id: Id16, currency: Text): Result<Quote, DecodeError> {
    if |b| < 56 then Err(Truncated)
    else
      match DecodePayer(b[56..])
      case Err(e) => Err(e)
      case Ok((payer, issued, expires, memo)) =>
        Ok(Quote(version, id, currency, U64At(b, 0), U64At(b, 8), U64At(b, 16), b[24..56], payer, issued, expires, memo))
  }

  function Decode(image: Str): Result<(Quote, Hash32), DecodeError> {
    if |image| < 11 then Err(Truncated)
    else if image[..11] != DOMAIN then Err(BadDomain)
    else if |image| < 61 || |image| < 61 + (image[60] as int) then Err(Truncated)
    else
      var end := 61 + (image[60] as int);
      if !ValidUtf8(image[61..end]) then Err(NotUtf8)
      else
        match DecodeAmounts(image[end..], image[43], image[44..60], image[61..end])
        case Err(e) => Err(e)
        case Ok(q) => Ok((q, image[11..43]))
  }

  /** take: the next `n` bytes at the offset. */
  method Take(b: Str, o: nat, n: nat) returns (r: Result<Str, DecodeError>, o': nat)
    requires o <= |b|
    ensures o <= o' <= |b|
    ensures if o + n > |b| then r == Err(Truncated) && o' == o else r == Ok(b[o..o + n]) && o' == o + n
  {
    if o + n > |b| { return Err(Truncated), o; }
    r, o' := Ok(b[o..o + n]), o + n;
  }

  method DecodeImageStrict(image: Str) returns (r: Result<(Quote, Hash32), DecodeError>)
    ensures r == Decode(image)
  {
    hide FromBe, ValidUtf8;
    var o := 0;
    var tag;
    tag, o := Take(image, o, |DOMAIN|);
    if tag.Err? { return Err(tag.error); }
    if tag.value != DOMAIN { return Err(BadDomain); }
    var genesis, version, id, clen, currency;
    genesis, o := Take(image, o, 32);
    if genesis.Err? { return Err(genesis.error); }
    version, o := Take(image, o, 1);
    if version.Err? { return Err(version.error); }
    id, o := Take(image, o, 16);
    if id.Err? { return Err(id.error); }
    clen, o := Take(image, o, 1);
    if clen.Err? { return Err(clen.error); }
    currency, o := Take(image, o, clen.value[0]);
    if currency.Err? { return Err(currency.error); }
    if !ValidUtf8(currency.value) { return Err(NotUtf8); }
    var q := DecodeRest(image, o, version.value[0], id.value, currency.value);
    if q.Err? { return Err(q.error); }
    return Ok((q.value, genesis.value));
  }

  method DecodeRest(image: Str, start: nat, version: byte, id: Id16, currency: Text) returns (r: Result<Quote, DecodeError>)
    requires start <= |image|
    ensures r == DecodeAmounts(image[start..], version, id, currency)
  {
    hide FromBe, ValidUtf8;
    ghost var b := image[start..];
    var o := start;
    var amount, rate, exferAmount, payee;
    amount, o := Take(image, o, 8);
    if amount.Err? { return Err(amount.error); }
    rate, o := Take(image, o, 8);
    if rate.Err? { return Err(rate.error); }
    exferAmount, o := Take(image, o, 8);
    if exferAmount.Err? { return Err(exferAmount.error); }
    payee, o := Take(image, o, 32);
    if payee.Err? { return Err(payee.error); }
    TailSlice(image, start, 0, 8);
    TailSlice(image, start, 8, 16);
    TailSlice(image, start, 16, 24);
    TailSlice(image, start, 24, 56);
    assert b[56..] == image[o..];
    var tail := DecodeTail(image, o);
    if tail.Err? { return Err(tail.error); }
    var (payer, issued, expires, memo) := tail.value;
    Widths();
    return Ok(Quote(version, id, currency, FromBe(amount.value), FromBe(rate.value), FromBe(exferAmount.value),
                    payee.value, payer, issued, expires, memo));
  }

  method DecodeTail(image: Str, start: nat) returns (r: Result<(Option<Hash32>, u64, u64, Text), DecodeError>)
    requires start <= |image|
    ensures r == DecodePayer(image[start..])
  {
    hide FromBe, ValidUtf8;
    ghost var b := image[start..];
    var o := start;
    var flag;
    flag, o := Take(image, o, 1);
    if flag.Err? { return Err(flag.error); }
    var payer: Option<Hash32> := None;
    match flag.value[0] {
      case 0 =>
      case 1 =>
        var pk;
        pk, o := Take(image, o, 32);
        if pk.Err? { return Err(pk.error); }
        payer := Some(pk.value);
        TailSlice(image, start, 1, 33);
      case _ => return Err(BadPayerFlag);
    }
    ghost var at, t := o, image[o..];
    assert t == if b[0] == 1 then b[33..] else b[1..];
    var issued, expires, mlen, memo;
    issued, o := Take(image, o, 8);
    if issued.Err? { return Err(issued.error); }
    expires, o := Take(image, o, 8);
    if expires.Err? { return Err(expires.error); }
    mlen, o := Take(image, o, 2);
    if mlen.Err? { return Err(mlen.error); }
    TailSlice(image, at, 0, 8);
    TailSlice(image, at, 8, 16);
    TailSlice(image, at, 16, 18);
    memo, o := Take(image, o, FromBe(mlen.value));
    if memo.Err? { return Err(memo.error); }
    TailSlice(image, at, 18, 18 + FromBe(mlen.value));
    if !ValidUtf8(memo.value) { return Err(NotUtf8); }
    if o != |image| { return Err(TrailingBytes); }
    Widths();
    return Ok((payer, FromBe(issued.value), FromBe(expires.value), memo.value));
  }

  // ----- decoding undoes encoding -----

  lemma TimesDecode(q: Quote)
    requires |q.memo| <= 65535
    ensures DecodeTimes(TimesImage(q)) == Ok((q.issuedAt, q.expiresAt, q.memo))
  {
    hide Be, FromBe, ValidUtf8;
    Widths();
    var b := TimesImage(q);
    FromBeBe(q.issuedAt, 8);
    FromBeBe(q.expiresAt, 8);
    FromBeBe(|q.memo|, 2);
    assert b[0..8] == Be(q.issuedAt, 8) && b[8..16] == Be(q.expiresAt, 8) && b[16..18] == Be(|q.memo|, 2) && b[18..] == q.memo;
    assert b[18..18 + |q.memo|] == q.memo;
  }

  lemma PayerDecode(q: Quote)
    requires |q.memo| <= 65535
    ensures DecodePayer(PayerImage(q)) == Ok((q.payer, q.issuedAt, q.expiresAt, q.memo))
  {
    hide TimesImage, DecodeTimes;
    TimesDecode(q);
    var b := PayerImage(q);
    match q.payer
    case Some(pk) => assert b[1..33] == pk && b[33..] == TimesImage(q);
    case None => assert b[1..] == TimesImage(q);
  }

  lemma AmountsDecode(q: Quote)
    requires |q.memo| <= 65535
    ensures DecodeAmounts(AmountsImage(q), q.version, q.quoteId, q.currency) == Ok(q)
  {
    hide Be, FromBe, PayerImage, DecodePayer, ValidUtf8;
    Widths();
    PayerDecode(q);
    var b := AmountsImage(q);
    FromBeBe(q.amountMinor, 8);
    FromBeBe(q.rate, 8);
    FromBeBe(q.exferAmount, 8);
    assert b[0..8] == Be(q.amountMinor, 8) && b[8..16] == Be(q.rate, 8) && b[16..24] == Be(q.exferAmount, 8);
    assert b[24..56] == q.payee && b[56..] == PayerImage(q);
  }

  lemma DecodeUndoesImage(q: Quote, genesis: Hash32)
    requires Encodable(q)
    ensures Decode(SigningImage(q, genesis)) == Ok((q, genesis))
  {
    hide AmountsImage, DecodeAmounts, ValidUtf8;
    AmountsDecode(q);
    var b, end := SigningImage(q, genesis), 61 + |q.currency|;
    assert b[..11] == DOMAIN && b[11..43] == genesis && b[43] == q.version && b[44..60] == q.quoteId && b[60] == |q.currency|;
    assert b[61..end] == q.currency && b[end..] == AmountsImage(q);
  }

  // ----- encoding undoes decoding -----

  lemma TimesReencode(b: Str, q: Quote)
    requires DecodeTimes(b) == Ok((q.issuedAt, q.expiresAt, q.memo))
    ensures TimesImage(q) == b && |q.memo| <= 65535
  {
    hide Be, FromBe, ValidUtf8;
    BeFromBe(b[0..8]);
    BeFromBe(b[8..16]);
    BeFromBe(b[16..18]);
    assert b == b[0..8] + (b[8..16] + (b[16..18] + b[18..]));
  }

  lemma PayerReencode(b: Str, q: Quote)
    requires DecodePayer(b) == Ok((q.payer, q.issuedAt, q.expiresAt, q.memo))
    ensures PayerImage(q) == b && |q.memo| <= 65535
  {
    hide TimesImage, DecodeTimes;
    if b[0] == 1 {
      TimesReencode(b[33..], q);
      assert b == [1] + (b[1..33] + b[33..]);
    } else {
      TimesReencode(b[1..], q);
      assert b == [0] + b[1..];
    }
  }

  lemma AmountsReencode(b: Str, q: Quote)
    requires DecodeAmounts(b, q.version, q.quoteId, q.currency) == Ok(q)
    ensures AmountsImage(q) == b && |q.memo| <= 65535
  {
    hide Be, FromBe, PayerImage, DecodePayer, ValidUtf8;
    BeFromBe(b[0..8]);
    BeFromBe(b[8..16]);
    BeFromBe(b[16..24]);
    PayerReencode(b[56..], q);
    assert b == b[0..8] + (b[8..16] + (b[16..24] + (b[24..56] + b[56..])));
  }

  lemma ImageUndoesDecode(image: Str)
    requires Decode(image).Ok?
    ensures Encodable(Decode(image).value.0)
    ensures SigningImage(Decode(image).value.0, Decode(image).value.1) == image
  {
    hide AmountsImage, ValidUtf8;
    var (q, g) := Decode(image).value;
    var end := 61 + (image[60] as int);
    AmountsReencode(image[end..], q);
    FieldsOf(image, end);
  }

  /** The fixed fields, the currency and the rest make up the image. */
  lemma FieldsOf(image: Str, end: nat)
    requires 61 <= end <= |image|
    ensures image == image[..11] + (image[11..43] + ([image[43]] + (image[44..60] + ([image[60]] + (image[61..end] + image[end..])))))
  {
  }

  /** Strict decoding accepts exactly the images of encodable quotes, and gives back the quote. */
  lemma DecodeIff(image: Str, q: Quote, genesis: Hash32)
    ensures Decode(image) == Ok((q, genesis)) <==> Encodable(q) && SigningImage(q, genesis) == image
  {
    hide Decode, SigningImage, ValidUtf8;
    if Decode(image) == Ok((q, genesis)) { ImageUndoesDecode(image); }
    if Encodable(q) { DecodeUndoesImage(q, genesis); }
  }

  /** A quote survives signing and strict decoding exactly when its two length fields fit. */
  lemma RoundTripIff(q: Quote, genesis: Hash32)
    ensures Decode(SigningImage(q, genesis)) == Ok((q, genesis)) <==> |q.currency| <= 255 && |q.memo| <= 65535
  {
    hide SigningImage, Decode, ValidUtf8;
    DecodeIff(SigningImage(q, genesis), q, genesis);
  }

  predicate CurrencyByte(b: byte) { 65 <= b <= 90 || 48 <= b <= 57 }

  /** check_bounds. */
  predicate InBounds(q: Quote) {
    && q.version == QUOTE_VERSION
    && MIN_CURRENCY_LEN <= |q.currency| <= MAX_CURRENCY_LEN
    && (forall i :: 0 <= i < |q.currency| ==> CurrencyByte(q.currency[i]))
    && |q.memo| <= MAX_MEMO_BYTES
  }

  /** Every quote the issuer signs has an image of its own. */
  lemma SignedImagesDiffer(p: Quote, g: Hash32, q: Quote, h: Hash32)
    requires InBounds(p) && InBounds(q) && (p != q || g != h)
    ensures !(SigningImage(p, g) <= SigningImage(q, h)) && !(SigningImage(q, h) <= SigningImage(p, g))
  {
    hide SigningImage, ValidUtf8;
    if SigningImage(p, g) <= SigningImage(q, h) { ImagesPrefixFree(p, g, q, h); }
    if SigningImage(q, h) <= SigningImage(p, g) { ImagesPrefixFree(q, h, p, g); }
  }
}
