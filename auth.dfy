/**
 * The request signer: the nonce, the SHA-1 hex digest and the token that
 * goes into the Authorization header of every call.
 *
 * The clock and the random source are parameters. `draw(i)` is the i-th
 * value `rand.Intn(len(letters))` returns during one signing, so it always
 * lies in [0, 52).
 */
module Auth {
  import opened Wrappers
  import opened GoFmt
  import opened GoNet

  /** The nonce alphabet: the 52 ASCII letters, lower case first, and no digits. */
  const Letters: string := LowerCase + UpperCase

  const LowerCase: string := "abcdefghijklmnopqrstuvwxyz"

  const UpperCase: string := "ABCDEFGHIJKLMNOPQRSTUVWXYZ"

  /** Index into `Letters`, the range of `rand.Intn(len(letters))`. */
  type LetterIndex = i: int | 0 <= i < 52

  const NonceLength: nat := 10

  lemma LowerCaseAt(k: nat)
    requires k < 26
    ensures LowerCase[k] == ('a' as int + k) as char
  {
  }

  lemma UpperCaseAt(k: nat)
    requires k < 26
    ensures UpperCase[k] == ('A' as int + k) as char
  {
  }

  /** Lower case first, then upper case, each in alphabetical order. */
  lemma LettersLayout(k: LetterIndex)
    ensures |Letters| == 52
    ensures Letters[k] == if k < 26 then ('a' as int + k) as char else ('A' as int + k - 26) as char
  {
    if k < 26 {
      LowerCaseAt(k);
    } else {
      UpperCaseAt(k - 26);
    }
  }

  /** The alphabet is exactly the letters, each once. */
  lemma LettersAreTheAlphabet()
    ensures forall k: LetterIndex :: IsLetter(Letters[k])
    ensures forall c :: IsLetter(c) ==> c in Letters
    ensures forall j: LetterIndex, k: LetterIndex :: j != k ==> Letters[j] != Letters[k]
  {
    OnlyLetters();
    EveryLetter();
    NoLetterTwice();
  }

  lemma OnlyLetters()
    ensures forall k: LetterIndex :: IsLetter(Letters[k])
  {
    forall k: LetterIndex ensures IsLetter(Letters[k]) {
      LettersLayout(k);
    }
  }

  lemma EveryLetter()
    ensures forall c :: IsLetter(c) ==> c in Letters
  {
    forall c | IsLetter(c) ensures c in Letters {
      var k: LetterIndex := if c <= 'Z' then c as int - 'A' as int + 26 else c as int - 'a' as int;
      LettersLayout(k);
    }
  }

  lemma NoLetterTwice()
    ensures forall j: LetterIndex, k: LetterIndex :: j != k ==> Letters[j] != Letters[k]
  {
    forall j: LetterIndex, k: LetterIndex | j != k ensures Letters[j] != Letters[k] {
      LettersLayout(j);
      LettersLayout(k);
    }
  }

  /** The first n letters the random source picks. */
  ghost function Drawn(n: nat, draw: nat -> LetterIndex): (s: string)
    ensures |s| == n
    ensures forall i :: 0 <= i < n ==> s[i] == Letters[draw(i)]
  {
    if n == 0 then [] else Drawn(n - 1, draw) + [Letters[draw(n - 1)]]
  }

  /** `randSeq(n)`: fills a rune buffer of length n one random letter at a time. */
  method RandSeq(n: nat, draw: nat -> LetterIndex) returns (s: string)
    ensures |s| == n
    ensures forall i :: 0 <= i < n ==> s[i] == Letters[draw(i)]
    ensures s == Drawn(n, draw)
  {
    var b := new char[n];
    for i := 0 to n
      invariant forall j :: 0 <= j < i ==> b[j] == Letters[draw(j)]
    {
      b[i] := Letters[draw(i)];
    }
    s := b[..];
  }

  /** The nonce one signing uses. */
  ghost function Nonce(draw: nat -> LetterIndex): string
  {
    Drawn(NonceLength, draw)
  }

  /** `generateToken()`: ten random letters; so it also fits `[a-zA-Z0-9]{10}`. */
  method GenerateToken(draw: nat -> LetterIndex) returns (t: string)
    ensures t == Nonce(draw)
    ensures |t| == 10
    ensures forall i :: 0 <= i < |t| ==> IsLetter(t[i])
    ensures AllAlnum(t)
  {
    t := RandSeq(NonceLength, draw);
    LettersAreTheAlphabet();
  }

  /** `hash(text)`: SHA-1 of the UTF-8 bytes, as lower-case hex. */
  function Hash(sha1: seq<byte> -> Digest, text: string): (h: string)
    ensures |h| == 40
    ensures AllLowerHex(h)
    ensures Unhex(h) == Some(sha1(Utf8(text)))
  {
    var d := sha1(Utf8(text));
    UnhexOfHex(d);
    Hex(d)
  }

  /** The signed message: `apiKey + url + %d(timestamp) + nonce`, no separators. */
  function HashInput(apiKey: string, url: string, timestamp: int, nonce: string): string
  {
    apiKey + url + Decimal(timestamp) + nonce
  }

  /** The header token: `userapiid:…;timestamp:…;token:…;hmac:…`. */
  function FormatToken(apiID: string, timestamp: int, nonce: string, hmac: string): string
  {
    "userapiid:" + apiID + ";timestamp:" + Decimal(timestamp) + ";token:" + nonce + ";hmac:" + hmac
  }

  /** What `authToken` returns once the clock and the nonce are fixed. */
  function SignedToken(sha1: seq<byte> -> Digest, apiKey: string, apiID: string, url: string,
                       timestamp: int, nonce: string): string
  {
    FormatToken(apiID, timestamp, nonce, Hash(sha1, HashInput(apiKey, url, timestamp, nonce)))
  }

  /** `authToken(apiKey, apiID, url)`, with `time.Now().Unix()` given as now. */
  method AuthToken(sha1: seq<byte> -> Digest, apiKey: string, apiID: string, url: string,
                   now: int64, draw: nat -> LetterIndex) returns (t: string)
    ensures t == SignedToken(sha1, apiKey, apiID, url, now as int, Nonce(draw))
  {
    var token := GenerateToken(draw);
    var hmac := Hash(sha1, HashInput(apiKey, url, now as int, token));
    t := FormatToken(apiID, now as int, token, hmac);
  }

  // ---------------------------------------------------------------------
  // Reading a token back, as the service does

  datatype TokenFields = TokenFields(apiID: string, timestamp: int, nonce: string, hmac: string)

  /** The length of the run of digits at the end of s. */
  function TrailingDigits(s: string): (k: nat)
    ensures k <= |s|
  {
    if s == [] || !IsDigit(s[|s| - 1]) then 0 else 1 + TrailingDigits(s[..|s| - 1])
  }

  /** The length of the run of digits at the start of s. */
  function LeadingDigits(s: string): (k: nat)
    ensures k <= |s|
  {
    if s == [] || !IsDigit(s[0]) then 0 else 1 + LeadingDigits(s[1..])
  }

  /** Splits `<rest>;token:<10 characters>;hmac:<40 characters>` into its three parts. */
  function SplitTail(t: string): Option<(string, string, string)>
  {
    if |t| < 63 || t[|t| - 46..|t| - 40] != ";hmac:" || t[|t| - 63..|t| - 56] != ";token:" then None
    else Some((t[..|t| - 63], t[|t| - 56..|t| - 46], t[|t| - 40..]))
  }

  /** The length of the numeral that ends s: its trailing digits and a '-' just before them. */
  function NumeralLength(s: string): (k: nat)
    ensures k <= |s|
  {
    var digits := TrailingDigits(s);
    if digits < |s| && s[|s| - digits - 1] == '-' then digits + 1 else digits
  }

  /** Splits `userapiid:<id>;timestamp:<numeral>` into the id and the number. */
  function SplitHead(s: string): Option<(string, int)>
  {
    var n := NumeralLength(s);
    var head := s[..|s| - n];
    var ts := ParseDecimal(s[|s| - n..]);
    if ts.None? || |head| < 21 || head[..10] != "userapiid:" || head[|head| - 11..] != ";timestamp:" then None
    else Some((head[10..|head| - 11], ts.value))
  }

  /**
   * Reads a token's four fields, working from the right: 40 digest
   * characters, ";hmac:", 10 nonce characters, ";token:", then the
   * numeral; whatever stands between "userapiid:" and ";timestamp:" is the
   * account id, so the id may itself hold any character.
   */
  function ParseAuthToken(t: string): Option<TokenFields>
  {
    match SplitTail(t)
    case None => None
    case Some((rest, nonce, hmac)) =>
      match SplitHead(rest)
      case None => None
      case Some((apiID, ts)) => Some(TokenFields(apiID, ts, nonce, hmac))
  }

  lemma {:induction false} TrailingDigitsOfAppend(a: string, d: string)
    requires AllDigits(d)
    requires |a| > 0 && !IsDigit(a[|a| - 1])
    ensures TrailingDigits(a + d) == |d|
    decreases |d|
  {
    if d == [] {
      assert a + d == a;
    } else {
      var d' := d[..|d| - 1];
      assert (a + d)[..|a + d| - 1] == a + d';
      TrailingDigitsOfAppend(a, d');
    }
  }

  lemma {:induction false} LeadingDigitsOfAppend(d: string, b: string)
    requires AllDigits(d)
    requires |b| > 0 && !IsDigit(b[0])
    ensures LeadingDigits(d + b) == |d|
    decreases |d|
  {
    if d == [] {
      assert d + b == b;
    } else {
      assert (d + b)[1..] == d[1..] + b;
      LeadingDigitsOfAppend(d[1..], b);
    }
  }

  /** The numeral of a timestamp is found again at the end of the token's left part. */
  lemma NumeralAfterColon(a: string, n: int)
    requires |a| > 0 && a[|a| - 1] == ':'
    ensures var s := a + Decimal(n);
            NumeralLength(s) == |Decimal(n)| && s[..|s| - NumeralLength(s)] == a
            && s[|s| - NumeralLength(s)..] == Decimal(n)
  {
    var s := a + Decimal(n);
    if n < 0 {
      var ds := Digits(-n);
      assert s == (a + "-") + ds;
      TrailingDigitsOfAppend(a + "-", ds);
    } else {
      TrailingDigitsOfAppend(a, Digits(n));
    }
  }

  lemma SplitTailOf(rest: string, nonce: string, hmac: string)
    requires |nonce| == 10 && |hmac| == 40
    ensures SplitTail(rest + ";token:" + nonce + ";hmac:" + hmac) == Some((rest, nonce, hmac))
  {
    var t := rest + ";token:" + nonce + ";hmac:" + hmac;
    var n := |t|;
    assert n == |rest| + 63;
    assert t[n - 40..] == hmac;
    assert t[n - 46..n - 40] == ";hmac:";
    assert t[n - 56..n - 46] == nonce;
    assert t[n - 63..n - 56] == ";token:";
    assert t[..n - 63] == rest;
  }

  lemma SplitHeadOf(apiID: string, timestamp: int)
    ensures SplitHead("userapiid:" + apiID + ";timestamp:" + Decimal(timestamp)) == Some((apiID, timestamp))
  {
    var head := "userapiid:" + apiID + ";timestamp:";
    NumeralAfterColon(head, timestamp);
    ParseDecimalOfDecimal(timestamp);
    assert head[..10] == "userapiid:";
    assert head[|head| - 11..] == ";timestamp:";
    assert head[10..|head| - 11] == apiID;
  }

  /**
   * The service can read every token back: the account id, the timestamp,
   * the nonce and the digest come out as they went in, whatever the
   * account id holds.
   */
  lemma ParseFormatToken(apiID: string, timestamp: int, nonce: string, hmac: string)
    requires |nonce| == 10 && |hmac| == 40
    ensures ParseAuthToken(FormatToken(apiID, timestamp, nonce, hmac))
            == Some(TokenFields(apiID, timestamp, nonce, hmac))
  {
    var rest := "userapiid:" + apiID + ";timestamp:" + Decimal(timestamp);
    SplitTailOf(rest, nonce, hmac);
    SplitHeadOf(apiID, timestamp);
  }

  /**
   * The timestamp and nonce in the token are the ones that were hashed:
   * recomputing the digest from the fields read back from the token gives
   * the token's own hmac field.
   */
  lemma SignedTokenVerifies(sha1: seq<byte> -> Digest, apiKey: string, apiID: string, url: string,
                            timestamp: int, nonce: string)
    requires |nonce| == 10
    ensures var f := ParseAuthToken(SignedToken(sha1, apiKey, apiID, url, timestamp, nonce));
            f.Some? && f.value.apiID == apiID && f.value.timestamp == timestamp && f.value.nonce == nonce
            && f.value.hmac == Hash(sha1, HashInput(apiKey, url, f.value.timestamp, f.value.nonce))
  {
    ParseFormatToken(apiID, timestamp, nonce, Hash(sha1, HashInput(apiKey, url, timestamp, nonce)));
  }

  /**
   * For a fixed key and URL, the signed message tells apart every two
   * (timestamp, nonce) pairs, so the digest is taken over both.
   */
  lemma HashInputDeterminesTimestampAndNonce(apiKey: string, url: string,
                                             ts1: int, nonce1: string, ts2: int, nonce2: string)
    requires |nonce1| == NonceLength && |nonce2| == NonceLength
    requires HashInput(apiKey, url, ts1, nonce1) == HashInput(apiKey, url, ts2, nonce2)
    ensures ts1 == ts2 && nonce1 == nonce2
  {
    var p := apiKey + url;
    var m1, m2 := HashInput(apiKey, url, ts1, nonce1), HashInput(apiKey, url, ts2, nonce2);
    assert m1 == p + Decimal(ts1) + nonce1 && m2 == p + Decimal(ts2) + nonce2;
    assert nonce1 == m1[|m1| - 10..] && nonce2 == m2[|m2| - 10..];
    assert Decimal(ts1) == m1[|p|..|m1| - 10];
    assert Decimal(ts2) == m2[|p|..|m2| - 10];
    DecimalInjective(ts1, ts2);
  }

  /**
   * With the other three fields fixed, a different key or a different URL
   * always gives a different signed message.
   */
  lemma HashInputDeterminesKeyAndUrl(apiKey1: string, apiKey2: string, url1: string, url2: string,
                                     timestamp: int, nonce: string)
    requires apiKey1 == apiKey2 || url1 == url2
    requires HashInput(apiKey1, url1, timestamp, nonce) == HashInput(apiKey2, url2, timestamp, nonce)
    ensures apiKey1 == apiKey2 && url1 == url2
  {
    var tail := Decimal(timestamp) + nonce;
    var m1, m2 := HashInput(apiKey1, url1, timestamp, nonce), HashInput(apiKey2, url2, timestamp, nonce);
    assert m1 == apiKey1 + url1 + tail && m2 == apiKey2 + url2 + tail;
    assert |apiKey1| == |apiKey2|;
    assert apiKey1 == m1[..|apiKey1|] && apiKey2 == m2[..|apiKey2|];
    assert url1 == m1[|apiKey1|..|m1| - |tail|] && url2 == m2[|apiKey2|..|m2| - |tail|];
  }

  /**
   * The message has no separators, so where the key ends and the URL
   * begins is not fixed by it: moving a character across that boundary
   * signs the same message.
   */
  lemma KeyUrlBoundaryIsNotSigned(timestamp: int, nonce: string)
    ensures HashInput("ab", "c", timestamp, nonce) == HashInput("a", "bc", timestamp, nonce)
  {
    assert "ab" + "c" == "a" + "bc";
  }

  /**
   * The anchored form of the pattern the token test expects:
   * `userapiid:<id>;timestamp:\d+;token:[a-zA-Z0-9]{10};hmac:[0-9a-f]+`.
   */
  predicate MatchesTestPattern(t: string, apiID: string)
  {
    var head := "userapiid:" + apiID + ";timestamp:";
    |head| <= |t| && t[..|head|] == head &&
    var rest := t[|head|..];
    var k := LeadingDigits(rest);
    k >= 1 && MatchesTestPatternTail(rest[k..])
  }

  /** The part of the pattern after the timestamp: `;token:[a-zA-Z0-9]{10};hmac:[0-9a-f]+`. */
  predicate MatchesTestPatternTail(tail: string)
  {
    |tail| > 23 && tail[..7] == ";token:" && AllAlnum(tail[7..17])
    && tail[17..23] == ";hmac:" && AllLowerHex(tail[23..])
  }

  lemma TailMatches(nonce: string, hmac: string)
    requires |nonce| == 10 && AllAlnum(nonce)
    requires |hmac| > 0 && AllLowerHex(hmac)
    ensures MatchesTestPatternTail(";token:" + nonce + ";hmac:" + hmac)
  {
    var tail := ";token:" + nonce + ";hmac:" + hmac;
    assert tail[..7] == ";token:";
    assert tail[7..17] == nonce;
    assert tail[17..23] == ";hmac:";
    assert tail[23..] == hmac;
  }

  /** Every token signed at a non-negative time with an alphanumeric nonce fits the test's pattern. */
  lemma SignedTokenMatchesTestPattern(sha1: seq<byte> -> Digest, apiKey: string, apiID: string,
                                      url: string, timestamp: int, nonce: string)
    requires timestamp >= 0
    requires |nonce| == 10 && AllAlnum(nonce)
    ensures MatchesTestPattern(SignedToken(sha1, apiKey, apiID, url, timestamp, nonce), apiID)
  {
    var hmac := Hash(sha1, HashInput(apiKey, url, timestamp, nonce));
    var head := "userapiid:" + apiID + ";timestamp:";
    var tail := ";token:" + nonce + ";hmac:" + hmac;
    var d := Decimal(timestamp);
    var t := SignedToken(sha1, apiKey, apiID, url, timestamp, nonce);
    assert t == head + (d + tail);
    assert t[..|head|] == head;
    assert t[|head|..] == d + tail;
    LeadingDigitsOfAppend(d, tail);
    assert (d + tail)[|d|..] == tail;
    TailMatches(nonce, hmac);
  }

  /** So does every token `authToken` returns at a non-negative time. */
  lemma AuthTokenMatchesTestPattern(sha1: seq<byte> -> Digest, apiKey: string, apiID: string,
                                    url: string, now: int64, draw: nat -> LetterIndex)
    requires now >= 0
    ensures MatchesTestPattern(SignedToken(sha1, apiKey, apiID, url, now as int, Nonce(draw)), apiID)
  {
    LettersAreTheAlphabet();
    SignedTokenMatchesTestPattern(sha1, apiKey, apiID, url, now as int, Nonce(draw));
  }
}
