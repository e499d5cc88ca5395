/** Webhook secrets at rest: AES-256-GCM around an opaque cipher, printed as three base64 parts
    joined by dots. */
module SecretCrypto {
  import opened Wrappers
  import opened Base64

  type Key = nat

  datatype Sealed = Sealed(tag: Bytes, ciphertext: Bytes)

  /** The cipher library, of which only three laws are used. */
  datatype Cipher = Cipher(seal: (Key, Bytes, Bytes) -> Sealed, unseal: (Key, Bytes, Sealed) -> Option<Bytes>)

  ghost predicate Lawful(c: Cipher) {
    forall k: Key, iv: Bytes, plain: Bytes :: LawfulAt(c, k, iv, plain)
  }

  /** A tag of 16 bytes, a ciphertext as long as the text, and opening what was sealed. */
  predicate LawfulAt(c: Cipher, k: Key, iv: Bytes, plain: Bytes) {
    var x := c.seal(k, iv, plain);
    |x.tag| == 16 && |x.ciphertext| == |plain| && c.unseal(k, iv, x) == Some(plain)
  }

  datatype Failure = MalformedToken | InvalidStructure | BadTag

  /** One more character in front: a dot starts a new part, anything else joins the first one. */
  function Extend(c: char, parts: seq<string>): (r: seq<string>)
    requires |parts| >= 1
    ensures |r| >= 1
  {
    if c == '.' then [""] + parts else [[c] + parts[0]] + parts[1..]
  }

  /** text.split('.') */
  function Split(s: string): (parts: seq<string>)
    ensures |parts| >= 1
  {
    if s == "" then [""] else Extend(s[0], Split(s[1..]))
  }

  predicate NoDot(s: string) {
    forall i | 0 <= i < |s| :: s[i] != '.'
  }

  /** The iv is drawn at random; `plain` is the text in UTF-8. */
  function EncryptSecret(c: Cipher, k: Key, iv: Bytes, plain: Bytes): string {
    var x := c.seal(k, iv, plain);
    Encode(iv) + "." + Encode(x.tag) + "." + Encode(x.ciphertext)
  }

  function DecryptSecret(c: Cipher, k: Key, token: string): Result<Bytes, Failure> {
    var parts := Split(token);
    // a part that is missing or empty counts as malformed, a fourth part is ignored
    if |parts| < 3 || parts[0] == "" || parts[1] == "" || parts[2] == "" then Err(MalformedToken)
    else
      var iv, tag, ciphertext := Decode(parts[0]), Decode(parts[1]), Decode(parts[2]);
      if |iv| != 12 || |tag| != 16 then Err(InvalidStructure)
      else
        match c.unseal(k, iv, Sealed(tag, ciphertext))
        case None => Err(BadTag)
        case Some(plain) => Ok(plain)
  }

  lemma {:induction false} SplitWhole(s: string)
    requires NoDot(s)
    ensures Split(s) == [s]
    decreases |s|
  {
    if s != "" {
      SplitWhole(s[1..]);
      assert [s[0]] + s[1..] == s;
    }
  }

  lemma ExtendJoin(c: char, p: seq<string>, q: seq<string>)
    requires |p| >= 1
    ensures Extend(c, p + q) == Extend(c, p) + q
  {
  }

  /** Splitting distributes over the separator. */
  lemma {:induction false} SplitJoin(s: string, rest: string)
    ensures Split(s + "." + rest) == Split(s) + Split(rest)
    decreases |s|
  {
    hide Extend;
    var text := s + "." + rest;
    if s == "" {
      assert text[1..] == rest;
      assert Extend('.', Split(rest)) == [""] + Split(rest) by { DotStarts(Split(rest)); }
    } else {
      SplitJoin(s[1..], rest);
      assert text[1..] == s[1..] + "." + rest;
      ExtendJoin(s[0], Split(s[1..]), Split(rest));
    }
  }

  lemma DotStarts(parts: seq<string>)
    requires |parts| >= 1
    ensures Extend('.', parts) == [""] + parts
  {
  }

  lemma EncodedHasNoDot(b: Bytes)
    ensures NoDot(Encode(b)) && (Encode(b) == "" <==> b == [])
  {
  }

  lemma ThreeParts(x: string, y: string, z: string)
    requires NoDot(x) && NoDot(y) && NoDot(z)
    ensures Split(x + "." + y + "." + z) == [x, y, z]
  {
    hide Split, NoDot;
    SplitJoin(x + "." + y, z);
    SplitJoin(x, y);
    SplitWhole(x); SplitWhole(y); SplitWhole(z);
  }

  /** A printed token splits back into exactly its three parts. */
  lemma TokenSplits(a: Bytes, b: Bytes, c: Bytes)
    ensures Split(Encode(a) + "." + Encode(b) + "." + Encode(c)) == [Encode(a), Encode(b), Encode(c)]
  {
    EncodedHasNoDot(a); EncodedHasNoDot(b); EncodedHasNoDot(c);
    hide Split, Encode, NoDot;
    ThreeParts(Encode(a), Encode(b), Encode(c));
  }

  /** A secret comes back exactly when it is not empty: the token of the empty secret ends in a
      dot and is refused as malformed. */
  lemma SecretRoundTrip(c: Cipher, k: Key, iv: Bytes, plain: Bytes)
    requires Lawful(c) && |iv| == 12
    ensures DecryptSecret(c, k, EncryptSecret(c, k, iv, plain)) == if plain != [] then Ok(plain)
              else Err(MalformedToken)
  {
    assert LawfulAt(c, k, iv, plain);
    var x := c.seal(k, iv, plain);
    TokenSplits(iv, x.tag, x.ciphertext);
    EncodedHasNoDot(iv); EncodedHasNoDot(x.tag); EncodedHasNoDot(x.ciphertext);
    RoundTrip(iv); RoundTrip(x.tag); RoundTrip(x.ciphertext);
  }

  /** What is appended after a further dot is not looked at, so a token does not determine the
      text it was read from. */
  lemma ExtraPartsIgnored(c: Cipher, k: Key, token: string, extra: string)
    requires |Split(token)| >= 3
    ensures DecryptSecret(c, k, token + "." + extra) == DecryptSecret(c, k, token)
  {
    SplitJoin(token, extra);
  }

  /** What is wrong with a token, in the order of the checks: one of its first three parts is missing
      or empty, the iv or the tag has the wrong length, or the cipher refuses it. */
  lemma RefusedExactly(c: Cipher, k: Key, token: string)
    ensures var parts, r := Split(token), DecryptSecret(c, k, token);
            && (r == Err(MalformedToken) <==> |parts| < 3 || "" in parts[..3])
            && (|parts| >= 3 && "" !in parts[..3] ==>
                  var iv, tag, x := Decode(parts[0]), Decode(parts[1]), Decode(parts[2]);
                  && (r == Err(InvalidStructure) <==> |iv| != 12 || |tag| != 16)
                  && (|iv| == 12 && |tag| == 16 ==>
                        forall plain :: r == Ok(plain) <==> c.unseal(k, iv, Sealed(tag, x)) == Some(plain)))
  {
    var parts := Split(token);
    if |parts| >= 3 { assert parts[..3] == [parts[0], parts[1], parts[2]]; }
    hide Split, Decode;
  }
}
