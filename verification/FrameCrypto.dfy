/** Images as the plugin seals them and the processors open them: AES-256-GCM inside the stored form. */
module FrameCrypto {
  import opened Wrappers
  import opened Base64
  import opened FrameCodec
  import opened SecretCrypto

  /** The cipher library and the key that images are sealed under. */
  datatype Crypto = Crypto(cipher: Cipher, key: Key)

  /** encryptFrame; the iv is drawn at random. */
  function EncryptFrame(c: Cipher, k: Key, iv: Bytes, plain: Bytes): EncryptedFrame {
    var x := c.seal(k, iv, plain);
    EncryptedFrame(iv, x.tag, x.ciphertext)
  }

  /** decryptFrame: None is a throw. */
  function DecryptFrame(c: Cipher, k: Key, f: EncryptedFrame): Option<Bytes> {
    c.unseal(k, f.iv, Sealed(f.tag, f.ciphertext))
  }

  /** deserializeFrame, then decryptFrame; None is a throw of either. */
  function Open(c: Cipher, k: Key, stored: Bytes): Option<Bytes> {
    match DeserializeFrame(stored)
    case Ok(f) => DecryptFrame(c, k, f)
    case Err(_) => None
  }

  /** What was sealed and stored is what is opened. */
  lemma OpenBack(c: Cipher, k: Key, iv: Bytes, plain: Bytes)
    requires Lawful(c)
    ensures Open(c, k, SerializeFrame(EncryptFrame(c, k, iv, plain))) == Some(plain)
  {
    hide SerializeFrame, DeserializeFrame;
    FrameRoundTrip(EncryptFrame(c, k, iv, plain));
    assert LawfulAt(c, k, iv, plain);
  }
}
