/** At-rest encryption of text columns: tagged ciphertext beside legacy plaintext. */
module AtRest {
  import opened Prelude

  const TAG: string := "enc:v1:"

  predicate Tagged(s: string) {
    |s| >= |TAG| && s[..|TAG|] == TAG
  }

  /** AES-GCM and base64 under one key are a pair of functions; every call draws a nonce. */
  datatype Cipher = Disabled | Keyed(seal: (nat, string) -> string, open: string -> Option<string>)

  ghost predicate Invertible(c: Cipher) {
    c.Keyed? ==> forall nonce, p :: c.open(c.seal(nonce, p)) == Some(p)
  }

  /** A ciphertext is longer than its text: it carries a nonce and an authentication tag. */
  ghost predicate Expanding(c: Cipher) {
    c.Keyed? ==> forall sealed :: c.open(sealed).Some? ==> |c.open(sealed).value| < |sealed|
  }

  function Encrypt(c: Cipher, nonce: nat, plain: string): string {
    if c.Disabled? then plain else TAG + c.seal(nonce, plain)
  }

  /** `None` is the error: no key for a tagged value, or a ciphertext that does not open. */
  function Decrypt(c: Cipher, stored: string): Option<string> {
    if !Tagged(stored) then Some(stored)
    else if c.Disabled? then None
    else c.open(stored[|TAG|..])
  }

  /** Text comes back from storage exactly when there is a key or the text does not itself look
      like ciphertext. */
  lemma RoundTripIff(c: Cipher, nonce: nat, plain: string)
    requires Invertible(c)
    ensures Decrypt(c, Encrypt(c, nonce, plain)) == Some(plain) <==> c.Keyed? || !Tagged(plain)
    ensures c.Keyed? ==> Tagged(Encrypt(c, nonce, plain))
  {
    if c.Keyed? {
      assert (TAG + c.seal(nonce, plain))[|TAG|..] == c.seal(nonce, plain);
      assert (TAG + c.seal(nonce, plain))[..|TAG|] == TAG;
    }
  }

  /** Text that carries the tag and was stored as it is never reads back as itself. */
  lemma TaggedPlainIsLost(c: Cipher, plain: string)
    requires Expanding(c) && Tagged(plain)
    ensures Decrypt(c, plain) != Some(plain)
  {
  }

  /** What counts as tagged, and that only the key opens it. */
  lemma TagLaw(c: Cipher, stored: string)
    ensures Tagged("enc:v1:" + stored)
    ensures Tagged(stored) <==> |stored| >= 7 && stored[..7] == "enc:v1:"
    ensures !Tagged(stored) ==> Decrypt(c, stored) == Some(stored)
    ensures c.Disabled? ==> Decrypt(c, "enc:v1:" + stored) == None
    ensures c.Keyed? ==> Decrypt(c, "enc:v1:" + stored) == c.open(stored)
    ensures forall nonce, plain ::
      Encrypt(c, nonce, plain) == if c.Keyed? then "enc:v1:" + c.seal(nonce, plain) else plain
  {
    var tagged := "enc:v1:" + stored;
    assert tagged[..7] == "enc:v1:" && tagged[7..] == stored;
  }
}
