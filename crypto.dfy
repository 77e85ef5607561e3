/** Field decryption (src/utils/crypto.util.ts). The AES-CBC/PKCS#7 primitive, the hex
    parsing and the UTF-8 decoding are CryptoJS's and are not modelled: they are the
    `decrypt` function of a `Cipher`, which may fail. */
module Crypto {
  import opened Values

  /** CryptoJS's `AES.decrypt(..).toString(Utf8)` given the hex key, the hex IV and the hex
      ciphertext; `None` stands for any exception it raises. */
  type Decryptor = (string, string, string) -> Option<string>

  /** The configured key (`REACT_APP_ENCRYPTION_KEY`, or "" when unset) and the primitive. */
  datatype Cipher = Cipher(key: string, decrypt: Decryptor)

  /** The first two elements of `s.split(":")`: the IV segment, and the ciphertext segment
      when `s` holds a colon (otherwise the second element is `undefined`). */
  function Segments(s: string): (r: (string, Option<string>))
    ensures ':' !in r.0
    ensures r.1.None? <==> ':' !in s
    ensures r.1.None? ==> r.0 == s
    ensures r.1.Some? ==>
              var n := |r.0| + 1 + |r.1.value|;
              && ':' !in r.1.value
              && n <= |s| && s[..n] == r.0 + ":" + r.1.value
              && (n == |s| || s[n] == ':')
  {
    match IndexOf(s, ':')
    case None => (s, None)
    case Some(i) =>
      var rest := s[i + 1..];
      match IndexOf(rest, ':')
      case None => (s[..i], Some(rest))
      case Some(j) => (s[..i], Some(rest[..j]))
  }

  /** `decryptField`. It never throws: a non-string argument (whose `split` is not a
      function), a missing ciphertext segment (CryptoJS's hex parser reads the length of
      `undefined`) and any failure of the primitive all return the argument unchanged. */
  function DecryptField(c: Cipher, v: Value): (r: Value)
    ensures !v.Str? ==> r == v
    ensures r == v || r.Str?
    ensures v.Str? && Segments(v.s).1.None? ==> r == v
  {
    if !v.Str? then v
    else
      var (iv, ct) := Segments(v.s);
      if ct.None? then v
      else
        match c.decrypt(c.key, iv, ct.value)
        case Some(plain) => Str(plain)
        case None => v
  }

  /** `decryptUserFields`: a falsy argument comes back unchanged; otherwise a shallow copy in
      which `email` is replaced by its decryption when it is truthy. */
  function DecryptUserFields(c: Cipher, user: Value): (r: Value)
    ensures !Truthy(user) ==> r == user
    ensures Truthy(user) ==> r.Obj? && r.fields.Keys == Spread(user).Keys + {"email"}
    ensures Truthy(user) ==> forall k :: k in Spread(user) && k != "email" ==> r.fields[k] == Spread(user)[k]
    ensures Truthy(user) && Truthy(Prop(user, "email")) ==> r.fields["email"] == DecryptField(c, Prop(user, "email"))
    ensures Truthy(user) && !Truthy(Prop(user, "email")) ==> r.fields["email"] == Prop(user, "email")
  {
    if !Truthy(user) then user
    else
      var email := Prop(user, "email");
      Obj(Spread(user)["email" := if Truthy(email) then DecryptField(c, email) else email])
  }

  /** Only the text before the first colon is the IV and only the text between the first and
      second colons is the ciphertext: whatever follows a second colon is ignored. */
  lemma {:induction false} SegmentsOfField(iv: string, ct: string, tail: string)
    requires ':' !in iv && ':' !in ct
    requires tail == [] || tail[0] == ':'
    ensures Segments(iv + ":" + ct + tail) == (iv, Some(ct))
  {
    var s := iv + ":" + ct + tail;
    var after := ":" + ct + tail;
    assert s == iv + after;
    assert IndexOf(after, ':') == Some(0);
    IndexOfAfterPrefix(iv, after);
    assert IndexOf(s, ':') == Some(|iv|);
    var rest := ct + tail;
    assert s[|iv| + 1..] == rest;
    assert s[..|iv|] == iv;
    IndexOfAfterPrefix(ct, tail);
    if tail == [] {
      assert IndexOf(rest, ':') == None;
      assert rest == ct;
    } else {
      assert IndexOf(tail, ':') == Some(0);
      assert IndexOf(rest, ':') == Some(|ct|);
      assert rest[..|ct|] == ct;
    }
  }

  /** The first `c` of `p + q` lies in `q` when `p` holds none. */
  lemma {:induction false} IndexOfAfterPrefix(p: string, q: string)
    requires ':' !in p
    ensures IndexOf(p + q, ':') == (match IndexOf(q, ':') case None => None case Some(j) => Some(|p| + j))
    decreases |p|
  {
    if p != [] {
      assert (p + q)[1..] == p[1..] + q;
      IndexOfAfterPrefix(p[1..], q);
    } else {
      assert p + q == q;
    }
  }

  /** For a field `iv:ct` followed by any further `:`-segments, the primitive is applied to
      the IV and ciphertext segments alone: its plaintext is the result when it succeeds, and
      the whole field comes back unchanged when it fails. */
  lemma DecryptFieldOfSegments(c: Cipher, iv: string, ct: string, tail: string)
    requires ':' !in iv && ':' !in ct
    requires tail == [] || tail[0] == ':'
    ensures DecryptField(c, Str(iv + ":" + ct + tail)) ==
            match c.decrypt(c.key, iv, ct)
            case Some(plain) => Str(plain)
            case None => Str(iv + ":" + ct + tail)
  {
    SegmentsOfField(iv, ct, tail);
  }

  /** A string without a colon is returned unchanged, whatever the primitive does. */
  lemma DecryptFieldWithoutColon(c: Cipher, s: string)
    requires ':' !in s
    ensures DecryptField(c, Str(s)) == Str(s)
  {
  }
}
