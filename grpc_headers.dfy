/**
 * Legality of gRPC initial-metadata keys: a key is legal when it is not
 * empty and every character is an ASCII letter, an ASCII digit, `-`, `_`
 * or `.`.
 */
module GrpcHeaders {
  import opened GrpcService

  /** The characters allowed in an initial-metadata key. */
  predicate IsLegalKeyChar(c: char)
    ensures IsLegalKeyChar(c) ==> (c as int) < 128
  {
    ('a' <= c <= 'z') || ('A' <= c <= 'Z') || ('0' <= c <= '9') || c == '-' || c == '_' || c == '.'
  }

  /** A key the Google gRPC client accepts in initial metadata: it holds only ASCII and never `;`. */
  predicate IsLegalKey(key: string)
    ensures IsLegalKey(key) ==> forall c :: c in key ==> (c as int) < 128 && c != ';'
  {
    |key| > 0 && forall i :: 0 <= i < |key| ==> IsLegalKeyChar(key[i])
  }

  /** The metadata check, entry by entry: it accepts iff every key is legal; values are not examined. */
  predicate AllKeysLegal(md: seq<HeaderValue>)
    ensures AllKeysLegal(md) <==> forall i :: 0 <= i < |md| ==> IsLegalKey(md[i].key)
  {
    |md| == 0 || (IsLegalKey(md[0].key) && AllKeysLegal(md[1..]))
  }

  /** A key made of `_`, `-`, `.` and letters is legal. */
  lemma LegalKeyExample()
    ensures IsLegalKey("_legal-character.")
  {
  }

  /** A key containing `;` is illegal. */
  lemma IllegalKeyExample()
    ensures !IsLegalKey("illegalcharacter;")
  {
    assert "illegalcharacter;"[16] == ';';
  }

  /** No key containing `;` is legal, wherever the `;` stands. */
  lemma SemicolonKeyIllegal(key: string)
    requires ';' in key
    ensures !IsLegalKey(key)
  {
  }

  /** Every non-empty key made only of `_`, `-`, `.` and letters is legal. */
  lemma PinnedCharsKeyLegal(key: string)
    requires key != []
    requires forall c :: c in key ==> c == '_' || c == '-' || c == '.' || 'a' <= c <= 'z' || 'A' <= c <= 'Z'
    ensures IsLegalKey(key)
  {
    assert forall i :: 0 <= i < |key| ==> key[i] in key;
  }

  /** One illegal key makes the whole metadata illegal, whatever surrounds it. */
  lemma {:induction false} IllegalKeyAnywhere(before: seq<HeaderValue>, h: HeaderValue, after: seq<HeaderValue>)
    requires !IsLegalKey(h.key)
    ensures !AllKeysLegal(before + [h] + after)
  {
    var md := before + [h] + after;
    assert md[|before|] == h;
  }
}
