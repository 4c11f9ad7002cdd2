/**
 * The image helpers: stripping the data-URL header from what the file
 * reader produces, and guessing a MIME type from the first characters of a
 * base64 payload.
 */
module ImageUtils {
  import opened Wrappers
  import opened JsStrings

  /**
   * The payload `fileToBase64` resolves with, given the data URL the file
   * reader produced: `dataUrl.split(',')[1]`, which is `undefined` (`None`)
   * when the URL has no comma. The file read itself is not modelled.
   */
  function FileToBase64(dataUrl: string): (payload: Option<string>)
    ensures payload.None? <==> ',' !in dataUrl
    ensures payload.Some? ==> ',' !in payload.value
  {
    SecondField(dataUrl, ',')
  }

  /** A well-formed data URL (header, one comma, base64 payload) yields exactly its payload. */
  lemma FileToBase64OfDataUrl(header: string, payload: string)
    requires ',' !in header && ',' !in payload
    ensures FileToBase64(header + "," + payload) == Some(payload)
  {
    SecondFieldOfPair(header, payload, ',');
  }

  /** A table of (signature, MIME type) entries, searched in order. */
  type SignatureTable = seq<(string, string)>

  /** The signature table, in the insertion order that `for ... in` visits it. */
  const Signatures: SignatureTable := [
    ("/9j/", "image/jpeg"),
    ("iVBORw0KGgo", "image/png"),
    ("R0lGODdh", "image/gif"),
    ("R0lGODlh", "image/gif"),
    ("Qk02U", "image/bmp")
  ]

  /** What is returned when no signature matches. */
  const DefaultMimeType := "image/png"

  /** The MIME type of the first entry whose signature starts `base64`, or the default. */
  function FirstMatch(base64: string, table: SignatureTable): (mime: string)
    ensures mime == DefaultMimeType || exists e :: e in table && e.1 == mime
  {
    if table == [] then DefaultMimeType
    else if StartsWith(base64, table[0].0) then table[0].1
    else FirstMatch(base64, table[1..])
  }

  /** `getMimeTypeFromBase64`: always one of the four MIME types the table and the default name. */
  function GetMimeTypeFromBase64(base64: string): (mime: string)
    ensures mime in {"image/jpeg", "image/png", "image/gif", "image/bmp"}
  {
    FirstMatch(base64, Signatures)
  }

  /** No signature of the table is a prefix of another entry's signature. */
  ghost predicate PrefixFree(table: SignatureTable) {
    forall a, b :: a in table && b in table && StartsWith(b.0, a.0) ==> a == b
  }

  /** Two prefixes of one string are ordered by the prefix relation. */
  lemma PrefixesOfOneString(s: string, p: string, q: string)
    requires StartsWith(s, p) && StartsWith(s, q) && |p| <= |q|
    ensures StartsWith(q, p)
  {
  }

  /** The signatures of the table are prefix-free. */
  lemma SignaturesArePrefixFree()
    ensures PrefixFree(Signatures)
  {
    forall a, b | a in Signatures && b in Signatures && StartsWith(b.0, a.0)
      ensures a == b
    {
      assert a == Signatures[0] || a == Signatures[1] || a == Signatures[2]
        || a == Signatures[3] || a == Signatures[4];
      assert b == Signatures[0] || b == Signatures[1] || b == Signatures[2]
        || b == Signatures[3] || b == Signatures[4];
      assert a.0[0] == b.0[0];
      if a.0[0] == 'R' {
        assert a.0[6] == b.0[6];
      }
    }
  }

  /** In a prefix-free table, any entry whose signature starts `base64` decides the lookup. */
  lemma {:induction false} FirstMatchOfPrefixFree(base64: string, table: SignatureTable, e: (string, string))
    requires PrefixFree(table) && e in table && StartsWith(base64, e.0)
    ensures FirstMatch(base64, table) == e.1
    decreases |table|
  {
    if StartsWith(base64, table[0].0) {
      if |table[0].0| <= |e.0| {
        PrefixesOfOneString(base64, table[0].0, e.0);
      } else {
        PrefixesOfOneString(base64, e.0, table[0].0);
      }
    } else {
      assert e in table[1..];
      FirstMatchOfPrefixFree(base64, table[1..], e);
    }
  }

  /** When no signature starts `base64`, the lookup yields the default. */
  lemma {:induction false} FirstMatchOfNoSignature(base64: string, table: SignatureTable)
    requires forall e :: e in table ==> !StartsWith(base64, e.0)
    ensures FirstMatch(base64, table) == DefaultMimeType
    decreases |table|
  {
    if table != [] {
      assert table[0] in table;
      FirstMatchOfNoSignature(base64, table[1..]);
    }
  }

  /** Each signature yields its own MIME type: JPEG, PNG, GIF (both variants) and BMP. */
  lemma SignatureDecides(base64: string, sig: string, mime: string)
    requires (sig, mime) in Signatures && StartsWith(base64, sig)
    ensures GetMimeTypeFromBase64(base64) == mime
  {
    SignaturesArePrefixFree();
    FirstMatchOfPrefixFree(base64, Signatures, (sig, mime));
  }

  /** A payload matching no signature is reported as PNG. */
  lemma UnknownSignatureIsPng(base64: string)
    requires forall e :: e in Signatures ==> !StartsWith(base64, e.0)
    ensures GetMimeTypeFromBase64(base64) == "image/png"
  {
    FirstMatchOfNoSignature(base64, Signatures);
  }

  /** Any reordering of the signature table gives the same answer on every input. */
  lemma TableOrderIrrelevant(base64: string, reordered: SignatureTable)
    requires forall e :: e in reordered <==> e in Signatures
    ensures FirstMatch(base64, reordered) == GetMimeTypeFromBase64(base64)
  {
    SignaturesArePrefixFree();
    assert PrefixFree(reordered);
    if e :| e in Signatures && StartsWith(base64, e.0) {
      FirstMatchOfPrefixFree(base64, Signatures, e);
      FirstMatchOfPrefixFree(base64, reordered, e);
    } else {
      FirstMatchOfNoSignature(base64, Signatures);
      FirstMatchOfNoSignature(base64, reordered);
    }
  }
}
