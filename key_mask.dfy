/**
 * Credential masking (`maskAPIKey`). A raw API key is reduced to a display-safe
 * form that is used as the key of the per-credential usage index, so raw keys
 * never appear in the stored document.
 *
 * Go measures and slices strings in bytes; here a `string` is read as one
 * `char` per byte.
 */
module KeyMask {

  /** Number of leading characters of a key that survive masking. */
  const PrefixLen: nat := 6

  /** The fixed mask: the whole result for short keys, the suffix otherwise. */
  const Mask: string := "******"

  /**
   * Keys of at most six characters become the bare mask; longer keys keep
   * their first six characters followed by the mask.
   */
  function MaskAPIKey(apiKey: string): string
  {
    if |apiKey| <= PrefixLen then Mask else apiKey[..PrefixLen] + Mask
  }

  /**
   * The masked form is 6 or 12 characters long, always ends in the mask
   * and keeps a long key's first six characters.
   */
  lemma MaskShape(apiKey: string)
    ensures var r := MaskAPIKey(apiKey);
      && |r| == (if |apiKey| <= PrefixLen then 6 else 12)
      && r[|r| - 6..] == Mask
      && (|apiKey| > PrefixLen ==> r[..PrefixLen] == apiKey[..PrefixLen])
  {
  }

  /** Masking a masked key changes nothing. */
  lemma MaskIdempotent(apiKey: string)
    ensures MaskAPIKey(MaskAPIKey(apiKey)) == MaskAPIKey(apiKey)
  {
    var r := MaskAPIKey(apiKey);
    MaskShape(apiKey);
    if |apiKey| > PrefixLen {
      assert r == r[..PrefixLen] + r[PrefixLen..];
    }
  }

  /**
   * Two keys share a bucket exactly when both are short, or both are long
   * and agree on their first six characters.
   */
  lemma MaskCollision(a: string, b: string)
    ensures MaskAPIKey(a) == MaskAPIKey(b) <==>
      (|a| <= PrefixLen && |b| <= PrefixLen) ||
      (|a| > PrefixLen && |b| > PrefixLen && a[..PrefixLen] == b[..PrefixLen])
  {
    MaskShape(a);
    MaskShape(b);
    if |a| > PrefixLen && |b| > PrefixLen && MaskAPIKey(a) == MaskAPIKey(b) {
      assert MaskAPIKey(a)[..PrefixLen] == MaskAPIKey(b)[..PrefixLen];
    }
  }
}
