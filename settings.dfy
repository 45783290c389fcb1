/** The pure helper of the settings page that masks a stored API key for display. */
module Settings {
  import opened JsString

  /** The mask character `•` (U+2022). */
  const Bullet: char := '\U{2022}'

  /**
   * `maskApiKey`: a key of at most eight characters is shown as it is;
   * a longer one keeps its first and last four characters and hides every
   * character in between behind a bullet, so the length is kept.
   */
  function MaskApiKey(key: string): (r: string)
    ensures |r| == |key|
    ensures |key| <= 8 ==> r == key
    ensures |key| > 8 ==> r[..4] == key[..4] && r[|r| - 4..] == key[|key| - 4..]
    ensures |key| > 8 ==> forall i :: 4 <= i < |key| - 4 ==> r[i] == Bullet
  {
    if |key| <= 8 then key
    else key[..4] + Repeat(Bullet, |key| - 8) + key[|key| - 4..]
  }

  /** Exactly `|key| - 8` bullets are inserted, besides any the kept ends already hold. */
  lemma MaskBulletCount(key: string)
    requires |key| > 8
    ensures Count(MaskApiKey(key), Bullet)
            == Count(key[..4], Bullet) + (|key| - 8) + Count(key[|key| - 4..], Bullet)
  {
    var middle := Repeat(Bullet, |key| - 8);
    CountAppend(key[..4], middle, Bullet);
    CountAppend(key[..4] + middle, key[|key| - 4..], Bullet);
    CountUniform(middle, Bullet);
  }

  /** The masked form reveals nothing of the hidden middle: keys that agree on their ends mask alike. */
  lemma MaskHidesMiddle(k1: string, k2: string)
    requires |k1| == |k2| > 8
    requires k1[..4] == k2[..4] && k1[|k1| - 4..] == k2[|k2| - 4..]
    ensures MaskApiKey(k1) == MaskApiKey(k2)
  {
  }

  /** Masking a masked key changes nothing. */
  lemma MaskIdempotent(key: string)
    ensures MaskApiKey(MaskApiKey(key)) == MaskApiKey(key)
  {
    var m := MaskApiKey(key);
    if |key| > 8 {
      assert m[..4] == key[..4];
      assert m[|m| - 4..] == key[|key| - 4..];
      var mm := MaskApiKey(m);
      assert forall i :: 0 <= i < |m| ==> mm[i] == m[i] by {
        forall i | 0 <= i < |m| ensures mm[i] == m[i] {
          if i < 4 {
            assert mm[i] == mm[..4][i];
            assert m[i] == m[..4][i];
          } else if i >= |m| - 4 {
            assert mm[i] == mm[|mm| - 4..][i - (|m| - 4)];
            assert m[i] == m[|m| - 4..][i - (|m| - 4)];
          }
        }
      }
    }
  }
}
