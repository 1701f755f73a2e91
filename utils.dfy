/** `truncateText`, the one helper of the utilities file the core uses. */
module Utils {
  import opened Builtins

  /** `text.substring(0, n)`: JavaScript clamps a negative end to 0 */
  function Prefix(text: string, n: int): (r: string)
    ensures |r| == if n < 0 then 0 else if n > |text| then |text| else n
    ensures r == text[..|r|]
  {
    if n < 0 then "" else if n > |text| then text else text[..n]
  }

  /** `truncateText(text, maxLength)`: the text itself when it fits,
      otherwise its first `maxLength` characters followed by `...` */
  function TruncateText(text: string, maxLength: int): string
  {
    if |text| <= maxLength then text else Prefix(text, maxLength) + "..."
  }

  /** A text that fits is returned unchanged; a longer one becomes its
      first `maxLength` characters and `...`. The result is never longer
      than `maxLength + 3` (for a non-negative limit) and always begins
      with a prefix of the text. */
  lemma TruncateBounds(text: string, maxLength: int)
    ensures |text| <= maxLength ==> TruncateText(text, maxLength) == text
    ensures 0 <= maxLength < |text| ==> TruncateText(text, maxLength) == text[..maxLength] + "..."
    ensures maxLength < 0 ==> TruncateText(text, maxLength) == "..."
    ensures maxLength >= 0 ==> |TruncateText(text, maxLength)| <= maxLength + 3
    ensures StartsWith(TruncateText(text, maxLength), Prefix(text, maxLength))
  {
    var r := TruncateText(text, maxLength);
    var p := Prefix(text, maxLength);
    if |text| > maxLength {
      assert r[..|p|] == p;
    }
  }

  /** Truncating again changes nothing. */
  lemma TruncateIdempotent(text: string, maxLength: int)
    ensures TruncateText(TruncateText(text, maxLength), maxLength) == TruncateText(text, maxLength)
  {
    var r := TruncateText(text, maxLength);
    if |text| > maxLength {
      var p := Prefix(text, maxLength);
      assert |r| == |p| + 3;
      if maxLength >= 0 {
        assert |p| == maxLength;
        assert Prefix(r, maxLength) == p;
      } else {
        assert r == "...";
      }
    }
  }
}
