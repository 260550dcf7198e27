/**
 * Object-name sanitisation. Both exporters carry the same three-step
 * routine (replace every character outside `[A-Za-z0-9_]` by `_`, prefix
 * `obj_` when the result starts with a digit, and fall back to `unnamed`
 * when it is empty); it is defined once here and used by both.
 */
module Naming {

  predicate IsDigit(c: char)
  {
    '0' <= c <= '9'
  }

  /** The character class `[a-zA-Z0-9_]`. */
  predicate IsNameChar(c: char)
  {
    'a' <= c <= 'z' || 'A' <= c <= 'Z' || IsDigit(c) || c == '_'
  }

  /** A name every consumer accepts: non-empty, word characters only, no leading digit. */
  predicate IsValidName(s: string)
  {
    |s| > 0 && !IsDigit(s[0]) && forall i :: 0 <= i < |s| ==> IsNameChar(s[i])
  }

  /** `re.sub(r'[^a-zA-Z0-9_]', '_', name)`. */
  function ReplaceInvalid(name: string): (r: string)
  {
    seq(|name|, i requires 0 <= i < |name| => if IsNameChar(name[i]) then name[i] else '_')
  }

  /** `_sanitize_name` of both exporters. */
  function SanitizeName(name: string): (r: string)
    ensures IsValidName(r)
  {
    var sanitized := ReplaceInvalid(name);
    if |sanitized| > 0 && IsDigit(sanitized[0]) then "obj_" + sanitized
    else if |sanitized| == 0 then "unnamed"
    else sanitized
  }

  /**
   * Character by character, the result is the input with every character
   * outside the class replaced by `_`, after a prefix that is `obj_` exactly
   * when the input starts with a digit; the empty name becomes `unnamed`.
   */
  lemma SanitizeNameShape(name: string)
    ensures name == [] ==> SanitizeName(name) == "unnamed"
    ensures name != [] ==>
      var r := SanitizeName(name);
      var k := if IsDigit(name[0]) then 4 else 0;
      && |r| == |name| + k
      && r[..k] == (if IsDigit(name[0]) then "obj_" else "")
      && forall i :: 0 <= i < |name| ==> r[k + i] == (if IsNameChar(name[i]) then name[i] else '_')
  {
  }

  /** A name is left alone by sanitisation exactly when it is already valid. */
  lemma {:induction false} SanitizeNameFixpoint(name: string)
    ensures SanitizeName(name) == name <==> IsValidName(name)
  {
    if IsValidName(name) {
      assert ReplaceInvalid(name) == name;
    }
  }

  /** Sanitising twice gives the same name as sanitising once. */
  lemma {:induction false} SanitizeNameIdempotent(name: string)
    ensures SanitizeName(SanitizeName(name)) == SanitizeName(name)
  {
    SanitizeNameFixpoint(SanitizeName(name));
  }

  /** The design's example: `"3Cam A"` gains the prefix and loses the space. */
  lemma SanitizeNameExample()
    ensures SanitizeName("3Cam A") == "obj_3Cam_A"
  {
    assert ReplaceInvalid("3Cam A") == "3Cam_A";
  }
}
