/**
 * `_mel_escape_string` of the Maya exporter: MEL string literals are
 * written with backslashes turned into forward slashes (the Maya path
 * convention) and double quotes escaped as `\"`.
 */
module MelString {
  import opened Basics

  /** `s.replace(c, repl)` for a one-character pattern. */
  function Replace(s: string, c: char, repl: string): (r: string)
  {
    if s == [] then [] else (if s[0] == c then repl else [s[0]]) + Replace(s[1..], c, repl)
  }

  /** `_mel_escape_string(s)`: `None` gives the empty string. */
  function MelEscape(s: Option<string>): (r: string)
    ensures s.None? ==> r == ""
  {
    match s
    case None => ""
    case Some(text) => Replace(Replace(text, '\\', "/"), '"', "\\\"")
  }

  /**
   * The shape of an escaped literal: every backslash is immediately
   * followed by a quote, and that pair is the only way a quote appears.
   */
  predicate WellEscaped(r: string)
    decreases |r|
  {
    if r == [] then true
    else if r[0] == '\\' then |r| >= 2 && r[1] == '"' && WellEscaped(r[2..])
    else r[0] != '"' && WellEscaped(r[1..])
  }

  /** Drops the backslash of every `\"` pair. */
  function Unescape(r: string): (u: string)
    decreases |r|
  {
    if r == [] then []
    else if |r| >= 2 && r[0] == '\\' && r[1] == '"' then ['"'] + Unescape(r[2..])
    else [r[0]] + Unescape(r[1..])
  }

  lemma {:induction false} ReplaceRemoves(s: string, c: char, repl: string)
    requires c !in repl
    ensures c !in Replace(s, c, repl)
    decreases |s|
  {
    if s != [] {
      ReplaceRemoves(s[1..], c, repl);
    }
  }

  lemma {:induction false} QuoteEscapingWellEscaped(t: string)
    requires '\\' !in t
    ensures WellEscaped(Replace(t, '"', "\\\""))
    decreases |t|
  {
    if t != [] {
      var rest := Replace(t[1..], '"', "\\\"");
      QuoteEscapingWellEscaped(t[1..]);
      if t[0] == '"' {
        assert Replace(t, '"', "\\\"") == "\\\"" + rest;
        assert ("\\\"" + rest)[2..] == rest;
      } else {
        assert Replace(t, '"', "\\\"") == [t[0]] + rest;
        assert ([t[0]] + rest)[1..] == rest;
      }
    }
  }

  lemma {:induction false} UnescapeQuoteEscaping(t: string)
    requires '\\' !in t
    ensures Unescape(Replace(t, '"', "\\\"")) == t
    decreases |t|
  {
    if t != [] {
      var rest := Replace(t[1..], '"', "\\\"");
      UnescapeQuoteEscaping(t[1..]);
      if t[0] == '"' {
        assert Replace(t, '"', "\\\"") == "\\\"" + rest;
        assert ("\\\"" + rest)[2..] == rest;
      } else {
        assert Replace(t, '"', "\\\"") == [t[0]] + rest;
        assert ([t[0]] + rest)[1..] == rest;
      }
    }
  }

  /** An escaped literal, read position by position. */
  lemma {:induction false} WellEscapedAt(r: string, i: nat)
    requires WellEscaped(r) && i < |r|
    ensures r[i] == '\\' ==> i + 1 < |r| && r[i + 1] == '"'
    ensures r[i] == '"' ==> i > 0 && r[i - 1] == '\\'
    decreases |r|
  {
    if r[0] == '\\' {
      if i >= 2 {
        WellEscapedAt(r[2..], i - 2);
      }
    } else if i >= 1 {
      WellEscapedAt(r[1..], i - 1);
    }
  }

  /**
   * Escaping leaves no backslash except immediately before a quote, every
   * quote is preceded by a backslash, and removing the escaping backslashes
   * gives back the input with each backslash replaced by `/`.
   */
  lemma MelEscapeCorrect(s: string)
    ensures var r := MelEscape(Some(s));
      && (forall i :: 0 <= i < |r| && r[i] == '\\' ==> i + 1 < |r| && r[i + 1] == '"')
      && (forall i :: 0 <= i < |r| && r[i] == '"' ==> i > 0 && r[i - 1] == '\\')
      && Unescape(r) == Replace(s, '\\', "/")
  {
    var t := Replace(s, '\\', "/");
    ReplaceRemoves(s, '\\', "/");
    QuoteEscapingWellEscaped(t);
    UnescapeQuoteEscaping(t);
    var r := MelEscape(Some(s));
    forall i | 0 <= i < |r|
      ensures r[i] == '\\' ==> i + 1 < |r| && r[i + 1] == '"'
      ensures r[i] == '"' ==> i > 0 && r[i - 1] == '\\'
    {
      WellEscapedAt(r, i);
    }
  }
}
