/**
 * String helpers for the two serialisers: decimal rendering of integers
 * (Python `str(int)`), `sep.join(items)`, line-prefix tests and the
 * `lines[-1] += ';'` idiom both writers use to terminate a block.
 */
module Text {

  function DigitChar(d: nat): char
    requires d < 10
  {
    "0123456789"[d]
  }

  /** Decimal digits of a natural number, most significant first. */
  function NatToString(n: nat): (r: string)
    ensures |r| > 0
    decreases n
  {
    if n < 10 then [DigitChar(n)] else NatToString(n / 10) + [DigitChar(n % 10)]
  }

  /** Python `str(i)` for an integer. */
  function IntToString(i: int): string
  {
    if i < 0 then "-" + NatToString(-i) else NatToString(i)
  }

  /** Python `sep.join(items)`. */
  function Join(sep: string, items: seq<string>): string
  {
    if |items| == 0 then ""
    else if |items| == 1 then items[0]
    else items[0] + sep + Join(sep, items[1..])
  }

  /** `[s] * n` in Python. */
  function Repeat(s: string, n: nat): (r: seq<string>)
  {
    seq(n, _ => s)
  }

  predicate StartsWith(s: string, prefix: string)
  {
    |prefix| <= |s| && s[..|prefix|] == prefix
  }

  predicate EndsWith(s: string, suffix: string)
  {
    |suffix| <= |s| && s[|s| - |suffix|..] == suffix
  }

  /** `lines[-1] += ';'`: the last line gains the statement terminator. */
  function Terminate(lines: seq<string>): (r: seq<string>)
    requires |lines| > 0
  {
    lines[..|lines| - 1] + [lines[|lines| - 1] + ";"]
  }

  /** Terminating keeps every line but the last, which alone gains `;`. */
  lemma TerminateShape(lines: seq<string>)
    requires |lines| > 0
    ensures |Terminate(lines)| == |lines|
    ensures forall i :: 0 <= i < |lines| - 1 ==> Terminate(lines)[i] == lines[i]
    ensures Terminate(lines)[|lines| - 1] == lines[|lines| - 1] + ";"
    ensures EndsWith(Terminate(lines)[|lines| - 1], ";")
  {
    var last := lines[|lines| - 1] + ";";
    assert last[|last| - 1..] == ";";
  }

  /**
   * `Path(p).name` on POSIX: the text after the last `/` (the whole text
   * when there is none).
   */
  function BaseName(path: string): (r: string)
    ensures '/' !in r
    ensures EndsWith(path, r)
    decreases |path|
  {
    if path == [] || path[|path| - 1] == '/' then []
    else
      var front := BaseName(path[..|path| - 1]);
      assert path[..|path| - 1][|path| - 1 - |front|..] == front;
      assert path[|path| - |front| - 1..] == front + [path[|path| - 1]];
      front + [path[|path| - 1]]
  }

  /** A file name without a directory part is its own base name. */
  lemma {:induction false} BaseNamePlain(path: string)
    requires '/' !in path
    ensures BaseName(path) == path
    decreases |path|
  {
    if path != [] {
      assert path[|path| - 1] in path;
      assert forall c :: c in path[..|path| - 1] ==> c in path;
      BaseNamePlain(path[..|path| - 1]);
    }
  }

  /** The base name is the text after the last separator. */
  lemma BaseNameAfterSeparator(dir: string, name: string)
    requires '/' !in name
    ensures BaseName(dir + "/" + name) == name
  {
    BaseNameSuffix(dir + "/", name);
  }

  lemma {:induction false} BaseNameSuffix(dir: string, name: string)
    requires dir != [] && dir[|dir| - 1] == '/' && '/' !in name
    ensures BaseName(dir + name) == name
    decreases |name|
  {
    if name == [] {
      assert dir + name == dir;
    } else {
      assert (dir + name)[..|dir + name| - 1] == dir + name[..|name| - 1];
      assert name[|name| - 1] in name;
      assert forall c :: c in name[..|name| - 1] ==> c in name;
      BaseNameSuffix(dir, name[..|name| - 1]);
    }
  }

  /** Joining two non-empty lists puts one separator between the two joins. */
  lemma {:induction false} JoinAppend(sep: string, a: seq<string>, b: seq<string>)
    requires a != [] && b != []
    ensures Join(sep, a + b) == Join(sep, a) + sep + Join(sep, b)
    decreases |a|
  {
    if |a| == 1 {
      assert (a + b)[1..] == b;
    } else {
      assert (a + b)[1..] == a[1..] + b;
      JoinAppend(sep, a[1..], b);
    }
  }

  /**
   * `",".join(["0,0,0,0"] * n)` lists exactly `4 * n` zero fields: it is
   * the same text as joining `4 * n` single zeros.
   */
  lemma {:induction false} JoinRepeatedQuads(n: nat)
    ensures Join(",", Repeat("0,0,0,0", n)) == Join(",", Repeat("0", 4 * n))
  {
    var quad := Repeat("0", 4);
    assert Join(",", quad[3..]) == "0";
    assert Join(",", quad[2..]) == "0,0" by { assert quad[2..][1..] == quad[3..]; }
    assert Join(",", quad[1..]) == "0,0,0" by { assert quad[1..][1..] == quad[2..]; }
    assert Join(",", quad) == "0,0,0,0" by { assert quad[1..] == quad[1..]; }
    if n == 1 {
      assert Repeat("0", 4 * n) == quad;
    } else if n > 1 {
      JoinRepeatedQuads(n - 1);
      assert Repeat("0,0,0,0", n) == Repeat("0,0,0,0", n - 1) + ["0,0,0,0"];
      JoinAppend(",", Repeat("0,0,0,0", n - 1), ["0,0,0,0"]);
      assert Repeat("0", 4 * n) == Repeat("0", 4 * (n - 1)) + quad;
      JoinAppend(",", Repeat("0", 4 * (n - 1)), quad);
    }
  }

  /** A string that differs from `prefix` at a position inside both does not start with it. */
  lemma DiffersAt(s: string, prefix: string, i: nat)
    requires i < |prefix| && i < |s| && s[i] != prefix[i]
    ensures !StartsWith(s, prefix)
  {
  }
}
