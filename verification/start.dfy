/**
 * Startup helpers: the horizontal colour gradient laid over the ASCII-art
 * banner, and the check that the local model server answers.
 *
 * A colour column's channel values use exact rational arithmetic rounded
 * down; the program computes them in floating point.
 */
module Start {
  import opened Wrappers
  import opened Text
  import opened Json
  import opened Providers

  /** An RGB triplet. */
  datatype Rgb = Rgb(red: Byte, green: Byte, blue: Byte)

  /** A parsed colour; `triplet` is unset for colours that have no RGB value. */
  datatype Color = Color(triplet: Option<Rgb>)

  function Min(a: int, b: int): int { if a <= b then a else b }
  function Max(a: int, b: int): int { if a <= b then b else a }

  // ---------------------------------------------------------------- colour of a column

  lemma PositiveFactor(x: int, n: int)
    requires n > 0 && x * n > 0
    ensures x > 0
  {
  }

  /** Division by a positive number rounds down, so it keeps order. */
  lemma DivMonotone(a: int, b: int, n: int)
    requires n > 0 && a <= b
    ensures a / n <= b / n
  {
    var qa, qb := a / n, b / n;
    assert qa * n <= a;
    assert b < qb * n + n;
    assert (qb + 1 - qa) * n == qb * n + n - qa * n;
    PositiveFactor(qb + 1 - qa, n);
  }

  lemma MulDiv(d: int, n: int)
    requires n > 0
    ensures (d * n) / n == d
  {
    var q := (d * n) / n;
    assert q * n <= d * n < q * n + n;
    assert (d - q + 1) * n == d * n - q * n + n;
    PositiveFactor(d - q + 1, n);
    assert (q + 1 - d) * n == q * n + n - d * n;
    PositiveFactor(q + 1 - d, n);
  }

  /** `(e - s) * (i / total)` rounded down, for a channel difference `d`: between 0 and `d`, and 0 at the first column. */
  function Offset(d: int, i: nat, total: nat): (o: int)
    requires i < total
    ensures d >= 0 ==> 0 <= o <= d
    ensures d < 0 ==> d <= o <= 0
    ensures i == 0 ==> o == 0
  {
    OffsetBounds(d, i, total);
    (d * i) / total
  }

  lemma OffsetBounds(d: int, i: nat, total: nat)
    requires i < total
    ensures d >= 0 ==> 0 <= (d * i) / total <= d
    ensures d < 0 ==> d <= (d * i) / total <= 0
  {
    if d >= 0 {
      assert 0 <= d * i <= d * total;
      DivMonotone(0, d * i, total);
      DivMonotone(d * i, d * total, total);
      MulDiv(d, total);
    } else {
      assert d * total <= d * i <= 0;
      DivMonotone(d * total, d * i, total);
      DivMonotone(d * i, 0, total);
      MulDiv(d, total);
    }
  }

  /** `int(s + (e - s) * (i / total))`: the channel value at column `i`, between the two ends. */
  function Shade(s: Byte, e: Byte, i: nat, total: nat): (v: Byte)
    requires i < total
    ensures Min(s, e) <= v <= Max(s, e)
    ensures i == 0 ==> v == s
  {
    s + Offset(e - s, i, total)
  }

  /** `f"[#{r:02x}{g:02x}{b:02x}]"`: a nine-character markup tag with two lower-case hex digits per channel. */
  function Tag(c: Rgb): (t: string)
    ensures |t| == 9 && t[0] == '[' && t[1] == '#' && t[8] == ']'
    ensures forall k :: 2 <= k < 8 ==> IsHexDigit(t[k])
  {
    "[#" + Hex2(c.red) + Hex2(c.green) + Hex2(c.blue) + "]"
  }

  /** The colour can be read back from its tag, so different colours get different tags. */
  lemma TagRoundTrip(c: Rgb)
    ensures HexValue(Tag(c)[2]) * 16 + HexValue(Tag(c)[3]) == c.red
    ensures HexValue(Tag(c)[4]) * 16 + HexValue(Tag(c)[5]) == c.green
    ensures HexValue(Tag(c)[6]) * 16 + HexValue(Tag(c)[7]) == c.blue
  {
    var t := Tag(c);
    assert t[2..4] == Hex2(c.red) && t[4..6] == Hex2(c.green) && t[6..8] == Hex2(c.blue);
    Hex2RoundTrip(c.red);
    Hex2RoundTrip(c.green);
    Hex2RoundTrip(c.blue);
  }

  /** The two end colours and the width of the widest line. */
  datatype Gradient = Gradient(start: Rgb, end: Rgb, total: nat)

  /** The colour of column `i`. */
  function ColumnColor(g: Gradient, i: nat): (c: Rgb)
    requires i < g.total
    ensures i == 0 ==> c == g.start
  {
    Rgb(Shade(g.start.red, g.end.red, i, g.total),
        Shade(g.start.green, g.end.green, i, g.total),
        Shade(g.start.blue, g.end.blue, i, g.total))
  }

  // ---------------------------------------------------------------- tagged lines

  /** The tag written before the characters of each column, column by column. */
  function ColumnTags(g: Gradient): (tags: seq<string>)
    ensures |tags| == g.total && AllNine(tags)
    ensures forall i :: 0 <= i < g.total ==> tags[i] == Tag(ColumnColor(g, i))
  {
    seq(g.total, i requires 0 <= i < g.total => Tag(ColumnColor(g, i)))
  }

  predicate AllNine(tags: seq<string>) {
    forall i :: 0 <= i < |tags| ==> |tags[i]| == 9
  }

  /** The first `n` characters of `line`, each preceded by its column's tag. */
  function TaggedPrefix(tags: seq<string>, line: string, n: nat): (r: string)
    requires n <= |line| <= |tags| && AllNine(tags)
    ensures |r| == 10 * n
  {
    if n == 0 then "" else TaggedPrefix(tags, line, n - 1) + tags[n - 1] + [line[n - 1]]
  }

  /** Column `i` of a tagged prefix: its tag in nine characters, then the character itself. */
  lemma {:induction false} ChunkAt(tags: seq<string>, line: string, n: nat, i: nat)
    requires n <= |line| <= |tags| && AllNine(tags) && i < n
    ensures TaggedPrefix(tags, line, n)[10 * i..10 * i + 9] == tags[i]
    ensures TaggedPrefix(tags, line, n)[10 * i + 9] == line[i]
    decreases n
  {
    var prev := TaggedPrefix(tags, line, n - 1);
    var r := TaggedPrefix(tags, line, n);
    assert r == prev + tags[n - 1] + [line[n - 1]];
    if i < n - 1 {
      ChunkAt(tags, line, n - 1, i);
      assert r[10 * i..10 * i + 9] == prev[10 * i..10 * i + 9];
      assert r[10 * i + 9] == prev[10 * i + 9];
    } else {
      assert r[10 * i..10 * i + 9] == tags[i];
    }
  }

  /** Drops the nine-character tag in front of every character. */
  function Untag(s: string): string
    decreases |s|
  {
    if |s| < 10 then "" else Untag(s[..|s| - 10]) + [s[|s| - 1]]
  }

  /** Untagging a tagged character appends that character. */
  lemma UntagSnoc(p: string, t: string, c: char)
    requires |t| == 9
    ensures Untag(p + t + [c]) == Untag(p) + [c]
  {
    var s := p + t + [c];
    assert s[..|s| - 10] == p;
  }

  /** Removing the tags from a tagged prefix gives the characters back, each once and in order. */
  lemma {:induction false} UntagTagged(tags: seq<string>, line: string, n: nat)
    requires n <= |line| <= |tags| && AllNine(tags)
    ensures Untag(TaggedPrefix(tags, line, n)) == line[..n]
  {
    if n > 0 {
      UntagSnoc(TaggedPrefix(tags, line, n - 1), tags[n - 1], line[n - 1]);
      UntagTagged(tags, line, n - 1);
      assert line[..n] == line[..n - 1] + [line[n - 1]];
    }
  }

  /** Every line tagged in full; the tag before column `i` is the same on every line long enough to have one. */
  function TaggedLines(g: Gradient, lines: seq<string>): (r: seq<string>)
    requires forall j :: 0 <= j < |lines| ==> |lines[j]| <= g.total
    ensures |r| == |lines|
    ensures forall j :: 0 <= j < |lines| ==> |r[j]| == 10 * |lines[j]| && Untag(r[j]) == lines[j]
    ensures forall j, i :: 0 <= j < |lines| && 0 <= i < |lines[j]| ==>
      r[j][10 * i..10 * i + 9] == Tag(ColumnColor(g, i)) && r[j][10 * i + 9] == lines[j][i]
  {
    var tags := ColumnTags(g);
    forall j | 0 <= j < |lines|
      ensures Untag(TaggedPrefix(tags, lines[j], |lines[j]|)) == lines[j]
      ensures forall i :: 0 <= i < |lines[j]| ==>
        TaggedPrefix(tags, lines[j], |lines[j]|)[10 * i..10 * i + 9] == Tag(ColumnColor(g, i))
        && TaggedPrefix(tags, lines[j], |lines[j]|)[10 * i + 9] == lines[j][i]
    {
      UntagTagged(tags, lines[j], |lines[j]|);
      forall i | 0 <= i < |lines[j]|
        ensures TaggedPrefix(tags, lines[j], |lines[j]|)[10 * i..10 * i + 9] == Tag(ColumnColor(g, i))
        ensures TaggedPrefix(tags, lines[j], |lines[j]|)[10 * i + 9] == lines[j][i]
      {
        ChunkAt(tags, lines[j], |lines[j]|, i);
      }
      assert lines[j][..|lines[j]|] == lines[j];
    }
    seq(|lines|, j requires 0 <= j < |lines| => TaggedPrefix(tags, lines[j], |lines[j]|))
  }

  /** `max(len(line) for line in lines)`. */
  function MaxLen(lines: seq<string>): (m: nat)
    requires lines != []
    ensures forall j :: 0 <= j < |lines| ==> |lines[j]| <= m
    ensures exists j :: 0 <= j < |lines| && |lines[j]| == m
  {
    if |lines| == 1 then |lines[0]|
    else
      var rest := MaxLen(lines[1..]);
      assert forall j :: 1 <= j < |lines| ==> lines[j] == lines[1..][j - 1];
      if |lines[0]| >= rest then |lines[0]| else rest
  }

  /**
   * What `gradient_text` returns: nothing when the text has no line (taking
   * the maximum of no lengths fails), the text itself when a colour has no
   * triplet, and otherwise the tagged lines joined by line breaks.
   */
  function GradientSpec(text: string, startColor: Color, endColor: Color): (r: Option<string>)
    ensures r.None? <==> text == ""
    ensures text != "" && (startColor.triplet.None? || endColor.triplet.None?) ==> r == Some(text)
    ensures text != "" && startColor.triplet.Some? && endColor.triplet.Some? ==>
      r == Some(Join(TaggedLines(Gradient(startColor.triplet.value, endColor.triplet.value, MaxLen(SplitLines(text))), SplitLines(text)), "\n"))
  {
    var lines := SplitLines(text);
    if lines == [] then None
    else if startColor.triplet.None? || endColor.triplet.None? then Some(text)
    else
      var g := Gradient(startColor.triplet.value, endColor.triplet.value, MaxLen(lines));
      Some(Join(TaggedLines(g, lines), "\n"))
  }

  /** A line after the first `i` columns have been processed: lines shorter than `i` are complete. */
  function TaggedUpTo(tags: seq<string>, line: string, i: nat): string
    requires |line| <= |tags| && AllNine(tags)
  {
    TaggedPrefix(tags, line, Min(i, |line|))
  }

  /** Processing column `i` appends its tag and character to the lines that reach it, and leaves the others alone. */
  lemma TaggedUpToStep(tags: seq<string>, line: string, i: nat)
    requires |line| <= |tags| && AllNine(tags) && i < |tags|
    ensures i < |line| ==> TaggedUpTo(tags, line, i + 1) == TaggedUpTo(tags, line, i) + tags[i] + [line[i]]
    ensures i >= |line| ==> TaggedUpTo(tags, line, i + 1) == TaggedUpTo(tags, line, i)
  {
  }

  /** Once every column has been processed, each line is tagged in full. */
  lemma AllColumnsTagged(g: Gradient, lines: seq<string>, resultLines: seq<string>)
    requires |resultLines| == |lines|
    requires forall k :: 0 <= k < |lines| ==> |lines[k]| <= g.total
    requires forall k :: 0 <= k < |lines| ==> resultLines[k] == TaggedUpTo(ColumnTags(g), lines[k], g.total)
    ensures resultLines == TaggedLines(g, lines)
  {
  }

  /** One pass of the outer loop: column `i`'s tag and character are appended to every line that reaches column `i`. */
  method TagColumn(g: Gradient, lines: seq<string>, resultLines: seq<string>, i: nat) returns (next: seq<string>)
    requires |resultLines| == |lines| && i < g.total
    requires forall k :: 0 <= k < |lines| ==> |lines[k]| <= g.total
    requires forall k :: 0 <= k < |lines| ==> resultLines[k] == TaggedUpTo(ColumnTags(g), lines[k], i)
    ensures |next| == |lines|
    ensures forall k :: 0 <= k < |lines| ==> next[k] == TaggedUpTo(ColumnTags(g), lines[k], i + 1)
  {
    ghost var tags := ColumnTags(g);
    var tag := Tag(ColumnColor(g, i));
    assert tag == tags[i];
    next := resultLines;
    for j := 0 to |lines|
      invariant |next| == |lines|
      invariant forall k :: 0 <= k < j ==> next[k] == TaggedUpTo(tags, lines[k], i + 1)
      invariant forall k :: j <= k < |lines| ==> next[k] == TaggedUpTo(tags, lines[k], i)
    {
      TaggedUpToStep(tags, lines[j], i);
      var line := next[j];
      if i < |lines[j]| {
        line := line + tag + [lines[j][i]];
      }
      assert line == TaggedUpTo(tags, lines[j], i + 1);
      next := next[j := line];
    }
  }

  /** `gradient_text(text, start_color, end_color)`: builds the result lines column by column. */
  method GradientText(text: string, startColor: Color, endColor: Color) returns (r: Option<string>)
    ensures r == GradientSpec(text, startColor, endColor)
  {
    var lines := SplitLines(text);
    if lines == [] {
      return None;
    }
    var total := MaxLen(lines);
    var resultLines := seq(|lines|, _ => "");
    if startColor.triplet.None? || endColor.triplet.None? {
      return Some(text);
    }
    var g := Gradient(startColor.triplet.value, endColor.triplet.value, total);
    for i := 0 to total
      invariant |resultLines| == |lines|
      invariant forall k :: 0 <= k < |lines| ==> resultLines[k] == TaggedUpTo(ColumnTags(g), lines[k], i)
    {
      resultLines := TagColumn(g, lines, resultLines, i);
    }
    AllColumnsTagged(g, lines, resultLines);
    return Some(Join(resultLines, "\n"));
  }

  // ---------------------------------------------------------------- server probe

  const VersionUrl: string := "http://localhost:11434/api/version"

  /** `local_ai_available()`, given what the GET on the version endpoint (0.3 s timeout) produced. */
  function LocalAiAvailable(net: NetOutcome): (ok: bool)
    ensures ok <==>
      && net.Reply? && net.code == 200 && net.decoded.Some? && net.decoded.value.JObj?
      && "version" in net.decoded.value.fields
  {
    assert Upper("GET") == "GET";
    match HttpRequest("GET", VersionUrl, map["timeout" := KwSeconds(0.3)], net)
    case Failure(_) => false
    case Success(exchange) =>
      var r := exchange.response;
      r.ReturnCode() == 200 && r.response.JsonBody? && r.response.value.JObj? && "version" in r.response.value.fields
  }
}
