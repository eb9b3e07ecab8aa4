/** Text as lines, as `split("\n")`, `join("\n")` and `trimEnd()` see it. */
module Lines {

  /** A line, or any text without a newline. */
  predicate IsLine(s: string) { '\n' !in s }

  /** White space and line terminators, as `\s` and `trim` have them. */
  predicate IsSpace(c: char) {
    || 0x09 <= c as int <= 0x0D || c as int == 0x20 || c as int == 0xA0 || c as int == 0x1680
    || 0x2000 <= c as int <= 0x200A || c as int == 0x2028 || c as int == 0x2029
    || c as int == 0x202F || c as int == 0x205F || c as int == 0x3000 || c as int == 0xFEFF
  }

  function TrimEnd(s: string): (t: string)
    ensures t <= s && (t == [] || !IsSpace(t[|t| - 1]))
    ensures s == [] || !IsSpace(s[|s| - 1]) ==> t == s
  {
    if s != [] && IsSpace(s[|s| - 1]) then TrimEnd(s[..|s| - 1]) else s
  }

  /** Never empty: text without a newline is one line. */
  function Split(s: string): (lines: seq<string>)
    ensures lines != [] && forall i :: 0 <= i < |lines| ==> IsLine(lines[i])
  {
    if s == [] then [[]]
    else if s[0] == '\n' then [[]] + Split(s[1..])
    else var rest := Split(s[1..]); [s[..1] + rest[0]] + rest[1..]
  }

  function Join(lines: seq<string>): string {
    if lines == [] then [] else if |lines| == 1 then lines[0] else lines[0] + "\n" + Join(lines[1..])
  }

  function Trimmed(lines: seq<string>): (t: seq<string>)
    ensures |t| == |lines| && forall i :: 0 <= i < |t| ==> t[i] == TrimEnd(lines[i])
  {
    seq(|lines|, i requires 0 <= i < |lines| => TrimEnd(lines[i]))
  }

  lemma {:induction false} SplitLine(line: string, rest: string)
    requires IsLine(line)
    ensures Split(line) == [line]
    ensures Split(line + "\n" + rest) == [line] + Split(rest)
  {
    var t := line + "\n" + rest;
    if line == [] {
      assert t[1..] == rest;
    } else {
      SplitLine(line[1..], rest);
      assert t[1..] == line[1..] + "\n" + rest;
      assert line == line[..1] + line[1..] && t[..1] == line[..1];
    }
  }

  /** Splitting undoes joining. */
  lemma {:induction false} SplitJoin(lines: seq<string>)
    requires lines != [] && forall i :: 0 <= i < |lines| ==> IsLine(lines[i])
    ensures Split(Join(lines)) == lines
  {
    if |lines| == 1 {
      SplitLine(lines[0], []);
    } else {
      SplitJoin(lines[1..]);
      SplitLine(lines[0], Join(lines[1..]));
    }
  }
}
