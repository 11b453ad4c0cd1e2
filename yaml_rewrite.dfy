/**
 * The end of Config2D.from_yaml: the YAML file is read back as its lines,
 * every line mentioning `verified_num_steps_1d` or `verified_num_steps_2d`
 * gets its value replaced by the step count the sweep verification settled
 * on, and the lines are written back over the file, which was opened `r+`.
 * The value of such a line is the second space-separated token after its
 * first ':'.
 */
module YamlRewrite {
  import opened Wrappers
  import opened Text

  const Key1d: string := "verified_num_steps_1d"
  const Key2d: string := "verified_num_steps_2d"

  /** The IndexError of the loop, with the index of the line that raised it. */
  datatype RewriteError = IndexError(line: nat)

  // ---------------------------------------------------------------------
  // The file as its lines.

  /** The length of the first line of `c`: up to and including its first '\n', or all of `c`. */
  function FirstLineLength(c: string): (k: nat)
    requires c != []
    ensures 1 <= k <= |c|
    ensures '\n' !in c[..k - 1]
    ensures k < |c| ==> c[k - 1] == '\n'
    decreases |c|
  {
    if c[0] == '\n' || |c| == 1 then 1
    else
      var k := 1 + FirstLineLength(c[1..]);
      assert c[..k - 1] == [c[0]] + c[1..][..k - 2];
      k
  }

  /** `file.readlines()`: the lines of `c`, each with its '\n', the last one possibly without. */
  function ReadLines(c: string): (ls: seq<string>)
    ensures c != [] ==> ls != []
    decreases |c|
  {
    if c == [] then []
    else
      var k := FirstLineLength(c);
      [c[..k]] + ReadLines(c[k..])
  }

  /** A line of a text file: non-empty, with its only '\n' at its end, which every line but the last has. */
  predicate IsLine(l: string, last: bool)
  {
    |l| > 0 && '\n' !in l[..|l| - 1] && (!last ==> l[|l| - 1] == '\n')
  }

  predicate WellFormedLines(ls: seq<string>)
  {
    forall i :: 0 <= i < |ls| ==> IsLine(ls[i], i == |ls| - 1)
  }

  /** Reading the lines loses nothing: they spell the file, and they are lines. */
  lemma ConcatReadLines(c: string)
    ensures Concat(ReadLines(c)) == c
    ensures WellFormedLines(ReadLines(c))
  {
    ReadLinesSpell(c);
    ReadLinesWellFormed(c);
  }

  lemma {:induction false} ReadLinesSpell(c: string)
    ensures Concat(ReadLines(c)) == c
    decreases |c|
  {
    if c != [] {
      var k := FirstLineLength(c);
      var rest := ReadLines(c[k..]);
      ReadLinesSpell(c[k..]);
      var ls := ReadLines(c);
      assert ls == [c[..k]] + rest;
      assert ls[1..] == rest;
      assert c[..k] + c[k..] == c;
    }
  }

  lemma {:induction false} ReadLinesWellFormed(c: string)
    ensures WellFormedLines(ReadLines(c))
    decreases |c|
  {
    if c != [] {
      var k := FirstLineLength(c);
      var rest := ReadLines(c[k..]);
      ReadLinesWellFormed(c[k..]);
      assert rest == [] <==> k == |c|;
      FirstLineIsLine(c);
      ConsLine(c[..k], rest);
    }
  }

  /** The first line of a non-empty file is a line, the last one exactly when it is all of the file. */
  lemma FirstLineIsLine(c: string)
    requires c != []
    ensures IsLine(c[..FirstLineLength(c)], FirstLineLength(c) == |c|)
  {
    var k := FirstLineLength(c);
    assert c[..k][..k - 1] == c[..k - 1];
  }

  lemma ConsLine(l: string, rest: seq<string>)
    requires WellFormedLines(rest) && IsLine(l, rest == [])
    ensures WellFormedLines([l] + rest)
  {
    var ls := [l] + rest;
    forall i | 0 <= i < |ls|
      ensures IsLine(ls[i], i == |ls| - 1)
    {
      if i > 0 {
        assert ls[i] == rest[i - 1];
      }
    }
  }

  /** Writing well-formed lines and reading the file back gives the same lines. */
  lemma {:induction false} ReadLinesConcat(ls: seq<string>)
    requires WellFormedLines(ls)
    ensures ReadLines(Concat(ls)) == ls
    decreases |ls|
  {
    if ls != [] {
      var l := ls[0];
      var tail := ls[1..];
      assert forall i :: 0 <= i < |tail| ==> tail[i] == ls[i + 1];
      assert WellFormedLines(tail);
      ReadLinesConcat(tail);
      var rest := Concat(tail);
      if tail != [] {
        assert |rest| >= |tail[0]|;
      }
      FirstLineOf(l, rest);
      assert (l + rest)[..|l|] == l && (l + rest)[|l|..] == rest;
    }
  }

  lemma {:induction false} FirstLineOf(l: string, rest: string)
    requires |l| > 0 && '\n' !in l[..|l| - 1]
    requires rest != [] ==> l[|l| - 1] == '\n'
    ensures FirstLineLength(l + rest) == |l|
    decreases |l|
  {
    var c := l + rest;
    if |l| > 1 {
      assert l[0] in l[..|l| - 1];
      assert c[1..] == l[1..] + rest;
      assert l[1..][..|l| - 2] == l[..|l| - 1][1..];
      FirstLineOf(l[1..], rest);
    }
  }

  /**
   * Writing `data` from the start of a file opened `r+` without truncating
   * it: when the new text is shorter, the end of the old one stays behind.
   */
  function WriteBack(previous: string, data: string): (r: string)
    ensures data <= r
    ensures |r| == if |data| < |previous| then |previous| else |data|
    ensures r[|data|..] == if |data| < |previous| then previous[|data|..] else ""
  {
    if |data| < |previous| then data + previous[|data|..] else data
  }

  // ---------------------------------------------------------------------
  // One line.

  /** `line.split(":")[1].split(" ")[1]`, the token the code takes for the value. */
  function ValueToken(line: string): Option<string>
  {
    var fields := Split(line, ':');
    if |fields| < 2 then None
    else
      var tokens := Split(fields[1], ' ');
      if |tokens| < 2 then None else Some(tokens[1])
  }

  /**
   * Replacing the value of a line: split at ':', split the second field at
   * ' ', replace the second token, join both back. None is the IndexError of
   * a line without that token.
   */
  function ReplaceValue(line: string, value: int): (r: Option<string>)
    ensures r.Some? <==> ValueToken(line).Some?
  {
    var fields := Split(line, ':');
    if |fields| < 2 then None
    else
      var tokens := Split(fields[1], ' ');
      if |tokens| < 2 then None
      else Some(Join([fields[0], Join([tokens[0], IntToString(value)] + tokens[2..], ' ')] + fields[2..], ':'))
  }

  /**
   * The loop body for one line: the 1d key rewrites it with the 1d count;
   * the 2d key rewrites the line as read, so on a line holding both keys the
   * 2d rewrite replaces the 1d one. `keepNewline` selects the corrected
   * replacement.
   */
  function RewriteLine(line: string, n1: int, n2: int, keepNewline: bool): (r: Option<string>)
    ensures !Contains(line, Key1d) && !Contains(line, Key2d) ==> r == Some(line)
  {
    var first := if Contains(line, Key1d) then Replace(line, n1, keepNewline) else Some(line);
    match first
    case None => None
    case Some(l) => if Contains(line, Key2d) then Replace(line, n2, keepNewline) else Some(l)
  }

  function Replace(line: string, value: int, keepNewline: bool): Option<string>
  {
    if keepNewline then ReplaceValueKeepingNewline(line, value) else ReplaceValue(line, value)
  }

  /** The loop over the lines, up to the first line that raises. */
  function Rewritten(lines: seq<string>, n1: int, n2: int, keepNewline: bool): Result<seq<string>, RewriteError>
    decreases |lines|
  {
    if lines == [] then Success([])
    else
      var n := |lines| - 1;
      match Rewritten(lines[..n], n1, n2, keepNewline)
      case Failure(e) => Failure(e)
      case Success(ls) =>
        match RewriteLine(lines[n], n1, n2, keepNewline)
        case None => Failure(IndexError(n))
        case Some(l) => Success(ls + [l])
  }

  /**
   * The file after the update, as written: a raising line leaves it as it
   * was; otherwise the rewritten lines are written over it without
   * truncating it.
   */
  function RewriteFile(content: string, n1: int, n2: int): Result<string, RewriteError>
  {
    match Rewritten(ReadLines(content), n1, n2, false)
    case Failure(e) => Failure(e)
    case Success(ls) => Success(WriteBack(content, Concat(ls)))
  }

  // ---------------------------------------------------------------------
  // The loop and the file.

  /** `for i, line in enumerate(lines):` rewriting `lines[i]` in place. */
  method RewriteYamlLines(lines: seq<string>, n1: int, n2: int) returns (r: Result<seq<string>, RewriteError>)
    ensures r == Rewritten(lines, n1, n2, false)
  {
    var ls := lines;
    for i := 0 to |lines|
      invariant |ls| == |lines|
      invariant Rewritten(lines[..i], n1, n2, false) == Success(ls[..i])
      invariant forall k :: i <= k < |ls| ==> ls[k] == lines[k]
    {
      RewrittenStep(lines, i, n1, n2, false, ls[..i]);
      ghost var prefix := ls[..i];
      var line := ls[i];
      if Contains(line, Key1d) {
        var x := ReplaceValue(line, n1);
        if x.None? {
          RewrittenFailurePersists(lines, i + 1, n1, n2, false);
          return Failure(IndexError(i));
        }
        ls := ls[i := x.value];
      }
      if Contains(line, Key2d) {
        var x := ReplaceValue(line, n2);
        if x.None? {
          RewrittenFailurePersists(lines, i + 1, n1, n2, false);
          return Failure(IndexError(i));
        }
        ls := ls[i := x.value];
      }
      assert RewriteLine(lines[i], n1, n2, false) == Some(ls[i]);
      assert ls[..i + 1] == prefix + [ls[i]];
    }
    assert lines[..|lines|] == lines && ls[..|lines|] == ls;
    r := Success(ls);
  }

  /** One more line of the loop: it raises, or its rewrite is appended. */
  lemma RewrittenStep(lines: seq<string>, i: nat, n1: int, n2: int, keepNewline: bool, prefix: seq<string>)
    requires i < |lines| && Rewritten(lines[..i], n1, n2, keepNewline) == Success(prefix)
    ensures Rewritten(lines[..i + 1], n1, n2, keepNewline) ==
      match RewriteLine(lines[i], n1, n2, keepNewline)
      case None => Failure(IndexError(i))
      case Some(l) => Success(prefix + [l])
  {
    assert lines[..i + 1][..i] == lines[..i];
  }

  /** A text file, reduced to its contents. */
  class YamlFile {
    var content: string

    constructor(content: string)
      ensures this.content == content
    {
      this.content := content;
    }

    /**
     * `with open(yaml_file, 'r+')`: read the lines, rewrite them, seek to 0
     * and write them back. A raising line leaves the file untouched.
     */
    method UpdateVerifiedSteps(n1: int, n2: int) returns (r: Result<string, RewriteError>)
      modifies this
      ensures r == RewriteFile(old(content), n1, n2)
      ensures content == if r.Success? then r.value else old(content)
    {
      var lines := ReadLines(content);
      var rewritten := RewriteYamlLines(lines, n1, n2);
      if rewritten.Failure? {
        return Failure(rewritten.error);
      }
      content := WriteBack(content, Concat(rewritten.value));
      r := Success(content);
    }
  }

  lemma {:induction false} RewrittenFailurePersists(lines: seq<string>, i: nat, n1: int, n2: int, keepNewline: bool)
    requires i <= |lines|
    requires Rewritten(lines[..i], n1, n2, keepNewline).Failure?
    ensures Rewritten(lines, n1, n2, keepNewline) == Rewritten(lines[..i], n1, n2, keepNewline)
    decreases |lines| - i
  {
    if i < |lines| {
      assert lines[..i + 1][..i] == lines[..i];
      RewrittenFailurePersists(lines, i + 1, n1, n2, keepNewline);
    } else {
      assert lines[..i] == lines;
    }
  }

  // ---------------------------------------------------------------------
  // What the loop does to the lines.

  /** A successful loop keeps the number of lines and rewrites each one on its own. */
  lemma {:induction false} RewrittenLines(lines: seq<string>, n1: int, n2: int, keepNewline: bool)
    requires Rewritten(lines, n1, n2, keepNewline).Success?
    ensures |Rewritten(lines, n1, n2, keepNewline).value| == |lines|
    ensures forall j :: 0 <= j < |lines| ==>
      RewriteLine(lines[j], n1, n2, keepNewline) == Some(Rewritten(lines, n1, n2, keepNewline).value[j])
    decreases |lines|
  {
    if lines != [] {
      var n := |lines| - 1;
      RewrittenLines(lines[..n], n1, n2, keepNewline);
      assert forall j :: 0 <= j < n ==> lines[..n][j] == lines[j];
    }
  }

  /** The loop raises at the first line whose rewrite raises, and only there. */
  lemma {:induction false} RewrittenFails(lines: seq<string>, n1: int, n2: int, keepNewline: bool)
    ensures Rewritten(lines, n1, n2, keepNewline).Failure? <==>
      exists j :: 0 <= j < |lines| && RewriteLine(lines[j], n1, n2, keepNewline).None?
    ensures Rewritten(lines, n1, n2, keepNewline).Failure? ==>
      var i := Rewritten(lines, n1, n2, keepNewline).error.line;
      && i < |lines| && RewriteLine(lines[i], n1, n2, keepNewline).None?
      && (forall j :: 0 <= j < i ==> RewriteLine(lines[j], n1, n2, keepNewline).Some?)
    decreases |lines|
  {
    if lines != [] {
      var n := |lines| - 1;
      RewrittenFails(lines[..n], n1, n2, keepNewline);
      assert forall j :: 0 <= j < n ==> lines[..n][j] == lines[j];
      if Rewritten(lines[..n], n1, n2, keepNewline).Success? {
        RewrittenLines(lines[..n], n1, n2, keepNewline);
      }
    }
  }

  /**
   * Which count a rewritten line ends up holding: the 2d count when it
   * mentions the 2d key, the 1d count when it mentions only the 1d key.
   */
  lemma RewriteLineValue(line: string, n1: int, n2: int)
    requires RewriteLine(line, n1, n2, false).Some?
    ensures var out := RewriteLine(line, n1, n2, false).value;
      && (Contains(line, Key2d) ==> ValueToken(out) == Some(IntToString(n2)))
      && (Contains(line, Key1d) && !Contains(line, Key2d) ==> ValueToken(out) == Some(IntToString(n1)))
  {
    if Contains(line, Key2d) {
      ReplaceValueShape(line, n2);
    } else if Contains(line, Key1d) {
      ReplaceValueShape(line, n1);
    }
  }

  /**
   * The replacement changes the value token and nothing else: the fields
   * around it and the tokens around it are the ones of the line.
   */
  lemma ReplaceValueShape(line: string, value: int)
    requires ReplaceValue(line, value).Some?
    ensures var fields := Split(line, ':');
      var tokens := Split(fields[1], ' ');
      var out := Split(ReplaceValue(line, value).value, ':');
      && |out| == |fields| && out[0] == fields[0] && out[2..] == fields[2..]
      && Split(out[1], ' ') == [tokens[0], IntToString(value)] + tokens[2..]
    ensures ValueToken(ReplaceValue(line, value).value) == Some(IntToString(value))
  {
    var fields := Split(line, ':');
    var tokens := Split(fields[1], ' ');
    var x := IntToString(value);
    IntToStringFree(value, ' ');
    IntToStringFree(value, ':');
    var newTokens := [tokens[0], x] + tokens[2..];
    assert forall i :: 2 <= i < |newTokens| ==> newTokens[i] == tokens[i];
    SplitJoin(newTokens, ' ');
    var field := Join(newTokens, ' ');
    forall i | 0 <= i < |tokens|
      ensures ':' !in tokens[i]
    {
      SplitFree(fields[1], ' ', i, ':');
    }
    JoinFree(newTokens, ' ', ':');
    var newFields := [fields[0], field] + fields[2..];
    assert forall i :: 2 <= i < |newFields| ==> newFields[i] == fields[i];
    SplitJoin(newFields, ':');
  }

  /** A line that already holds the value is left as it is. */
  lemma ReplaceSameValue(line: string, value: int)
    requires ValueToken(line) == Some(IntToString(value))
    ensures ReplaceValue(line, value) == Some(line)
  {
    var fields := Split(line, ':');
    var tokens := Split(fields[1], ' ');
    assert [tokens[0], tokens[1]] + tokens[2..] == tokens;
    JoinSplit(fields[1], ' ');
    assert [fields[0], fields[1]] + fields[2..] == fields;
    JoinSplit(line, ':');
  }

  /** Rewriting twice with the same count is rewriting once. */
  lemma ReplaceValueIdempotent(line: string, value: int)
    requires ReplaceValue(line, value).Some?
    ensures ReplaceValue(ReplaceValue(line, value).value, value) == ReplaceValue(line, value)
  {
    ReplaceValueShape(line, value);
    ReplaceSameValue(ReplaceValue(line, value).value, value);
  }

  // ---------------------------------------------------------------------
  // Characters.

  lemma IntToStringFree(value: int, c: char)
    requires !IsDigit(c) && c != '-'
    ensures c !in IntToString(value)
  {
    if value < 0 {
      assert IntToString(value) == "-" + NatToString(-value);
      assert forall i :: 1 <= i < |IntToString(value)| ==> IntToString(value)[i] == NatToString(-value)[i - 1];
    }
  }

  /** The pieces of a split hold only characters of the string split. */
  lemma {:induction false} SplitFree(s: string, sep: char, i: nat, c: char)
    requires c !in s
    requires i < |Split(s, sep)|
    ensures c !in Split(s, sep)[i]
    decreases |s|
  {
    if s != [] {
      var rest := Split(s[1..], sep);
      assert c !in s[1..];
      if s[0] == sep {
        if i > 0 {
          SplitFree(s[1..], sep, i - 1, c);
        }
      } else if i == 0 {
        SplitFree(s[1..], sep, 0, c);
      } else {
        SplitFree(s[1..], sep, i, c);
      }
    }
  }

  /** A character other than the separator that no piece holds is not in their join. */
  lemma {:induction false} JoinFree(parts: seq<string>, sep: char, c: char)
    requires c != sep
    requires forall i :: 0 <= i < |parts| ==> c !in parts[i]
    ensures c !in Join(parts, sep)
    decreases |parts|
  {
    if |parts| > 1 {
      assert forall i :: 0 <= i < |parts| - 1 ==> parts[1..][i] == parts[i + 1];
      JoinFree(parts[1..], sep, c);
    }
  }

  lemma {:induction false} NotContainsWithout(s: string, sub: string, c: char)
    requires c in sub && c !in s
    ensures !Contains(s, sub)
    decreases |s|
  {
    if |s| > 0 {
      NotContainsWithout(s[1..], sub, c);
    }
  }

  // ---------------------------------------------------------------------
  // The line ending and the untruncated write.

  /**
   * On a line `key: value\n` the value is the last token and carries the
   * line's '\n', which the replacement drops: the rewritten line runs into
   * the next one.
   */
  lemma ReplaceValueDropsNewline(key: string, val: string, value: int)
    requires ':' !in key && ':' !in val && ' ' !in val && '\n' !in val
    ensures ReplaceValue(key + ": " + val + "\n", value) == Some(key + ": " + IntToString(value))
  {
    var line := key + ": " + val + "\n";
    var u := " " + val + "\n";
    LineFields(key, val);
    ValueTokens(val);
    var x := IntToString(value);
    var tokens := Split(u, ' ');
    assert [tokens[0], x] + tokens[2..] == ["", x];
    assert Join(["", x], ' ') == " " + x;
    var fields := Split(line, ':');
    assert [fields[0], " " + x] + fields[2..] == [key, " " + x];
    assert Join([key, " " + x], ':') == key + ": " + x;
  }

  /** `key: val\n` splits at ':' into the key and ` val\n`. */
  lemma LineFields(key: string, val: string)
    requires ':' !in key && ':' !in val && '\n' !in val
    ensures Split(key + ": " + val + "\n", ':') == [key, " " + val + "\n"]
  {
    var line := key + ": " + val + "\n";
    var t := ": " + val + "\n";
    var u := " " + val + "\n";
    assert line == key + t;
    SplitAfterPrefix(key, t, ':');
    assert t == [':'] + u;
    SplitAtSeparator(u, ':');
    assert ':' !in u;
    SplitNoSeparator(u, ':');
    assert Split(t, ':') == ["", u];
    assert key + "" == key;
  }

  /** ` val\n` splits at ' ' into the empty token and `val\n`. */
  lemma ValueTokens(val: string)
    requires ' ' !in val && '\n' !in val
    ensures Split(" " + val + "\n", ' ') == ["", val + "\n"]
  {
    var u := " " + val + "\n";
    var v := val + "\n";
    assert u == [' '] + v;
    SplitAtSeparator(v, ' ');
    assert ' ' !in v;
    SplitNoSeparator(v, ' ');
  }

  /**
   * A one-line file `verified_num_steps_1d: 100\n` updated to 7 steps reads
   * `verified_num_steps_1d: 700\n`: the rewritten line is three characters
   * shorter, and the last three of the old text stay behind it.
   */
  lemma ShorterCountKeepsOldDigits()
    ensures RewriteFile(Key1d + ": 100\n", 7, 0) == Success(Key1d + ": 700\n")
  {
    var content := Key1d + ": 100\n";
    var data := Key1d + ": 7";
    SingleLineRead(content);
    SingleLineRewrite();
    var none: seq<string> := [];
    assert [content][..0] == none && none + [data] == [data];
    assert Rewritten([content], 7, 0, false) == Success([data]);
    assert Concat([data]) == data;
    assert content[|data|..] == "00\n";
    assert WriteBack(content, data) == data + "00\n";
    assert data + "00\n" == Key1d + ": 700\n";
  }

  /** A text with its only '\n' at its end is one line. */
  lemma SingleLineRead(content: string)
    requires |content| > 0 && '\n' !in content[..|content| - 1]
    ensures ReadLines(content) == [content]
  {
    FirstLineOf(content, "");
    assert content + "" == content && content[|content|..] == "";
  }

  lemma SingleLineRewrite()
    ensures RewriteLine(Key1d + ": 100\n", 7, 0, false) == Some(Key1d + ": 7")
  {
    SingleLineKeys();
    SingleLineReplace();
    assert Replace(Key1d + ": 100\n", 7, false) == Some(Key1d + ": 7");
  }

  lemma SingleLineKeys()
    ensures Contains(Key1d + ": 100\n", Key1d) && !Contains(Key1d + ": 100\n", Key2d)
  {
    var content := Key1d + ": 100\n";
    assert Key1d <= content;
    NotContainsWithout(content, Key2d, '2');
  }

  lemma SingleLineReplace()
    ensures ReplaceValue(Key1d + ": 100\n", 7) == Some(Key1d + ": 7")
  {
    var content := Key1d + ": 100\n";
    assert Key1d + ": " + "100" + "\n" == content;
    ReplaceValueDropsNewline(Key1d, "100", 7);
    assert IntToString(7) == "7";
    assert Key1d + ": " + IntToString(7) == Key1d + ": 7";
  }

  // ---------------------------------------------------------------------
  // The update as evidently intended: each line keeps its '\n' and the file
  // holds exactly the rewritten lines.

  /** The line without its '\n'. */
  function Body(l: string): string
  {
    if |l| > 0 && l[|l| - 1] == '\n' then l[..|l| - 1] else l
  }

  function Terminator(l: string): string
  {
    if |l| > 0 && l[|l| - 1] == '\n' then "\n" else ""
  }

  /** The replacement applied to the line without its '\n', which is put back after it. */
  function ReplaceValueKeepingNewline(line: string, value: int): Option<string>
  {
    match ReplaceValue(Body(line), value)
    case None => None
    case Some(b) => Some(b + Terminator(line))
  }

  /** The file holding exactly the rewritten lines. */
  function RewriteFileFixed(content: string, n1: int, n2: int): Result<string, RewriteError>
  {
    match Rewritten(ReadLines(content), n1, n2, true)
    case Failure(e) => Failure(e)
    case Success(ls) => Success(Concat(ls))
  }

  /** The corrected replacement keeps a line a line, with its ending, and puts the value in. */
  lemma KeepingNewlineKeepsLine(line: string, value: int, last: bool)
    requires IsLine(line, last)
    requires ReplaceValueKeepingNewline(line, value).Some?
    ensures var out := ReplaceValueKeepingNewline(line, value).value;
      && IsLine(out, last) && Terminator(out) == Terminator(line)
      && ValueToken(Body(out)) == Some(IntToString(value))
  {
    var body := Body(line);
    var b := ReplaceValue(body, value).value;
    assert '\n' !in body by {
      if !(|line| > 0 && line[|line| - 1] == '\n') {
        assert line == line[..|line| - 1] + [line[|line| - 1]];
      }
    }
    ReplaceValueShape(body, value);
    ReplaceValueFree(body, value, '\n');
    var fields := Split(body, ':');
    var tokens := Split(fields[1], ' ');
    var newTokens := [tokens[0], IntToString(value)] + tokens[2..];
    assert b == Join([fields[0], Join(newTokens, ' ')] + fields[2..], ':');
    assert |b| > 0;
    var out := b + Terminator(line);
    assert out[..|out| - 1] == b[..|b| - 1] || out[..|out| - 1] == b;
    assert b[|b| - 1] in b;
    assert Body(out) == b;
  }

  /** The replacement puts no character into a line that is neither in it, a separator, nor in the value. */
  lemma ReplaceValueFree(line: string, value: int, c: char)
    requires c !in line && c != ':' && c != ' ' && !IsDigit(c) && c != '-'
    requires ReplaceValue(line, value).Some?
    ensures c !in ReplaceValue(line, value).value
  {
    var fields := Split(line, ':');
    var tokens := Split(fields[1], ' ');
    IntToStringFree(value, c);
    forall i | 0 <= i < |fields|
      ensures c !in fields[i]
    {
      SplitFree(line, ':', i, c);
    }
    forall i | 0 <= i < |tokens|
      ensures c !in tokens[i]
    {
      SplitFree(fields[1], ' ', i, c);
    }
    var newTokens := [tokens[0], IntToString(value)] + tokens[2..];
    assert forall i :: 2 <= i < |newTokens| ==> newTokens[i] == tokens[i];
    JoinFree(newTokens, ' ', c);
    var newFields := [fields[0], Join(newTokens, ' ')] + fields[2..];
    assert forall i :: 2 <= i < |newFields| ==> newFields[i] == fields[i];
    JoinFree(newFields, ':', c);
  }

  /** The corrected line rewrite keeps a line a line. */
  lemma RewriteLineFixedKeepsLine(line: string, n1: int, n2: int, last: bool)
    requires IsLine(line, last)
    requires RewriteLine(line, n1, n2, true).Some?
    ensures IsLine(RewriteLine(line, n1, n2, true).value, last)
  {
    if Contains(line, Key2d) {
      KeepingNewlineKeepsLine(line, n2, last);
    } else if Contains(line, Key1d) {
      KeepingNewlineKeepsLine(line, n1, last);
    }
  }

  /**
   * The corrected update: reading the file back gives as many lines as it
   * had, each the rewrite of the line it replaces, with its value token set
   * to the count for its key.
   */
  lemma RewriteFileFixedReadsBack(content: string, n1: int, n2: int)
    requires RewriteFileFixed(content, n1, n2).Success?
    ensures var lines := ReadLines(content);
      var after := ReadLines(RewriteFileFixed(content, n1, n2).value);
      && |after| == |lines|
      && (forall j :: 0 <= j < |lines| ==> RewriteLine(lines[j], n1, n2, true) == Some(after[j]))
      && (forall j :: 0 <= j < |lines| && Contains(lines[j], Key2d) ==>
            ValueToken(Body(after[j])) == Some(IntToString(n2)))
      && (forall j :: 0 <= j < |lines| && Contains(lines[j], Key1d) && !Contains(lines[j], Key2d) ==>
            ValueToken(Body(after[j])) == Some(IntToString(n1)))
  {
    var lines := ReadLines(content);
    ConcatReadLines(content);
    var out := Rewritten(lines, n1, n2, true).value;
    RewrittenLines(lines, n1, n2, true);
    forall j | 0 <= j < |out|
      ensures IsLine(out[j], j == |out| - 1)
      ensures Contains(lines[j], Key2d) ==> ValueToken(Body(out[j])) == Some(IntToString(n2))
      ensures Contains(lines[j], Key1d) && !Contains(lines[j], Key2d) ==>
        ValueToken(Body(out[j])) == Some(IntToString(n1))
    {
      assert IsLine(lines[j], j == |lines| - 1);
      RewriteLineFixedKeepsLine(lines[j], n1, n2, j == |lines| - 1);
      if Contains(lines[j], Key2d) {
        KeepingNewlineKeepsLine(lines[j], n2, j == |lines| - 1);
      } else if Contains(lines[j], Key1d) {
        KeepingNewlineKeepsLine(lines[j], n1, j == |lines| - 1);
      }
    }
    ReadLinesConcat(out);
  }
}
