/**
 The string transforms of the test helpers (test/utils/utils.go): splitting command output into lines
 and uncommenting a block of a file.
 */
module Lines {

  /** strings.Split(s, "\n") */
  function Split(s: string): (lines: seq<string>)
    ensures lines != []
  {
    if s == [] then [""]
    else if s[0] == '\n' then [""] + Split(s[1..])
    else var rest := Split(s[1..]); [[s[0]] + rest[0]] + rest[1..]
  }

  /** strings.Join(lines, "\n") */
  function Join(lines: seq<string>): string {
    if lines == [] then ""
    else if |lines| == 1 then lines[0]
    else lines[0] + "\n" + Join(lines[1..])
  }

  ghost predicate NewlineFree(lines: seq<string>) {
    forall i :: 0 <= i < |lines| ==> '\n' !in lines[i]
  }

  lemma {:induction false} SplitIsNewlineFree(s: string)
    ensures NewlineFree(Split(s))
  {
    if s != [] {
      SplitIsNewlineFree(s[1..]);
    }
  }

  lemma JoinCons(line: string, lines: seq<string>)
    requires lines != []
    ensures Join([line] + lines) == line + "\n" + Join(lines)
  {
    assert ([line] + lines)[1..] == lines;
  }

  lemma JoinGlue(c: char, lines: seq<string>)
    requires lines != []
    ensures Join([[c] + lines[0]] + lines[1..]) == [c] + Join(lines)
  {
    if |lines| > 1 {
      JoinCons([c] + lines[0], lines[1..]);
    }
  }

  lemma {:induction false} JoinSplit(s: string)
    ensures Join(Split(s)) == s
  {
    if s != [] {
      var rest := Split(s[1..]);
      JoinSplit(s[1..]);
      if s[0] == '\n' {
        JoinCons("", rest);
      } else {
        JoinGlue(s[0], rest);
      }
    }
  }

  lemma {:induction false} SplitLine(line: string, s: string)
    requires '\n' !in line
    ensures Split(line) == [line]
    ensures Split(line + "\n" + s) == [line] + Split(s)
  {
    var whole := line + "\n" + s;
    if line == [] {
      assert whole[1..] == s;
    } else {
      SplitLine(line[1..], s);
      assert whole[1..] == line[1..] + "\n" + s;
      assert [line[0]] + line[1..] == line;
    }
  }

  lemma {:induction false} SplitJoin(lines: seq<string>)
    requires lines != [] && NewlineFree(lines)
    ensures Split(Join(lines)) == lines
  {
    if |lines| == 1 {
      SplitLine(lines[0], "");
    } else {
      SplitJoin(lines[1..]);
      SplitLine(lines[0], Join(lines[1..]));
    }
  }
}

module NonEmptyLines {
  import opened Lines

  function NonEmpty(lines: seq<string>): seq<string> {
    if lines == [] then []
    else if lines[0] == "" then NonEmpty(lines[1..])
    else [lines[0]] + NonEmpty(lines[1..])
  }

  lemma {:induction false} NonEmptyOfConcat(a: seq<string>, b: seq<string>)
    ensures NonEmpty(a + b) == NonEmpty(a) + NonEmpty(b)
  {
    if a == [] {
      assert a + b == b;
    } else {
      NonEmptyOfConcat(a[1..], b);
      assert (a + b)[1..] == a[1..] + b;
      assert [a[0]] + (NonEmpty(a[1..]) + NonEmpty(b)) == [a[0]] + NonEmpty(a[1..]) + NonEmpty(b);
      assert NonEmpty(a + b) == if a[0] == "" then NonEmpty(a[1..] + b) else [a[0]] + NonEmpty(a[1..] + b);
    }
  }

  method GetNonEmptyLines(output: string) returns (res: seq<string>)
    ensures res == NonEmpty(Split(output))
  {
    res := [];
    var elements := Split(output);
    for i := 0 to |elements|
      invariant res == NonEmpty(elements[..i])
    {
      NonEmptyOfConcat(elements[..i], [elements[i]]);
      assert elements[..i + 1] == elements[..i] + [elements[i]];
      if elements[i] != "" {
        res := res + [elements[i]];
      }
    }
    assert elements[..|elements|] == elements;
  }

  function Concat(lines: seq<string>): string {
    if lines == [] then "" else lines[0] + Concat(lines[1..])
  }

  function WithoutNewlines(s: string): string {
    if s == [] then ""
    else if s[0] == '\n' then WithoutNewlines(s[1..])
    else [s[0]] + WithoutNewlines(s[1..])
  }

  lemma {:induction false} NonEmptyKeepsText(lines: seq<string>)
    ensures Concat(NonEmpty(lines)) == Concat(lines)
    ensures forall l :: l in NonEmpty(lines) <==> l in lines && l != ""
  {
    if lines != [] {
      NonEmptyKeepsText(lines[1..]);
      var rest := NonEmpty(lines[1..]);
      assert ([lines[0]] + rest)[1..] == rest;
    }
  }

  lemma {:induction false} SplitKeepsText(s: string)
    ensures Concat(Split(s)) == WithoutNewlines(s)
  {
    if s != [] {
      SplitKeepsText(s[1..]);
      var rest := Split(s[1..]);
      if s[0] == '\n' {
        assert Split(s)[1..] == rest;
      } else {
        assert Split(s)[1..] == rest[1..];
      }
    }
  }

  lemma {:induction false} NonEmptyIsIdentity(lines: seq<string>)
    requires "" !in lines
    ensures NonEmpty(lines) == lines
  {
    if lines != [] {
      assert lines[0] in lines;
      NonEmptyIsIdentity(lines[1..]);
    }
  }

  /** The result loses nothing but newlines, has no empty line, and survives being joined and split again. */
  lemma NonEmptyLinesAreLossless(output: string)
    ensures
      var res := NonEmpty(Split(output));
      && (forall line :: line in res ==> line != "" && '\n' !in line)
      && Concat(res) == WithoutNewlines(output)
      && NonEmpty(Split(Join(res))) == res
  {
    var res := NonEmpty(Split(output));
    SplitIsNewlineFree(output);
    NonEmptyKeepsText(Split(output));
    SplitKeepsText(output);
    if res != [] {
      SplitJoin(res);
      NonEmptyIsIdentity(res);
    }
  }
}

module UncommentCode {
  import opened Wrappers
  import opened Lines

  // bufio.MaxScanTokenSize: a line of this length fills the scanner's buffer and stops it.
  const MAX_SCAN_TOKEN_SIZE := 0x1_0000

  function DropCR(line: string): string {
    if line != "" && line[|line| - 1] == '\r' then line[..|line| - 1] else line
  }

  /** The tokens a scanner delivers for a text of these lines. */
  function Scanned(lines: seq<string>): seq<string> {
    if lines == [] || |lines[0]| >= MAX_SCAN_TOKEN_SIZE then []
    else [DropCR(lines[0])] + Scanned(lines[1..])
  }

  /** A text that ends in a newline, or is empty, has no last line for the scanner. */
  function Tokens(s: string): seq<string> {
    var lines := Split(s);
    Scanned(if lines[|lines| - 1] == "" then lines[..|lines| - 1] else lines)
  }

  /** bufio.Scanner over a text, with the default split function ScanLines. */
  class Scanner {
    var rest: string
    var text: string
    var stopped: bool

    function Remaining(): seq<string>
      reads this
    {
      if stopped then [] else Tokens(rest)
    }

    constructor (s: string)
      ensures Remaining() == Tokens(s)
    {
      rest, text, stopped := s, "", false;
    }

    method Scan() returns (more: bool)
      modifies this
      ensures old(Remaining()) == if more then [text] + Remaining() else []
      ensures !more ==> Remaining() == []
    {
      if stopped || rest == "" {
        stopped := true;
        return false;
      }
      var n := 0;
      while n < |rest| && rest[n] != '\n'
        invariant 0 <= n <= |rest| && '\n' !in rest[..n]
      {
        n := n + 1;
      }
      var line := rest[..n];
      FirstToken(rest, n);
      if n >= MAX_SCAN_TOKEN_SIZE {
        stopped := true;
        return false;
      }
      text := DropCR(line);
      rest := if n < |rest| then rest[n + 1..] else "";
      more := true;
    }
  }

  // The token at the front of a text whose first line has length n.
  lemma FirstToken(s: string, n: nat)
    requires s != "" && n <= |s| && '\n' !in s[..n] && (n == |s| || s[n] == '\n')
    ensures
      Tokens(s) ==
      if n >= MAX_SCAN_TOKEN_SIZE then [] else [DropCR(s[..n])] + Tokens(if n < |s| then s[n + 1..] else "")
  {
    if n == |s| {
      assert s[..n] == s;
      SplitLine(s, "");
      assert Split("") == [""];
    } else {
      var after := s[n + 1..];
      assert s == s[..n] + "\n" + after;
      SplitLine(s[..n], after);
      var lines, rest := Split(s), Split(after);
      assert lines == [s[..n]] + rest;
      if rest[|rest| - 1] == "" {
        assert lines[..|lines| - 1] == [s[..n]] + rest[..|rest| - 1];
      }
    }
  }

  /** What the scanner makes of a text, line by line: the next line without its end, which is a newline with
      the carriage return before it if there is one; nothing for the empty text; and no more from a line of
      65536 characters on. */
  lemma TokensLineByLine(line: string, rest: string)
    requires '\n' !in line
    ensures
      var token := if line != "" && line[|line| - 1] == '\r' then line[..|line| - 1] else line;
      && Tokens(line + "\n" + rest) == (if |line| < 65536 then [token] + Tokens(rest) else [])
      && Tokens(line) == (if 0 < |line| < 65536 then [token] else [])
  {
    FirstTokenOfMore(line, rest);
    if line != "" {
      assert line[..|line|] == line;
      FirstToken(line, |line|);
    }
  }

  lemma FirstTokenOfMore(line: string, rest: string)
    requires '\n' !in line
    ensures Tokens(line + "\n" + rest) == if |line| >= MAX_SCAN_TOKEN_SIZE then [] else [DropCR(line)] + Tokens(rest)
  {
    var s := line + "\n" + rest;
    assert s[..|line|] == line && s[|line| + 1..] == rest;
    FirstToken(s, |line|);
  }

  predicate OccursAt(s: string, t: string, i: nat) {
    i + |t| <= |s| && s[i..i + |t|] == t
  }

  /** strings.Index(s, t), searching from i; None for -1. */
  function Index(s: string, t: string, i: nat := 0): (r: Option<nat>)
    requires i <= |s|
    ensures r.Some? ==> i <= r.value && OccursAt(s, t, r.value) && forall j :: i <= j < r.value ==> !OccursAt(s, t, j)
    ensures r.None? ==> forall j :: i <= j ==> !OccursAt(s, t, j)
    decreases |s| - i
  {
    if OccursAt(s, t, i) then Some(i)
    else if i == |s| then None
    else Index(s, t, i + 1)
  }

  function TrimPrefix(s: string, prefix: string): string {
    if prefix <= s then s[|prefix|..] else s
  }

  /** A line loses the prefix once if it starts with it, and nothing otherwise. */
  lemma TrimPrefixExactly(s: string, prefix: string, rest: string)
    ensures s == prefix + rest ==> TrimPrefix(s, prefix) == rest
    ensures TrimPrefix(s, prefix) == s || s == prefix + TrimPrefix(s, prefix)
  {
    if s == prefix + rest {
      assert s[|prefix|..] == rest;
    }
  }

  function TrimAll(lines: seq<string>, prefix: string): (r: seq<string>)
    ensures |r| == |lines| && forall i :: 0 <= i < |lines| ==> r[i] == TrimPrefix(lines[i], prefix)
  {
    seq(|lines|, i requires 0 <= i < |lines| => TrimPrefix(lines[i], prefix))
  }

  datatype Outcome = NotFound | Untouched | Rewritten(content: string)

  function FileAfter(content: string, outcome: Outcome): string {
    if outcome.Rewritten? then outcome.content else content
  }

  ghost function Uncommented(content: string, target: string, prefix: string): Outcome {
    match Index(content, target)
    case None => NotFound
    case Some(i) =>
      if Tokens(target) == [] then Untouched
      else Rewritten(content[..i] + Join(TrimAll(Tokens(target), prefix)) + content[i + |target|..])
  }

  function Terminated(lines: seq<string>): string {
    if lines == [] then "" else Terminated(lines[..|lines| - 1]) + lines[|lines| - 1] + "\n"
  }

  lemma {:induction false} JoinLast(lines: seq<string>, last: string)
    ensures Join(lines + [last]) == Terminated(lines) + last
  {
    if lines == [] {
    } else {
      var front, mid := lines[..|lines| - 1], lines[|lines| - 1];
      JoinLast(front, mid + "\n" + last);
      assert lines == front + [mid];
      JoinMerges(front, mid, last);
    }
  }

  lemma {:induction false} JoinMerges(front: seq<string>, a: string, b: string)
    ensures Join(front + [a] + [b]) == Join(front + [a + "\n" + b])
  {
    if front == [] {
      assert ([a] + [b])[1..] == [b];
    } else {
      JoinMerges(front[1..], a, b);
      assert (front + [a] + [b])[1..] == front[1..] + [a] + [b];
      assert (front + [a + "\n" + b])[1..] == front[1..] + [a + "\n" + b];
    }
  }

  /** What the first n turns of the loop write. */
  ghost function Written(tokens: seq<string>, n: nat, prefix: string): string
    requires n <= |tokens|
  {
    if n == 0 then "" else Written(tokens, n - 1, prefix) + TrimPrefix(tokens[n - 1], prefix) + "\n"
  }

  lemma Advance(tokens: seq<string>, n: nat, first: string, rest: seq<string>)
    requires n < |tokens| && tokens[n..] == [first] + rest
    ensures tokens[n] == first && tokens[n + 1..] == rest
  {
    assert tokens[n] == tokens[n..][0];
    assert tokens[n + 1..] == tokens[n..][1..];
  }

  lemma {:induction false} WrittenIsTerminated(tokens: seq<string>, n: nat, prefix: string)
    requires n <= |tokens|
    ensures Written(tokens, n, prefix) == Terminated(TrimAll(tokens, prefix)[..n])
  {
    if n > 0 {
      var trimmed := TrimAll(tokens, prefix);
      WrittenIsTerminated(tokens, n - 1, prefix);
      assert trimmed[..n][..n - 1] == trimmed[..n - 1];
    }
  }

  lemma JoinOfTrimmed(tokens: seq<string>, prefix: string)
    requires tokens != []
    ensures
      var last := |tokens| - 1;
      Join(TrimAll(tokens, prefix)) == Written(tokens, last, prefix) + TrimPrefix(tokens[last], prefix)
  {
    var trimmed, last := TrimAll(tokens, prefix), |tokens| - 1;
    WrittenIsTerminated(tokens, last, prefix);
    JoinLast(trimmed[..last], trimmed[last]);
    assert trimmed == trimmed[..last] + [trimmed[last]];
  }

  /** The first occurrence is at i, and is replaced by its lines without their prefixes if it has any. */
  ghost predicate IsUncommentedAt(content: string, target: string, prefix: string, i: nat, outcome: Outcome) {
    && OccursAt(content, target, i) && (forall j :: 0 <= j < i ==> !OccursAt(content, target, j))
    && if Tokens(target) == [] then outcome == Untouched
       else
         outcome == Rewritten(content[..i] + Join(TrimAll(Tokens(target), prefix)) + content[i + |target|..])
  }

  /** Reading and writing the file are left to the caller. */
  method Uncomment(content: string, target: string, prefix: string) returns (outcome: Outcome)
    ensures outcome == Uncommented(content, target, prefix)
    ensures outcome.NotFound? <==> forall i: nat :: !OccursAt(content, target, i)
    ensures !outcome.NotFound? ==> exists i: nat :: IsUncommentedAt(content, target, prefix, i, outcome)
  {
    var idx := Index(content, target);
    if idx.None? {
      return NotFound;
    }
    var out := content[..idx.value];
    var scanner := new Scanner(target);
    var more := scanner.Scan();
    if !more {
      assert IsUncommentedAt(content, target, prefix, idx.value, Untouched);
      return Untouched;
    }
    var text := WriteUncommented(scanner, prefix);
    out := out + text + content[idx.value + |target|..];
    outcome := Rewritten(out);
    assert IsUncommentedAt(content, target, prefix, idx.value, outcome);
  }

  // The loop over the scanner, entered with the first token read.
  method WriteUncommented(scanner: Scanner, prefix: string) returns (out: string)
    modifies scanner
    ensures out == Join(TrimAll(old([scanner.text] + scanner.Remaining()), prefix))
  {
    ghost var tokens := [scanner.text] + scanner.Remaining();
    out := "";
    ghost var n := 0;
    while true
      invariant n < |tokens| && out == Written(tokens, n, prefix)
      invariant tokens[n..] == [scanner.text] + scanner.Remaining()
      decreases |tokens| - n
    {
      Advance(tokens, n, scanner.text, scanner.Remaining());
      out := out + TrimPrefix(scanner.text, prefix);
      var more := scanner.Scan();
      if !more {
        break;
      }
      out := out + "\n";
      n := n + 1;
    }
    JoinOfTrimmed(tokens, prefix);
  }

  // ---------- When the scanner sees the lines of the target ----------

  ghost predicate Plain(line: string) {
    |line| < MAX_SCAN_TOKEN_SIZE && DropCR(line) == line
  }

  lemma {:induction false} ScannedLength(lines: seq<string>)
    ensures |Scanned(lines)| <= |lines|
    ensures |Scanned(lines)| == |lines| <==> forall i :: 0 <= i < |lines| ==> |lines[i]| < MAX_SCAN_TOKEN_SIZE
    ensures forall i :: 0 <= i < |Scanned(lines)| ==> Scanned(lines)[i] == DropCR(lines[i])
  {
    if lines != [] && |lines[0]| < MAX_SCAN_TOKEN_SIZE {
      ScannedLength(lines[1..]);
      assert forall i :: 1 <= i < |lines| ==> lines[i] == lines[1..][i - 1];
    }
  }

  lemma {:induction false} ScannedIsIdentityExactly(lines: seq<string>)
    ensures Scanned(lines) == lines <==> forall i :: 0 <= i < |lines| ==> Plain(lines[i])
  {
    if lines != [] {
      ScannedIsIdentityExactly(lines[1..]);
      assert lines == [lines[0]] + lines[1..];
      assert forall i :: 1 <= i < |lines| ==> lines[i] == lines[1..][i - 1];
    }
  }

  /** The tokens are the lines of the target exactly when the target does not end in a newline, no line of
      it ends in a carriage return and none fills the scanner's buffer. */
  lemma TokensAreTheLines(target: string)
    ensures
      var lines := Split(target);
      Tokens(target) == lines <==> lines[|lines| - 1] != "" && forall i :: 0 <= i < |lines| ==> Plain(lines[i])
  {
    var lines := Split(target);
    if lines[|lines| - 1] == "" {
      ScannedLength(lines[..|lines| - 1]);
    } else {
      ScannedIsIdentityExactly(lines);
    }
  }

  // The file after uncommenting a target at its first occurrence.
  lemma UncommentAt(before: string, target: string, after: string, prefix: string)
    requires Index(before + target + after, target) == Some(|before|)
    ensures Uncommented(before + target + after, target, prefix)
         == if Tokens(target) == [] then Untouched
            else Rewritten(before + Join(TrimAll(Tokens(target), prefix)) + after)
  {
    var content := before + target + after;
    assert content[..|before|] == before;
    assert content[|before| + |target|..] == after;
  }

  /** For such a target the rest of the file is untouched and each of its lines loses one leading prefix. */
  lemma UncommentIsLocal(before: string, target: string, after: string, prefix: string)
    requires Index(before + target + after, target) == Some(|before|)
    requires
      var lines := Split(target);
      lines[|lines| - 1] != "" && forall i :: 0 <= i < |lines| ==> Plain(lines[i])
    ensures Uncommented(before + target + after, target, prefix)
         == Rewritten(before + Join(TrimAll(Split(target), prefix)) + after)
  {
    TokensAreTheLines(target);
    UncommentAt(before, target, after, prefix);
  }

  // ---------- Uncommenting inverts commenting ----------

  function PrefixAll(lines: seq<string>, prefix: string): (r: seq<string>)
    ensures |r| == |lines| && forall i :: 0 <= i < |lines| ==> r[i] == prefix + lines[i]
  {
    seq(|lines|, i requires 0 <= i < |lines| => prefix + lines[i])
  }

  function Comment(block: string, prefix: string): string {
    Join(PrefixAll(Split(block), prefix))
  }

  /** A line whose commented form the scanner gives back: not too long, and not ending in a carriage return,
      unless the prefix is nothing but that character and the line is empty. */
  predicate Restorable(line: string, prefix: string) {
    && |prefix| + |line| < MAX_SCAN_TOKEN_SIZE
    && (DropCR(prefix + line) == prefix + line || (line == "" && prefix == "\r"))
  }

  lemma RestorableExactly(line: string, prefix: string)
    requires prefix != "" && |prefix| + |line| < MAX_SCAN_TOKEN_SIZE
    ensures TrimPrefix(DropCR(prefix + line), prefix) == line <==> Restorable(line, prefix)
  {
    var whole := prefix + line;
    if DropCR(whole) == whole {
    } else if line == "" {
      assert DropCR(whole) == prefix[..|prefix| - 1];
    } else {
      assert DropCR(whole) == prefix + line[..|line| - 1];
    }
  }

  lemma TokensOfComment(block: string, prefix: string)
    requires prefix != "" && '\n' !in prefix
    ensures Tokens(Comment(block, prefix)) == Scanned(PrefixAll(Split(block), prefix))
  {
    SplitIsNewlineFree(block);
    var commented := PrefixAll(Split(block), prefix);
    SplitJoin(commented);
  }

  lemma TrimmedTokensExactly(block: string, prefix: string)
    requires prefix != "" && '\n' !in prefix
    ensures TrimAll(Tokens(Comment(block, prefix)), prefix) == Split(block)
       <==> forall i :: 0 <= i < |Split(block)| ==> Restorable(Split(block)[i], prefix)
  {
    var lines := Split(block);
    var commented := PrefixAll(lines, prefix);
    var tokens := Scanned(commented);
    TokensOfComment(block, prefix);
    ScannedLength(commented);
    forall i | 0 <= i < |tokens|
      ensures TrimAll(tokens, prefix)[i] == lines[i] <==> Restorable(lines[i], prefix)
    {
      assert |commented[i]| < MAX_SCAN_TOKEN_SIZE by { ScannedShort(commented, i); }
      RestorableExactly(lines[i], prefix);
    }
    if forall i :: 0 <= i < |lines| ==> Restorable(lines[i], prefix) {
      assert forall i :: 0 <= i < |lines| ==> |commented[i]| < MAX_SCAN_TOKEN_SIZE;
      assert TrimAll(tokens, prefix) == lines;
    }
  }

  lemma {:induction false} ScannedShort(lines: seq<string>, i: nat)
    requires i < |Scanned(lines)|
    ensures i < |lines| && |lines[i]| < MAX_SCAN_TOKEN_SIZE
  {
    if i > 0 {
      ScannedShort(lines[1..], i - 1);
    }
  }

  lemma JoinsEqualExactly(a: seq<string>, b: seq<string>)
    requires a != [] && b != [] && NewlineFree(a) && NewlineFree(b)
    ensures Join(a) == Join(b) <==> a == b
  {
    SplitJoin(a);
    SplitJoin(b);
  }

  lemma TrimPrefixIsNewlineFree(line: string, prefix: string)
    requires '\n' !in line
    ensures '\n' !in TrimPrefix(DropCR(line), prefix)
  {
  }

  lemma TrimmedScanIsNewlineFree(lines: seq<string>, prefix: string)
    requires NewlineFree(lines)
    ensures NewlineFree(TrimAll(Scanned(lines), prefix))
  {
    var tokens := Scanned(lines);
    ScannedLength(lines);
    forall i | 0 <= i < |tokens|
      ensures '\n' !in TrimAll(tokens, prefix)[i]
    {
      TrimPrefixIsNewlineFree(lines[i], prefix);
    }
  }

  lemma TrimmedTokensAreNewlineFree(target: string, prefix: string)
    ensures NewlineFree(TrimAll(Tokens(target), prefix))
  {
    var lines := Split(target);
    SplitIsNewlineFree(target);
    if lines[|lines| - 1] == "" {
      TrimmedScanIsNewlineFree(lines[..|lines| - 1], prefix);
    } else {
      TrimmedScanIsNewlineFree(lines, prefix);
    }
  }

  lemma {:induction false} CommentGrows(lines: seq<string>, prefix: string)
    requires lines != []
    ensures |Join(PrefixAll(lines, prefix))| == |Join(lines)| + |lines| * |prefix|
  {
    if |lines| > 1 {
      CommentGrows(lines[1..], prefix);
      assert PrefixAll(lines, prefix)[1..] == PrefixAll(lines[1..], prefix);
    }
  }

  /** Commenting every line of a block and uncommenting the result gives the file back if and only if every
      line is restorable; the block must be where the commented text first occurs. */
  lemma UncommentInvertsComment(before: string, block: string, after: string, prefix: string)
    requires prefix != "" && '\n' !in prefix
    requires Index(before + Comment(block, prefix) + after, Comment(block, prefix)) == Some(|before|)
    ensures
      var content := before + Comment(block, prefix) + after;
      FileAfter(content, Uncommented(content, Comment(block, prefix), prefix)) == before + block + after
      <==> forall i :: 0 <= i < |Split(block)| ==> Restorable(Split(block)[i], prefix)
  {
    var target := Comment(block, prefix);
    var content := before + target + after;
    var trimmed := TrimAll(Tokens(target), prefix);
    TrimmedTokensExactly(block, prefix);
    UncommentAt(before, target, after, prefix);
    JoinSplit(block);
    if trimmed == [] {
      CommentGrows(Split(block), prefix);
      assert |content| > |before + block + after|;
    } else {
      TrimmedTokensAreNewlineFree(target, prefix);
      SplitIsNewlineFree(block);
      JoinsEqualExactly(trimmed, Split(block));
      SameMiddle(before, Join(trimmed), block, after);
    }
  }

  lemma SameMiddle(before: string, a: string, b: string, after: string)
    ensures before + a + after == before + b + after <==> a == b
  {
    if before + a + after == before + b + after {
      assert a == (before + a + after)[|before|..|before| + |a|];
      assert b == (before + b + after)[|before|..|before| + |b|];
    }
  }

  /** The carriage return of a CRLF file is such a line end: it does not come back. */
  lemma CarriageReturnIsLost()
    ensures
      var block := "a\r";
      var content := Comment(block, "#");
      FileAfter(content, Uncommented(content, content, "#")) != block
  {
    var block := "a\r";
    SplitLine(block, "");
    var content := Comment(block, "#");
    assert OccursAt("" + content + "", content, 0);
    assert "" + content + "" == content && "" + block + "" == block;
    assert DropCR("#" + block) != "#" + block;
    assert !Restorable(Split(block)[0], "#");
    UncommentInvertsComment("", block, "", "#");
  }
}
