/**
 * How a POSIX shell (`/bin/sh -c`, which child_process.exec uses off Windows) splits a
 * simple command line into argument words, for the quoting forms that appear in it:
 * blanks, single quotes, double quotes and backslash escapes. A line that holds anything
 * the shell may interpret beyond that (parameter or command substitution, operators,
 * patterns, comments, a line break) or an unterminated quote yields None: the model does
 * not say what the shell then runs.
 */
module ShellWords {
  import opened Wrappers

  datatype Mode = Unquoted | InSingle | InDouble

  /** An unquoted character that may start an expansion, operator, pattern or comment. */
  predicate MayBeInterpreted(c: char) {
    c == '$' || c == '`' || c == ';' || c == '&' || c == '|' || c == '<' || c == '>' ||
    c == '(' || c == ')' || c == '*' || c == '?' || c == '[' || c == '#' || c == '~' ||
    c == '\n'
  }

  /** A character that stays literal between double quotes and does not end them. */
  predicate PlainInDoubleQuotes(c: char) {
    c != '"' && c != '$' && c != '`' && c != '\\'
  }

  predicate AllPlainInDoubleQuotes(s: string) {
    forall i :: 0 <= i < |s| ==> PlainInDoubleQuotes(s[i])
  }

  /** Token recognition: `cur` is the word being built, `started` whether one is open,
      `acc` the words already finished. */
  function Words(s: string, mode: Mode, cur: string, started: bool, acc: seq<string>): Option<seq<string>>
    decreases |s|
  {
    if s == [] then
      if mode != Unquoted then None else Some(if started then acc + [cur] else acc)
    else
      var c := s[0];
      var rest := s[1..];
      match mode
      case InSingle =>
        if c == '\'' then Words(rest, Unquoted, cur, true, acc)
        else Words(rest, InSingle, cur + [c], true, acc)
      case InDouble =>
        if c == '"' then Words(rest, Unquoted, cur, true, acc)
        else if c == '$' || c == '`' then None
        else if c == '\\' && rest != [] && (rest[0] == '$' || rest[0] == '`' || rest[0] == '"' || rest[0] == '\\') then
          Words(rest[1..], InDouble, cur + [rest[0]], true, acc)
        else if c == '\\' && rest != [] && rest[0] == '\n' then Words(rest[1..], InDouble, cur, true, acc)
        else Words(rest, InDouble, cur + [c], true, acc)
      case Unquoted =>
        if c == ' ' || c == '\t' then Words(rest, Unquoted, [], false, if started then acc + [cur] else acc)
        else if c == '\'' then Words(rest, InSingle, cur, true, acc)
        else if c == '"' then Words(rest, InDouble, cur, true, acc)
        else if c == '\\' then
          if rest == [] then None
          else if rest[0] == '\n' then Words(rest[1..], Unquoted, cur, started, acc)
          else Words(rest[1..], Unquoted, cur + [rest[0]], true, acc)
        else if MayBeInterpreted(c) then None
        else Words(rest, Unquoted, cur + [c], true, acc)
  }

  /** The argument words a command line stands for, when it is a plain word list. */
  function SplitWords(line: string): Option<seq<string>> {
    Words(line, Unquoted, [], false, [])
  }

  /** Inside single quotes every character but `'` is literal; a `'` is written `'\''`. */
  function EscapeSingleQuotes(a: string): string {
    if a == [] then []
    else (if a[0] == '\'' then "'\\''" else [a[0]]) + EscapeSingleQuotes(a[1..])
  }

  /** `a` as one single-quoted shell word. */
  function ShellQuote(a: string): string {
    "'" + EscapeSingleQuotes(a) + "'"
  }

  lemma {:induction false} EscapedBody(a: string, rest: string, cur: string, acc: seq<string>)
    ensures Words(EscapeSingleQuotes(a) + "'" + rest, InSingle, cur, true, acc)
         == Words(rest, Unquoted, cur + a, true, acc)
  {
    var s := EscapeSingleQuotes(a) + "'" + rest;
    if a == [] {
      assert s == "'" + rest;
      assert cur + a == cur;
    } else if a[0] == '\'' {
      var tail := EscapeSingleQuotes(a[1..]) + "'" + rest;
      assert s == "'\\''" + tail;
      var s1 := s[1..];
      assert s1 == "\\''" + tail;
      var s3 := s1[2..];
      assert s3 == "'" + tail;
      assert s3[1..] == tail;
      calc {
        Words(s, InSingle, cur, true, acc);
        Words(s1, Unquoted, cur, true, acc);
        Words(s3, Unquoted, cur + "'", true, acc);
        Words(tail, InSingle, cur + "'", true, acc);
      }
      EscapedBody(a[1..], rest, cur + "'", acc);
      assert cur + "'" + a[1..] == cur + a;
    } else {
      var tail := EscapeSingleQuotes(a[1..]) + "'" + rest;
      assert s == [a[0]] + tail;
      assert s[1..] == tail;
      EscapedBody(a[1..], rest, cur + [a[0]], acc);
      assert cur + [a[0]] + a[1..] == cur + a;
    }
  }

  /** A single-quoted word contributes exactly `a` to the word being built. */
  lemma QuotedWord(a: string, rest: string, cur: string, started: bool, acc: seq<string>)
    ensures Words(ShellQuote(a) + rest, Unquoted, cur, started, acc)
         == Words(rest, Unquoted, cur + a, true, acc)
  {
    var s := ShellQuote(a) + rest;
    assert s == "'" + (EscapeSingleQuotes(a) + "'" + rest);
    assert s[1..] == EscapeSingleQuotes(a) + "'" + rest;
    EscapedBody(a, rest, cur, acc);
  }

  /** An unquoted blank ends the word being built. */
  lemma BlankEndsWord(rest: string, cur: string, acc: seq<string>)
    ensures Words(" " + rest, Unquoted, cur, true, acc) == Words(rest, Unquoted, [], false, acc + [cur])
  {
    assert (" " + rest)[0] == ' ';
    assert (" " + rest)[1..] == rest;
  }

  lemma QuotedWordThenBlank(a: string, rest: string, acc: seq<string>)
    ensures Words(ShellQuote(a) + (" " + rest), Unquoted, [], false, acc) == Words(rest, Unquoted, [], false, acc + [a])
  {
    QuotedWord(a, " " + rest, [], false, acc);
    assert [] + a == a;
    BlankEndsWord(rest, a, acc);
  }

  lemma LastQuotedWord(a: string, acc: seq<string>)
    ensures Words(ShellQuote(a), Unquoted, [], false, acc) == Some(acc + [a])
  {
    assert ShellQuote(a) + [] == ShellQuote(a);
    QuotedWord(a, [], [], false, acc);
    assert [] + a == a;
  }

  /** Quoting each argument and joining with spaces gives back the arguments, whatever
      characters they hold. */
  lemma SafeLineRoundTrip(a: string, b: string, c: string)
    ensures SplitWords(ShellQuote(a) + " " + ShellQuote(b) + " " + ShellQuote(c)) == Some([a, b, c])
  {
    var qc := ShellQuote(c);
    var qb := ShellQuote(b) + (" " + qc);
    assert ShellQuote(a) + " " + ShellQuote(b) + " " + ShellQuote(c) == ShellQuote(a) + (" " + qb);
    QuotedWordThenBlank(a, qb, []);
    assert [] + [a] == [a];
    QuotedWordThenBlank(b, qc, [a]);
    assert [a] + [b] == [a, b];
    LastQuotedWord(c, [a, b]);
    assert [a, b] + [c] == [a, b, c];
  }

  /** A run of plain characters inside double quotes is taken literally. */
  lemma {:induction false} DoubleQuotedRun(a: string, rest: string, cur: string, acc: seq<string>)
    requires AllPlainInDoubleQuotes(a)
    ensures Words(a + rest, InDouble, cur, true, acc) == Words(rest, InDouble, cur + a, true, acc)
  {
    if a == [] {
      assert a + rest == rest;
      assert cur + a == cur;
    } else {
      assert (a + rest)[0] == a[0];
      assert (a + rest)[1..] == a[1..] + rest;
      DoubleQuotedRun(a[1..], rest, cur + [a[0]], acc);
      assert cur + [a[0]] + a[1..] == cur + a;
    }
  }

  /** A double-quoted word of plain characters contributes exactly `a`. */
  lemma DoubleQuotedWord(a: string, rest: string, cur: string, started: bool, acc: seq<string>)
    requires AllPlainInDoubleQuotes(a)
    ensures Words("\"" + a + "\"" + rest, Unquoted, cur, started, acc)
         == Words(rest, Unquoted, cur + a, true, acc)
  {
    var s := "\"" + a + "\"" + rest;
    assert s[1..] == a + ("\"" + rest);
    DoubleQuotedRun(a, "\"" + rest, cur, acc);
    assert ("\"" + rest)[1..] == rest;
  }

  lemma AllPlainConcat(a: string, b: string)
    ensures AllPlainInDoubleQuotes(a + b) <==> AllPlainInDoubleQuotes(a) && AllPlainInDoubleQuotes(b)
  {
    if AllPlainInDoubleQuotes(a) && AllPlainInDoubleQuotes(b) {
      forall i | 0 <= i < |a + b| ensures PlainInDoubleQuotes((a + b)[i]) {
        if i < |a| { assert (a + b)[i] == a[i]; } else { assert (a + b)[i] == b[i - |a|]; }
      }
    }
    if AllPlainInDoubleQuotes(a + b) {
      forall i | 0 <= i < |a| ensures PlainInDoubleQuotes(a[i]) { assert (a + b)[i] == a[i]; }
      forall i | 0 <= i < |b| ensures PlainInDoubleQuotes(b[i]) { assert (a + b)[|a| + i] == b[i]; }
    }
  }

  lemma DoubleQuotedWordThenBlank(a: string, rest: string, acc: seq<string>)
    requires AllPlainInDoubleQuotes(a)
    ensures Words("\"" + a + "\"" + (" " + rest), Unquoted, [], false, acc) == Words(rest, Unquoted, [], false, acc + [a])
  {
    DoubleQuotedWord(a, " " + rest, [], false, acc);
    assert [] + a == a;
    BlankEndsWord(rest, a, acc);
  }

  /** A line holding `"a" "b" "c"` with plain a, b and c stands for the words a, b, c. */
  lemma DoubleQuotedLine(a: string, b: string, c: string)
    requires AllPlainInDoubleQuotes(a) && AllPlainInDoubleQuotes(b) && AllPlainInDoubleQuotes(c)
    ensures SplitWords("\"" + a + "\" \"" + b + "\" \"" + c + "\"") == Some([a, b, c])
  {
    var qc := "\"" + c + "\"";
    var qb := "\"" + b + "\"" + (" " + qc);
    assert "\"" + a + "\" \"" + b + "\" \"" + c + "\"" == "\"" + a + "\"" + (" " + qb);
    DoubleQuotedWordThenBlank(a, qb, []);
    assert [] + [a] == [a];
    DoubleQuotedWordThenBlank(b, qc, [a]);
    assert [a] + [b] == [a, b];
    assert qc + [] == qc;
    DoubleQuotedWord(c, [], [], false, [a, b]);
    assert [] + c == c;
    assert [a, b] + [c] == [a, b, c];
  }

  /** The splitter stops at a '$' inside double quotes: the line is not a plain word list. */
  lemma DollarInDoubleQuotes(q: string, cur: string, acc: seq<string>)
    ensures Words("$" + q, InDouble, cur, true, acc) == None
  {
    assert ("$" + q)[0] == '$';
  }

  /** The line `"a" "b" "p$q"` as the three quoted words, and what follows its k-th
      character, where k is the position of the '$'. */
  lemma LineWithDollarShape(a: string, b: string, p: string, q: string)
    ensures var tail := "$" + q + "\"";
            var line := "\"" + a + "\" \"" + b + "\" \"" + (p + "$" + q) + "\"";
            line == "\"" + a + "\"" + (" " + ("\"" + b + "\"" + (" " + ("\"" + p + tail)))) &&
            |a| + |b| + |p| + 7 < |line| && line[|a| + |b| + |p| + 7..] == tail
  {
    var tail := "$" + q + "\"";
    var head := "\"" + a + "\" \"" + b + "\" \"" + p;
    var line := "\"" + a + "\" \"" + b + "\" \"" + (p + "$" + q) + "\"";
    assert line == head + tail;
    assert (head + tail)[|head|..] == tail;
  }

  /** Opening the third double-quoted word and reading its plain run up to `tail`. */
  lemma ThirdWordRun(p: string, tail: string, acc: seq<string>)
    requires AllPlainInDoubleQuotes(p)
    ensures Words("\"" + p + tail, Unquoted, [], false, acc) == Words(tail, InDouble, p, true, acc)
  {
    var s := "\"" + p + tail;
    assert s[0] == '"';
    assert s[1..] == p + tail;
    DoubleQuotedRun(p, tail, [], acc);
    assert [] + p == p;
  }

  /** Reading `"a" "b" "p$q"` with plain a, b and p: the two first words are finished and
      the splitter stops inside the third double-quoted word, holding p, at the '$', with
      q's text next; the line is not a plain word list. */
  lemma DoubleQuotedLineWithDollar(a: string, b: string, p: string, q: string)
    requires AllPlainInDoubleQuotes(a) && AllPlainInDoubleQuotes(b) && AllPlainInDoubleQuotes(p)
    ensures var line := "\"" + a + "\" \"" + b + "\" \"" + (p + "$" + q) + "\"";
            var k := |a| + |b| + |p| + 7;
            k < |line| && line[k..] == "$" + q + "\"" &&
            SplitWords(line) == Words(line[k..], InDouble, p, true, [a, b])
    ensures SplitWords("\"" + a + "\" \"" + b + "\" \"" + (p + "$" + q) + "\"") == None
  {
    var tail := "$" + q + "\"";
    var qc := "\"" + p + tail;
    var qb := "\"" + b + "\"" + (" " + qc);
    LineWithDollarShape(a, b, p, q);
    DoubleQuotedWordThenBlank(a, qb, []);
    assert [] + [a] == [a];
    DoubleQuotedWordThenBlank(b, qc, [a]);
    assert [a] + [b] == [a, b];
    ThirdWordRun(p, tail, [a, b]);
    DollarInDoubleQuotes(q + "\"", p, [a, b]);
    assert "$" + (q + "\"") == tail;
  }
}
