/**
 * How `String.prototype.replace` turns its replacement string into the text
 * that is put in place of the match: the abstract operation GetSubstitution
 * of ECMAScript (section 22.1.3.19.1 of ECMA-262, 2024 edition), for a
 * pattern without named groups whose groups all took part in the match.
 */
module Replacement {

  predicate IsDigit(c: char)
  {
    '0' <= c <= '9'
  }

  function DigitValue(c: char): nat
    requires IsDigit(c)
  {
    (c as int) - ('0' as int)
  }

  /**
   * The replacement text for `template`, given the matched text, the text
   * before and after the match, and the captures of the groups.
   * `$$` gives `$`; `$&` the match; `` $` `` the text before; `$'` the text
   * after; `$n` and `$nn` a capture, where a two-digit number larger than the
   * number of groups is read as one digit followed by a literal digit; any
   * other `$` (including `$<` when there are no named groups) stands for
   * itself.
   */
  function Substitute(template: string, matched: string, before: string, after: string, captures: seq<string>): (r: string)
    decreases |template|
    ensures '$' !in template ==> r == template
  {
    if template == [] then []
    else if template[0] != '$' || |template| == 1 then
      [template[0]] + Substitute(template[1..], matched, before, after, captures)
    else
      var c := template[1];
      if c == '$' then "$" + Substitute(template[2..], matched, before, after, captures)
      else if c == '&' then matched + Substitute(template[2..], matched, before, after, captures)
      else if c == '`' then before + Substitute(template[2..], matched, before, after, captures)
      else if c == '\'' then after + Substitute(template[2..], matched, before, after, captures)
      else if IsDigit(c) then
        if |template| >= 3 && IsDigit(template[2]) && 10 * DigitValue(c) + DigitValue(template[2]) <= |captures| then
          var index := 10 * DigitValue(c) + DigitValue(template[2]);
          (if 1 <= index then captures[index - 1] else template[..3])
            + Substitute(template[3..], matched, before, after, captures)
        else
          var index := DigitValue(c);
          (if 1 <= index <= |captures| then captures[index - 1] else template[..2])
            + Substitute(template[2..], matched, before, after, captures)
      else "$" + Substitute(template[1..], matched, before, after, captures)
  }

  /**
   * The template the service builds, `$1` + subject + `$3`, yields the first
   * capture, the subject and the third capture, provided the subject holds no
   * `$`. A digit at the head of the subject does not disturb `$1`, since `$1d`
   * names a group the pattern does not have.
   */
  lemma GroupTemplate(subject: string, matched: string, before: string, after: string, captures: seq<string>)
    requires |captures| == 3
    requires '$' !in subject
    ensures Substitute("$1" + subject + "$3", matched, before, after, captures) == captures[0] + subject + captures[2]
  {
    assert "$1" + subject + "$3" == "$1" + (subject + "$3");
    FirstGroup(subject + "$3", matched, before, after, captures);
    LiteralPrefix(subject, "$3", matched, before, after, captures);
    ThirdGroup(matched, before, after, captures);
  }

  /** `$3` alone gives the third capture. */
  lemma ThirdGroup(matched: string, before: string, after: string, captures: seq<string>)
    requires |captures| == 3
    ensures Substitute("$3", matched, before, after, captures) == captures[2]
  {
    assert Substitute("$3", matched, before, after, captures) == captures[2] + Substitute("", matched, before, after, captures);
  }

  /**
   * `$1` gives the first capture whatever follows it: with three groups, a
   * digit after it cannot make a two-digit group number.
   */
  lemma FirstGroup(rest: string, matched: string, before: string, after: string, captures: seq<string>)
    requires |captures| == 3
    ensures Substitute("$1" + rest, matched, before, after, captures)
      == captures[0] + Substitute(rest, matched, before, after, captures)
  {
    var template := "$1" + rest;
    assert template[0] == '$' && template[1] == '1';
    assert template[2..] == rest;
  }

  /** Text without `$` at the head of the template is copied as it is. */
  lemma {:induction false} LiteralPrefix(text: string, rest: string, matched: string, before: string, after: string, captures: seq<string>)
    requires '$' !in text
    ensures Substitute(text + rest, matched, before, after, captures)
      == text + Substitute(rest, matched, before, after, captures)
  {
    if text != [] {
      var template := text + rest;
      assert template[0] == text[0];
      assert template[1..] == text[1..] + rest;
      LiteralHead(template, matched, before, after, captures);
      LiteralPrefix(text[1..], rest, matched, before, after, captures);
      assert text == [text[0]] + text[1..];
    } else {
      assert text + rest == rest;
    }
  }

  /** A character other than `$` at the head of the template is copied as it is. */
  lemma LiteralHead(template: string, matched: string, before: string, after: string, captures: seq<string>)
    requires template != [] && template[0] != '$'
    ensures Substitute(template, matched, before, after, captures)
      == [template[0]] + Substitute(template[1..], matched, before, after, captures)
  {
  }

  /** A `$$` in the subject collapses to one `$`: the subject does not reach the result as typed. */
  lemma DollarCollapses(matched: string, before: string, after: string, captures: seq<string>)
    requires |captures| == 3
    ensures Substitute("$1" + "$$" + "$3", matched, before, after, captures) == captures[0] + "$" + captures[2]
  {
    assert "$1" + "$$" + "$3" == "$1" + ("$$" + "$3");
    FirstGroup("$$" + "$3", matched, before, after, captures);
    EscapedDollar("$3", matched, before, after, captures);
    ThirdGroup(matched, before, after, captures);
  }

  /** `$$` gives a single `$`. */
  lemma EscapedDollar(rest: string, matched: string, before: string, after: string, captures: seq<string>)
    ensures Substitute("$$" + rest, matched, before, after, captures)
      == "$" + Substitute(rest, matched, before, after, captures)
  {
    var template := "$$" + rest;
    assert template[0] == '$' && template[1] == '$';
    assert template[2..] == rest;
  }
}
