/**
 * The prompt that `generateBackground` sends for background synthesis, built
 * from a style's keywords, the user's optional custom subject and the batch
 * size. With a subject, the generic subject the pattern finds in the keywords
 * is replaced by it, or, when the pattern does not match, a sentence naming
 * it is appended. With a batch of more than one image, a sentence asking for
 * varied results is appended.
 *
 * `SubjectPrompt` inserts the subject literally. `SubjectPromptAsWritten`
 * passes it through `String.prototype.replace`'s `$` patterns, as the source
 * does; the two agree on every subject without a `$`.
 */
module PromptBuilder {
  import opened Wrappers
  import opened Text
  import opened SubjectPattern
  import Replacement

  /** The words that introduce the subject when the keywords have no replaceable subject. */
  const FallbackLead := " The scene should feature "

  /** The sentence appended for a batch of more than one image. */
  const DiversityInstruction :=
    "Create significantly different versions of this scene, exploring variations in color, lighting, and composition."

  /**
   * The keywords, a period if they do not already end with one, then a sentence
   * naming the subject.
   */
  function FallbackPrompt(keywords: string, subject: string): (r: string)
    ensures |r| >= |FallbackLead + subject + "."|
    ensures var tail := FallbackLead + subject + ".";
      var head := r[..|r| - |tail|];
      r[|r| - |tail|..] == tail &&
      EndsWith(head, ".") && (head == keywords || head == keywords + ".") &&
      (head == keywords <==> EndsWith(keywords, "."))
  {
    var tail := FallbackLead + subject + ".";
    var head := keywords + (if EndsWith(keywords, ".") then "" else ".");
    var r := head + tail;
    assert r[..|r| - |tail|] == head && r[|r| - |tail|..] == tail;
    assert !EndsWith(keywords, ".") ==> head[|head| - 1..] == ".";
    r
  }

  /** `s` with the text the match `m` covers replaced by `insert`. */
  function Splice(s: string, m: Match, insert: string): (r: string)
    requires IsMatch(s, m)
    ensures |r| == |s| - (m.End() - m.start) + |insert|
    ensures r[..m.start] == s[..m.start] && r[m.start..m.start + |insert|] == insert
    ensures r[m.start + |insert|..] == s[m.End()..]
  {
    var r := s[..m.start] + insert + s[m.End()..];
    assert r[..m.start] == s[..m.start];
    assert r[m.start..m.start + |insert|] == insert;
    assert r[m.start + |insert|..] == s[m.End()..];
    r
  }

  /** The prompt before the batch instruction, with the subject inserted literally. */
  function SubjectPrompt(keywords: string, subject: string): string
  {
    if subject == "" then keywords
    else
      match FindSubject(keywords)
      case Some(m) => Splice(keywords, m, Connectives[m.conn] + subject + Terminators[m.term])
      case None => FallbackPrompt(keywords, subject)
  }

  /**
   * The prompt before the batch instruction as the source computes it:
   * `keywords.replace(subjectRegex, "$1" + subject + "$3")`.
   */
  function SubjectPromptAsWritten(keywords: string, subject: string): string
  {
    if subject == "" then keywords
    else
      match FindSubject(keywords)
      case Some(m) =>
        var captures := [Connectives[m.conn], keywords[m.SubjectStart()..m.SubjectEnd()], Terminators[m.term]];
        var expanded := Replacement.Substitute("$1" + subject + "$3", keywords[m.start..m.End()], keywords[..m.start], keywords[m.End()..], captures);
        Splice(keywords, m, expanded)
      case None => FallbackPrompt(keywords, subject)
  }

  /** The batch instruction, appended as a new sentence when more than one image is requested. */
  function WithBatchInstruction(prompt: string, batchSize: int): string
  {
    if batchSize > 1 then prompt + (if EndsWith(prompt, ".") then " " else ". ") + DiversityInstruction
    else prompt
  }

  /** The prompt sent for background synthesis. */
  function BuildPrompt(keywords: string, subject: string, batchSize: int): (r: string)
    ensures subject == "" && batchSize <= 1 ==> r == keywords
    ensures StartsWithAt(r, 0, SubjectPrompt(keywords, subject))
  {
    var p := SubjectPrompt(keywords, subject);
    var r := WithBatchInstruction(p, batchSize);
    assert r[..|p|] == p;
    r
  }

  /** The prompt as the source builds it, `$` patterns in the subject included. */
  function BuildPromptAsWritten(keywords: string, subject: string, batchSize: int): string
  {
    WithBatchInstruction(SubjectPromptAsWritten(keywords, subject), batchSize)
  }

  /**
   * With a subject and a match of the pattern that no other match precedes,
   * the subject takes the place of the matched generic subject: the text
   * before the match, the connective and the terminator are kept, and so is
   * everything after the match, later matches included.
   */
  lemma ReplacesFirstMatch(keywords: string, subject: string, m: Match)
    requires subject != ""
    requires IsMatch(keywords, m)
    requires forall m' :: IsMatch(keywords, m') ==> !Before(m', m)
    ensures SubjectPrompt(keywords, subject)
      == keywords[..m.start] + Connectives[m.conn] + subject + Terminators[m.term] + keywords[m.End()..]
  {
    FirstMatchFound(keywords, m);
  }

  /**
   * With a subject and no match of the pattern anywhere in the keywords, the
   * keywords are kept whole and a sentence naming the subject follows (see
   * `FallbackPrompt`).
   */
  lemma AppendsWhenNoMatch(keywords: string, subject: string)
    requires subject != ""
    requires forall m :: !IsMatch(keywords, m)
    ensures SubjectPrompt(keywords, subject) == FallbackPrompt(keywords, subject)
  {
    assert FindSubject(keywords).None?;
  }

  /**
   * The batch instruction: nothing is added for one image; for more, the
   * prompt is kept and one sentence follows it, set off so that the text before
   * the instruction ends with a period and a space: one space is added after a
   * final period, ". " otherwise.
   */
  lemma BatchInstruction(prompt: string, batchSize: int)
    ensures batchSize <= 1 ==> WithBatchInstruction(prompt, batchSize) == prompt
    ensures batchSize > 1 ==>
      var r := WithBatchInstruction(prompt, batchSize);
      var head := r[..|r| - |DiversityInstruction|];
      |r| >= |prompt| + |DiversityInstruction| &&
      StartsWithAt(r, 0, prompt) && EndsWith(r, DiversityInstruction) &&
      EndsWith(head, ". ") && |head| == |prompt| + (if EndsWith(prompt, ".") then 1 else 2)
  {
    if batchSize > 1 {
      var sep := if EndsWith(prompt, ".") then " " else ". ";
      var r := prompt + sep + DiversityInstruction;
      assert r[..|prompt|] == prompt;
      assert r[|r| - |DiversityInstruction|..] == DiversityInstruction;
      var head := r[..|r| - |DiversityInstruction|];
      assert head == prompt + sep;
      if EndsWith(prompt, ".") {
        assert head[|head| - 2..] == prompt[|prompt| - 1..] + " ";
      } else {
        assert head[|head| - 2..] == ". ";
      }
    }
  }

  /** How many images beyond one are requested does not change the prompt. */
  lemma BatchSizeBeyondOneIrrelevant(keywords: string, subject: string, n1: int, n2: int)
    requires n1 > 1 && n2 > 1
    ensures BuildPrompt(keywords, subject, n1) == BuildPrompt(keywords, subject, n2)
  {
  }

  /** A non-empty custom subject always reaches the prompt, as typed. */
  lemma SubjectReachesPrompt(keywords: string, subject: string, batchSize: int)
    requires subject != ""
    ensures Contains(BuildPrompt(keywords, subject, batchSize), subject)
  {
    var p := SubjectPrompt(keywords, subject);
    var at := SubjectPosition(keywords, subject);
    var r := BuildPrompt(keywords, subject, batchSize);
    StartsWithInPrefix(r, p, at, subject);
    ContainsAt(r, subject, at);
  }

  /** Where the subject stands in `SubjectPrompt`. */
  lemma SubjectPosition(keywords: string, subject: string) returns (at: nat)
    requires subject != ""
    ensures StartsWithAt(SubjectPrompt(keywords, subject), at, subject)
  {
    var found := FindSubject(keywords);
    if found.Some? {
      var m := found.value;
      var insert := Connectives[m.conn] + subject + Terminators[m.term];
      assert SubjectPrompt(keywords, subject) == Splice(keywords, m, insert);
      at := SplicedSubjectAt(keywords, m, subject);
    } else {
      assert SubjectPrompt(keywords, subject) == FallbackPrompt(keywords, subject);
      at := AppendedSubjectAt(keywords, subject);
    }
  }

  /** Helper for `SubjectPosition`: the subject follows the connective in a spliced prompt. */
  lemma SplicedSubjectAt(keywords: string, m: Match, subject: string) returns (at: nat)
    requires IsMatch(keywords, m)
    ensures StartsWithAt(Splice(keywords, m, Connectives[m.conn] + subject + Terminators[m.term]), at, subject)
  {
    var c := Connectives[m.conn];
    var insert := c + subject + Terminators[m.term];
    var p := Splice(keywords, m, insert);
    at := m.start + |c|;
    assert insert[|c|..|c| + |subject|] == subject;
    assert p[at..at + |subject|] == p[m.start..m.start + |insert|][|c|..|c| + |subject|];
  }

  /** Helper for `SubjectPosition`: the subject follows the lead words in an appended sentence. */
  lemma AppendedSubjectAt(keywords: string, subject: string) returns (at: nat)
    ensures StartsWithAt(FallbackPrompt(keywords, subject), at, subject)
  {
    var r := FallbackPrompt(keywords, subject);
    var tail := FallbackLead + subject + ".";
    var head := r[..|r| - |tail|];
    assert r == head + tail;
    at := |head| + |FallbackLead|;
    assert r[at..at + |subject|] == tail[|FallbackLead|..|FallbackLead| + |subject|];
  }

  /** On a subject without `$`, the source's `replace` inserts it literally. */
  lemma AsWrittenAgrees(keywords: string, subject: string, batchSize: int)
    requires '$' !in subject
    ensures BuildPromptAsWritten(keywords, subject, batchSize) == BuildPrompt(keywords, subject, batchSize)
  {
    SubjectPromptAgrees(keywords, subject);
  }

  /** Helper for `AsWrittenAgrees`: the two agree before the batch instruction. */
  lemma SubjectPromptAgrees(keywords: string, subject: string)
    requires '$' !in subject
    ensures SubjectPromptAsWritten(keywords, subject) == SubjectPrompt(keywords, subject)
  {
    var found := FindSubject(keywords);
    if subject != "" && found.Some? {
      var m := found.value;
      var captures := [Connectives[m.conn], keywords[m.SubjectStart()..m.SubjectEnd()], Terminators[m.term]];
      var expanded := Replacement.Substitute("$1" + subject + "$3", keywords[m.start..m.End()], keywords[..m.start], keywords[m.End()..], captures);
      Replacement.GroupTemplate(subject, keywords[m.start..m.End()], keywords[..m.start], keywords[m.End()..], captures);
      assert expanded == Connectives[m.conn] + subject + Terminators[m.term];
    }
  }
}
