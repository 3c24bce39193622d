/**
 * The subject pattern and the prompt builder on the keywords of four of the
 * application's art styles. Each keyword text is written as the pieces the
 * pattern splits it into: the text before the match, the connective, the
 * generic subject, the terminator and the text after.
 */
module StyleExamples {
  import opened Wrappers
  import opened Text
  import opened SubjectPattern
  import opened PromptBuilder
  import Replacement

  const ImpressionismLead := "An impressionist painting"
  const ImpressionismSubject := "serene landscape"
  const ImpressionismRest := "soft focus and dappled light, visible brushstrokes. No people or animals."

  /** The keywords of the Impressionism style. */
  const Impressionism := ImpressionismLead + " of a " + ImpressionismSubject + " with " + ImpressionismRest

  const PostImpressionismLead := "A post-impressionist painting" + " in the style"
  const PostImpressionismSubject := "Van Gogh's Starry Night,"
  const PostImpressionismRest := "swirling clouds and a vibrant night sky."

  /** The keywords of the Post-Impressionism style. */
  const PostImpressionism := PostImpressionismLead + " of " + PostImpressionismSubject + " with " + PostImpressionismRest

  const UkiyoeLead := "A beautiful Japanese" + " ukiyo-e woodblock print"
  const UkiyoeSubject := "wave and Mount Fuji"
  const UkiyoeRest := "Hokusai."

  /** The keywords of the Ukiyo-e style. */
  const Ukiyoe := UkiyoeLead + " of a " + UkiyoeSubject + ", in the style of " + UkiyoeRest

  /** The keywords of the Expressionism style, which have no " of" anywhere. */
  const Expressionism :=
    "An expressionist" + " background with" + " bold, distorted" + " colors conveying" +
    " a strong emotional" + " intensity, inspired" + " by Edvard Munch."

  /** The pieces of a match are a match, at the index where the connective begins. */
  lemma PiecesMatch(lead: string, conn: nat, subject: string, term: nat, rest: string)
    requires conn < |Connectives| && term < |Terminators| && subject != []
    requires forall k :: 0 <= k < |subject| ==> !IsLineTerminator(subject[k])
    ensures IsMatch(lead + Connectives[conn] + subject + Terminators[term] + rest, Match(|lead|, conn, |subject|, term))
  {
    var c, t := Connectives[conn], Terminators[term];
    var s := lead + c + subject + t + rest;
    var m := Match(|lead|, conn, |subject|, term);
    assert s[|lead|..|lead| + |c|] == c;
    assert s[m.SubjectEnd()..m.SubjectEnd() + |t|] == t;
    forall k | m.SubjectStart() <= k < m.SubjectEnd()
      ensures !IsLineTerminator(s[k])
    {
      assert s[k] == subject[k - m.SubjectStart()];
    }
  }

  /** Joining two texts without " of" gives none, unless the first ends where one could begin. */
  lemma NoOfJoin(x: string, y: string)
    requires NoOfBefore(x, |x|) && NoOfBefore(y, |y|)
    requires x != [] && x[|x| - 1] != ' ' && x[|x| - 1] != 'o'
    ensures NoOfBefore(x + y, |x + y|)
  {
    var s := x + y;
    forall k | 0 <= k < |s| && k + 2 < |s|
      ensures !(s[k] == ' ' && s[k + 1] == 'o' && s[k + 2] == 'f')
    {
      if k + 2 < |x| {
        assert s[k] == x[k] && s[k + 1] == x[k + 1] && s[k + 2] == x[k + 2];
      } else if k >= |x| {
        assert s[k] == y[k - |x|] && s[k + 1] == y[k + 1 - |x|] && s[k + 2] == y[k + 2 - |x|];
      } else {
        assert s[|x| - 1] == x[|x| - 1];
      }
    }
  }

  /**
   * The first match of a text written as its pieces, from checks on the
   * pieces alone: no " of" in the lead, no earlier connective fitting the
   * connective and subject, no terminator able to begin inside the subject,
   * and no earlier terminator sharing the terminator's first character.
   */
  lemma FirstMatchOfPieces(lead: string, conn: nat, subject: string, term: nat, rest: string)
    requires conn < |Connectives| && term < |Terminators| && subject != []
    requires forall k :: 0 <= k < |subject| ==> !IsLineTerminator(subject[k])
    requires NoOfBefore(lead, |lead|)
    requires forall c :: 0 <= c < conn ==>
      |Connectives[c]| <= |Connectives[conn] + subject| && !StartsWithAt(Connectives[conn] + subject, 0, Connectives[c])
    requires forall q :: 0 < q < |subject| ==> !MayStartTerminator(subject + Terminators[term], q)
    requires forall t :: 0 <= t < term ==> Terminators[t][0] != Terminators[term][0]
    ensures FindSubject(lead + Connectives[conn] + subject + Terminators[term] + rest)
      == Some(Match(|lead|, conn, |subject|, term))
  {
    var s := lead + Connectives[conn] + subject + Terminators[term] + rest;
    var m := Match(|lead|, conn, |subject|, term);
    PiecesMatch(lead, conn, subject, term, rest);
    LeadHasNoOf(lead, conn, subject, term, rest);
    NoEarlierConnective(lead, conn, subject, term, rest);
    NoTerminatorInside(lead, conn, subject, term, rest);
    NoEarlierTerminator(lead, conn, subject, term, rest);
    FirstMatchByChars(s, m);
  }

  /** Helper for `FirstMatchOfPieces`: no " of" begins before the connective. */
  lemma LeadHasNoOf(lead: string, conn: nat, subject: string, term: nat, rest: string)
    requires conn < |Connectives| && term < |Terminators|
    requires NoOfBefore(lead, |lead|)
    ensures NoOfBefore(lead + Connectives[conn] + subject + Terminators[term] + rest, |lead|)
  {
    var c := Connectives[conn];
    var s := lead + c + subject + Terminators[term] + rest;
    forall k | 0 <= k < |lead| && k + 2 < |s|
      ensures !(s[k] == ' ' && s[k + 1] == 'o' && s[k + 2] == 'f')
    {
      assert s[|lead|] == c[0] && s[|lead| + 1] == c[1];
      if k + 2 < |lead| {
        assert s[k] == lead[k] && s[k + 1] == lead[k + 1] && s[k + 2] == lead[k + 2];
      }
    }
  }

  /** Helper for `FirstMatchOfPieces`: no earlier connective fits at the match. */
  lemma NoEarlierConnective(lead: string, conn: nat, subject: string, term: nat, rest: string)
    requires conn < |Connectives| && term < |Terminators|
    requires forall c :: 0 <= c < conn ==>
      |Connectives[c]| <= |Connectives[conn] + subject| && !StartsWithAt(Connectives[conn] + subject, 0, Connectives[c])
    ensures forall c :: 0 <= c < conn ==>
      !StartsWithAt(lead + Connectives[conn] + subject + Terminators[term] + rest, |lead|, Connectives[c])
  {
    var head := Connectives[conn] + subject;
    var s := lead + Connectives[conn] + subject + Terminators[term] + rest;
    forall c | 0 <= c < conn
      ensures !StartsWithAt(s, |lead|, Connectives[c])
    {
      var w := Connectives[c];
      assert s[|lead|..|lead| + |w|] == head[..|w|];
    }
  }

  /** Helper for `FirstMatchOfPieces`: no terminator begins inside the subject. */
  lemma NoTerminatorInside(lead: string, conn: nat, subject: string, term: nat, rest: string)
    requires conn < |Connectives| && term < |Terminators|
    requires forall q :: 0 < q < |subject| ==> !MayStartTerminator(subject + Terminators[term], q)
    ensures var b := |lead| + |Connectives[conn]|;
      forall q :: b < q < b + |subject| ==>
        !MayStartTerminator(lead + Connectives[conn] + subject + Terminators[term] + rest, q)
  {
    var t := Terminators[term];
    var s := lead + Connectives[conn] + subject + t + rest;
    var b := |lead| + |Connectives[conn]|;
    var u := subject + t;
    forall q | b < q < b + |subject|
      ensures !MayStartTerminator(s, q)
    {
      var i := q - b;
      assert !MayStartTerminator(u, i);
      assert s[q] == u[i] && s[q + 1] == u[i + 1];
      if i + 2 < |u| {
        assert s[q + 2] == u[i + 2];
      } else {
        assert |t| == 1;
        assert term == 5;
        assert u[i + 1] == '.';
      }
    }
  }

  /** Helper for `FirstMatchOfPieces`: no earlier terminator begins where the terminator does. */
  lemma NoEarlierTerminator(lead: string, conn: nat, subject: string, term: nat, rest: string)
    requires conn < |Connectives| && term < |Terminators|
    requires forall t :: 0 <= t < term ==> Terminators[t][0] != Terminators[term][0]
    ensures var e := |lead| + |Connectives[conn]| + |subject|;
      forall t :: 0 <= t < term ==>
        !StartsWithAt(lead + Connectives[conn] + subject + Terminators[term] + rest, e, Terminators[t])
  {
    var t0 := Terminators[term];
    var s := lead + Connectives[conn] + subject + t0 + rest;
    var e := |lead| + |Connectives[conn]| + |subject|;
    assert s[e] == t0[0];
    forall t | 0 <= t < term
      ensures !StartsWithAt(s, e, Terminators[t])
    {
      var w := Terminators[t];
      if e + |w| <= |s| {
        assert s[e..e + |w|][0] == s[e];
      }
    }
  }

  /** Where the first match is known, a custom subject takes the place of the generic one. */
  lemma PromptOfPieces(lead: string, conn: nat, generic: string, term: nat, rest: string, subject: string)
    requires conn < |Connectives| && term < |Terminators| && subject != ""
    requires FindSubject(lead + Connectives[conn] + generic + Terminators[term] + rest)
      == Some(Match(|lead|, conn, |generic|, term))
    ensures BuildPrompt(lead + Connectives[conn] + generic + Terminators[term] + rest, subject, 1)
      == lead + Connectives[conn] + subject + Terminators[term] + rest
  {
    var s := lead + Connectives[conn] + generic + Terminators[term] + rest;
    var m := Match(|lead|, conn, |generic|, term);
    ReplacesFirstMatch(s, subject, m);
    MatchSplitsText(s, m);
    assert s[..m.start] == lead;
    assert s[m.End()..] == rest;
    BatchInstruction(SubjectPrompt(s, subject), 1);
  }

  /** constants.ts:8: " of a " + "serene landscape" + " with " is the match. */
  lemma ImpressionismMatch()
    ensures FindSubject(Impressionism) == Some(Match(|ImpressionismLead|, 0, |ImpressionismSubject|, 0))
  {
    FirstMatchOfPieces(ImpressionismLead, 0, ImpressionismSubject, 0, ImpressionismRest);
  }

  /**
   * constants.ts:15: " of " + "Van Gogh's Starry Night," + " with " is the match:
   * " of a " and " of an " do not fit, and the comma before " with " is part of
   * the subject.
   */
  lemma PostImpressionismMatch()
    ensures FindSubject(PostImpressionism) == Some(Match(|PostImpressionismLead|, 2, |PostImpressionismSubject|, 0))
  {
    var head := Connectives[2] + PostImpressionismSubject;
    assert head[4] == 'V';
    assert !StartsWithAt(head, 0, Connectives[0]) by {
      assert Connectives[0][4] == 'a';
    }
    assert !StartsWithAt(head, 0, Connectives[1]) by {
      assert Connectives[1][4] == 'a';
    }
    NoOfJoin("A post-impressionist painting", " in the style");
    FirstMatchOfPieces(PostImpressionismLead, 2, PostImpressionismSubject, 0, PostImpressionismRest);
  }

  /**
   * constants.ts:71: " of a " + "wave and Mount Fuji" + ", in the style of " is
   * the match; the " and " inside the subject is no terminator, which needs a comma.
   */
  lemma UkiyoeMatch()
    ensures FindSubject(Ukiyoe) == Some(Match(|UkiyoeLead|, 0, |UkiyoeSubject|, 1))
  {
    NoOfJoin("A beautiful Japanese", " ukiyo-e woodblock print");
    FirstMatchOfPieces(UkiyoeLead, 0, UkiyoeSubject, 1, UkiyoeRest);
  }

  /** constants.ts:22: the pattern does not match. */
  lemma ExpressionismNoMatch()
    ensures FindSubject(Expressionism) == None
  {
    var p1, p2, p3, p4 := "An expressionist", " background with", " bold, distorted", " colors conveying";
    var p5, p6, p7 := " a strong emotional", " intensity, inspired", " by Edvard Munch.";
    NoOfJoin(p1, p2);
    NoOfJoin(p1 + p2, p3);
    NoOfJoin(p1 + p2 + p3, p4);
    NoOfJoin(p1 + p2 + p3 + p4, p5);
    NoOfJoin(p1 + p2 + p3 + p4 + p5, p6);
    NoOfJoin(p1 + p2 + p3 + p4 + p5 + p6, p7);
    NoMatchWithoutOf(Expressionism);
  }

  /** With the Impressionism keywords, a custom subject takes the place of "serene landscape". */
  lemma ImpressionismPrompt(subject: string)
    requires subject != ""
    ensures BuildPrompt(Impressionism, subject, 1) ==
      ImpressionismLead + " of a " + subject + " with " + ImpressionismRest
  {
    ImpressionismMatch();
    PromptOfPieces(ImpressionismLead, 0, ImpressionismSubject, 0, ImpressionismRest, subject);
  }

  /** With the Expressionism keywords, the subject is named in a sentence of its own. */
  lemma ExpressionismPrompt(subject: string)
    requires subject != ""
    ensures BuildPrompt(Expressionism, subject, 1) == Expressionism + " The scene should feature " + subject + "."
  {
    ExpressionismNoMatch();
    assert EndsWith(Expressionism, ".");
  }

  /**
   * A template with a forest as its generic subject: the connective " of a " is
   * kept, so a subject that brings its own article gets a second one.
   */
  lemma ForestPrompt()
    ensures BuildPrompt("A painting" + " of a " + "forest" + " with " + "autumn leaves.", "a lighthouse", 1)
      == "A painting" + " of a " + "a lighthouse" + " with " + "autumn leaves."
  {
    FirstMatchOfPieces("A painting", 0, "forest", 0, "autumn leaves.");
    PromptOfPieces("A painting", 0, "forest", 0, "autumn leaves.", "a lighthouse");
  }

  /** A template without a connective. */
  const SwirlingColors := "Abstract swirling" + " colors."

  /** The pattern does not match a template without " of". */
  lemma SwirlingColorsNoMatch()
    ensures FindSubject(SwirlingColors) == None
  {
    NoOfJoin("Abstract swirling", " colors.");
    NoMatchWithoutOf(SwirlingColors);
  }

  /** Without a match, the subject gets a sentence of its own after the period. */
  lemma NoConnectivePrompt()
    ensures BuildPrompt(SwirlingColors, "a cat", 1) == SwirlingColors + " The scene should feature " + "a cat" + "."
  {
    SwirlingColorsNoMatch();
    assert EndsWith(SwirlingColors, ".");
  }

  /**
   * The subject `$$` does not reach the prompt as typed: `replace` collapses it
   * to one `$`, while the prompt with the subject inserted literally keeps both.
   */
  lemma DollarSubjectAltered()
    ensures BuildPromptAsWritten(Impressionism, "$$", 1) == ImpressionismLead + " of a " + "$" + " with " + ImpressionismRest
    ensures BuildPrompt(Impressionism, "$$", 1) == ImpressionismLead + " of a " + "$$" + " with " + ImpressionismRest
  {
    DollarPromptAsWritten();
    ImpressionismPrompt("$$");
  }

  /** Helper for `DollarSubjectAltered`: the source's prompt. */
  lemma DollarPromptAsWritten()
    ensures BuildPromptAsWritten(Impressionism, "$$", 1) == ImpressionismLead + " of a " + "$" + " with " + ImpressionismRest
  {
    ImpressionismMatch();
    DollarPromptOfPieces(ImpressionismLead, 0, ImpressionismSubject, 0, ImpressionismRest, "$$");
    assert Connectives[0] + "$" + Terminators[0] == " of a " + "$" + " with ";
    assert ImpressionismLead + (" of a " + "$" + " with ") + ImpressionismRest
      == ImpressionismLead + " of a " + "$" + " with " + ImpressionismRest;
  }

  /**
   * Where the first match of a text built from pieces is known, the source's
   * one-image prompt for the subject `$$` has a single `$` in its place.
   */
  lemma DollarPromptOfPieces(lead: string, conn: nat, generic: string, term: nat, rest: string, dollars: string)
    requires conn < |Connectives| && term < |Terminators| && dollars == "$$"
    requires FindSubject(lead + Connectives[conn] + generic + Terminators[term] + rest)
      == Some(Match(|lead|, conn, |generic|, term))
    ensures BuildPromptAsWritten(lead + Connectives[conn] + generic + Terminators[term] + rest, dollars, 1)
      == lead + (Connectives[conn] + "$" + Terminators[term]) + rest
  {
    var s := lead + Connectives[conn] + generic + Terminators[term] + rest;
    DollarSubjectPromptOfPieces(lead, conn, generic, term, rest, dollars);
    BatchInstruction(SubjectPromptAsWritten(s, dollars), 1);
  }

  /** Helper for `DollarPromptOfPieces`: the prompt before any batch instruction. */
  lemma DollarSubjectPromptOfPieces(lead: string, conn: nat, generic: string, term: nat, rest: string, dollars: string)
    requires conn < |Connectives| && term < |Terminators| && dollars == "$$"
    requires FindSubject(lead + Connectives[conn] + generic + Terminators[term] + rest)
      == Some(Match(|lead|, conn, |generic|, term))
    ensures SubjectPromptAsWritten(lead + Connectives[conn] + generic + Terminators[term] + rest, dollars)
      == lead + (Connectives[conn] + "$" + Terminators[term]) + rest
  {
    var s := lead + Connectives[conn] + generic + Terminators[term] + rest;
    var m := Match(|lead|, conn, |generic|, term);
    DollarSplice(s, m, dollars);
    SpliceOfPieces(lead, conn, generic, term, rest, Connectives[conn] + "$" + Terminators[term]);
  }

  /** The source's prompt for the subject `$$` splices connective, one `$` and terminator into the match. */
  lemma DollarSplice(s: string, m: Match, dollars: string)
    requires FindSubject(s) == Some(m) && dollars == "$$"
    ensures IsMatch(s, m)
    ensures SubjectPromptAsWritten(s, dollars) == Splice(s, m, Connectives[m.conn] + "$" + Terminators[m.term])
  {
    var captures := [Connectives[m.conn], s[m.SubjectStart()..m.SubjectEnd()], Terminators[m.term]];
    Replacement.DollarCollapses(s[m.start..m.End()], s[..m.start], s[m.End()..], captures);
  }

  /** Splicing the match of a text built from pieces keeps the lead and the rest. */
  lemma SpliceOfPieces(lead: string, conn: nat, generic: string, term: nat, rest: string, insert: string)
    requires conn < |Connectives| && term < |Terminators|
    requires IsMatch(lead + Connectives[conn] + generic + Terminators[term] + rest, Match(|lead|, conn, |generic|, term))
    ensures Splice(lead + Connectives[conn] + generic + Terminators[term] + rest, Match(|lead|, conn, |generic|, term), insert)
      == lead + insert + rest
  {
    var s := lead + Connectives[conn] + generic + Terminators[term] + rest;
    var m := Match(|lead|, conn, |generic|, term);
    var p := Splice(s, m, insert);
    assert s[..m.start] == lead;
    assert s[m.End()..] == rest;
    assert p == p[..m.start] + p[m.start..m.start + |insert|] + p[m.start + |insert|..];
  }
}
