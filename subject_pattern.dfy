/**
 * The regular expression that finds a generic subject in a style's keywords,
 *
 *     /( of a | of an | of )(.+?)( with |, in the style of |, featuring |, and |, composed of|\.)/
 *
 * written out as the search an ECMAScript regular-expression engine performs
 * (no flags): start positions are tried from left to right; at each start the
 * three connectives are tried in the order written; the lazy group takes one
 * character, then one more at a time, never a line terminator; after each
 * length the six terminators are tried in the order written; the first
 * combination that succeeds is the match.
 *
 * `IsMatch` and `Before` say declaratively what a match is and in which order
 * the engine meets them; `FindSubject` is the search, and its contract says it
 * returns exactly the first match in that order.
 */
module SubjectPattern {
  import opened Wrappers
  import opened Text

  /** Alternatives of the first group, in the order written. */
  const Connectives: seq<string> := [" of a ", " of an ", " of "]

  /** Alternatives of the third group, in the order written (" with " has no comma, ", composed of" no trailing space). */
  const Terminators: seq<string> := [" with ", ", in the style of ", ", featuring ", ", and ", ", composed of", "."]

  /**
   * One way for the pattern to match: the index where the match starts, the
   * connective taken (an index into `Connectives`), the number of characters
   * the lazy subject group takes, and the terminator taken (an index into
   * `Terminators`).
   */
  datatype Match = Match(start: nat, conn: nat, len: nat, term: nat)
  {
    predicate WellFormed()
    {
      conn < |Connectives| && term < |Terminators|
    }

    /** Where the subject group (`$2`) begins. */
    function SubjectStart(): nat
      requires WellFormed()
    {
      start + |Connectives[conn]|
    }

    /** Where the subject group ends and the terminator (`$3`) begins. */
    function SubjectEnd(): nat
      requires WellFormed()
    {
      SubjectStart() + len
    }

    /** One past the last character of the whole match. */
    function End(): nat
      requires WellFormed()
    {
      SubjectEnd() + |Terminators[term]|
    }
  }

  /** `m` is a match of the pattern in `s`. */
  predicate IsMatch(s: string, m: Match)
  {
    m.WellFormed() && 1 <= m.len &&
    StartsWithAt(s, m.start, Connectives[m.conn]) &&
    StartsWithAt(s, m.SubjectEnd(), Terminators[m.term]) &&
    forall k :: m.SubjectStart() <= k < m.SubjectEnd() ==> !IsLineTerminator(s[k])
  }

  /**
   * The order in which the backtracking engine meets candidate matches: by
   * start, then connective in written order, then subject length (lazy:
   * shortest first), then terminator in written order.
   */
  predicate Before(a: Match, b: Match)
  {
    a.start < b.start ||
    (a.start == b.start && (a.conn < b.conn ||
    (a.conn == b.conn && (a.len < b.len ||
    (a.len == b.len && a.term < b.term)))))
  }

  /** Two different candidates are always ordered one way or the other. */
  lemma BeforeTotal(a: Match, b: Match)
    ensures a == b || Before(a, b) || Before(b, a)
  {
  }

  /** The first terminator, from index `t` of `Terminators` on, that occurs at `q`. */
  function TerminatorAt(s: string, q: nat, t: nat): (r: Option<nat>)
    decreases |Terminators| - t
    ensures r.Some? ==> t <= r.value < |Terminators| && StartsWithAt(s, q, Terminators[r.value])
    ensures forall u :: t <= u < |Terminators| && StartsWithAt(s, q, Terminators[u]) ==> r.Some? && r.value <= u
  {
    if t >= |Terminators| then None
    else if StartsWithAt(s, q, Terminators[t]) then Some(t)
    else TerminatorAt(s, q, t + 1)
  }

  /**
   * The lazy group `(.+?)` after connective `conn` at `start`, trying subject
   * lengths from `len` upwards; the characters before the last one of the
   * current length have already been accepted by `.`.
   */
  function LazySubject(s: string, start: nat, conn: nat, len: nat): (r: Option<Match>)
    requires conn < |Connectives| && 1 <= len
    requires StartsWithAt(s, start, Connectives[conn])
    requires forall k :: start + |Connectives[conn]| <= k < start + |Connectives[conn]| + len - 1 ==>
               k < |s| && !IsLineTerminator(s[k])
    decreases |s| - len
    ensures r.Some? ==> IsMatch(s, r.value) && r.value.start == start && r.value.conn == conn && len <= r.value.len
    ensures forall m :: IsMatch(s, m) && m.start == start && m.conn == conn && len <= m.len ==>
              r.Some? && !Before(m, r.value)
  {
    var b := start + |Connectives[conn]|;
    if b + len > |s| || IsLineTerminator(s[b + len - 1]) then
      NoSubjectFrom(s, start, conn, len);
      None
    else
      match TerminatorAt(s, b + len, 0)
      case Some(t) =>
        TerminatedSubject(s, start, conn, len, t);
        Some(Match(start, conn, len, t))
      case None =>
        UnterminatedSubject(s, start, conn, len);
        LazySubject(s, start, conn, len + 1)
  }

  /**
   * A subject of length `len` that `.` accepts, followed by terminator `t`
   * and by none written before it, is the best match of that length or longer.
   */
  lemma TerminatedSubject(s: string, start: nat, conn: nat, len: nat, t: nat)
    requires conn < |Connectives| && 1 <= len
    requires StartsWithAt(s, start, Connectives[conn])
    requires forall k :: start + |Connectives[conn]| <= k < start + |Connectives[conn]| + len ==>
               k < |s| && !IsLineTerminator(s[k])
    requires t < |Terminators| && StartsWithAt(s, start + |Connectives[conn]| + len, Terminators[t])
    requires forall u :: 0 <= u < |Terminators| && StartsWithAt(s, start + |Connectives[conn]| + len, Terminators[u]) ==> t <= u
    ensures IsMatch(s, Match(start, conn, len, t))
    ensures forall m :: IsMatch(s, m) && m.start == start && m.conn == conn && len <= m.len ==>
              !Before(m, Match(start, conn, len, t))
  {
    var found := Match(start, conn, len, t);
    assert found.SubjectEnd() == start + |Connectives[conn]| + len;
    forall m | IsMatch(s, m) && m.start == start && m.conn == conn && m.len == len
      ensures t <= m.term
    {
      assert m.SubjectEnd() == found.SubjectEnd();
    }
  }

  /** When no terminator follows a subject of length `len`, no match has that length. */
  lemma UnterminatedSubject(s: string, start: nat, conn: nat, len: nat)
    requires conn < |Connectives|
    requires forall u :: 0 <= u < |Terminators| ==> !StartsWithAt(s, start + |Connectives[conn]| + len, Terminators[u])
    ensures forall m :: IsMatch(s, m) && m.start == start && m.conn == conn ==> m.len != len
  {
    forall m | IsMatch(s, m) && m.start == start && m.conn == conn
      ensures m.len != len
    {
      assert m.SubjectEnd() == start + |Connectives[conn]| + m.len;
    }
  }

  /** Once the subject would run past the end of `s` or over a line terminator, no longer subject can match. */
  lemma NoSubjectFrom(s: string, start: nat, conn: nat, len: nat)
    requires conn < |Connectives| && 1 <= len
    requires var b := start + |Connectives[conn]|; b + len > |s| || IsLineTerminator(s[b + len - 1])
    ensures forall m :: IsMatch(s, m) && m.start == start && m.conn == conn ==> m.len < len
  {
    var b := start + |Connectives[conn]|;
    forall m | IsMatch(s, m) && m.start == start && m.conn == conn
      ensures m.len < len
    {
    }
  }

  /** The connectives from index `conn` on, each followed by the lazy group, at `start`. */
  function ConnectiveAt(s: string, start: nat, conn: nat): (r: Option<Match>)
    decreases |Connectives| - conn
    ensures r.Some? ==> IsMatch(s, r.value) && r.value.start == start && conn <= r.value.conn
    ensures forall m :: IsMatch(s, m) && m.start == start && conn <= m.conn ==> r.Some? && !Before(m, r.value)
  {
    if conn >= |Connectives| then None
    else if !StartsWithAt(s, start, Connectives[conn]) then ConnectiveAt(s, start, conn + 1)
    else
      match LazySubject(s, start, conn, 1)
      case Some(m) => Some(m)
      case None => ConnectiveAt(s, start, conn + 1)
  }

  /** The engine's outer loop: try every start position from `start` to the end of `s`. */
  function SearchFrom(s: string, start: nat): (r: Option<Match>)
    requires start <= |s|
    decreases |s| - start
    ensures r.Some? ==> IsMatch(s, r.value) && start <= r.value.start
    ensures forall m :: IsMatch(s, m) && start <= m.start ==> r.Some? && !Before(m, r.value)
  {
    match ConnectiveAt(s, start, 0)
    case Some(m) => Some(m)
    case None => if start == |s| then None else SearchFrom(s, start + 1)
  }

  /**
   * `subjectRegex.test(s)` and the match `s.replace(subjectRegex, …)` replaces:
   * there is a result exactly when the pattern matches somewhere, and the
   * result is a match that no other match comes before.
   */
  function FindSubject(s: string): (r: Option<Match>)
    ensures r.Some? <==> exists m :: IsMatch(s, m)
    ensures r.Some? ==> IsMatch(s, r.value) && forall m :: IsMatch(s, m) ==> !Before(m, r.value)
  {
    SearchFrom(s, 0)
  }

  /** The match found is the unique first one: any match that nothing precedes is it. */
  lemma FirstMatchFound(s: string, m: Match)
    requires IsMatch(s, m)
    requires forall m' :: IsMatch(s, m') ==> !Before(m', m)
    ensures FindSubject(s) == Some(m)
  {
    var f := FindSubject(s).value;
    BeforeTotal(f, m);
  }

  /** The text before a match and after it is outside the pattern's reach. */
  lemma MatchSplitsText(s: string, m: Match)
    requires IsMatch(s, m)
    ensures m.End() <= |s|
    ensures s == s[..m.start] + Connectives[m.conn] + s[m.SubjectStart()..m.SubjectEnd()] + Terminators[m.term] + s[m.End()..]
  {
  }

  /** No " of" begins at any index below `bound`. */
  predicate NoOfBefore(s: string, bound: nat)
  {
    forall k :: 0 <= k < bound && k + 2 < |s| ==> !(s[k] == ' ' && s[k + 1] == 'o' && s[k + 2] == 'f')
  }

  /** Every connective begins with " of", so every match does. */
  lemma MatchBeginsWithOf(s: string, m: Match)
    requires IsMatch(s, m)
    ensures m.start + 2 < |s| && s[m.start] == ' ' && s[m.start + 1] == 'o' && s[m.start + 2] == 'f'
  {
    var c := Connectives[m.conn];
    assert s[m.start..m.start + |c|] == c;
    assert s[m.start] == c[0] && s[m.start + 1] == c[1] && s[m.start + 2] == c[2];
  }

  /**
   * The characters at `q` could begin a terminator: a period, a space before a
   * `w`, or a comma and a space before an `i`, `f`, `a` or `c`.
   */
  predicate MayStartTerminator(s: string, q: nat)
  {
    q < |s| &&
    (s[q] == '.' ||
     (s[q] == ' ' && q + 1 < |s| && s[q + 1] == 'w') ||
     (s[q] == ',' && q + 2 < |s| && s[q + 1] == ' ' &&
      (s[q + 2] == 'i' || s[q + 2] == 'f' || s[q + 2] == 'a' || s[q + 2] == 'c')))
  }

  /** A terminator can only occur where `MayStartTerminator` holds. */
  lemma TerminatorStart(s: string, q: nat, t: nat)
    requires t < |Terminators| && StartsWithAt(s, q, Terminators[t])
    ensures MayStartTerminator(s, q)
  {
    var w := Terminators[t];
    assert s[q..q + |w|] == w;
    assert s[q] == w[0];
    if |w| > 1 {
      assert s[q + 1] == w[1];
    }
    if |w| > 2 {
      assert s[q + 2] == w[2];
    }
  }

  /**
   * A match is the one found when a character check rules out everything the
   * engine tries before it: no " of" earlier, no earlier connective at its
   * start, no terminator inside its subject, and no earlier terminator after it.
   */
  lemma FirstMatchByChars(s: string, m: Match)
    requires IsMatch(s, m)
    requires NoOfBefore(s, m.start)
    requires forall c :: 0 <= c < m.conn ==> !StartsWithAt(s, m.start, Connectives[c])
    requires forall q :: m.SubjectStart() < q < m.SubjectEnd() ==> !MayStartTerminator(s, q)
    requires forall t :: 0 <= t < m.term ==> !StartsWithAt(s, m.SubjectEnd(), Terminators[t])
    ensures FindSubject(s) == Some(m)
  {
    forall m' | IsMatch(s, m')
      ensures !Before(m', m)
    {
      MatchBeginsWithOf(s, m');
      TerminatorStart(s, m'.SubjectEnd(), m'.term);
    }
    FirstMatchFound(s, m);
  }

  /** Without a " of" anywhere, the pattern does not match. */
  lemma NoMatchWithoutOf(s: string)
    requires NoOfBefore(s, |s|)
    ensures FindSubject(s) == None
  {
    forall m | IsMatch(s, m)
      ensures false
    {
      MatchBeginsWithOf(s, m);
    }
  }
}
